/** The persisted form of an execution result. */
module ResultCodec {
  import opened Base
  import opened Types
  import opened ReservationCodec
  import opened WorkflowStore

  datatype PersistedResult = PersistedResult(businessKey: string, effect: WriteEffect, completedAt: TimeText)

  /** `persistedExecutionResultToV1`. */
  function ResultToV1(r: ExecutionResult): Option<PersistedResult> {
    if ValidResult(r) && Trimmed(r.businessKey) then Some(PersistedResult(r.businessKey, r.effect, FormatTime(r.completedAt)))
    else None
  }

  /** `persistedExecutionResultFromV1`. */
  function ResultFromV1(dto: PersistedResult): Option<ExecutionResult> {
    match ParseTime(dto.completedAt)
    case None => None
    case Some(completedAt) =>
      var r := ExecutionResult(dto.businessKey, dto.effect, completedAt);
      if ResultToV1(r).Some? then Some(r) else None
  }

  /** Exactly what encodes decodes, to itself: unlike a reservation, a result keeps its time to the nanosecond. */
  lemma ResultRoundTrip(r: ExecutionResult, dto: PersistedResult)
    ensures ResultToV1(r) == Some(dto) <==> ResultFromV1(dto) == Some(r)
  {
  }
}
