/** The database row of a workflow: what its execution columns may say, and how each conditional update refines the store's operation. */
module DatabaseRows {
  import opened Base
  import opened Types
  import opened ReservationCodec
  import opened ResultCodec
  import opened SnapshotCodec
  import opened WorkflowStore
  import Protocol
  import opened ProtocolSafety
  import opened ShadowStore

  const CODEC: nat := 1

  datatype RowStatus = Idle | Active(status: ExecutionStatus) | UnknownStatus

  /** The nullable columns of an execution. */
  datatype Columns = Columns(
    status: RowStatus, token: Option<string>, operation: Option<Operation>, businessKey: Option<string>, requestID: Option<string>,
    requestSchema: Option<nat>, request: Option<PersistedReservation>,
    resultSchema: Option<nat>, result: Option<PersistedResult>, effect: Option<WriteEffect>, lease: Option<Time>)

  const NO_AUTHORITY: Columns := Columns(Idle, None, None, None, None, None, None, None, None, None, None)

  // ---- reading the columns ---------------------------------------------------------------

  predicate ReservationComplete(c: Columns) {
    && c.token.Some? && c.operation.Some? && c.businessKey.Some? && c.requestID.Some? && c.requestSchema.Some?
    && c.request.Some? && c.lease.Some?
  }

  predicate HasResult(c: Columns) { c.resultSchema.Some? || c.result.Some? || c.effect.Some? }

  /** The reservation, if every projected column agrees with the stored request. */
  function DecodeReservation(c: Columns): Option<Reservation> {
    if !ReservationComplete(c) || c.requestSchema.value != CODEC then None
    else match FromV1(c.request.value)
      case None => None
      case Some(r) =>
        if r.token == c.token.value && r.operation == c.operation.value && r.businessKey == c.businessKey.value
           && r.attemptID == c.requestID.value && r.leaseExpiresAt == Truncate(c.lease.value)
        then Some(r) else None
  }

  /** The result, if all three of its columns are there and agree. */
  function DecodeResult(c: Columns): Option<ExecutionResult> {
    if c.resultSchema != Some(CODEC) || c.result.None? || c.effect.None? then None
    else match ResultFromV1(c.result.value)
      case None => None
      case Some(r) => if Some(r.businessKey) == c.businessKey && Some(r.effect) == c.effect then Some(r) else None
  }

  datatype Decoded = Refused | NoExecution | Is(execution: Execution)

  /** `decodeExecution`. */
  function DecodeExecution(c: Columns): Decoded {
    match c.status
    case UnknownStatus => Refused
    case Idle => if c == NO_AUTHORITY then NoExecution else Refused
    case Active(status) =>
      match DecodeReservation(c)
      case None => Refused
      case Some(r) =>
        if status == Executing && HasResult(c) then Refused
        else if status == ResultRecorded && !HasResult(c) then Refused
        else if !HasResult(c) then Is(Execution(status, r, None))
        else match DecodeResult(c)
          case None => Refused
          case Some(result) => Is(Execution(status, r, Some(result)))
  }

  /** Whatever is in the columns, an accepted execution is coherent: an executing one has no result, a recorded one has, the result is that of the reserved business action, and the reservation is in normal form. */
  lemma AcceptedExecutionsAreCoherent(c: Columns)
    requires DecodeExecution(c).Is?
    ensures var e := DecodeExecution(c).execution;
            && c.status == Active(e.status)
            && (e.status == Executing ==> e.result.None?)
            && (e.status == ResultRecorded ==> e.result.Some?)
            && (e.result.Some? ==> e.result.value.businessKey == e.reservation.businessKey && ValidResult(e.result.value))
            && ToV1(e.reservation).Some?
            && c.token == Some(e.reservation.token) && c.businessKey == Some(e.reservation.businessKey)
  {
  }

  // ---- writing the columns -----------------------------------------------------------------

  /** `encodeRepositoryReservation`: the columns of a reservation, or nothing if it does not survive the codec. */
  function ReservationColumns(status: ExecutionStatus, r: Reservation): Option<Columns> {
    match ToV1(r)
    case None => None
    case Some(dto) =>
      match FromV1(dto)
      case None => None
      case Some(n) => Some(Columns(
        Active(status), Some(n.token), Some(n.operation), Some(n.businessKey), Some(n.attemptID), Some(CODEC), Some(dto),
        None, None, None, Some(n.leaseExpiresAt)))
  }

  lemma ReservedColumnsDecode(status: ExecutionStatus, r: Reservation)
    requires status != ResultRecorded
    ensures ReservationColumns(status, r).Some? <==> Canonical(r).Some?
    ensures Canonical(r).Some? ==>
              DecodeExecution(ReservationColumns(status, r).value) == Is(Execution(status, Canonical(r).value, None))
  {
  }

  // ---- the conditional updates -----------------------------------------------------------------

  /** A row under one key, without its snapshot. */
  datatype Row = Row(version: nat, columns: Columns)

  /** `ReserveExecution`: only an idle row at the expected version. */
  function ReserveRow(row: Row, expected: nat, r: Reservation): Option<Row> {
    match ReservationColumns(Executing, r)
    case None => None
    case Some(columns) =>
      if expected == 0 || row.version != expected || row.columns != NO_AUTHORITY then None else Some(Row(row.version + 1, columns))
  }

  /** `RecordExecutionResult`: only an executing row, under its token and business key. */
  function RecordRow(row: Row, expected: nat, token: string, result: ExecutionResult): Option<Row> {
    var c := row.columns;
    match ResultToV1(result)
    case None => None
    case Some(dto) =>
      if expected == 0 || Trim(token) == "" || row.version != expected || c.status != Active(Executing) || c.token != Some(token)
         || c.businessKey != Some(result.businessKey) || c.lease.None? || c.requestSchema.None? || c.request.None? then None
      else Some(Row(row.version + 1, c.(
        status := Active(ResultRecorded), resultSchema := Some(CODEC), result := Some(dto), effect := Some(result.effect))))
  }

  /** `TakeoverExpiredExecution`: only an unconcluded row whose lease column has passed; the result columns are cleared. */
  function TakeoverRow(row: Row, expected: nat, token: string, now: Time, successor: Reservation): Option<Row> {
    var c := row.columns;
    match ReservationColumns(Executing, successor)
    case None => None
    case Some(columns) =>
      if expected == 0 || Trim(token) == "" || now == 0 || row.version != expected || c.token != Some(token)
         || c.status !in {Active(Executing), Active(RecoveryRequired)}
         || c.operation != columns.operation || c.businessKey != columns.businessKey
         || c.requestSchema.None? || c.request.None? || c.lease.None? || c.lease.value > now then None
      else Some(Row(row.version + 1, columns))
  }

  /** `MarkExecutionRecoveryRequired`: only the status and the lease column change, not the stored request. */
  function MarkRow(row: Row, expected: nat, token: string, retryAt: Time): Option<Row> {
    var c := row.columns;
    if expected == 0 || Trim(token) == "" || retryAt == 0 || row.version != expected || c.token != Some(token)
       || c.status != Active(Executing) then None
    else Some(Row(row.version + 1, c.(status := Active(RecoveryRequired), lease := Some(retryAt))))
  }

  /** `FinalizeExecution` and `DeleteReservedExecution`: only a recorded row, under its token. */
  predicate ReleasableRow(row: Row, expected: nat, token: string) {
    && expected != 0 && Trim(token) != "" && row.version == expected && row.columns.token == Some(token)
    && row.columns.status == Active(ResultRecorded) && row.columns.resultSchema.Some? && row.columns.result.Some?
  }

  // ---- refinement --------------------------------------------------------------------------------

  /** The row says what the store's record says about version and execution. */
  predicate Represents(row: Row, record: VersionedWorkflow) {
    && row.version == record.version && row.version >= 1
    && DecodeExecution(row.columns) == (match record.execution case None => NoExecution case Some(e) => Is(e))
  }

  lemma ReserveRefines(row: Row, s: Store, key: WorkflowKey, expected: nat, next: WorkflowSnapshot, r: Reservation, now: Time)
    requires key in s && Represents(row, s[key]) && Purge(s, key, now) == s
    ensures ReserveRow(row, expected, r).Some? <==> ApplyTo(s, key, Reserve(expected, Some(next), r), now).1.Ok?
    ensures ReserveRow(row, expected, r).Some? ==>
              Represents(ReserveRow(row, expected, r).value, ApplyTo(s, key, Reserve(expected, Some(next), r), now).0[key])
  {
  }

  /** A token that matches the row is the trimmed one the store keeps. */
  lemma MatchingTokenIsTrimmed(row: Row, s: Store, key: WorkflowKey, token: string)
    requires key in s && Represents(row, s[key]) && StoreInv(s) && row.columns.token == Some(token) && row.columns.status.Active?
    ensures HasExecution(s, key) && TokenAt(s, key) == token && Trim(token) == token && token != ""
    ensures row.columns.status == Active(ExecutionAt(s, key).status)
  {
    AcceptedExecutionsAreCoherent(row.columns);
    assert RecordInv(key, s[key]);
    TrimIsTrimmed(token);
  }

  /** What the database checks beyond the store: the execution is still executing, token and business key are given trimmed. */
  predicate RecordsOnce(e: Execution, token: string, result: ExecutionResult) {
    e.status == Executing && Trimmed(token) && Trimmed(result.businessKey)
  }

  /** The database accepts exactly the results the store accepts onto an execution that is still executing, given with a trimmed token and business key; the outcome is then the same. */
  lemma RecordRefines(row: Row, s: Store, key: WorkflowKey, expected: nat, token: string, result: ExecutionResult, now: Time)
    requires key in s && Represents(row, s[key]) && StoreInv(s)
    ensures var (next, reply) := RecordResultIn(s, key, expected, token, result, now);
            && (RecordRow(row, expected, token, result).Some?
                <==> reply.Ok? && HasExecution(s, key) && RecordsOnce(ExecutionAt(s, key), token, result))
            && (RecordRow(row, expected, token, result).Some? ==>
                  key in next && Represents(RecordRow(row, expected, token, result).value, next[key]))
  {
    if RecordRow(row, expected, token, result).Some? {
      AcceptedRecordRefines(row, s, key, expected, token, result, now);
    } else if RecordResultIn(s, key, expected, token, result, now).1.Ok? && RecordsOnce(ExecutionAt(s, key), token, result) {
      RowAcceptsRecord(row, s, key, expected, token, result, now);
    }
  }

  lemma RowAcceptsRecord(row: Row, s: Store, key: WorkflowKey, expected: nat, token: string, result: ExecutionResult, now: Time)
    requires key in s && Represents(row, s[key])
    requires RecordResultIn(s, key, expected, token, result, now).1.Ok? && RecordsOnce(ExecutionAt(s, key), token, result)
    ensures RecordRow(row, expected, token, result).Some?
  {
    AcceptedExecutionsAreCoherent(row.columns);
    TrimIsTrimmed(token);
    TrimIsTrimmed(result.businessKey);
  }

  /** The store lets a token record again, the database does not: onto a recorded row, at its version and under its token, every valid result for its business key is refused by the one and accepted by the other. */
  lemma OnlyTheStoreRecordsAgain(row: Row, s: Store, key: WorkflowKey, result: ExecutionResult, now: Time)
    requires key in s && Represents(row, s[key]) && StoreInv(s) && HasExecution(s, key)
    requires ExecutionAt(s, key).status == ResultRecorded && ValidResult(result)
    requires result.businessKey == ExecutionAt(s, key).reservation.businessKey
    ensures RecordRow(row, row.version, TokenAt(s, key), result).None?
    ensures RecordResultIn(s, key, row.version, TokenAt(s, key), result, now).1.Ok?
  {
    AcceptedExecutionsAreCoherent(row.columns);
    assert RecordInv(key, s[key]);
    TrimIsTrimmed(TokenAt(s, key));
    TrimIsTrimmed(result.businessKey);
  }

  lemma AcceptedRecordRefines(row: Row, s: Store, key: WorkflowKey, expected: nat, token: string, result: ExecutionResult, now: Time)
    requires key in s && Represents(row, s[key]) && StoreInv(s)
    requires RecordRow(row, expected, token, result).Some?
    ensures var (next, reply) := RecordResultIn(s, key, expected, token, result, now);
            && reply.Ok? && HasExecution(s, key) && RecordsOnce(ExecutionAt(s, key), token, result)
            && key in next && Represents(RecordRow(row, expected, token, result).value, next[key])
  {
    var row' := RecordRow(row, expected, token, result).value;
    AcceptedExecutionsAreCoherent(row.columns);
    MatchingTokenIsTrimmed(row, s, key, token);
    TrimIsTrimmed(result.businessKey);
    ResultRoundTrip(result, row'.columns.result.value);
    assert DecodeReservation(row'.columns) == DecodeReservation(row.columns);
    assert DecodeResult(row'.columns) == Some(result);
  }

  /** A takeover the database accepts the store accepts exactly when it brings another token than the one it presents, which only the store checks; the outcome is then the same. */
  lemma TakeoverRefines(row: Row, s: Store, key: WorkflowKey, expected: nat, token: string, successor: Reservation, now: Time)
    requires key in s && Represents(row, s[key]) && StoreInv(s)
    requires TakeoverRow(row, expected, token, now, successor).Some?
    ensures var (next, reply) := TakeoverIn(s, key, expected, token, successor, now);
            && (reply.Ok? <==> token != successor.token)
            && (reply.Ok? ==> key in next && Represents(TakeoverRow(row, expected, token, now, successor).value, next[key]))
  {
    TakeoverRowMatches(row, s, key, expected, token, successor, now);
    ReservedColumnsDecode(Executing, successor);
    CanonicalIsANormalizer(successor);
    if token != successor.token { SupersedeMoves(s, key, expected, token, Canonical(successor).value, now); }
  }

  /** The failing family: any successor under the old token that the row accepts, the store refuses for its token. */
  lemma ReusedTokenIsRefused(row: Row, s: Store, key: WorkflowKey, expected: nat, token: string, successor: Reservation, now: Time)
    requires key in s && Represents(row, s[key]) && StoreInv(s)
    requires TakeoverRow(row, expected, token, now, successor).Some? && successor.token == token
    ensures TakeoverIn(s, key, expected, token, successor, now) == (s, Failed(SameToken))
  {
    TakeoverRowMatches(row, s, key, expected, token, successor, now);
    ReservedColumnsDecode(Executing, successor);
    CanonicalIsANormalizer(successor);
  }

  /** What the conditional update has checked, in the store's terms. */
  lemma TakeoverRowMatches(row: Row, s: Store, key: WorkflowKey, expected: nat, token: string, successor: Reservation, now: Time)
    requires key in s && Represents(row, s[key]) && StoreInv(s)
    requires TakeoverRow(row, expected, token, now, successor).Some?
    ensures Trim(token) == token && Fenced(s, key, expected, token) && Canonical(successor).Some?
    ensures var e := ExecutionAt(s, key);
            && e.result.None? && e.reservation.leaseExpiresAt <= now
            && e.reservation.operation == Canonical(successor).value.operation
            && e.reservation.businessKey == Canonical(successor).value.businessKey
  {
    AcceptedExecutionsAreCoherent(row.columns);
    MatchingTokenIsTrimmed(row, s, key, token);
    ReservedColumnsDecode(Executing, successor);
    assert RecordInv(key, s[key]);
  }

  /** A row can be released exactly when the store would release the record and the token is given trimmed. */
  lemma ReleaseRefines(row: Row, s: Store, key: WorkflowKey, expected: nat, token: string, now: Time)
    requires key in s && Represents(row, s[key]) && StoreInv(s) && Purge(s, key, now) == s
    ensures ReleasableRow(row, expected, token) <==> DeleteReservedIn(s, key, expected, token, now).1.Ok? && Trimmed(token)
  {
    TrimIsTrimmed(token);
    if ReleasableRow(row, expected, token) { ReleasableIsRecorded(row, s, key, expected, token); }
    if Fenced(s, key, expected, token) && Recorded(ExecutionAt(s, key)) && Trimmed(token) { RecordedIsReleasable(row, s, key, expected, token); }
  }

  lemma ReleasableIsRecorded(row: Row, s: Store, key: WorkflowKey, expected: nat, token: string)
    requires key in s && Represents(row, s[key]) && StoreInv(s) && ReleasableRow(row, expected, token)
    ensures Fenced(s, key, expected, token) && Recorded(ExecutionAt(s, key)) && Trimmed(token)
  {
    MatchingTokenIsTrimmed(row, s, key, token);
    AcceptedExecutionsAreCoherent(row.columns);
    TrimIsTrimmed(token);
  }

  lemma RecordedIsReleasable(row: Row, s: Store, key: WorkflowKey, expected: nat, token: string)
    requires key in s && Represents(row, s[key]) && Fenced(s, key, expected, token) && Recorded(ExecutionAt(s, key)) && Trimmed(token)
    ensures ReleasableRow(row, expected, token)
  {
    AcceptedExecutionsAreCoherent(row.columns);
    TrimIsTrimmed(token);
  }

  /** Only the store takes the space off a padded token. */
  lemma PaddedTokenReleasesNoRow(row: Row, s: Store, key: WorkflowKey, token: string, now: Time)
    requires key in s && Represents(row, s[key]) && StoreInv(s) && HasExecution(s, key) && Recorded(ExecutionAt(s, key))
    requires token == " " + TokenAt(s, key)
    ensures !ReleasableRow(row, row.version, token) && DeleteReservedIn(s, key, row.version, token, now).1.Ok?
  {
    assert RecordInv(key, s[key]);
    PaddingIsTrimmed(TokenAt(s, key));
    ReleaseRefines(row, s, key, row.version, token, now);
  }

  lemma PaddingIsTrimmed(token: string)
    requires Trimmed(token) && token != ""
    ensures Trim(" " + token) == token && !Trimmed(" " + token)
  {
    var padded := " " + token;
    assert padded[0] == ' ' && padded[1..] == token;
    TrimIsTrimmed(token);
    TrimIsTrimmed(padded);
  }

  /** A deferred row stays readable exactly when the retry time truncates to the lease its request was stored with. */
  lemma MarkedRowIsReadable(row: Row, e: Execution, expected: nat, token: string, retryAt: Time)
    requires DecodeExecution(row.columns) == Is(e) && MarkRow(row, expected, token, retryAt).Some?
    ensures var decoded := DecodeExecution(MarkRow(row, expected, token, retryAt).value.columns);
            && (decoded.Is? <==> Truncate(retryAt) == e.reservation.leaseExpiresAt)
            && (decoded.Is? ==> decoded == Is(e.(status := RecoveryRequired)))
  {
  }

  /** Recovery defers with the very stamp of its takeover, so its rows stay readable and say what the store says. */
  lemma DeferralRefines(row: Row, s: Store, key: WorkflowKey, t: Protocol.Tenure)
    requires key in s && Represents(row, s[key]) && Live(s, t) && t.key == key && t.expires == LeaseEnd(t.stamp)
    requires MarkRow(row, t.version, t.token, t.stamp + Protocol.LEASE).Some? && Trimmed(t.token)
    ensures var (next, reply) := MarkIn(s, key, t.version, t.token, t.stamp + Protocol.LEASE);
            reply.Ok? && key in next && Represents(MarkRow(row, t.version, t.token, t.stamp + Protocol.LEASE).value, next[key])
  {
    MarkedRowIsReadable(row, ExecutionAt(s, key), t.version, t.token, t.stamp + Protocol.LEASE);
  }

  // ---- the snapshot beside the execution -------------------------------------------------------

  /** What `encodeSnapshotUpdate` fills in before marshalling; its clock reading is cut to milliseconds. */
  function Filled(key: WorkflowKey, w: WorkflowSnapshot, now: Time): WorkflowSnapshot {
    var at := Truncate(now);
    w.(tenantID := key.tenantID, conversationID := key.conversationID, actorUserID := key.actorUserID,
       createdAt := if w.createdAt == 0 then at else w.createdAt,
       updatedAt := at,
       expiresAt := if w.expiresAt == 0 then at + WORKFLOW_TTL else w.expiresAt)
  }

  datatype FullRow = FullRow(
    key: WorkflowKey, workflowID: string, kind: WorkflowType, state: WorkflowState, snapshotSchema: nat, snapshot: PersistedSnapshot,
    createdAt: Time, updatedAt: Time, expiresAt: Time, row: Row)

  /** `encodeAgentWorkflowRow`: marshal, read back, and project what was read. */
  function EncodeRow(key: WorkflowKey, w: WorkflowSnapshot, now: Time): Option<FullRow> {
    match ToDTO(Filled(key, w, now))
    case None => None
    case Some(dto) =>
      match FromDTO(dto)
      case None => None
      case Some(c) => Some(FullRow(
        key, c.id, c.kind, c.state, CODEC, dto, c.createdAt, c.updatedAt, c.expiresAt, Row(1, NO_AUTHORITY)))
  }

  /** `decodeAgentWorkflowRow`. */
  function DecodeRow(r: FullRow): Option<VersionedWorkflow> {
    if r.snapshotSchema != CODEC then None
    else match FromDTO(r.snapshot)
      case None => None
      case Some(w) =>
        if w.id != r.workflowID || w.kind != r.kind || w.state != r.state || !Identified(r.key, w) then None
        else
          var stamped := w.(version := r.row.version, createdAt := r.createdAt, updatedAt := r.updatedAt, expiresAt := r.expiresAt);
          match DecodeExecution(r.row.columns)
          case Refused => None
          case NoExecution => Some(VersionedWorkflow(stamped, r.row.version, None))
          case Is(e) => Some(VersionedWorkflow(stamped, r.row.version, Some(e)))
  }

  /** A row that was written reads back as the erased snapshot at version one; it is written exactly when the snapshot marshals and its trusted keys are trimmed. */
  lemma WrittenRowsRead(key: WorkflowKey, w: WorkflowSnapshot, now: Time)
    ensures var filled := Filled(key, w, now);
            && (EncodeRow(key, w, now).Some? <==> ToDTO(filled).Some? && KeysTrimmed(w.trusted.params))
            && (EncodeRow(key, w, now).Some? ==>
                  DecodeRow(EncodeRow(key, w, now).value) == Some(VersionedWorkflow(Erased(filled).(version := 1), 1, None)))
  {
    var filled := Filled(key, w, now);
    if ToDTO(filled).Some? { SnapshotRoundTrip(filled); }
  }

  lemma ErasureKeepsFingerprint(w: WorkflowSnapshot)
    requires ToDTO(w).Some? && KeysTrimmed(w.trusted.params)
    ensures Fingerprint(Erased(w)) == Fingerprint(w)
  {
    SnapshotRoundTrip(w);
  }

  /** The database and the memory store agree, under the shadow comparison, on a workflow they both create, at whatever moments each does. */
  lemma BothStoresCreateTheSame(key: WorkflowKey, w: WorkflowSnapshot, now: Time, later: Time)
    requires EncodeRow(key, w, now).Some? && now >= MILLISECOND && later != 0
    ensures var memory := VersionedWorkflow(Prepare(key, w, 1, None, later), 1, None);
            Compare(Some(memory), DecodeRow(EncodeRow(key, w, now).value)) == None
  {
    WrittenRowsRead(key, w, now);
    var filled, memory := Filled(key, w, now), Prepare(key, w, 1, None, later);
    ErasureKeepsFingerprint(filled);
    var read := Erased(filled).(version := 1);
    FingerprintIgnoresVersion(Erased(filled), 1);
    PreparedFingerprint(key, w, now, later);
  }

  /** Filling in by the database and preparing by the memory store differ in nothing the fingerprint sees. */
  lemma PreparedFingerprint(key: WorkflowKey, w: WorkflowSnapshot, now: Time, later: Time)
    requires ToDTO(Filled(key, w, now)).Some?
    ensures Fingerprint(Prepare(key, w, 1, None, later)) == Fingerprint(Filled(key, w, now))
  {
    var filled, memory := Filled(key, w, now), Prepare(key, w, 1, None, later);
    CandidatesReencode(w.candidates);
    assert MissingFields(memory) == MissingFields(filled);
    assert IdentityValid(memory);
    DroppingKeepsAuthority(filled, memory);
  }

  lemma DroppingKeepsAuthority(filled: WorkflowSnapshot, memory: WorkflowSnapshot)
    requires AuthorityValid(filled) && memory.candidates == DropEmptyLists(filled.candidates)
    requires memory.tenantID == filled.tenantID && memory.conversationID == filled.conversationID
    requires memory.trusted == filled.trusted && memory.entities == filled.entities
    ensures AuthorityValid(memory)
  {
  }
}
