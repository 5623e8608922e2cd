/** What each operation of the versioned workflow store does, as a function from state to state. */
module WorkflowStore {
  import opened Base
  import opened Types
  import opened ReservationCodec

  const WORKFLOW_TTL: nat := 30 * MINUTE

  datatype StoreError =
    | ContextDone | KeyIncomplete | SnapshotRequired | ReservationRejected | ResultRejected | SameToken
    | Conflict | InProgress

  datatype Reply = Ok(workflow: Option<VersionedWorkflow>) | Failed(error: StoreError)

  type Store = map<WorkflowKey, VersionedWorkflow>

  predicate CompleteKey(key: WorkflowKey) {
    key.tenantID != 0 && Trim(key.conversationID) != "" && key.actorUserID != 0
  }

  /** `validatePersistedExecutionResult`. */
  predicate ValidResult(r: ExecutionResult) {
    && Trim(r.businessKey) != "" && |Trim(r.businessKey)| <= MAX_IDENTIFIER
    && ValidEffect(r.effect) && r.completedAt != 0
  }

  // ---- records ---------------------------------------------------------------

  /** `prepareSnapshotLocked`. */
  function Prepare(
    key: WorkflowKey, w: WorkflowSnapshot, version: nat, existing: Option<WorkflowSnapshot>, now: Time): (r: WorkflowSnapshot)
    ensures Identified(key, r) && r.version == version && Aligned(r)
  {
    var next := Clone(w);
    var createdAt :=
      if next.createdAt != 0 then next.createdAt
      else if existing.Some? && existing.value.createdAt != 0 then existing.value.createdAt
      else now;
    WithMissing(next, MissingFields(next)).(
      tenantID := key.tenantID, conversationID := key.conversationID, actorUserID := key.actorUserID,
      createdAt := createdAt, updatedAt := now,
      expiresAt := if next.expiresAt == 0 then now + WORKFLOW_TTL else next.expiresAt,
      version := version)
  }

  predicate Identified(key: WorkflowKey, w: WorkflowSnapshot) {
    w.tenantID == key.tenantID && w.conversationID == key.conversationID && w.actorUserID == key.actorUserID
  }

  function CloneReservation(r: Reservation): Reservation {
    r.(operation := TrimOperation(r.operation), businessKey := Trim(r.businessKey), token := Trim(r.token),
       attemptID := Trim(r.attemptID), startedAt := Truncate(r.startedAt), leaseExpiresAt := Truncate(r.leaseExpiresAt))
  }

  /** `cloneVersionedWorkflow`: the copy a caller gets. */
  function Seen(record: VersionedWorkflow): VersionedWorkflow {
    VersionedWorkflow(
      Clone(record.snapshot), record.version,
      match record.execution
      case None => None
      case Some(e) => Some(e.(reservation := CloneReservation(e.reservation))))
  }

  function Reversioned(record: VersionedWorkflow, execution: Option<Execution>): VersionedWorkflow {
    var version := record.version + 1;
    VersionedWorkflow(record.snapshot.(version := version), version, execution)
  }

  // ---- finding a record --------------------------------------------------------

  /** `activeRecordLocked`: an idle record past its expiry is dropped on sight. */
  function Purge(s: Store, key: WorkflowKey, now: Time): Store {
    if key in s && s[key].execution.None? && Expired(s[key].snapshot, now) then s - {key} else s
  }

  predicate AtVersion(s: Store, key: WorkflowKey, expected: nat) {
    key in s && s[key].version == expected
  }

  predicate HasExecution(s: Store, key: WorkflowKey) {
    key in s && s[key].execution.Some?
  }

  function ExecutionAt(s: Store, key: WorkflowKey): Execution
    requires HasExecution(s, key)
  {
    s[key].execution.value
  }

  function TokenAt(s: Store, key: WorkflowKey): string
    requires HasExecution(s, key)
  {
    ExecutionAt(s, key).reservation.token
  }

  /** `recordForExecutionMutationLocked`. */
  predicate Fenced(s: Store, key: WorkflowKey, expected: nat, token: string) {
    AtVersion(s, key, expected) && HasExecution(s, key) && Trim(token) != "" && TokenAt(s, key) == Trim(token)
  }

  predicate Recorded(e: Execution) { e.status == ResultRecorded && e.result.Some? }

  // ---- the operations ------------------------------------------------------------

  datatype Op =
    | Load
    | Create(next: Option<WorkflowSnapshot>)
    | CompareAndSwap(expected: nat, next: Option<WorkflowSnapshot>)
    | DeleteIfVersion(expected: nat)
    | CreateReserved(next: Option<WorkflowSnapshot>, reservation: Reservation)
    | Reserve(expected: nat, next: Option<WorkflowSnapshot>, reservation: Reservation)
    | RecordResult(expected: nat, token: string, result: ExecutionResult)
    | Finalize(expected: nat, token: string, next: Option<WorkflowSnapshot>)
    | DeleteReserved(expected: nat, token: string)
    | Takeover(expected: nat, token: string, successor: Reservation)
    | MarkRecoveryRequired(expected: nat, token: string, retryAt: Time)

  function LoadIn(s: Store, key: WorkflowKey, now: Time): (Store, Reply) {
    var p := Purge(s, key, now);
    (p, Ok(if key in p then Some(Seen(p[key])) else None))
  }

  function Put(s: Store, key: WorkflowKey, record: VersionedWorkflow): (Store, Reply) {
    (s[key := record], Ok(Some(Seen(record))))
  }

  function CreateIn(s: Store, key: WorkflowKey, next: Option<WorkflowSnapshot>, execution: Option<Execution>, now: Time): (Store, Reply) {
    var p := Purge(s, key, now);
    if next.None? then (s, Failed(SnapshotRequired))
    else if key in p then (p, Failed(Conflict))
    else Put(p, key, VersionedWorkflow(Prepare(key, next.value, 1, None, now), 1, execution))
  }

  /** Replace the snapshot of an idle record, and give it this execution. */
  function ReplaceIdleIn(
    s: Store, key: WorkflowKey, expected: nat, next: Option<WorkflowSnapshot>, execution: Option<Execution>, now: Time): (Store, Reply)
  {
    var p := Purge(s, key, now);
    if next.None? then (s, Failed(SnapshotRequired))
    else if !AtVersion(p, key, expected) then (p, Failed(Conflict))
    else if HasExecution(p, key) then (p, Failed(InProgress))
    else Put(p, key, VersionedWorkflow(
      Prepare(key, next.value, expected + 1, Some(p[key].snapshot), now), expected + 1, execution))
  }

  function DeleteIfVersionIn(s: Store, key: WorkflowKey, expected: nat, now: Time): (Store, Reply) {
    var p := Purge(s, key, now);
    if !AtVersion(p, key, expected) then (p, Failed(Conflict))
    else if HasExecution(p, key) then (p, Failed(InProgress))
    else (p - {key}, Ok(None))
  }

  /** Attach a result to the execution this token holds. */
  function ConcludeIn(s: Store, key: WorkflowKey, expected: nat, token: string, result: ExecutionResult, now: Time): (Store, Reply) {
    var p := Purge(s, key, now);
    if !Fenced(p, key, expected, token) then (p, Failed(Conflict))
    else
      var e := ExecutionAt(p, key);
      if e.reservation.businessKey != result.businessKey then (p, Failed(Conflict))
      else Put(p, key, Reversioned(p[key], Some(e.(status := ResultRecorded, result := Some(result)))))
  }

  function RecordResultIn(s: Store, key: WorkflowKey, expected: nat, token: string, result: ExecutionResult, now: Time): (Store, Reply) {
    if !ValidResult(result) then (s, Failed(ResultRejected))
    else ConcludeIn(s, key, expected, token, result.(businessKey := Trim(result.businessKey)), now)
  }

  function FinalizeIn(s: Store, key: WorkflowKey, expected: nat, token: string, next: Option<WorkflowSnapshot>, now: Time): (Store, Reply) {
    var p := Purge(s, key, now);
    if next.None? then (s, Failed(SnapshotRequired))
    else if !Fenced(p, key, expected, token) then (p, Failed(Conflict))
    else if !Recorded(ExecutionAt(p, key)) then (p, Failed(InProgress))
    else Put(p, key, VersionedWorkflow(
      Prepare(key, next.value, expected + 1, Some(p[key].snapshot), now), expected + 1, None))
  }

  function DeleteReservedIn(s: Store, key: WorkflowKey, expected: nat, token: string, now: Time): (Store, Reply) {
    var p := Purge(s, key, now);
    if !Fenced(p, key, expected, token) then (p, Failed(Conflict))
    else if !Recorded(ExecutionAt(p, key)) then (p, Failed(InProgress))
    else (p - {key}, Ok(None))
  }

  /** Replace an expired reservation by a canonical successor for the same business action. */
  function SupersedeIn(s: Store, key: WorkflowKey, expected: nat, token: string, successor: Reservation, now: Time): (Store, Reply) {
    var p := Purge(s, key, now);
    if !Fenced(p, key, expected, token) then (p, Failed(Conflict))
    else
      var e := ExecutionAt(p, key);
      if e.reservation.leaseExpiresAt > now then (p, Failed(InProgress))
      else if e.reservation.operation != successor.operation || e.reservation.businessKey != successor.businessKey then
        (p, Failed(Conflict))
      else
        var status := if e.result.Some? then ResultRecorded else Executing;
        Put(p, key, Reversioned(p[key], Some(Execution(status, successor, e.result))))
  }

  function TakeoverIn(s: Store, key: WorkflowKey, expected: nat, token: string, successor: Reservation, now: Time): (Store, Reply) {
    var canonical := Canonical(successor);
    if canonical.None? then (s, Failed(ReservationRejected))
    else if Trim(token) == canonical.value.token then (s, Failed(SameToken))
    else SupersedeIn(s, key, expected, token, canonical.value, now)
  }

  /** The database's deferral of a failed recovery: only a still executing reservation is re-leased, under its own token. */
  function MarkIn(s: Store, key: WorkflowKey, expected: nat, token: string, retryAt: Time): (Store, Reply) {
    if !Fenced(s, key, expected, token) || ExecutionAt(s, key).status != Executing then (s, Failed(Conflict))
    else
      var e := ExecutionAt(s, key);
      Put(s, key, Reversioned(s[key], Some(
        e.(status := RecoveryRequired, reservation := e.reservation.(leaseExpiresAt := Truncate(retryAt))))))
  }

  function Reserved(reservation: Reservation): Option<Execution> {
    match Canonical(reservation)
    case None => None
    case Some(r) => Some(Execution(Executing, r, None))
  }

  /** An operation on a complete key, past the context check. */
  function ApplyTo(s: Store, key: WorkflowKey, op: Op, now: Time): (Store, Reply) {
    match op
    case Load => LoadIn(s, key, now)
    case Create(next) => CreateIn(s, key, next, None, now)
    case CompareAndSwap(expected, next) => ReplaceIdleIn(s, key, expected, next, None, now)
    case DeleteIfVersion(expected) => DeleteIfVersionIn(s, key, expected, now)
    case CreateReserved(next, reservation) =>
      if next.None? then (s, Failed(SnapshotRequired))
      else if Canonical(reservation).None? then (s, Failed(ReservationRejected))
      else CreateIn(s, key, next, Reserved(reservation), now)
    case Reserve(expected, next, reservation) =>
      if next.None? then (s, Failed(SnapshotRequired))
      else if Canonical(reservation).None? then (s, Failed(ReservationRejected))
      else ReplaceIdleIn(s, key, expected, next, Reserved(reservation), now)
    case RecordResult(expected, token, result) => RecordResultIn(s, key, expected, token, result, now)
    case Finalize(expected, token, next) => FinalizeIn(s, key, expected, token, next, now)
    case DeleteReserved(expected, token) => DeleteReservedIn(s, key, expected, token, now)
    case Takeover(expected, token, successor) => TakeoverIn(s, key, expected, token, successor, now)
    case MarkRecoveryRequired(expected, token, retryAt) => MarkIn(s, key, expected, token, retryAt)
  }

  datatype Call = Call(key: WorkflowKey, op: Op, now: Time, contextDone: bool)

  /** One call on the store: its next state and the caller's reply. */
  function Apply(s: Store, c: Call): (Store, Reply) {
    if c.contextDone then (s, Failed(ContextDone))
    else if !CompleteKey(c.key) then (s, Failed(KeyIncomplete))
    else ApplyTo(s, c.key, c.op, c.now)
  }

  predicate Succeeds(s: Store, c: Call) { Apply(s, c).1.Ok? }

  // ---- the store invariant -----------------------------------------------------------

  /** A reservation as canonicalisation leaves it. */
  predicate Normal(r: Reservation) {
    && Trimmed(r.token) && r.token != "" && Trimmed(r.businessKey) && Trimmed(r.attemptID)
    && r.operation in {Operation.Start, Operation.Cancel}
    && Truncate(r.startedAt) == r.startedAt && Truncate(r.leaseExpiresAt) == r.leaseExpiresAt
  }

  predicate ExecutionInv(e: Execution) {
    && Normal(e.reservation)
    && (e.status == ResultRecorded <==> e.result.Some?)
    && (e.result.Some? ==> e.result.value.businessKey == e.reservation.businessKey)
  }

  predicate RecordInv(key: WorkflowKey, r: VersionedWorkflow) {
    && CompleteKey(key)
    && r.version >= 1 && r.snapshot.version == r.version
    && Identified(key, r.snapshot) && Aligned(r.snapshot)
    && (r.execution.Some? ==> ExecutionInv(r.execution.value))
  }

  predicate StoreInv(s: Store) { forall k | k in s :: RecordInv(k, s[k]) }

  lemma CanonicalIsNormal(r: Reservation)
    ensures Canonical(r).Some? ==> Normal(Canonical(r).value)
  {
  }

  /** Every state an operation can leave behind: untouched, purged, or purged with this key's record written or removed. */
  predicate Shape(s: Store, key: WorkflowKey, now: Time, next: Store, reply: Reply) {
    var p := Purge(s, key, now);
    if reply.Failed? then next == s || next == p
    else next == p || next == p - {key} || (key in next && next == p[key := next[key]])
  }

  lemma CreateShape(s: Store, key: WorkflowKey, next: Option<WorkflowSnapshot>, e: Option<Execution>, now: Time)
    requires e.Some? ==> ExecutionInv(e.value)
    ensures var (s', reply) := CreateIn(s, key, next, e, now);
            Shape(s, key, now, s', reply) && (reply.Ok? && CompleteKey(key) ==> key in s' && RecordInv(key, s'[key]))
  {
  }

  lemma ReplaceShape(s: Store, key: WorkflowKey, expected: nat, next: Option<WorkflowSnapshot>, e: Option<Execution>, now: Time)
    requires e.Some? ==> ExecutionInv(e.value)
    ensures var (s', reply) := ReplaceIdleIn(s, key, expected, next, e, now);
            Shape(s, key, now, s', reply) && (reply.Ok? && CompleteKey(key) ==> key in s' && RecordInv(key, s'[key]))
  {
  }

  lemma ConcludeShape(s: Store, key: WorkflowKey, expected: nat, token: string, result: ExecutionResult, now: Time)
    ensures var (s', reply) := ConcludeIn(s, key, expected, token, result, now);
            && Shape(s, key, now, s', reply)
            && (reply.Ok? && CompleteKey(key) && (key in s ==> RecordInv(key, s[key])) ==> key in s' && RecordInv(key, s'[key]))
  {
  }

  lemma FinalizeShape(s: Store, key: WorkflowKey, expected: nat, token: string, next: Option<WorkflowSnapshot>, now: Time)
    ensures var (s', reply) := FinalizeIn(s, key, expected, token, next, now);
            && Shape(s, key, now, s', reply)
            && (reply.Ok? && CompleteKey(key) && (key in s ==> RecordInv(key, s[key])) ==> key in s' && RecordInv(key, s'[key]))
  {
  }

  lemma SupersedeShape(s: Store, key: WorkflowKey, expected: nat, token: string, successor: Reservation, now: Time)
    requires Normal(successor)
    ensures var (s', reply) := SupersedeIn(s, key, expected, token, successor, now);
            && Shape(s, key, now, s', reply)
            && (reply.Ok? && CompleteKey(key) && (key in s ==> RecordInv(key, s[key])) ==> key in s' && RecordInv(key, s'[key]))
  {
  }

  lemma MarkShape(s: Store, key: WorkflowKey, expected: nat, token: string, retryAt: Time, now: Time)
    ensures var (s', reply) := MarkIn(s, key, expected, token, retryAt);
            && Shape(s, key, now, s', reply)
            && (reply.Ok? && CompleteKey(key) && (key in s ==> RecordInv(key, s[key])) ==> key in s' && RecordInv(key, s'[key]))
  {
  }

  lemma ApplyToShape(s: Store, key: WorkflowKey, op: Op, now: Time)
    ensures Shape(s, key, now, ApplyTo(s, key, op, now).0, ApplyTo(s, key, op, now).1)
    ensures CompleteKey(key) && (key in s ==> RecordInv(key, s[key])) ==>
              var next := ApplyTo(s, key, op, now).0; key in next ==> RecordInv(key, next[key])
  {
    match op
    case Load =>
    case Create(next) => CreateShape(s, key, next, None, now);
    case CompareAndSwap(expected, next) => ReplaceShape(s, key, expected, next, None, now);
    case DeleteIfVersion(_) =>
    case CreateReserved(next, r) => CanonicalIsNormal(r); CreateShape(s, key, next, Reserved(r), now);
    case Reserve(expected, next, r) => CanonicalIsNormal(r); ReplaceShape(s, key, expected, next, Reserved(r), now);
    case DeleteReserved(_, _) =>
    case RecordResult(expected, token, result) =>
      ConcludeShape(s, key, expected, token, result.(businessKey := Trim(result.businessKey)), now);
    case Finalize(expected, token, next) => FinalizeShape(s, key, expected, token, next, now);
    case Takeover(expected, token, successor) =>
      CanonicalIsNormal(successor);
      if Canonical(successor).Some? { SupersedeShape(s, key, expected, token, Canonical(successor).value, now); }
    case MarkRecoveryRequired(expected, token, retryAt) => MarkShape(s, key, expected, token, retryAt, now);
  }

  /** Every operation keeps the invariant: version and identity agree with the key and the snapshot, a result is present exactly when the status says so, and it is the result of the reserved business action. */
  lemma ApplyKeepsInvariant(s: Store, c: Call)
    requires StoreInv(s)
    ensures StoreInv(Apply(s, c).0)
  {
    if !c.contextDone && CompleteKey(c.key) { ApplyToShape(s, c.key, c.op, c.now); }
  }

  /** A reply shows exactly what is stored: no copy the store hands out is altered by cloning. */
  lemma SeenIsStored(s: Store, key: WorkflowKey)
    requires StoreInv(s) && key in s
    ensures Seen(s[key]) == s[key]
  {
  }

  /** A call that fails changes nothing, except that it may drop an expired idle record under its own key; no call touches another key. */
  lemma FailureChangesNothing(s: Store, c: Call)
    ensures forall k | k != c.key :: (k in Apply(s, c).0 <==> k in s) && (k in s ==> Apply(s, c).0[k] == s[k])
    ensures !Succeeds(s, c) ==> Apply(s, c).0 == s || Apply(s, c).0 == Purge(s, c.key, c.now)
  {
    if !c.contextDone && CompleteKey(c.key) { ApplyToShape(s, c.key, c.op, c.now); }
  }

  function ExpectedVersion(op: Op): nat {
    match op
    case Load => 0
    case Create(_) => 0
    case CreateReserved(_, _) => 0
    case _ => op.expected
  }

  predicate Creates(op: Op) { op.Create? || op.CreateReserved? }

  predicate Deletes(op: Op) { op.DeleteIfVersion? || op.DeleteReserved? }

  /** What a successful mutation of one key does to its version: 0 stands for an absent record. */
  predicate RaisesVersion(s: Store, key: WorkflowKey, op: Op, now: Time) {
    var p, (next, reply) := Purge(s, key, now), ApplyTo(s, key, op, now);
    reply.Ok? && !op.Load? ==>
      && (if Creates(op) then key !in p else AtVersion(p, key, ExpectedVersion(op)))
      && (if Deletes(op) then next == p - {key}
          else AtVersion(next, key, ExpectedVersion(op) + 1) && reply == Ok(Some(Seen(next[key]))))
  }

  /** Optimistic concurrency: a mutation succeeds only at the version it expected and raises it by exactly one, or removes the record; the reply is the new record. */
  lemma SuccessRaisesVersionByOne(s: Store, key: WorkflowKey, op: Op, now: Time)
    ensures RaisesVersion(s, key, op, now)
  {
    match op
    case Load =>
    case Create(_) =>
    case CompareAndSwap(_, _) =>
    case DeleteIfVersion(_) =>
    case CreateReserved(_, _) =>
    case Reserve(_, _, _) =>
    case RecordResult(_, _, _) => RecordRaisesVersion(s, key, op, now);
    case Finalize(_, _, _) =>
    case DeleteReserved(_, _) =>
    case Takeover(_, _, _) => TakeoverRaisesVersion(s, key, op, now);
    case MarkRecoveryRequired(_, _, _) =>
  }

  lemma RecordRaisesVersion(s: Store, key: WorkflowKey, op: Op, now: Time)
    requires op.RecordResult?
    ensures RaisesVersion(s, key, op, now)
  {
  }

  lemma TakeoverRaisesVersion(s: Store, key: WorkflowKey, op: Op, now: Time)
    requires op.Takeover?
    ensures RaisesVersion(s, key, op, now)
  {
    if Canonical(op.successor).Some? { SupersedeMoves(s, key, op.expected, op.token, Canonical(op.successor).value, now); }
  }

  // ---- how an execution changes ----------------------------------------------------------

  /** The same reserved business action, no less concluded than before. */
  predicate SameWrite(e: Execution, f: Execution) {
    && f.reservation.operation == e.reservation.operation
    && f.reservation.businessKey == e.reservation.businessKey
    && (e.result.Some? ==> f.result.Some?)
  }

  /** The call that lets an execution go: the holder of its token, after its result was recorded. */
  predicate Releases(s: Store, key: WorkflowKey, op: Op) {
    && (op.Finalize? || op.DeleteReserved?)
    && Fenced(s, key, op.expected, op.token) && Recorded(ExecutionAt(s, key))
  }

  /** The call that attaches a result: the holder of the token, with the reserved business key. */
  predicate Records(s: Store, key: WorkflowKey, op: Op) {
    && op.RecordResult? && ValidResult(op.result)
    && Fenced(s, key, op.expected, op.token)
    && Trim(op.result.businessKey) == ExecutionAt(s, key).reservation.businessKey
  }

  /** The result a recording call presents, as the store keeps it. */
  function Presented(op: Op): Option<ExecutionResult> {
    if op.RecordResult? then Some(op.result.(businessKey := Trim(op.result.businessKey))) else None
  }

  predicate TakesOver(s: Store, key: WorkflowKey, op: Op, now: Time) {
    && op.Takeover? && Canonical(op.successor).Some?
    && Fenced(s, key, op.expected, op.token)
    && Trim(op.token) != Canonical(op.successor).value.token
    && ExecutionAt(s, key).reservation.leaseExpiresAt <= now
  }

  /** Everything one operation can do to an execution under its key. */
  predicate ExecutionMoves(s: Store, key: WorkflowKey, op: Op, now: Time, next: Store)
    requires HasExecution(s, key)
  {
    if HasExecution(next, key) then
      var f := ExecutionAt(next, key);
      && SameWrite(ExecutionAt(s, key), f)
      && (f.result != ExecutionAt(s, key).result ==> Records(s, key, op) && f.result == Presented(op))
      && (if f.reservation.token != TokenAt(s, key)
          then TakesOver(s, key, op, now) && f.reservation == Canonical(op.successor).value
          else f.reservation == ExecutionAt(s, key).reservation
               || (op.MarkRecoveryRequired? && Fenced(s, key, op.expected, op.token)
                   && f.reservation == ExecutionAt(s, key).reservation.(leaseExpiresAt := Truncate(op.retryAt))))
    else Releases(s, key, op)
  }

  /** An execution survives every operation, except that its own token may release it once its result is recorded; its business action never changes, its token only by takeover, its result only by its token. */
  lemma ExecutionMovesOnlyByItsToken(s: Store, key: WorkflowKey, op: Op, now: Time)
    requires HasExecution(s, key)
    ensures ExecutionMoves(s, key, op, now, ApplyTo(s, key, op, now).0)
  {
    match op
    case Load =>
    case Create(_) =>
    case CompareAndSwap(_, _) =>
    case DeleteIfVersion(_) =>
    case CreateReserved(_, _) =>
    case Reserve(_, _, _) =>
    case RecordResult(_, _, _) => RecordMoves(s, key, op, now);
    case Finalize(_, _, _) =>
    case DeleteReserved(_, _) =>
    case Takeover(_, _, _) => TakeoverMoves(s, key, op, now);
    case MarkRecoveryRequired(_, _, _) => MarkMoves(s, key, op, now);
  }

  lemma RecordMoves(s: Store, key: WorkflowKey, op: Op, now: Time)
    requires HasExecution(s, key) && op.RecordResult?
    ensures ExecutionMoves(s, key, op, now, ApplyTo(s, key, op, now).0)
  {
  }

  lemma TakeoverMoves(s: Store, key: WorkflowKey, op: Op, now: Time)
    requires HasExecution(s, key) && op.Takeover?
    ensures ExecutionMoves(s, key, op, now, ApplyTo(s, key, op, now).0)
  {
    if Canonical(op.successor).Some? {
      SupersedeMoves(s, key, op.expected, op.token, Canonical(op.successor).value, now);
    }
  }

  lemma MarkMoves(s: Store, key: WorkflowKey, op: Op, now: Time)
    requires HasExecution(s, key) && op.MarkRecoveryRequired?
    ensures ExecutionMoves(s, key, op, now, ApplyTo(s, key, op, now).0)
  {
  }

  /** A successor is installed whole, at the expected version, once the lease has expired; otherwise nothing moves. */
  lemma SupersedeMoves(s: Store, key: WorkflowKey, expected: nat, token: string, successor: Reservation, now: Time)
    ensures var (next, reply) := SupersedeIn(s, key, expected, token, successor, now);
            if reply.Failed? then HasExecution(s, key) ==> next == s
            else
              && Fenced(s, key, expected, token) && HasExecution(next, key)
              && ExecutionAt(s, key).reservation.leaseExpiresAt <= now
              && ExecutionAt(next, key).reservation == successor
              && SameWrite(ExecutionAt(s, key), ExecutionAt(next, key))
              && ExecutionAt(next, key).result == ExecutionAt(s, key).result
              && reply == Ok(Some(Seen(next[key])))
  {
  }

  predicate Reserves(op: Op) {
    (op.CreateReserved? || op.Reserve?) && Canonical(op.reservation).Some?
  }

  /** An execution appears only by a successful reservation, as canonicalised, with no result. */
  lemma ExecutionAppearsOnlyByReservation(s: Store, key: WorkflowKey, op: Op, now: Time)
    requires !HasExecution(s, key) && HasExecution(ApplyTo(s, key, op, now).0, key)
    ensures Reserves(op) && ApplyTo(s, key, op, now).1.Ok?
    ensures ExecutionAt(ApplyTo(s, key, op, now).0, key) == Execution(Executing, Canonical(op.reservation).value, None)
  {
    match op
    case Load =>
    case Create(_) =>
    case CompareAndSwap(_, _) =>
    case DeleteIfVersion(_) =>
    case CreateReserved(_, _) =>
    case Reserve(_, _, _) =>
    case RecordResult(_, _, _) =>
    case Finalize(_, _, _) =>
    case DeleteReserved(_, _) =>
    case Takeover(_, _, _) =>
    case MarkRecoveryRequired(_, _, _) =>
  }

  // ---- what a successful call installs ---------------------------------------------------

  lemma ReservationInstalls(s: Store, key: WorkflowKey, op: Op, now: Time)
    requires Reserves(op) && ApplyTo(s, key, op, now).1.Ok?
    ensures var (next, reply) := ApplyTo(s, key, op, now);
            && !HasExecution(s, key) && HasExecution(next, key)
            && ExecutionAt(next, key) == Execution(Executing, Canonical(op.reservation).value, None)
            && reply == Ok(Some(Seen(next[key])))
  {
  }

  lemma TakeoverInstalls(s: Store, key: WorkflowKey, op: Op, now: Time)
    requires op.Takeover? && ApplyTo(s, key, op, now).1.Ok?
    ensures var (next, reply) := ApplyTo(s, key, op, now);
            && TakesOver(s, key, op, now) && HasExecution(next, key)
            && ExecutionAt(next, key).reservation == Canonical(op.successor).value
            && ExecutionAt(next, key).result == ExecutionAt(s, key).result
            && reply == Ok(Some(Seen(next[key])))
  {
    SupersedeMoves(s, key, op.expected, op.token, Canonical(op.successor).value, now);
  }

  // ---- an execution under an unexpired lease ----------------------------------------------

  /** The execution with this token, still running and not yet concluded. */
  predicate Unconcluded(s: Store, key: WorkflowKey, token: string) {
    HasExecution(s, key) && TokenAt(s, key) == token && ExecutionAt(s, key).result.None?
  }

  /** Only recording and deferring under its own token can touch an unconcluded execution before its lease expires. */
  lemma LeaseProtects(s: Store, key: WorkflowKey, token: string, op: Op, now: Time)
    requires Unconcluded(s, key, token) && ExecutionAt(s, key).reservation.leaseExpiresAt > now
    requires (op.RecordResult? || op.MarkRecoveryRequired?) ==> Trim(op.token) != token
    ensures ApplyTo(s, key, op, now).0 == s
  {
  }

  /** While a record keeps its token, its version says how it has moved: the same version means the same execution. */
  lemma SameTokenNewerVersion(s: Store, key: WorkflowKey, op: Op, now: Time)
    requires HasExecution(s, key)
    ensures var next := ApplyTo(s, key, op, now).0;
            HasExecution(next, key) ==>
              next[key].version > s[key].version || next[key] == s[key]
  {
  }
}
