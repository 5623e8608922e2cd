/** A store that mirrors every successful call onto a second store and reports differences, without ever listening to it. */
module ShadowStore {
  import opened Base
  import opened Types
  import opened ReservationCodec
  import opened SnapshotCodec
  import opened WorkflowStore
  import opened ResultCodec

  // ---- comparing what two stores say ---------------------------------------------

  datatype Finding =
    | ShadowError | PresenceDiff | VersionDiff | SnapshotHashError | SnapshotDiff | ExecutionHashError | ExecutionDiff

  /** `WorkflowSnapshotHash`, before hashing: the persisted form without version and times. */
  function Fingerprint(w: WorkflowSnapshot): Option<PersistedSnapshot> {
    match ToDTO(w)
    case None => None
    case Some(dto) => Some(dto.(version := 0, createdAt := Blank, updatedAt := Blank, expiresAt := Blank))
  }

  /** `canonicalExecutionEqual`; `None` when one side does not marshal. */
  function SameExecution(a: Option<Execution>, b: Option<Execution>): Option<bool> {
    if a.None? || b.None? then Some(a.None? && b.None?)
    else
      var e, f := a.value, b.value;
      if e.status != f.status then Some(false)
      else if ToV1(e.reservation).None? || ToV1(f.reservation).None? then None
      else if ToV1(e.reservation) != ToV1(f.reservation) then Some(false)
      else if e.result.None? || f.result.None? then Some(e.result.None? && f.result.None?)
      else if ResultToV1(e.result.value).None? || ResultToV1(f.result.value).None? then None
      else Some(ResultToV1(e.result.value) == ResultToV1(f.result.value))
  }

  /** `compare`: what is reported, if anything. */
  function Compare(primary: Option<VersionedWorkflow>, mirror: Option<VersionedWorkflow>): Option<Finding> {
    if primary.None? || mirror.None? then (if primary.None? && mirror.None? then None else Some(PresenceDiff))
    else
      var p, m := primary.value, mirror.value;
      if p.version != m.version then Some(VersionDiff)
      else if Fingerprint(p.snapshot).None? || Fingerprint(m.snapshot).None? then Some(SnapshotHashError)
      else if Fingerprint(p.snapshot) != Fingerprint(m.snapshot) then Some(SnapshotDiff)
      else match SameExecution(p.execution, m.execution)
        case None => Some(ExecutionHashError)
        case Some(same) => if same then None else Some(ExecutionDiff)
  }

  // ---- what is mirrored ------------------------------------------------------------

  /** The call sent to the mirror after the primary answered: it carries what the primary stored, not what the caller sent. */
  function Mirrored(op: Op, current: Option<VersionedWorkflow>): Op {
    match op
    case Load => Load
    case DeleteIfVersion(_) => op
    case DeleteReserved(_, _) => op
    case _ => if current.None? then op else MirroredWrite(op, current.value)
  }

  function MirroredWrite(op: Op, current: VersionedWorkflow): Op {
    match op
    case Create(_) => Create(Some(current.snapshot))
    case CompareAndSwap(expected, _) => CompareAndSwap(expected, Some(current.snapshot))
    case CreateReserved(_, r) =>
      CreateReserved(Some(current.snapshot), if current.execution.Some? then current.execution.value.reservation else r)
    case Reserve(expected, _, r) =>
      Reserve(expected, Some(current.snapshot), if current.execution.Some? then current.execution.value.reservation else r)
    case RecordResult(expected, token, result) =>
      RecordResult(expected, token,
        if current.execution.Some? && current.execution.value.result.Some? then current.execution.value.result.value else result)
    case Finalize(expected, token, _) => Finalize(expected, token, Some(current.snapshot))
    case Takeover(expected, token, r) =>
      Takeover(expected, token, if current.execution.Some? then current.execution.value.reservation else r)
    case _ => op
  }

  // ---- two memory stores in step -------------------------------------------------------

  function At(s: Store, key: WorkflowKey): Option<VersionedWorkflow> { if key in s then Some(s[key]) else None }

  predicate AgreeAt(p: Store, m: Store, key: WorkflowKey) { Compare(At(p, key), At(m, key)) == None }

  /** The mirror, given what the primary stored, stores the same snapshot but for its own update time. */
  lemma PreparingTwice(
    key: WorkflowKey, next: WorkflowSnapshot, version: nat, a: Option<WorkflowSnapshot>, now: Time,
    b: Option<WorkflowSnapshot>, later: Time)
    requires now != 0
    ensures var first := Prepare(key, next, version, a, now);
            Prepare(key, Clone(first), version, b, later) == first.(updatedAt := later) && first.expiresAt != 0
  {
  }

  lemma SameExecutionOfCanonical(r: Reservation)
    requires Canonical(r).Some?
    ensures var c := Canonical(r).value;
            Canonical(c) == Some(c) && CloneReservation(c) == c && ToV1(c).Some?
  {
    CanonicalIsANormalizer(r);
    CanonicalIsNormal(r);
    DecodesExactlyWhenLeaseOutlivesTruncation(Canonical(r).value);
    TrimIsTrimmed(Canonical(r).value.token);
    TrimIsTrimmed(Canonical(r).value.businessKey);
    TrimIsTrimmed(Canonical(r).value.attemptID);
  }

  // A write puts a prepared snapshot and its execution in place, whatever was there before.

  predicate Writes(op: Op) { op.Create? || op.CompareAndSwap? || op.CreateReserved? || op.Reserve? || op.Finalize? }

  function VersionWritten(op: Op): nat { if Creates(op) then 1 else ExpectedVersion(op) + 1 }

  function ExecutionWritten(op: Op): Option<Execution> {
    match op
    case CreateReserved(_, r) => Reserved(r)
    case Reserve(_, _, r) => Reserved(r)
    case _ => None
  }

  function Replaced(s: Store, key: WorkflowKey, op: Op, now: Time): Option<WorkflowSnapshot> {
    var p := Purge(s, key, now);
    if Creates(op) || key !in p then None else Some(p[key].snapshot)
  }

  lemma WriteInstalls(s: Store, key: WorkflowKey, op: Op, now: Time)
    requires Writes(op) && ApplyTo(s, key, op, now).1.Ok?
    ensures Installed(s, key, op, now)
  {
    match op
    case Create(_) => CreationInstalls(s, key, op, now);
    case CreateReserved(_, _) => CreationInstalls(s, key, op, now);
    case CompareAndSwap(_, _) => SwapInstalls(s, key, op, now);
    case Reserve(_, _, _) => ReservingInstalls(s, key, op, now);
    case Finalize(_, _, _) => FinalizingInstalls(s, key, op, now);
  }

  /** The record left behind is the prepared snapshot at the version and with the execution the operation writes. */
  predicate Installed(s: Store, key: WorkflowKey, op: Op, now: Time)
    requires Writes(op)
  {
    var (next, reply) := ApplyTo(s, key, op, now);
    && op.next.Some? && key in next && reply == Ok(Some(Seen(next[key])))
    && next[key] == VersionedWorkflow(
         Prepare(key, op.next.value, VersionWritten(op), Replaced(s, key, op, now), now), VersionWritten(op), ExecutionWritten(op))
    && (ExecutionWritten(op).Some? ==> Reserves(op))
  }

  lemma CreationInstalls(s: Store, key: WorkflowKey, op: Op, now: Time)
    requires (op.Create? || op.CreateReserved?) && ApplyTo(s, key, op, now).1.Ok?
    ensures Installed(s, key, op, now)
  {
  }

  lemma SwapInstalls(s: Store, key: WorkflowKey, op: Op, now: Time)
    requires op.CompareAndSwap? && ApplyTo(s, key, op, now).1.Ok?
    ensures Installed(s, key, op, now)
  {
  }

  lemma ReservingInstalls(s: Store, key: WorkflowKey, op: Op, now: Time)
    requires op.Reserve? && ApplyTo(s, key, op, now).1.Ok?
    ensures Installed(s, key, op, now)
  {
  }

  lemma FinalizingInstalls(s: Store, key: WorkflowKey, op: Op, now: Time)
    requires op.Finalize? && ApplyTo(s, key, op, now).1.Ok?
    ensures Installed(s, key, op, now)
  {
  }

  /** What a write stores, its mirrored write stores again, at the mirror's own update time. */
  lemma MirroredWriteInstalls(p: Store, m: Store, key: WorkflowKey, op: Op, now: Time, later: Time)
    requires now != 0 && StoreInv(p) && CompleteKey(key)
    requires Writes(op) && ApplyTo(p, key, op, now).1.Ok?
    requires var copy := Mirrored(op, ApplyTo(p, key, op, now).1.workflow); ApplyTo(m, key, copy, later).1.Ok?
    ensures var (p', reply) := ApplyTo(p, key, op, now);
            var m' := ApplyTo(m, key, Mirrored(op, reply.workflow), later).0;
            && key in p' && key in m' && p'[key].snapshot.expiresAt != 0
            && m'[key] == p'[key].(snapshot := p'[key].snapshot.(updatedAt := later))
            && (p'[key].execution.Some? ==> ToV1(p'[key].execution.value.reservation).Some? && p'[key].execution.value.result.None?)
  {
    WriteInstalls(p, key, op, now);
    var (p', reply) := ApplyTo(p, key, op, now);
    var copy := Mirrored(op, reply.workflow);
    ApplyToShape(p, key, op, now);
    if op.CreateReserved? || op.Reserve? { SameExecutionOfCanonical(op.reservation); }
    assert copy == MirroredWrite(op, Seen(p'[key]));
    assert Writes(copy) && VersionWritten(copy) == VersionWritten(op) && ExecutionWritten(copy) == ExecutionWritten(op);
    WriteInstalls(m, key, copy, later);
    PreparingTwice(key, op.next.value, VersionWritten(op), Replaced(p, key, op, now), now, Replaced(m, key, copy, later), later);
  }

  lemma TwinWrite(p: VersionedWorkflow, m: VersionedWorkflow, later: Time)
    requires m == p.(snapshot := p.snapshot.(updatedAt := later)) && p.snapshot.expiresAt != 0
    requires p.execution.Some? ==> ToV1(p.execution.value.reservation).Some? && p.execution.value.result.None?
    ensures Compare(Some(p), Some(m)) == None <==> ToDTO(p.snapshot).Some?
  {
    UpdateTimeIsNotCompared(p.snapshot, later);
    AgreeByParts(p, m);
  }

  lemma UpdateTimeIsNotCompared(w: WorkflowSnapshot, later: Time)
    requires w.expiresAt != 0
    ensures Fingerprint(w.(updatedAt := later)) == Fingerprint(w)
  {
  }

  // A recorded result or a takeover changes the execution of two records that agreed.

  lemma TakingOverInstalls(s: Store, key: WorkflowKey, op: Op, now: Time)
    requires op.Takeover? && ApplyTo(s, key, op, now).1.Ok?
    ensures var (next, reply) := ApplyTo(s, key, op, now);
            && HasExecution(s, key) && HasExecution(next, key) && reply == Ok(Some(Seen(next[key])))
            && Canonical(op.successor).Some? && s[key].version == op.expected
            && var result := ExecutionAt(s, key).result;
            && next[key] == Reversioned(s[key], Some(Execution(
                 if result.Some? then ResultRecorded else Executing, Canonical(op.successor).value, result)))
  {
  }

  lemma FingerprintIgnoresVersion(w: WorkflowSnapshot, version: nat)
    requires w.expiresAt != 0
    ensures Fingerprint(w.(version := version)) == Fingerprint(w)
  {
  }

  lemma ReversionedKeepsFingerprint(p: VersionedWorkflow, e: Option<Execution>)
    requires p.snapshot.expiresAt != 0
    ensures Fingerprint(Reversioned(p, e).snapshot) == Fingerprint(p.snapshot)
    ensures Reversioned(p, e).version == p.version + 1 && Reversioned(p, e).execution == e
  {
  }

  lemma ReversionedAgree(p: VersionedWorkflow, m: VersionedWorkflow, e: Execution, f: Execution)
    requires p.version == m.version && p.snapshot.expiresAt != 0 && m.snapshot.expiresAt != 0
    requires Fingerprint(p.snapshot).Some? && Fingerprint(p.snapshot) == Fingerprint(m.snapshot)
    requires SameExecution(Some(e), Some(f)) == Some(true)
    ensures Compare(Some(Reversioned(p, Some(e))), Some(Reversioned(m, Some(f)))) == None
  {
    ReversionedKeepsFingerprint(p, Some(e));
    ReversionedKeepsFingerprint(m, Some(f));
    AgreeByParts(Reversioned(p, Some(e)), Reversioned(m, Some(f)));
  }

  lemma AgreeByParts(p: VersionedWorkflow, m: VersionedWorkflow)
    ensures Compare(Some(p), Some(m)) == None <==>
              && p.version == m.version
              && Fingerprint(p.snapshot).Some? && Fingerprint(p.snapshot) == Fingerprint(m.snapshot)
              && SameExecution(p.execution, m.execution) == Some(true)
  {
  }

  lemma AgreeingRecordsExpire(p: VersionedWorkflow, m: VersionedWorkflow)
    requires Compare(Some(p), Some(m)) == None
    ensures p.snapshot.expiresAt != 0 && m.snapshot.expiresAt != 0 && p.version == m.version
    ensures Fingerprint(p.snapshot).Some? && Fingerprint(p.snapshot) == Fingerprint(m.snapshot)
    ensures SameExecution(p.execution, m.execution) == Some(true)
  {
    AgreeByParts(p, m);
  }

  function RecordedAs(record: VersionedWorkflow, result: ExecutionResult): VersionedWorkflow
    requires record.execution.Some?
  {
    Reversioned(record, Some(record.execution.value.(
      status := ResultRecorded, result := Some(result.(businessKey := Trim(result.businessKey))))))
  }

  function TakenOverAs(record: VersionedWorkflow, successor: Reservation): VersionedWorkflow
    requires record.execution.Some?
  {
    var result := record.execution.value.result;
    Reversioned(record, Some(Execution(if result.Some? then ResultRecorded else Executing, successor, result)))
  }

  lemma RecordedTwice(result: ExecutionResult)
    ensures var once := result.(businessKey := Trim(result.businessKey));
            once.(businessKey := Trim(once.businessKey)) == once && (ValidResult(result) ==> ResultToV1(once).Some?)
  {
    TrimIsTrimmed(result.businessKey);
    TrimIsTrimmed(Trim(result.businessKey));
  }

  /** Recording the same result on two agreeing records leaves them agreeing, also when one side records the trimmed copy. */
  lemma RecordedAgree(p: VersionedWorkflow, m: VersionedWorkflow, result: ExecutionResult, copy: ExecutionResult)
    requires Compare(Some(p), Some(m)) == None && p.execution.Some? && m.execution.Some?
    requires ValidResult(result) && copy == result.(businessKey := Trim(result.businessKey))
    ensures Compare(Some(RecordedAs(p, result)), Some(RecordedAs(m, copy))) == None
  {
    AgreeingRecordsExpire(p, m);
    RecordedTwice(result);
    SameRecording(p.execution.value, m.execution.value, copy);
    ReversionedAgree(p, m, RecordedAs(p, result).execution.value, RecordedAs(m, copy).execution.value);
  }

  lemma SameRecording(e: Execution, f: Execution, result: ExecutionResult)
    requires SameExecution(Some(e), Some(f)) == Some(true) && ResultToV1(result).Some?
    ensures SameExecution(Some(e.(status := ResultRecorded, result := Some(result))), Some(f.(status := ResultRecorded, result := Some(result))))
            == Some(true)
  {
  }

  lemma TakenOverAgree(p: VersionedWorkflow, m: VersionedWorkflow, successor: Reservation)
    requires Compare(Some(p), Some(m)) == None && p.execution.Some? && m.execution.Some? && ToV1(successor).Some?
    ensures Compare(Some(TakenOverAs(p, successor)), Some(TakenOverAs(m, successor))) == None
  {
    AgreeingRecordsExpire(p, m);
    ReversionedAgree(p, m, TakenOverAs(p, successor).execution.value, TakenOverAs(m, successor).execution.value);
  }

  lemma MirroredRecord(p: Store, key: WorkflowKey, op: Op, now: Time)
    requires op.RecordResult? && ApplyTo(p, key, op, now).1.Ok?
    ensures var (p', reply) := ApplyTo(p, key, op, now);
            && HasExecution(p, key) && key in p' && p'[key] == RecordedAs(p[key], op.result)
            && Mirrored(op, reply.workflow) == op.(result := op.result.(businessKey := Trim(op.result.businessKey)))
            && ValidResult(op.result)
  {
  }

  lemma MirroredTakeover(p: Store, key: WorkflowKey, op: Op, now: Time)
    requires op.Takeover? && ApplyTo(p, key, op, now).1.Ok?
    ensures var (p', reply) := ApplyTo(p, key, op, now);
            && Canonical(op.successor).Some? && HasExecution(p, key) && key in p'
            && p'[key] == TakenOverAs(p[key], Canonical(op.successor).value)
            && Mirrored(op, reply.workflow) == op.(successor := Canonical(op.successor).value)
            && Canonical(Canonical(op.successor).value) == Canonical(op.successor)
            && ToV1(Canonical(op.successor).value).Some?
  {
    TakingOverInstalls(p, key, op, now);
    SameExecutionOfCanonical(op.successor);
  }

  lemma TwinRecord(p: Store, m: Store, key: WorkflowKey, op: Op, now: Time, later: Time)
    requires op.RecordResult? && AgreeAt(p, m, key) && ApplyTo(p, key, op, now).1.Ok?
    requires var copy := Mirrored(op, ApplyTo(p, key, op, now).1.workflow); ApplyTo(m, key, copy, later).1.Ok?
    ensures var (p', reply) := ApplyTo(p, key, op, now);
            AgreeAt(p', ApplyTo(m, key, Mirrored(op, reply.workflow), later).0, key)
  {
    MirroredRecord(p, key, op, now);
    var copy := Mirrored(op, ApplyTo(p, key, op, now).1.workflow);
    MirroredRecord(m, key, copy, later);
    RecordedAgree(p[key], m[key], op.result, copy.result);
  }

  lemma TwinTakeover(p: Store, m: Store, key: WorkflowKey, op: Op, now: Time, later: Time)
    requires op.Takeover? && AgreeAt(p, m, key) && ApplyTo(p, key, op, now).1.Ok?
    requires var copy := Mirrored(op, ApplyTo(p, key, op, now).1.workflow); ApplyTo(m, key, copy, later).1.Ok?
    ensures var (p', reply) := ApplyTo(p, key, op, now);
            AgreeAt(p', ApplyTo(m, key, Mirrored(op, reply.workflow), later).0, key)
  {
    MirroredTakeover(p, key, op, now);
    var copy := Mirrored(op, ApplyTo(p, key, op, now).1.workflow);
    MirroredTakeover(m, key, copy, later);
    TakenOverAgree(p[key], m[key], Canonical(op.successor).value);
  }

  lemma TwinDelete(p: Store, m: Store, key: WorkflowKey, op: Op, now: Time, later: Time)
    requires Deletes(op) && ApplyTo(p, key, op, now).1.Ok? && ApplyTo(m, key, op, later).1.Ok?
    ensures key !in ApplyTo(p, key, op, now).0 && key !in ApplyTo(m, key, op, later).0
  {
  }

  predicate Mirrorable(op: Op) { !op.Load? && !op.MarkRecoveryRequired? }

  /** Two memory stores that agree about a key agree after any mutation whose mirrored call goes through, whenever each was carried out, exactly when the snapshot the primary now holds can be marshalled. */
  lemma TwinsStayInStep(p: Store, m: Store, key: WorkflowKey, op: Op, now: Time, later: Time)
    requires StoreInv(p) && CompleteKey(key) && now != 0 && Mirrorable(op)
    requires AgreeAt(p, m, key) && ApplyTo(p, key, op, now).1.Ok?
    requires var copy := Mirrored(op, ApplyTo(p, key, op, now).1.workflow); ApplyTo(m, key, copy, later).1.Ok?
    ensures var (p', reply) := ApplyTo(p, key, op, now);
            var m' := ApplyTo(m, key, Mirrored(op, reply.workflow), later).0;
            AgreeAt(p', m', key) <==> (Writes(op) ==> key in p' && ToDTO(p'[key].snapshot).Some?)
  {
    if Writes(op) {
      MirroredWriteInstalls(p, m, key, op, now, later);
      TwinWrite(ApplyTo(p, key, op, now).0[key], ApplyTo(m, key, Mirrored(op, ApplyTo(p, key, op, now).1.workflow), later).0[key], later);
    } else if op.RecordResult? {
      TwinRecord(p, m, key, op, now, later);
    } else if op.Takeover? {
      TwinTakeover(p, m, key, op, now, later);
    } else {
      TwinDelete(p, m, key, op, now, later);
    }
  }

  /** The failing family: a subscription whose scope is too long to marshal is created in both, and they cannot be compared from then on. */
  lemma LongScopeFallsOutOfStep(key: WorkflowKey, w: WorkflowSnapshot, now: Time, later: Time)
    requires CompleteKey(key) && now != 0 && |w.trusted.scope| > MAX_KEY
    ensures var (p, reply) := ApplyTo(map[], key, Create(Some(w)), now);
            var (m, answer) := ApplyTo(map[], key, Mirrored(Create(Some(w)), reply.workflow), later);
            reply.Ok? && answer.Ok? && !AgreeAt(p, m, key)
  {
    var (p, reply) := ApplyTo(map[], key, Create(Some(w)), now);
    assert ToDTO(p[key].snapshot).None?;
    TwinsStayInStep(map[], map[], key, Create(Some(w)), now, later);
  }

  /** Loading is the exception: two stores in step fall out of step when the record expires between the primary's reading of the clock and the mirror's. */
  lemma LoadingStaysInStep(p: Store, m: Store, key: WorkflowKey, now: Time, later: Time)
    requires AgreeAt(p, m, key)
    ensures AgreeAt(LoadIn(p, key, now).0, LoadIn(m, key, later).0, key)
            <==> (key in Purge(p, key, now) <==> key in Purge(m, key, later))
  {
  }

  // ---- the shadow store ------------------------------------------------------------------

  datatype ShadowEvent = ShadowEvent(operation: string, code: Finding, primaryVersion: nat, mirrorVersion: nat)

  function VersionOf(seen: Option<VersionedWorkflow>): nat {
    match seen case None => 0 case Some(v) => v.version
  }

  /** What is reported about a mirror's answer; a deletion is reported only when the mirror failed. */
  function ReportsOf(operation: string, op: Op, current: Option<VersionedWorkflow>, answer: Reply): seq<ShadowEvent> {
    match answer
    case Failed(_) => [ShadowEvent(operation, ShadowError, VersionOf(current), 0)]
    case Ok(mirrored) =>
      if Deletes(op) then []
      else match Compare(current, mirrored)
        case None => []
        case Some(code) => [ShadowEvent(operation, code, VersionOf(current), VersionOf(mirrored))]
  }

  type Received = seq<(WorkflowKey, Op)>

  /** A store as its callers know it: what it answers to the last of the calls it has received, in whatever way it depends on all of them, on time or on failures. */
  type Behaviour = Received -> Reply

  class AnyStore {
    const behaviour: Behaviour
    var received: Received

    constructor (behaviour: Behaviour)
      ensures this.behaviour == behaviour && received == []
    {
      this.behaviour, received := behaviour, [];
    }

    method Receive(key: WorkflowKey, op: Op) returns (answer: Reply)
      modifies this
      ensures received == old(received) + [(key, op)] && answer == behaviour(received)
    {
      received := received + [(key, op)];
      answer := behaviour(received);
    }
  }

  /** A memory store is one such store: the state its calls lead to, each at the clock's reading for it. */
  function StateAfter(s: Store, clock: nat -> Time, calls: Received): Store {
    if calls == [] then s
    else
      var last := |calls| - 1;
      Apply(StateAfter(s, clock, calls[..last]), Call(calls[last].0, calls[last].1, clock(last), false)).0
  }

  function MemoryBehaviour(s: Store, clock: nat -> Time): Behaviour {
    (calls: Received) =>
      if calls == [] then Failed(ContextDone)
      else
        var last := |calls| - 1;
        Apply(StateAfter(s, clock, calls[..last]), Call(calls[last].0, calls[last].1, clock(last), false)).1
  }

  lemma MemoryAnswersAsSpecified(s: Store, clock: nat -> Time, calls: Received, key: WorkflowKey, op: Op)
    ensures (StateAfter(s, clock, calls + [(key, op)]), MemoryBehaviour(s, clock)(calls + [(key, op)]))
            == Apply(StateAfter(s, clock, calls), Call(key, op, clock(|calls|), false))
  {
    assert (calls + [(key, op)])[..|calls|] == calls;
  }

  class WorkflowShadowStore {
    const primary: AnyStore
    const mirror: AnyStore
    var reports: seq<ShadowEvent>

    constructor (primary: AnyStore, mirror: AnyStore)
      ensures this.primary == primary && this.mirror == mirror && reports == []
    {
      this.primary, this.mirror, reports := primary, mirror, [];
    }

    /** After the primary succeeded: mirror the call and report, whatever the mirror says. */
    method Mirror(operation: string, key: WorkflowKey, op: Op, current: Option<VersionedWorkflow>)
      modifies this, mirror
      ensures mirror.received == old(mirror.received) + [(key, Mirrored(op, current))]
      ensures reports == old(reports) + ReportsOf(operation, op, current, mirror.behaviour(mirror.received))
    {
      var answer := mirror.Receive(key, Mirrored(op, current));
      reports := reports + ReportsOf(operation, op, current, answer);
    }

    /** What every operation promises, for any two stores: the primary receives exactly the caller's calls and its answer is the caller's, as if there were no mirror; the mirror receives one call per success, and only the reports depend on what it says. */
    twostate predicate Shadows(operation: string, key: WorkflowKey, op: Op, reply: Reply)
      reads this, mirror, primary
    {
      && primary.received == old(primary.received) + [(key, op)] && reply == primary.behaviour(primary.received)
      && mirror.received == old(mirror.received) + (if reply.Ok? then [(key, Mirrored(op, reply.workflow))] else [])
      && reports == old(reports) + (if reply.Ok? then ReportsOf(operation, op, reply.workflow, mirror.behaviour(mirror.received)) else [])
    }

    method Load(key: WorkflowKey) returns (reply: Reply)
      requires primary != mirror
      modifies this, mirror, primary
      ensures Shadows("load", key, Op.Load, reply)
    {
      reply := primary.Receive(key, Op.Load);
      if reply.Ok? { Mirror("load", key, Op.Load, reply.workflow); }
    }

    method Create(key: WorkflowKey, next: Option<WorkflowSnapshot>) returns (reply: Reply)
      requires primary != mirror
      modifies this, mirror, primary
      ensures Shadows("create", key, Op.Create(next), reply)
    {
      reply := primary.Receive(key, Op.Create(next));
      if reply.Ok? { Mirror("create", key, Op.Create(next), reply.workflow); }
    }

    method CompareAndSwap(key: WorkflowKey, expected: nat, next: Option<WorkflowSnapshot>) returns (reply: Reply)
      requires primary != mirror
      modifies this, mirror, primary
      ensures Shadows("compare_and_swap", key, Op.CompareAndSwap(expected, next), reply)
    {
      reply := primary.Receive(key, Op.CompareAndSwap(expected, next));
      if reply.Ok? { Mirror("compare_and_swap", key, Op.CompareAndSwap(expected, next), reply.workflow); }
    }

    method DeleteIfVersion(key: WorkflowKey, expected: nat) returns (reply: Reply)
      requires primary != mirror
      modifies this, mirror, primary
      ensures Shadows("delete", key, Op.DeleteIfVersion(expected), reply)
    {
      reply := primary.Receive(key, Op.DeleteIfVersion(expected));
      if reply.Ok? { Mirror("delete", key, Op.DeleteIfVersion(expected), reply.workflow); }
    }

    method CreateReservedExecution(key: WorkflowKey, next: Option<WorkflowSnapshot>, reservation: Reservation) returns (reply: Reply)
      requires primary != mirror
      modifies this, mirror, primary
      ensures Shadows("create_reserved", key, CreateReserved(next, reservation), reply)
    {
      reply := primary.Receive(key, CreateReserved(next, reservation));
      if reply.Ok? { Mirror("create_reserved", key, CreateReserved(next, reservation), reply.workflow); }
    }

    method ReserveExecution(key: WorkflowKey, expected: nat, next: Option<WorkflowSnapshot>, reservation: Reservation) returns (reply: Reply)
      requires primary != mirror
      modifies this, mirror, primary
      ensures Shadows("reserve", key, Reserve(expected, next, reservation), reply)
    {
      reply := primary.Receive(key, Reserve(expected, next, reservation));
      if reply.Ok? { Mirror("reserve", key, Reserve(expected, next, reservation), reply.workflow); }
    }

    method RecordExecutionResult(key: WorkflowKey, expected: nat, token: string, result: ExecutionResult) returns (reply: Reply)
      requires primary != mirror
      modifies this, mirror, primary
      ensures Shadows("record_result", key, RecordResult(expected, token, result), reply)
    {
      reply := primary.Receive(key, RecordResult(expected, token, result));
      if reply.Ok? { Mirror("record_result", key, RecordResult(expected, token, result), reply.workflow); }
    }

    method FinalizeExecution(key: WorkflowKey, expected: nat, token: string, next: Option<WorkflowSnapshot>) returns (reply: Reply)
      requires primary != mirror
      modifies this, mirror, primary
      ensures Shadows("finalize", key, Finalize(expected, token, next), reply)
    {
      reply := primary.Receive(key, Finalize(expected, token, next));
      if reply.Ok? { Mirror("finalize", key, Finalize(expected, token, next), reply.workflow); }
    }

    method DeleteReservedExecution(key: WorkflowKey, expected: nat, token: string) returns (reply: Reply)
      requires primary != mirror
      modifies this, mirror, primary
      ensures Shadows("delete_reserved", key, DeleteReserved(expected, token), reply)
    {
      reply := primary.Receive(key, DeleteReserved(expected, token));
      if reply.Ok? { Mirror("delete_reserved", key, DeleteReserved(expected, token), reply.workflow); }
    }

    method TakeoverExpiredExecution(key: WorkflowKey, expected: nat, previousToken: string, next: Reservation) returns (reply: Reply)
      requires primary != mirror
      modifies this, mirror, primary
      ensures Shadows("takeover", key, Takeover(expected, previousToken, next), reply)
    {
      reply := primary.Receive(key, Takeover(expected, previousToken, next));
      if reply.Ok? { Mirror("takeover", key, Takeover(expected, previousToken, next), reply.workflow); }
    }
  }
}
