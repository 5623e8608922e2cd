/** What callers of the database store are answered, and the store call behind each answer. */
module DatabaseAnswers {
  import opened Base
  import opened Types
  import opened ReservationCodec
  import opened WorkflowStore
  import opened Protocol
  import opened ShadowStore
  import opened DatabaseRows
  import opened DatabaseStore

  // ---- the answers ------------------------------------------------------------------------

  /** An error of the adapter's or the repository's own checks; callers tell only conflicts and executions in progress from the rest. */
  const INVALID: StoreError := SnapshotRequired

  /** `mapIdleMutationError`. */
  function IdleRefusal(db: Database, key: WorkflowKey, expected: nat): StoreError {
    if key in db && db[key].row.version == expected && db[key].row.columns.status != Idle then InProgress else Conflict
  }

  predicate Marshals(key: WorkflowKey, next: Option<WorkflowSnapshot>, now: Time) {
    next.Some? && Kept(key, next.value, now).Some?
  }

  /** What the caller of an update that does not apply is told; nobody tells the errors of the last case apart. */
  function Refusal(db: Database, key: WorkflowKey, op: Op, now: Time): StoreError {
    match op
    case Create(next) => if Marshals(key, next, now) then Conflict else INVALID
    case CreateReserved(next, r) => if Marshals(key, next, now) && Canonical(r).Some? then Conflict else INVALID
    case CompareAndSwap(expected, next) => if Marshals(key, next, now) && expected != 0 then IdleRefusal(db, key, expected) else INVALID
    case Reserve(expected, next, r) =>
      if Marshals(key, next, now) && expected != 0 && Canonical(r).Some? then IdleRefusal(db, key, expected) else INVALID
    case DeleteIfVersion(expected) => if expected != 0 then IdleRefusal(db, key, expected) else INVALID
    case _ => INVALID
  }

  /** What the caller of an update that applies is given: the row read back, unless it was deleted. */
  function Given(db: Database, key: WorkflowKey, op: Op): Reply {
    if op.DeleteIfVersion? || op.DeleteReserved? || key !in db then Ok(None)
    else match DecodeRow(db[key]) case Some(v) => Ok(Some(v)) case None => Failed(INVALID)
  }

  function Answer(db: Database, key: WorkflowKey, op: Op, now: Time): (Database, Reply) {
    if !CompleteKey(key) then (db, Failed(KeyIncomplete))
    else match Updated(db, key, op, now, now)
      case None => (db, Failed(Refusal(db, key, op, now)))
      case Some(next) => (next, Given(next, key, op))
  }

  /** A call as its caller experiences it. */
  function Asked(db: Database, key: WorkflowKey, op: Op, now: Time, fault: Fault): (Database, Reply) {
    if fault.Refused? then (db, Failed(ContextDone))
    else
      var (next, reply) := Answer(db, key, op, now);
      (next, if Lost(fault) then Failed(ContextDone) else reply)
  }

  /** The call was carried out. */
  predicate Done(db: Database, key: WorkflowKey, op: Op, now: Time, fault: Fault) {
    !fault.Refused? && CompleteKey(key) && Updated(db, key, op, now, now).Some?
  }

  // ---- answers that no worker tells apart ---------------------------------------------------

  predicate Alike(a: Option<VersionedWorkflow>, b: Option<VersionedWorkflow>) {
    if a.None? || b.None? then a.None? && b.None? else a.value.version == b.value.version && a.value.execution == b.value.execution
  }

  predicate SameError(a: StoreError, b: StoreError) {
    (a == Conflict <==> b == Conflict) && (a == InProgress <==> b == InProgress)
  }

  predicate AlikeReplies(a: Reply, b: Reply) {
    if a.Ok? && b.Ok? then Alike(a.workflow, b.workflow) else a.Failed? && b.Failed? && SameError(a.error, b.error)
  }

  // ---- the store call behind a call to the database ------------------------------------------

  /** The store's part: it keeps the snapshot the database kept, drops nothing as expired but in a load, and refuses what the database refuses for reasons of its own. */
  function Behind(db: Database, key: WorkflowKey, op: Op, now: Time, fault: Fault): Fault {
    if fault.Refused? || !CompleteKey(key) then Fault.Refused
    else if Updated(db, key, op, now, now).Some? then
      Own(if op.Load? || op.Takeover? then now else 0, SnapshotIn(KeptIn(key, op, now)), Lost(fault))
    else if !Lost(fault) && Refusal(db, key, op, now) in {Conflict, InProgress} then Own(0, None, false)
    else Fault.Refused
  }

  lemma CallBehindUpdate(db: Database, s: System, key: WorkflowKey, op: Op, fault: Fault)
    requires Done(db, key, op, s.now, fault) && (key in db ==> db[key].key == key)
    ensures CallOf(s, key, op, Behind(db, key, op, s.now, fault)) == Simulating(key, op, s.now)
  {
    if Writes(op) { UpdatedMarshals(db, key, op, s.now); }
    KeepingIsKeptIn(key, op, s.now);
    BehindKeeps(db, s, key, op, fault);
  }

  lemma UpdatedMarshals(db: Database, key: WorkflowKey, op: Op, now: Time)
    requires Updated(db, key, op, now, now).Some? && (key in db ==> db[key].key == key) && Writes(op)
    ensures Marshals(key, SnapshotIn(op), now)
  {
  }

  lemma KeepingIsKeptIn(key: WorkflowKey, op: Op, now: Time)
    requires Writes(op) ==> Marshals(key, SnapshotIn(op), now)
    ensures Keeping(op, SnapshotIn(KeptIn(key, op, now))) == KeptIn(key, op, now)
  {
  }

  lemma BehindKeeps(db: Database, s: System, key: WorkflowKey, op: Op, fault: Fault)
    requires Done(db, key, op, s.now, fault) && Keeping(op, SnapshotIn(KeptIn(key, op, s.now))) == KeptIn(key, op, s.now)
    ensures CallOf(s, key, op, Behind(db, key, op, s.now, fault)) == Simulating(key, op, s.now)
  {
  }

  lemma RowAlike(db: Database, s: Store, key: WorkflowKey)
    requires Mirrors(db, s) && StoreInv(s) && key in db
    ensures key in s && DecodeRow(db[key]).Some? && Alike(DecodeRow(db[key]), Some(Seen(s[key])))
  {
    MirrorsAt(db, s, key);
    SeenIsStored(s, key);
    StandingRowReads(key, db[key], s[key]);
  }

  lemma StandingRowReads(key: WorkflowKey, r: FullRow, record: VersionedWorkflow)
    requires Stands(key, r, record)
    ensures DecodeRow(r).Some? && DecodeRow(r).value.version == record.version && DecodeRow(r).value.execution == record.execution
  {
  }

  lemma SuccessGives(s: Store, key: WorkflowKey, op: Op, now: Time)
    requires ApplyTo(s, key, op, now).1.Ok?
    ensures var (next, reply) := ApplyTo(s, key, op, now);
            reply == Ok(if Deletes(op) || key !in next then None else Some(Seen(next[key])))
  {
    if !op.Load? { SuccessRaisesVersionByOne(s, key, op, now); }
    if Deletes(op) { DeletingGivesNothing(s, key, op, now); }
  }

  lemma DeletingGivesNothing(s: Store, key: WorkflowKey, op: Op, now: Time)
    requires Deletes(op) && ApplyTo(s, key, op, now).1.Ok?
    ensures ApplyTo(s, key, op, now).1 == Ok(None)
  {
  }

  lemma SimulatingIsThere(key: WorkflowKey, op: Op, now: Time)
    requires CompleteKey(key)
    ensures var c := Simulating(key, op, now);
            c.key == key && !c.contextDone && (Deletes(c.op) <==> Deletes(op)) && (forall s :: Apply(s, c) == ApplyTo(s, key, c.op, c.now))
  {
  }

  lemma GivenAlike(db: Database, s: Store, key: WorkflowKey, op: Op)
    requires Mirrors(db, s) && StoreInv(s) && (Deletes(op) || op.Load? || key in s)
    ensures AlikeReplies(Given(db, key, op), Ok(if Deletes(op) || key !in s then None else Some(Seen(s[key]))))
  {
    if key in db { RowAlike(db, s, key); }
    MirrorsAt(db, s, key);
  }

  /** An update that applies: the store call behind it succeeds, ends in step, and is answered alike. */
  lemma AppliedAnswerFollows(db: Database, s: Store, key: WorkflowKey, op: Op, now: Time)
    requires Mirrors(db, s) && StoreInv(s) && CompleteKey(key) && Lawful(s, key, op) && Updated(db, key, op, now, now).Some?
    ensures var c := Simulating(key, op, now);
            && Succeeds(s, c) && Mirrors(Updated(db, key, op, now, now).value, Apply(s, c).0)
            && AlikeReplies(Given(Updated(db, key, op, now, now).value, key, op), Apply(s, c).1)
  {
    var c, next := Simulating(key, op, now), Updated(db, key, op, now, now).value;
    AppliedUpdateFollows(db, s, key, op, now);
    SimulatingIsThere(key, op, now);
    SuccessGives(s, key, c.op, c.now);
    GivenAlike(next, Apply(s, c).0, key, op);
  }

  lemma AppliedUpdateFollows(db: Database, s: Store, key: WorkflowKey, op: Op, now: Time)
    requires Mirrors(db, s) && StoreInv(s) && CompleteKey(key) && Lawful(s, key, op) && Updated(db, key, op, now, now).Some?
    ensures var c := Simulating(key, op, now);
            && Succeeds(s, c) && StoreInv(Apply(s, c).0) && Mirrors(Updated(db, key, op, now, now).value, Apply(s, c).0)
            && (Deletes(op) || op.Load? || key in Apply(s, c).0)
  {
    StepOfUpdate(db, key, op, now);
    StepRefines(db, s, DatabaseStore.Step(key, op, now, now));
    if !Deletes(op) && !op.Load? { UpdatedRowIsThere(db, key, op, now); }
    SameKeys(Updated(db, key, op, now, now).value, Apply(s, Simulating(key, op, now)).0, key);
  }

  lemma StepOfUpdate(db: Database, key: WorkflowKey, op: Op, now: Time)
    requires Updated(db, key, op, now, now).Some?
    ensures var e := DatabaseStore.Step(key, op, now, now);
            CallOfStep(db, e) == Simulating(key, op, now) && After(db, e) == Updated(db, key, op, now, now).value
  {
  }

  lemma SameKeys(db: Database, s: Store, key: WorkflowKey)
    requires Mirrors(db, s)
    ensures key in db <==> key in s
  {
    assert key in db.Keys <==> key in s.Keys;
  }

  lemma UpdatedRowIsThere(db: Database, key: WorkflowKey, op: Op, now: Time)
    requires Updated(db, key, op, now, now).Some? && !Deletes(op) && !op.Load?
    ensures key in Updated(db, key, op, now, now).value
  {
  }

  // ---- refusals that callers tell apart --------------------------------------------------------

  /** What the idle mutations look at is the same in the row and in the record. */
  predicate IdleAlike(db: Database, s: Store, key: WorkflowKey) {
    && (key in db <==> key in s)
    && (key in db ==>
          && db[key].key == key && db[key].row.version == s[key].version && s[key].snapshot.expiresAt != 0
          && (db[key].row.columns.status == Idle <==> s[key].execution.None?)
          && (db[key].row.columns.status == Idle ==> db[key].row.columns == NO_AUTHORITY))
  }

  lemma StandingIsIdleAlike(key: WorkflowKey, r: FullRow, record: VersionedWorkflow)
    requires Stands(key, r, record)
    ensures r.key == key && r.row.version == record.version && record.snapshot.expiresAt != 0
    ensures r.row.columns.status == Idle <==> record.execution.None?
    ensures r.row.columns.status == Idle ==> r.row.columns == NO_AUTHORITY
  {
    IdleRowsAreFree(r.row, record);
    FreeRowsAreIdle(r.row, record);
  }

  lemma FreeRowsAreIdle(row: Row, record: VersionedWorkflow)
    requires Represents(row, record)
    ensures record.execution.None? ==> row.columns == NO_AUTHORITY
  {
  }

  lemma MirroredIsIdleAlike(db: Database, s: Store, key: WorkflowKey)
    requires Mirrors(db, s)
    ensures IdleAlike(db, s, key)
  {
    SameKeys(db, s, key);
    if key in db { StandingIsIdleAlike(key, db[key], s[key]); }
  }

  lemma CreationRefused(db: Database, s: Store, key: WorkflowKey, next: Option<WorkflowSnapshot>, now: Time)
    requires IdleAlike(db, s, key) && CompleteKey(key) && Updated(db, key, Create(next), now, now).None? && Marshals(key, next, now)
    ensures Apply(s, Call(key, Create(next), 0, false)) == (s, Failed(Conflict))
  {
    CreationMarshals(key, next, now);
  }

  lemma ReservedCreationRefused(db: Database, s: Store, key: WorkflowKey, next: Option<WorkflowSnapshot>, r: Reservation, now: Time)
    requires IdleAlike(db, s, key) && CompleteKey(key) && Updated(db, key, CreateReserved(next, r), now, now).None?
    requires Marshals(key, next, now) && Canonical(r).Some?
    ensures Apply(s, Call(key, CreateReserved(next, r), 0, false)) == (s, Failed(Conflict))
  {
    ReservedCreationMeetsARow(db, key, next, r, now);
    StoreMeetsARecord(s, key, next, r);
  }

  lemma ReservedCreationMeetsARow(db: Database, key: WorkflowKey, next: Option<WorkflowSnapshot>, r: Reservation, now: Time)
    requires Updated(db, key, CreateReserved(next, r), now, now).None? && Marshals(key, next, now) && Canonical(r).Some?
    ensures key in db
  {
    CreationMarshals(key, next, now);
    ReservedColumnsDecode(Executing, r);
    if key !in db { InsertingApplies(db, key, next, r, now); }
  }

  lemma InsertingApplies(db: Database, key: WorkflowKey, next: Option<WorkflowSnapshot>, r: Reservation, now: Time)
    requires key !in db && next.Some? && EncodeRow(key, next.value, now).Some? && ReservationColumns(Executing, r).Some?
    ensures Inserted(db, key, next, Some(r), now).Some?
  {
  }

  lemma StoreMeetsARecord(s: Store, key: WorkflowKey, next: Option<WorkflowSnapshot>, r: Reservation)
    requires CompleteKey(key) && key in s && s[key].snapshot.expiresAt != 0 && next.Some? && Canonical(r).Some?
    ensures Apply(s, Call(key, CreateReserved(next, r), 0, false)) == (s, Failed(Conflict))
  {
  }

  lemma CreationMarshals(key: WorkflowKey, next: Option<WorkflowSnapshot>, now: Time)
    requires Marshals(key, next, now)
    ensures EncodeRow(key, next.value, now).Some?
  {
  }

  lemma SwapRefused(db: Database, s: Store, key: WorkflowKey, op: Op, now: Time)
    requires IdleAlike(db, s, key) && CompleteKey(key) && op.CompareAndSwap?
    requires Updated(db, key, op, now, now).None? && Refusal(db, key, op, now) != INVALID
    ensures Apply(s, Call(key, op, 0, false)) == (s, Failed(Refusal(db, key, op, now)))
  {
  }

  lemma ReservingRefused(db: Database, s: Store, key: WorkflowKey, op: Op, now: Time)
    requires IdleAlike(db, s, key) && CompleteKey(key) && op.Reserve?
    requires Updated(db, key, op, now, now).None? && Refusal(db, key, op, now) != INVALID
    ensures Apply(s, Call(key, op, 0, false)) == (s, Failed(Refusal(db, key, op, now)))
  {
    ReservingMeetsNoIdleRow(db, key, op, now);
    StoreReservesNothing(s, key, op);
  }

  lemma ReservingMeetsNoIdleRow(db: Database, key: WorkflowKey, op: Op, now: Time)
    requires op.Reserve? && (key in db ==> db[key].key == key)
    requires Updated(db, key, op, now, now).None? && Refusal(db, key, op, now) != INVALID
    ensures op.next.Some? && Canonical(op.reservation).Some? && Refusal(db, key, op, now) == IdleRefusal(db, key, op.expected)
    ensures key in db && db[key].row.version == op.expected ==> db[key].row.columns != NO_AUTHORITY
  {
    ReservedColumnsDecode(Executing, op.reservation);
  }

  lemma StoreReservesNothing(s: Store, key: WorkflowKey, op: Op)
    requires CompleteKey(key) && op.Reserve? && op.next.Some? && Canonical(op.reservation).Some?
    requires key in s ==> s[key].snapshot.expiresAt != 0 && (s[key].version == op.expected ==> s[key].execution.Some?)
    ensures Apply(s, Call(key, op, 0, false))
            == (s, Failed(if key in s && s[key].version == op.expected then InProgress else Conflict))
  {
  }

  lemma DeletionRefused(db: Database, s: Store, key: WorkflowKey, op: Op, now: Time)
    requires IdleAlike(db, s, key) && CompleteKey(key) && op.DeleteIfVersion? && Updated(db, key, op, now, now).None? && Refusal(db, key, op, now) != INVALID
    ensures Apply(s, Call(key, op, 0, false)) == (s, Failed(Refusal(db, key, op, now)))
  {
  }

  lemma RefusedAnswerFollows(db: Database, s: Store, key: WorkflowKey, op: Op, now: Time)
    requires Mirrors(db, s) && CompleteKey(key) && Updated(db, key, op, now, now).None? && Refusal(db, key, op, now) in {Conflict, InProgress}
    ensures Apply(s, Call(key, op, 0, false)) == (s, Failed(Refusal(db, key, op, now)))
  {
    MirroredIsIdleAlike(db, s, key);
    match op
    case Create(next) => CreationRefused(db, s, key, next, now);
    case CreateReserved(next, r) => ReservedCreationRefused(db, s, key, next, r, now);
    case CompareAndSwap(_, _) => SwapRefused(db, s, key, op, now);
    case Reserve(_, _, _) => ReservingRefused(db, s, key, op, now);
    case DeleteIfVersion(_) => DeletionRefused(db, s, key, op, now);
    case _ =>
  }

  // ---- every answer ------------------------------------------------------------------------------

  /** The database and the store behind it after a call, and what each answered. */
  predicate InStep(next: Database, reply: Reply, store: Store, answer: Reply) {
    Mirrors(next, store) && AlikeReplies(reply, answer)
  }

  lemma DoneCall(db: Database, key: WorkflowKey, op: Op, now: Time, fault: Fault)
    requires Done(db, key, op, now, fault)
    ensures var next := Updated(db, key, op, now, now).value;
            Asked(db, key, op, now, fault) == (next, if Lost(fault) then Failed(ContextDone) else Given(next, key, op))
    ensures Behind(db, key, op, now, fault).Own? && Behind(db, key, op, now, fault).lost == Lost(fault)
  {
  }

  lemma IssueOwn(s: System, key: WorkflowKey, op: Op, fault: Fault)
    requires fault.Own?
    ensures var c := CallOf(s, key, op, fault);
            Issue(s, key, op, fault) == (Apply(s.store, c).0, if fault.lost then Failed(ContextDone) else Apply(s.store, c).1)
  {
  }

  lemma UndoneCall(db: Database, key: WorkflowKey, op: Op, now: Time, fault: Fault)
    requires !Done(db, key, op, now, fault)
    ensures var behind, (next, reply) := Behind(db, key, op, now, fault), Asked(db, key, op, now, fault);
            && next == db && reply.Failed?
            && (if behind.Own?
                then behind == Own(0, None, false) && CompleteKey(key) && Updated(db, key, op, now, now).None?
                     && reply.error == Refusal(db, key, op, now) && reply.error in {Conflict, InProgress}
                else behind == Fault.Refused && reply.error !in {Conflict, InProgress})
  {
  }

  lemma CallUnswept(s: System, key: WorkflowKey, op: Op)
    ensures CallOf(s, key, op, Own(0, None, false)) == Call(key, op, 0, false)
  {
  }

  /** Whatever the database answers, the store call behind it ends in step with the database and is answered alike. */
  lemma AnswerFollows(db: Database, s: System, key: WorkflowKey, op: Op, fault: Fault)
    requires Mirrors(db, s.store) && StoreInv(s.store) && (CompleteKey(key) ==> Lawful(s.store, key, op))
    ensures var behind := Behind(db, key, op, s.now, fault);
            var (next, reply), (store, answer) := Asked(db, key, op, s.now, fault), Issue(s, key, op, behind);
            && InStep(next, reply, store, answer)
            && (Done(db, key, op, s.now, fault) <==> Succeeds(s.store, CallOf(s, key, op, behind)))
  {
    if Done(db, key, op, s.now, fault) {
      DoneCallFollows(db, s, key, op, fault);
    } else {
      UndoneCallFollows(db, s, key, op, fault);
    }
  }

  lemma UndoneCallFollows(db: Database, s: System, key: WorkflowKey, op: Op, fault: Fault)
    requires Mirrors(db, s.store) && !Done(db, key, op, s.now, fault)
    ensures var behind := Behind(db, key, op, s.now, fault);
            var (next, reply), (store, answer) := Asked(db, key, op, s.now, fault), Issue(s, key, op, behind);
            && InStep(next, reply, store, answer) && !Succeeds(s.store, CallOf(s, key, op, behind))
  {
    var behind := Behind(db, key, op, s.now, fault);
    UndoneCall(db, key, op, s.now, fault);
    if behind.Own? {
      RefusedAnswerFollows(db, s.store, key, op, s.now);
      CallUnswept(s, key, op);
      IssueOwn(s, key, op, behind);
    } else {
      RefusedCallDoesNothing(s, key, op);
    }
  }

  lemma DoneCallFollows(db: Database, s: System, key: WorkflowKey, op: Op, fault: Fault)
    requires Mirrors(db, s.store) && StoreInv(s.store) && Lawful(s.store, key, op) && Done(db, key, op, s.now, fault)
    ensures var behind := Behind(db, key, op, s.now, fault);
            var (next, reply), (store, answer) := Asked(db, key, op, s.now, fault), Issue(s, key, op, behind);
            && InStep(next, reply, store, answer) && Succeeds(s.store, CallOf(s, key, op, behind))
  {
    MirroredIsIdleAlike(db, s.store, key);
    DoneCall(db, key, op, s.now, fault);
    CallBehindUpdate(db, s, key, op, fault);
    AppliedAnswerFollows(db, s.store, key, op, s.now);
    IssueOwn(s, key, op, Behind(db, key, op, s.now, fault));
  }

  lemma RefusedCallDoesNothing(s: System, key: WorkflowKey, op: Op)
    ensures Issue(s, key, op, Fault.Refused) == (s.store, Failed(ContextDone)) && !Succeeds(s.store, CallOf(s, key, op, Fault.Refused))
  {
  }
}
