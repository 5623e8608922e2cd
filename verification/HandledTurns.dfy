/** The protocol with the pipeline in it: when every turn's outcome is what the pipeline makes of the message and the workflow loaded, nothing need be assumed of prepared requests. */
module HandledTurns {
  import opened Base
  import opened Types
  import opened BusinessKey
  import opened WorkflowStore
  import opened Protocol
  import opened ProtocolSteps
  import opened PolicyGates
  import opened StoreRuns
  import opened ShadowStore
  import opened Pipeline
  import opened PreparedWrites
  import opened TurnPersistence
  import opened Reaching
  import opened SnapshotCodec
  import opened DatabaseRows
  import opened DatabaseStore
  import opened DatabaseAnswers

  // ---- turns the pipeline handles ------------------------------------------------------------

  function Received(current: Option<VersionedWorkflow>): Option<WorkflowSnapshot> {
    match current case None => None case Some(v) => Some(v.snapshot)
  }

  /** The outcome of this worker's turn is the pipeline's, for some user with this key, draft and answers of the resolvers. */
  ghost predicate Handles(digest: Digest, x: Worker, outcome: TurnOutcome)
    requires x.Deciding?
  {
    exists env, user, draft, h ::
      x.key == KeyOf(user) && outcome == OutcomeOf(outcome.requestID, Handled(digest, env, user, draft, Received(x.current), h))
  }

  /** A store's own form of a workflow is as usable as what it was given. */
  predicate KeepsWorkflows(fault: Fault) { fault.Own? ==> Usable(fault.kept) }

  predicate StoresWorkflows(a: Action) {
    match a
    case PersistStep(_, fault) => KeepsWorkflows(fault)
    case ReserveStep(_, fault) => KeepsWorkflows(fault)
    case _ => true
  }

  ghost predicate HandledEnabled(digest: Digest, s: System, a: Action) {
    && StoresWorkflows(a)
    && match a
       case DecideStep(w, outcome, token) => w in s.workers && s.workers[w].Deciding? && Generates(s, token) && Handles(digest, s.workers[w], outcome)
       case _ => Enabled(digest, s, a)
  }

  // ---- every workflow is one its conversation reached ------------------------------------------

  predicate StoreUsable(s: Store) { forall key | key in s :: Usable(Some(s[key].snapshot)) }

  predicate WorkerUsable(x: Worker) {
    match x
    case Deciding(_, _, current) => Usable(Received(current))
    case Persisting(_, _, _, outcome) => Usable(outcome.after)
    case Reserving(_, _, _, snapshot, _, _) => Usable(Some(snapshot))
    case _ => true
  }

  predicate AllUsable(s: System) {
    StoreUsable(s.store) && forall w | w in s.workers :: WorkerUsable(s.workers[w])
  }

  lemma UsableCopies(w: WorkflowSnapshot, key: WorkflowKey, version: nat, existing: Option<WorkflowSnapshot>, now: Time)
    requires Usable(Some(w))
    ensures Usable(Some(Clone(w))) && Usable(Some(Prepare(key, w, version, existing, now))) && Usable(Some(w.(version := version)))
  {
  }

  /** What one operation leaves under its key is what was there, but for the version, or the prepared form of what it handed over. */
  lemma WritingLeavesUsable(s: Store, key: WorkflowKey, op: Op, now: Time)
    requires (key in s ==> Usable(Some(s[key].snapshot))) && Usable(SnapshotIn(op)) && Writes(op)
    ensures var next := ApplyTo(s, key, op, now).0; key in next ==> Usable(Some(next[key].snapshot))
  {
    if ApplyTo(s, key, op, now).1.Ok? {
      WriteInstalls(s, key, op, now);
      UsableCopies(op.next.value, key, VersionWritten(op), ShadowStore.Replaced(s, key, op, now), now);
    } else {
      FailedKeeps(s, key, op, now);
    }
  }

  lemma FailedKeeps(s: Store, key: WorkflowKey, op: Op, now: Time)
    requires ApplyTo(s, key, op, now).1.Failed?
    ensures var next := ApplyTo(s, key, op, now).0; key in next ==> key in s && next[key] == s[key]
  {
    ApplyToShape(s, key, op, now);
  }

  lemma ConcludingLeavesUsable(s: Store, key: WorkflowKey, op: Op, now: Time)
    requires (key in s ==> Usable(Some(s[key].snapshot))) && (op.RecordResult? || op.Takeover? || op.MarkRecoveryRequired?)
    ensures var next := ApplyTo(s, key, op, now).0; key in next ==> Usable(Some(next[key].snapshot))
  {
    match op
    case RecordResult(_, _, _) => RecordingLeavesUsable(s, key, op, now);
    case Takeover(_, _, _) => TakingOverLeavesUsable(s, key, op, now);
    case MarkRecoveryRequired(_, _, _) => MarkingLeavesUsable(s, key, op, now);
  }

  lemma RecordingLeavesUsable(s: Store, key: WorkflowKey, op: Op, now: Time)
    requires (key in s ==> Usable(Some(s[key].snapshot))) && op.RecordResult?
    ensures var next := ApplyTo(s, key, op, now).0; key in next ==> Usable(Some(next[key].snapshot))
  {
  }

  lemma TakingOverLeavesUsable(s: Store, key: WorkflowKey, op: Op, now: Time)
    requires (key in s ==> Usable(Some(s[key].snapshot))) && op.Takeover?
    ensures var next := ApplyTo(s, key, op, now).0; key in next ==> Usable(Some(next[key].snapshot))
  {
  }

  lemma MarkingLeavesUsable(s: Store, key: WorkflowKey, op: Op, now: Time)
    requires (key in s ==> Usable(Some(s[key].snapshot))) && op.MarkRecoveryRequired?
    ensures var next := ApplyTo(s, key, op, now).0; key in next ==> Usable(Some(next[key].snapshot))
  {
  }

  lemma RemovingLeavesUsable(s: Store, key: WorkflowKey, op: Op, now: Time)
    requires (key in s ==> Usable(Some(s[key].snapshot))) && (op.Load? || Deletes(op))
    ensures var next := ApplyTo(s, key, op, now).0; key in next ==> Usable(Some(next[key].snapshot))
  {
  }

  lemma AppliedToUsable(s: Store, c: Call)
    requires StoreUsable(s) && Usable(SnapshotIn(c.op))
    ensures StoreUsable(Apply(s, c).0)
  {
    FailureChangesNothing(s, c);
    if Acts(c) {
      if Writes(c.op) { WritingLeavesUsable(s, c.key, c.op, c.now); }
      else if c.op.Load? || Deletes(c.op) { RemovingLeavesUsable(s, c.key, c.op, c.now); }
      else { ConcludingLeavesUsable(s, c.key, c.op, c.now); }
    }
  }

  // ---- every step ------------------------------------------------------------------------------

  /** What was assumed of a prepared request holds of every handled turn. */
  lemma HandledTurnsAreEnabled(digest: Digest, s: System, a: Action)
    requires AllUsable(s) && HandledEnabled(digest, s, a)
    ensures Enabled(digest, s, a)
  {
    if a.DecideStep? { HandledOutcome(digest, s.workers[a.worker], a.outcome); }
  }

  /** A handled turn prepares only admissible requests, and leaves a usable workflow. */
  lemma HandledOutcome(digest: Digest, x: Worker, outcome: TurnOutcome)
    requires x.Deciding? && WorkerUsable(x) && Handles(digest, x, outcome)
    ensures outcome.prepared.Some? ==> Admissible(digest, x.key, outcome.prepared.value)
    ensures Usable(outcome.after)
  {
    var env, user, draft, h :|
      x.key == KeyOf(user) && outcome == OutcomeOf(outcome.requestID, Handled(digest, env, user, draft, Received(x.current), h));
    PreparedWritesAreAdmissible(digest, env, user, draft, Received(x.current), h);
    TurnsLeaveWorkflowsConsistent(digest, env, user, draft, Received(x.current), h);
  }

  lemma CallKeepsUsable(s: System, key: WorkflowKey, op: Op, fault: Fault)
    requires StoreUsable(s.store) && Usable(SnapshotIn(op)) && (Writes(op) ==> KeepsWorkflows(fault))
    ensures StoreUsable(Issue(s, key, op, fault).0)
  {
    OwnFormIsUsable(s, key, op, fault);
    AppliedToUsable(s.store, CallOf(s, key, op, fault));
  }

  lemma OwnFormIsUsable(s: System, key: WorkflowKey, op: Op, fault: Fault)
    requires Usable(SnapshotIn(op)) && (Writes(op) ==> KeepsWorkflows(fault))
    ensures Usable(SnapshotIn(CallOf(s, key, op, fault).op))
  {
  }

  /** The reply to a load is a copy of what is stored. */
  lemma LoadedIsUsable(s: System, x: Worker, fault: Fault)
    requires StoreUsable(s.store) && x.Loading?
    ensures WorkerUsable(AfterLoad(x, Issue(s, x.key, Load, fault).1))
  {
    var c := CallOf(s, x.key, Load, fault);
    if c.key in s.store { UsableCopies(s.store[c.key].snapshot, c.key, 0, None, 0); }
  }

  lemma ReservedSnapshotIsUsable(outcome: TurnOutcome, request: OperationRequest, key: WorkflowKey, now: Time)
    requires Usable(outcome.after)
    ensures Usable(ReservationSnapshot(outcome, request, key, now))
  {
    if outcome.after.Some? { UsableCopies(outcome.after.value, key, 0, None, 0); }
  }

  lemma DecidedIsUsable(s: System, x: Worker, outcome: TurnOutcome, token: string)
    requires x.Deciding? && WorkerUsable(x) && Usable(outcome.after)
    ensures outcome.prepared.Some? ==> WorkerUsable(Coordinated(s, x, outcome, outcome.prepared.value, token))
    ensures WorkerUsable(Persisting(x.key, x.second, x.current, outcome))
  {
    if outcome.prepared.Some? { ReservedSnapshotIsUsable(outcome, outcome.prepared.value, x.key, s.now); }
  }

  lemma PersistedIsUsable(x: Worker)
    requires x.Persisting? && WorkerUsable(x) && PersistOp(x.current, x.outcome).Some?
    ensures Usable(SnapshotIn(PersistOp(x.current, x.outcome).value))
  {
    if x.outcome.after.Some? { UsableCopies(x.outcome.after.value, x.key, 0, None, 0); }
  }

  /** One store call and one worker's move keep every workflow usable. */
  lemma MoveKeepsUsable(s: System, t: System, w: nat)
    requires AllUsable(s) && StoreUsable(t.store) && w in t.workers && t.workers == s.workers[w := t.workers[w]] && WorkerUsable(t.workers[w])
    ensures AllUsable(t)
  {
  }

  lemma LoadKeepsUsable(digest: Digest, s: System, a: Action)
    requires AllUsable(s) && a.LoadStep? && Enabled(digest, s, a)
    ensures AllUsable(Perform(digest, s, a))
  {
    var x := s.workers[a.worker];
    CallKeepsUsable(s, x.key, Load, a.fault);
    LoadedIsUsable(s, x, a.fault);
    MoveKeepsUsable(s, Perform(digest, s, a), a.worker);
  }

  lemma DecideKeepsUsable(digest: Digest, s: System, a: Action)
    requires AllUsable(s) && a.DecideStep? && Enabled(digest, s, a) && Usable(a.outcome.after)
    ensures AllUsable(Perform(digest, s, a))
  {
    DecidedIsUsable(s, s.workers[a.worker], a.outcome, a.token);
    MoveKeepsUsable(s, Perform(digest, s, a), a.worker);
  }

  lemma PersistKeepsUsable(digest: Digest, s: System, a: Action)
    requires AllUsable(s) && a.PersistStep? && Enabled(digest, s, a) && KeepsWorkflows(a.fault)
    ensures AllUsable(Perform(digest, s, a))
  {
    var x := s.workers[a.worker];
    var op := PersistOp(x.current, x.outcome);
    if op.Some? {
      PersistedIsUsable(x);
      CallKeepsUsable(s, x.key, op.value, a.fault);
    }
    MoveKeepsUsable(s, Perform(digest, s, a), a.worker);
  }

  lemma ReserveKeepsUsable(digest: Digest, s: System, a: Action)
    requires AllUsable(s) && a.ReserveStep? && Enabled(digest, s, a) && KeepsWorkflows(a.fault)
    ensures AllUsable(Perform(digest, s, a))
  {
    var x := s.workers[a.worker];
    CallKeepsUsable(s, x.key, ReserveOp(x), a.fault);
    MoveKeepsUsable(s, Perform(digest, s, a), a.worker);
  }

  /** Calls of the other workers hand no workflow to the store. */
  lemma OthersKeepUsable(digest: Digest, s: System, a: Action)
    requires AllUsable(s) && Enabled(digest, s, a) && !a.Tick? && !a.LoadStep? && !a.DecideStep? && !a.PersistStep? && !a.ReserveStep?
    ensures AllUsable(Perform(digest, s, a))
  {
    EveryActionIsOneStoreCall(digest, s, a);
    HandsNothingOver(digest, s, a);
    HoldsNoWorkflow(digest, s, a);
    AppliedToUsable(s.store, StoreCall(digest, s, a));
    MoveKeepsUsable(s, Perform(digest, s, a), a.worker);
  }

  lemma HandsNothingOver(digest: Digest, s: System, a: Action)
    requires Enabled(digest, s, a) && !a.Tick? && !a.LoadStep? && !a.DecideStep? && !a.PersistStep? && !a.ReserveStep?
    ensures SnapshotIn(StoreCall(digest, s, a).op).None?
  {
  }

  lemma HoldsNoWorkflow(digest: Digest, s: System, a: Action)
    requires Enabled(digest, s, a) && !a.Tick? && !a.LoadStep? && !a.DecideStep? && !a.PersistStep? && !a.ReserveStep?
    ensures var t := Perform(digest, s, a);
            a.worker in t.workers && t.workers == s.workers[a.worker := t.workers[a.worker]] && WorkerUsable(t.workers[a.worker])
  {
  }

  lemma HandledStepsKeepUsable(digest: Digest, s: System, a: Action)
    requires AllUsable(s) && HandledEnabled(digest, s, a)
    ensures Enabled(digest, s, a) && AllUsable(Perform(digest, s, a))
  {
    HandledTurnsAreEnabled(digest, s, a);
    if a.LoadStep? { LoadKeepsUsable(digest, s, a); }
    else if a.DecideStep? { HandledOutcome(digest, s.workers[a.worker], a.outcome); DecideKeepsUsable(digest, s, a); }
    else if a.PersistStep? { PersistKeepsUsable(digest, s, a); }
    else if a.ReserveStep? { ReserveKeepsUsable(digest, s, a); }
    else if !a.Tick? { OthersKeepUsable(digest, s, a); }
  }

  lemma KeptIsUsable(key: WorkflowKey, w: WorkflowSnapshot, now: Time)
    requires Usable(Some(w))
    ensures Usable(DatabaseStore.Kept(key, w, now))
  {
    if DatabaseStore.Kept(key, w, now).Some? {
      KeptIsErased(key, w, now);
      ErasedIsUsable(Filled(key, w, now));
    }
  }

  lemma KeptInIsUsable(key: WorkflowKey, op: Op, now: Time)
    requires Usable(SnapshotIn(op))
    ensures Usable(SnapshotIn(KeptIn(key, op, now)))
  {
    if SnapshotIn(op).Some? { KeptIsUsable(key, SnapshotIn(op).value, now); }
  }

  /** The database's form of a workflow is as usable as what it was given. */
  lemma DatabaseKeepsWorkflows(db: Database, key: WorkflowKey, op: Op, now: Time, fault: Fault)
    requires Usable(SnapshotIn(op))
    ensures KeepsWorkflows(Behind(db, key, op, now, fault))
  {
    KeptInIsUsable(key, op, now);
  }

  lemma ErasedIsUsable(w: WorkflowSnapshot)
    requires Usable(Some(w))
    ensures Usable(Some(Erased(w)))
  {
  }

  // ---- whole runs --------------------------------------------------------------------------------

  /** A run in which every turn is the pipeline's; of prepared requests nothing is assumed. */
  ghost predicate HandledRun(digest: Digest, states: seq<System>, actions: seq<Action>) {
    && |states| == |actions| + 1 && Initial(states[0])
    && forall i {:trigger actions[i]} | 0 <= i < |actions| ::
         && HandledEnabled(digest, states[i], actions[i])
         && (Enabled(digest, states[i], actions[i]) ==> states[i + 1] == Perform(digest, states[i], actions[i]))
  }

  /** A run of handled turns is a run of the protocol: everything proved of its reachable states holds in every state, and every workflow in it, stored or in hand, is one its conversation reached. */
  lemma {:induction false} HandledRunsAreProtocolRuns(digest: Digest, states: seq<System>, actions: seq<Action>, i: nat)
    requires HandledRun(digest, states, actions) && i < |states|
    ensures Reachable(digest, states[i]) && AllUsable(states[i])
    ensures i < |actions| ==> Enabled(digest, states[i], actions[i])
  {
    if i == 0 {
      assert Leads(digest, states[0], [], states[0]);
    } else {
      HandledRunsAreProtocolRuns(digest, states, actions, i - 1);
      var s, a := states[i - 1], actions[i - 1];
      HandledStepsKeepUsable(digest, s, a);
      assert states[i - 1 + 1] == Perform(digest, s, a);
      Reaching.OneStep(digest, s, a);
      ReachableFurther(digest, s, states[i]);
    }
    if i < |actions| { HandledTurnsAreEnabled(digest, states[i], actions[i]); }
  }
}
