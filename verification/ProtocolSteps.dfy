/** Every action of the protocol keeps the invariant. */
module ProtocolSteps {
  import opened Base
  import opened Types
  import opened ReservationCodec
  import opened BusinessKey
  import opened Recovery
  import opened WorkflowStore
  import opened StoreRuns
  import opened Protocol
  import opened ProtocolSafety

  /** A call that never reaches the store, for the actions that make none. */
  function NoCall(s: System): Call {
    Call(WorkflowKey(0, "", 0), Load, s.now, true)
  }

  function MaybeCall(s: System, key: WorkflowKey, op: Option<Op>, fault: Fault): Call {
    match op case None => NoCall(s) case Some(op) => CallOf(s, key, op, fault)
  }

  /** The store call an action makes. */
  ghost function StoreCall(digest: Digest, s: System, a: Action): Call
    requires Enabled(digest, s, a)
  {
    match a
    case LoadStep(w, fault) => CallOf(s, s.workers[w].key, Load, fault)
    case PersistStep(w, fault) => MaybeCall(s, s.workers[w].key, PersistOp(s.workers[w].current, s.workers[w].outcome), fault)
    case ReserveStep(w, fault) => CallOf(s, s.workers[w].key, ReserveOp(s.workers[w]), fault)
    case TakeoverStep(w, token, attemptID, fault) =>
      MaybeCall(s, s.workers[w].key, TakeoverOp(s.workers[w], token, attemptID), fault)
    case FinishRecordedStep(w, fault) =>
      var x := s.workers[w];
      var e := x.candidate.execution.value;
      MaybeCall(s, x.key, if e.result.None? then None else Some(DeleteReserved(x.candidate.version, e.reservation.token)), fault)
    case RecordStep(w, fault) =>
      MaybeCall(s, s.workers[w].tenure.key, RecordOp(s.workers[w].tenure, s.workers[w].phase.effect, s.now), fault)
    case ReleaseStep(w, fault) =>
      CallOf(s, s.workers[w].tenure.key, DeleteReserved(s.workers[w].phase.recordedVersion, s.workers[w].tenure.token), fault)
    case DeferStep(w, fault) =>
      var t := s.workers[w].tenure;
      CallOf(s, t.key, MarkRecoveryRequired(t.version, t.token, t.stamp + LEASE), fault)
    case _ => NoCall(s)
  }

  /** Every action is at most one call on the store: whatever is true of all store runs is true of the protocol. */
  lemma EveryActionIsOneStoreCall(digest: Digest, s: System, a: Action)
    requires Enabled(digest, s, a)
    ensures Perform(digest, s, a).store == Apply(s.store, StoreCall(digest, s, a)).0
  {
    if StoreCall(digest, s, a) == NoCall(s) { SilentActions(digest, s, a); }
  }

  lemma SilentActions(digest: Digest, s: System, a: Action)
    requires Enabled(digest, s, a) && StoreCall(digest, s, a) == NoCall(s)
    ensures Perform(digest, s, a).store == s.store
  {
  }

  // ---- the actions in turn -------------------------------------------------------

  /** One store call and one worker's move, at one instant. */
  predicate OneStep(s: System, t: System, w: nat, c: Call) {
    && t.now == s.now && c.now <= s.now && t.store == Apply(s.store, c).0
    && w in t.workers && t.workers == s.workers[w := t.workers[w]]
  }

  lemma ActionIsOneStep(digest: Digest, s: System, a: Action)
    requires Enabled(digest, s, a) && !a.Tick?
    ensures OneStep(s, Perform(digest, s, a), a.worker, StoreCall(digest, s, a))
  {
    EveryActionIsOneStoreCall(digest, s, a);
  }

  lemma TickIsSafe(digest: Digest, s: System, a: Action)
    requires Inv(digest, s) && a.Tick? && Enabled(digest, s, a)
    ensures Inv(digest, Perform(digest, s, a))
  {
  }

  /** A step that installs nothing, presents nothing to record or defer, and leaves its worker without a token. */
  lemma QuietIsSafe(digest: Digest, s: System, t: System, w: nat, c: Call)
    requires Inv(digest, s) && OneStep(s, t, w, c) && t.origin == s.origin
    requires Watched(t.workers[w]).None? && !t.workers[w].Listed? && InstalledBy(c.op).None? && !RecordsOrMarks(c.op)
    ensures Inv(digest, t)
  {
    StepKeepsInv(digest, s, t, w, c, t.workers[w]);
  }

  /** The action is one quiet step: nothing drawn, nothing installed, nothing recorded, and its worker left without a token. */
  ghost predicate Quiet(digest: Digest, s: System, a: Action)
    requires Enabled(digest, s, a) && !a.Tick?
  {
    var t, c := Perform(digest, s, a), StoreCall(digest, s, a);
    && OneStep(s, t, a.worker, c) && t.origin == s.origin
    && Watched(t.workers[a.worker]).None? && !t.workers[a.worker].Listed?
    && InstalledBy(c.op).None? && !RecordsOrMarks(c.op)
  }

  lemma AfterLoadIsTokenless(x: Worker, reply: Reply)
    requires x.Loading?
    ensures Watched(AfterLoad(x, reply)).None? && !AfterLoad(x, reply).Listed?
  {
  }

  lemma LoadIsQuiet(digest: Digest, s: System, a: Action)
    requires a.LoadStep? && Enabled(digest, s, a)
    ensures Quiet(digest, s, a)
  {
    var x := s.workers[a.worker];
    AfterLoadIsTokenless(x, Issue(s, x.key, Load, a.fault).1);
    assert Perform(digest, s, a) == LoadPerformed(s, a.worker, x, a.fault);
  }

  lemma ComingAndGoingIsQuiet(digest: Digest, s: System, a: Action)
    requires (a.Message? || a.CrashStep?) && Enabled(digest, s, a)
    ensures Quiet(digest, s, a)
  {
  }

  lemma PersistIsQuiet(digest: Digest, s: System, a: Action)
    requires a.PersistStep? && Enabled(digest, s, a)
    ensures Quiet(digest, s, a)
  {
    PersistOpIsPlain(s.workers[a.worker].current, s.workers[a.worker].outcome, a.fault);
    assert StoreCall(digest, s, a) == MaybeCall(s, s.workers[a.worker].key, PersistOp(s.workers[a.worker].current, s.workers[a.worker].outcome), a.fault);
  }

  lemma PersistOpIsPlain(current: Option<VersionedWorkflow>, outcome: TurnOutcome, fault: Fault)
    ensures PersistOp(current, outcome).Some? ==>
              var op := PersistOp(current, outcome).value;
              && InstalledBy(op).None? && !RecordsOrMarks(op)
              && (fault.Own? ==> InstalledBy(Keeping(op, fault.kept)).None? && !RecordsOrMarks(Keeping(op, fault.kept)))
  {
  }

  /** The store's own form of a snapshot changes nothing else about a call. */
  lemma CallIsOfItsKind(s: System, key: WorkflowKey, op: Op, fault: Fault)
    ensures var c := CallOf(s, key, op, fault).op;
            && InstalledBy(c) == InstalledBy(op) && RecordsOrMarks(c) == RecordsOrMarks(op)
            && (op.Load? || op.DeleteReserved? || op.RecordResult? || op.Takeover? || op.MarkRecoveryRequired? ==> c == op)
  {
  }

  lemma FinishIsQuiet(digest: Digest, s: System, a: Action)
    requires a.FinishRecordedStep? && Enabled(digest, s, a)
    ensures Quiet(digest, s, a)
  {
    var x := s.workers[a.worker];
    CallIsOfItsKind(s, x.key, DeleteReserved(x.candidate.version, x.candidate.execution.value.reservation.token), a.fault);
  }

  lemma ReleasedIsQuiet(s: System, w: nat, t: Tenure, version: nat, fault: Fault)
    requires w in s.workers
    ensures var (s', c) := (ReleasePerformed(s, w, t, version, fault), CallOf(s, t.key, DeleteReserved(version, t.token), fault));
            && OneStep(s, s', w, c) && s'.origin == s.origin && s'.workers[w].Ended?
            && c.op == DeleteReserved(version, t.token)
  {
  }

  lemma ReleaseIsQuiet(digest: Digest, s: System, a: Action)
    requires a.ReleaseStep? && Enabled(digest, s, a)
    ensures Quiet(digest, s, a)
  {
    ReleasedIsQuiet(s, a.worker, s.workers[a.worker].tenure, s.workers[a.worker].phase.recordedVersion, a.fault);
  }

  lemma QuietActionIsSafe(digest: Digest, s: System, a: Action)
    requires Inv(digest, s) && Enabled(digest, s, a)
    requires a.Message? || a.LoadStep? || a.CrashStep? || a.PersistStep? || a.FinishRecordedStep? || a.ReleaseStep?
    ensures Inv(digest, Perform(digest, s, a))
  {
    if a.PersistStep? { PersistIsQuiet(digest, s, a); }
    else if a.FinishRecordedStep? { FinishIsQuiet(digest, s, a); }
    else if a.ReleaseStep? { ReleaseIsQuiet(digest, s, a); }
    else if a.LoadStep? { LoadIsQuiet(digest, s, a); }
    else { ComingAndGoingIsQuiet(digest, s, a); }
    QuietIsSafe(digest, s, Perform(digest, s, a), a.worker, StoreCall(digest, s, a));
  }

  lemma ListedCandidate(digest: Digest, s: System, key: WorkflowKey, stamp: Time)
    requires Inv(digest, s) && HasExecution(s.store, key) && stamp <= s.now
    ensures var x := Listed(key, Seen(s.store[key]), stamp);
            && WorkerInv(digest, s.store, s.now, s.origin, x)
            && Holds(s.store, key, x.candidate.execution.value.reservation.token)
            && x.candidate.execution.value.reservation.token in s.origin
  {
    SeenIsStored(s.store, key);
    assert RecordInv(key, s.store[key]);
    assert Traced(digest, s.origin, key, ExecutionAt(s.store, key).reservation);
  }

  lemma ListingIsSafe(digest: Digest, s: System, t: System, w: nat, key: WorkflowKey, stamp: Time)
    requires Inv(digest, s) && w !in s.workers && HasExecution(s.store, key) && stamp <= s.now
    requires OneStep(s, t, w, NoCall(s)) && t.origin == s.origin && t.workers[w] == Listed(key, Seen(s.store[key]), stamp)
    ensures Inv(digest, t)
  {
    ListedCandidate(digest, s, key, stamp);
    StepKeepsInv(digest, s, t, w, NoCall(s), t.workers[w]);
  }

  lemma ListIsSafe(digest: Digest, s: System, a: Action)
    requires Inv(digest, s) && a.ListCandidate? && Enabled(digest, s, a)
    ensures Inv(digest, Perform(digest, s, a))
  {
    ActionIsOneStep(digest, s, a);
    ListingIsSafe(digest, s, Perform(digest, s, a), a.worker, a.key, a.stamp);
  }

  lemma NewTokenIsUnheld(digest: Digest, s: System, token: string)
    requires Inv(digest, s) && token !in s.origin
    ensures !Held(s.store, token)
  {
  }

  lemma CoordinatedWorker(digest: Digest, s: System, x: Worker, outcome: TurnOutcome, request: OperationRequest, token: string)
    requires Inv(digest, s) && x.Deciding? && token !in s.origin && Admissible(digest, x.key, request)
    ensures var next := Coordinated(s, x, outcome, request, token);
            && WorkerInv(digest, s.store, s.now, s.origin[token := request], next)
            && (next.Ended? || (next.Reserving? && next.reservation.token == token))
  {
  }

  lemma CoordinatingIsSafe(digest: Digest, s: System, t: System, w: nat, outcome: TurnOutcome, request: OperationRequest, token: string)
    requires Inv(digest, s) && w in s.workers && s.workers[w].Deciding? && token !in s.origin && Admissible(digest, s.workers[w].key, request)
    requires OneStep(s, t, w, NoCall(s)) && t.origin == s.origin[token := request]
    requires t.workers[w] == Coordinated(s, s.workers[w], outcome, request, token)
    ensures Inv(digest, t)
  {
    CoordinatedWorker(digest, s, s.workers[w], outcome, request, token);
    StepKeepsInv(digest, s, t, w, NoCall(s), t.workers[w]);
  }

  lemma DecideIsSafe(digest: Digest, s: System, a: Action)
    requires Inv(digest, s) && a.DecideStep? && Enabled(digest, s, a)
    ensures Inv(digest, Perform(digest, s, a))
  {
    ActionIsOneStep(digest, s, a);
    if a.outcome.prepared.Some? {
      CoordinatingIsSafe(digest, s, Perform(digest, s, a), a.worker, a.outcome, a.outcome.prepared.value, a.token);
    } else {
      QuietIsSafe(digest, s, Perform(digest, s, a), a.worker, StoreCall(digest, s, a));
    }
  }

  lemma TenureIsKnown(digest: Digest, s: System, w: nat)
    requires Inv(digest, s) && w in s.workers && s.workers[w].Holding?
    ensures s.workers[w].tenure.token in s.origin
  {
  }

  /** A step of a worker that holds a token: it calls under that token or not at all, and keeps the tenure or gives it up. */
  lemma TenuredIsSafe(digest: Digest, s: System, t: System, w: nat, c: Call)
    requires Inv(digest, s) && w in s.workers && s.workers[w].Holding? && OneStep(s, t, w, c) && t.origin == s.origin
    requires var next, own := t.workers[w], s.workers[w].tenure;
             && (next == Deferring(own) || next.Ended? || (next.Holding? && next.tenure == own))
             && WorkerInv(digest, t.store, s.now, s.origin, next)
             && (c.op.Load? || (c.op.RecordResult? && Trim(c.op.token) == own.token))
    ensures Inv(digest, t)
  {
    TenureIsKnown(digest, s, w);
    StepKeepsInv(digest, s, t, w, c, t.workers[w]);
  }

  lemma RunningIsSafe(digest: Digest, s: System, a: Action)
    requires Inv(digest, s) && (a.ExecuteStep? || a.ReturnStep?) && Enabled(digest, s, a)
    ensures Inv(digest, Perform(digest, s, a))
  {
    assert WorkerInv(digest, s.store, s.now, s.origin, s.workers[a.worker]);
    ActionIsOneStep(digest, s, a);
    TenuredIsSafe(digest, s, Perform(digest, s, a), a.worker, StoreCall(digest, s, a));
  }

  lemma RecordShape(digest: Digest, s: System, a: Action)
    requires a.RecordStep? && Enabled(digest, s, a)
    ensures var x, t, c := s.workers[a.worker], Perform(digest, s, a), StoreCall(digest, s, a);
            && OneStep(s, t, a.worker, c) && t.origin == s.origin
            && var next := t.workers[a.worker];
            && (next == GivenUp(x.tenure) || (next.Holding? && next.tenure == x.tenure && next.phase.ResultStored?))
            && (c.op.Load? || (c.op.RecordResult? && c.op.token == x.tenure.token))
  {
    ActionIsOneStep(digest, s, a);
  }

  lemma RecordIsSafe(digest: Digest, s: System, a: Action)
    requires Inv(digest, s) && a.RecordStep? && Enabled(digest, s, a)
    ensures Inv(digest, Perform(digest, s, a))
  {
    assert WorkerInv(digest, s.store, s.now, s.origin, s.workers[a.worker]);
    TrimIsTrimmed(s.workers[a.worker].tenure.token);
    RecordShape(digest, s, a);
    TenuredIsSafe(digest, s, Perform(digest, s, a), a.worker, StoreCall(digest, s, a));
  }

  lemma DeferringIsSafe(digest: Digest, s: System, t: System, w: nat, own: Tenure, c: Call)
    requires Inv(digest, s) && w in s.workers && s.workers[w] == Deferring(own) && OneStep(s, t, w, c) && t.origin == s.origin
    requires c.op.MarkRecoveryRequired? && c.op.token == own.token && t.workers[w] == Ended(RecoveryFailed)
    ensures Inv(digest, t)
  {
    assert WorkerInv(digest, s.store, s.now, s.origin, s.workers[w]);
    TrimIsTrimmed(own.token);
    StepKeepsInv(digest, s, t, w, c, t.workers[w]);
  }

  lemma DeferIsSafe(digest: Digest, s: System, a: Action)
    requires Inv(digest, s) && a.DeferStep? && Enabled(digest, s, a)
    ensures Inv(digest, Perform(digest, s, a))
  {
    ActionIsOneStep(digest, s, a);
    DeferringIsSafe(digest, s, Perform(digest, s, a), a.worker, s.workers[a.worker].tenure, StoreCall(digest, s, a));
  }

  // ---- reserving -------------------------------------------------------------------

  /** What a successful reservation or takeover leaves in the store, as its caller sees it. */
  lemma InstalledTenure(s: Store, c: Call, stamp: Time, request: OperationRequest, recovering: bool)
    requires StoreInv(s) && Succeeds(s, c)
    requires HasExecution(Apply(s, c).0, c.key) && ExecutionAt(Apply(s, c).0, c.key).result.None?
    ensures var next := Apply(s, c).0;
            && Seen(next[c.key]) == next[c.key]
            && Live(next, TenureOf(c.key, Seen(next[c.key]), stamp, request, recovering))
            && Trimmed(TokenAt(next, c.key))
  {
    ApplyKeepsInvariant(s, c);
    assert RecordInv(c.key, Apply(s, c).0[c.key]);
    SeenIsStored(Apply(s, c).0, c.key);
  }

  lemma ReservationKeeps(s: Store, c: Call)
    requires Reserves(c.op) && Succeeds(s, c)
    ensures var (next, reply), kept := Apply(s, c), Canonical(c.op.reservation).value;
            && Installs(s, c) == Some(kept.token) && HasExecution(next, c.key)
            && ExecutionAt(next, c.key) == Execution(Executing, kept, None)
            && reply == Ok(Some(Seen(next[c.key])))
  {
    SuccessActs(s, c);
    ReservationInstalls(s, c.key, c.op, c.now);
  }

  lemma ReservationIsAdmitted(s: Store, c: Call)
    requires (c.op.CreateReserved? || c.op.Reserve?) && Succeeds(s, c)
    ensures Reserves(c.op)
  {
  }

  /** What the store keeps of a fresh reservation: the request, under the drawn token, with a truncated lease. */
  lemma FreshReservation(req: OperationRequest, businessKey: string, token: string, attemptID: string, stamp: Time)
    requires PersistedParams(req.params).Some?
    ensures var kept := Canonical(ReservationFor(req, businessKey, PersistedParams(req.params).value, token, attemptID, stamp, LEASE));
            kept.Some? ==> Carries(kept.value, req, businessKey) && kept.value.token == token
                           && kept.value.leaseExpiresAt == LeaseEnd(stamp)
  {
    ReservingCarries(req, businessKey, token, attemptID, stamp, LEASE);
    CanonicalIsANormalizer(ReservationFor(req, businessKey, PersistedParams(req.params).value, token, attemptID, stamp, LEASE));
  }

  /** The worker's reservation call, whatever form of the snapshot the store keeps. */
  predicate AsksToReserve(x: Worker, op: Op) {
    x.Reserving? && (op.CreateReserved? || op.Reserve?) && op.reservation == x.reservation
  }

  lemma ReserveCallAsks(s: System, x: Worker, fault: Fault)
    requires x.Reserving?
    ensures AsksToReserve(x, CallOf(s, x.key, ReserveOp(x), fault).op)
  {
  }

  lemma ReservationSucceeds(digest: Digest, s: System, x: Worker, c: Call)
    requires Inv(digest, s) && x.Reserving? && WorkerInv(digest, s.store, s.now, s.origin, x)
    requires c.key == x.key && AsksToReserve(x, c.op) && Succeeds(s.store, c)
    ensures var (next, reply) := Apply(s.store, c);
            && Installs(s.store, c) == Some(x.reservation.token) && Holds(next, x.key, x.reservation.token)
            && reply == Ok(Some(Seen(next[x.key])))
            && Traced(digest, s.origin, x.key, ExecutionAt(next, x.key).reservation)
            && ExecutionAt(next, x.key).result.None?
            && ExecutionAt(next, x.key).reservation.leaseExpiresAt == LeaseEnd(x.reservation.startedAt)
  {
    var r := x.reservation;
    ReservationIsAdmitted(s.store, c);
    assert c.op.reservation == r;
    ReservationKeeps(s.store, c);
    FreshReservation(x.request, x.request.idempotencyKey, r.token, r.attemptID, r.startedAt);
  }

  /** The token is drawn by this action, or was drawn by this worker and is not installed yet. */
  ghost predicate Drawn(s: System, w: nat, token: string) {
    token !in s.origin || (w in s.workers && s.workers[w].Reserving? && s.workers[w].reservation.token == token)
  }

  /** The worker's state after an installing step: without a token, or under the one it installed. */
  predicate Under(x: Worker, token: string) {
    match x
    case Holding(t, _) => t.token == token
    case Deferring(t) => t.token == token
    case Loading(_, _) => true
    case Ended(_) => true
    case _ => false
  }

  lemma InstallingIsSafe(digest: Digest, s: System, t: System, w: nat, c: Call, token: string)
    requires Inv(digest, s) && Drawn(s, w, token) && !Held(s.store, token) && OneStep(s, t, w, c)
    requires && Extends(s.origin, t.origin) && token in t.origin && Under(t.workers[w], token)
             && WorkerInv(digest, t.store, s.now, t.origin, t.workers[w]) && !RecordsOrMarks(c.op)
             && (Installs(s.store, c).Some? ==>
                   && Installs(s.store, c) == Some(token) && Holds(t.store, c.key, token)
                   && Traced(digest, t.origin, c.key, ExecutionAt(t.store, c.key).reservation))
    ensures Inv(digest, t)
  {
    StepKeepsInv(digest, s, t, w, c, t.workers[w]);
  }

  lemma FreshTenure(digest: Digest, store: Store, now: Time, origin: Origin, t: Tenure)
    requires t.token in origin && SameRequest(t.request, origin[t.token]) && Admissible(digest, t.key, origin[t.token])
    requires Trimmed(t.token) && t.stamp <= now && t.expires == LeaseEnd(t.stamp) && Live(store, t)
    ensures TenureInv(digest, store, now, origin, t, Installed)
  {
  }

  lemma ReserveLeaves(digest: Digest, s: System, x: Worker, c: Call, reply: Reply)
    requires Inv(digest, s) && x.Reserving? && WorkerInv(digest, s.store, s.now, s.origin, x)
    requires c.key == x.key && AsksToReserve(x, c.op)
    requires reply == Apply(s.store, c).1 || reply.Failed?
    ensures Under(AfterReserve(x, reply), x.reservation.token)
    ensures WorkerInv(digest, Apply(s.store, c).0, s.now, s.origin, AfterReserve(x, reply))
  {
    if reply.Ok? { ReservedTenure(digest, s, x, c); }
  }

  lemma ReservedTenure(digest: Digest, s: System, x: Worker, c: Call)
    requires Inv(digest, s) && x.Reserving? && WorkerInv(digest, s.store, s.now, s.origin, x)
    requires c.key == x.key && AsksToReserve(x, c.op) && Succeeds(s.store, c)
    ensures var (next, reply) := Apply(s.store, c);
            && AfterReserve(x, reply).Holding? && AfterReserve(x, reply).phase == Installed
            && AfterReserve(x, reply).tenure.token == x.reservation.token
            && TenureInv(digest, next, s.now, s.origin, AfterReserve(x, reply).tenure, Installed)
  {
    ReservationSucceeds(digest, s, x, c);
    InstalledTenure(s.store, c, x.reservation.startedAt, x.request, false);
    var seen := Seen(Apply(s.store, c).0[x.key]);
    HoldingAfterReserve(x, seen);
    FreshTenure(digest, Apply(s.store, c).0, s.now, s.origin, TenureOf(x.key, seen, x.reservation.startedAt, x.request, false));
  }

  lemma HoldingAfterReserve(x: Worker, seen: VersionedWorkflow)
    requires x.Reserving? && seen.execution.Some?
    ensures AfterReserve(x, Ok(Some(seen))) == Holding(TenureOf(x.key, seen, x.reservation.startedAt, x.request, false), Installed)
  {
  }

  lemma ReserveIsSafe(digest: Digest, s: System, a: Action)
    requires Inv(digest, s) && a.ReserveStep? && Enabled(digest, s, a)
    ensures Inv(digest, Perform(digest, s, a))
  {
    var x, c := s.workers[a.worker], StoreCall(digest, s, a);
    assert WorkerInv(digest, s.store, s.now, s.origin, x);
    ReserveCallAsks(s, x, a.fault);
    if Succeeds(s.store, c) { ReservationSucceeds(digest, s, x, c); }
    var reply := Issue(s, x.key, ReserveOp(x), a.fault).1;
    ReserveLeaves(digest, s, x, c, reply);
    ActionIsOneStep(digest, s, a);
    InstallingIsSafe(digest, s, Perform(digest, s, a), a.worker, c, x.reservation.token);
  }

  // ---- taking over -------------------------------------------------------------------

  /** A takeover goes through only against the very execution that was listed. */
  lemma TakeoverMatches(s: Store, now: Time, origin: Origin, digest: Digest, x: Worker, token: string, attemptID: string, c: Call)
    requires x.Listed? && WorkerInv(digest, s, now, origin, x)
    requires x.candidate.execution.value.status != ResultRecorded
    requires c.key == x.key && Some(c.op) == TakeoverOp(x, token, attemptID) && Succeeds(s, c)
    ensures HasExecution(s, x.key) && ExecutionAt(s, x.key) == x.candidate.execution.value
    ensures x.candidate.execution.value.reservation.leaseExpiresAt <= c.now && x.candidate.execution.value.result.None?
  {
    var r := x.candidate.execution.value.reservation;
    TakeoverInstalls(s, x.key, c.op, c.now);
    TrimIsTrimmed(r.token);
    assert Holds(s, x.key, r.token);
  }

  lemma SuccessorIsReservation(r: Reservation, token: string, attemptID: string, stamp: Time)
    requires Normal(r)
    ensures CloneReservation(r) == r
    ensures Successor(Execution(Executing, r, None), token, attemptID, stamp)
            == r.(token := token, attemptID := attemptID, startedAt := stamp, leaseExpiresAt := stamp + LEASE)
  {
  }

  lemma SuccessorLease(r: Reservation, token: string, attemptID: string, stamp: Time)
    ensures var successor := r.(token := token, attemptID := attemptID, startedAt := stamp, leaseExpiresAt := stamp + LEASE);
            Canonical(successor).Some? ==> Canonical(successor).value.leaseExpiresAt == LeaseEnd(stamp)
                                           && Canonical(successor).value.token == token
  {
  }

  lemma TakeoverKeeps(s: Store, c: Call)
    requires c.op.Takeover? && Succeeds(s, c)
    ensures Canonical(c.op.successor).Some? && HasExecution(s, c.key)
    ensures Installs(s, c) == Some(Canonical(c.op.successor).value.token)
    ensures var (next, reply), kept := Apply(s, c), Canonical(c.op.successor).value;
            && HasExecution(next, c.key)
            && ExecutionAt(next, c.key).reservation == kept
            && ExecutionAt(next, c.key).result == ExecutionAt(s, c.key).result
            && reply == Ok(Some(Seen(next[c.key])))
  {
    SuccessActs(s, c);
    TakeoverInstalls(s, c.key, c.op, c.now);
    TakenToken(c.op, s, c.key, c.now);
    SuccessInstalls(s, c);
  }

  lemma TakenToken(op: Op, s: Store, key: WorkflowKey, now: Time)
    requires op.Takeover? && ApplyTo(s, key, op, now).1.Ok?
    ensures Canonical(op.successor).Some? && InstalledBy(op) == Some(Canonical(op.successor).value.token)
  {
  }

  lemma SuccessInstalls(s: Store, c: Call)
    requires Succeeds(s, c)
    ensures Installs(s, c) == InstalledBy(c.op)
  {
  }

  /** What a takeover keeps of the reservation it succeeds: the same request under the new token, with a new lease. */
  lemma FreshSuccessor(r: Reservation, req: OperationRequest, token: string, attemptID: string, stamp: Time)
    requires Carries(r, req, req.idempotencyKey)
    ensures var kept := Canonical(r.(token := token, attemptID := attemptID, startedAt := stamp, leaseExpiresAt := stamp + LEASE));
            kept.Some? ==> Carries(kept.value, req, req.idempotencyKey) && kept.value.token == token
                           && kept.value.leaseExpiresAt == LeaseEnd(stamp)
  {
    TakeoverCarries(r, req, req.idempotencyKey, token, attemptID, stamp, LEASE);
    SuccessorLease(r, token, attemptID, stamp);
  }

  lemma TakenOver(s: Store, c: Call, r: Reservation, req: OperationRequest, token: string, attemptID: string, stamp: Time)
    requires c.op.Takeover? && Succeeds(s, c) && Carries(r, req, req.idempotencyKey)
    requires c.op.successor == r.(token := token, attemptID := attemptID, startedAt := stamp, leaseExpiresAt := stamp + LEASE)
    ensures var next := Apply(s, c).0;
            && Installs(s, c) == Some(token) && Holds(next, c.key, token) && HasExecution(s, c.key)
            && ExecutionAt(next, c.key).result == ExecutionAt(s, c.key).result
            && ExecutionAt(next, c.key).reservation.leaseExpiresAt == LeaseEnd(stamp)
            && Apply(s, c).1 == Ok(Some(Seen(next[c.key])))
            && Carries(ExecutionAt(next, c.key).reservation, req, req.idempotencyKey)
  {
    TakeoverKeeps(s, c);
    FreshSuccessor(r, req, token, attemptID, stamp);
  }

  lemma TakeoverSucceeds(digest: Digest, s: System, x: Worker, token: string, attemptID: string, c: Call)
    requires Inv(digest, s) && x.Listed? && WorkerInv(digest, s.store, s.now, s.origin, x)
    requires x.candidate.execution.value.status != ResultRecorded
    requires c.key == x.key && Some(c.op) == TakeoverOp(x, token, attemptID) && Succeeds(s.store, c)
    ensures var r, next := x.candidate.execution.value.reservation, Apply(s.store, c).0;
            && Installs(s.store, c) == Some(token) && Holds(next, x.key, token)
            && ExecutionAt(next, x.key).result.None?
            && ExecutionAt(next, x.key).reservation.leaseExpiresAt == LeaseEnd(x.stamp)
            && Apply(s.store, c).1 == Ok(Some(Seen(next[x.key])))
            && Carries(ExecutionAt(next, x.key).reservation, s.origin[r.token], s.origin[r.token].idempotencyKey)
  {
    var r := x.candidate.execution.value.reservation;
    TakeoverMatches(s.store, s.now, s.origin, digest, x, token, attemptID, c);
    SuccessorIsReservation(r, token, attemptID, x.stamp);
    TakenOver(s.store, c, r, s.origin[r.token], token, attemptID, x.stamp);
  }

  /** A takeover is never left without a request: what it finds in the store always rebuilds. */
  lemma TakenOverRequestRebuilds(digest: Digest, s: System, x: Worker, token: string, attemptID: string, c: Call)
    requires Inv(digest, s) && x.Listed? && WorkerInv(digest, s.store, s.now, s.origin, x)
    requires x.candidate.execution.value.status != ResultRecorded
    requires c.key == x.key && Some(c.op) == TakeoverOp(x, token, attemptID) && Succeeds(s.store, c)
    ensures var next := AfterTakeover(digest, x, Apply(s.store, c).1);
            && next.Holding? && next.phase == Installed && next.tenure.token == token
            && SameRequest(next.tenure.request, s.origin[x.candidate.execution.value.reservation.token])
            && next.tenure.key == x.key && next.tenure.recovering && next.tenure.stamp == x.stamp && next.tenure.expires == LeaseEnd(x.stamp)
            && Live(Apply(s.store, c).0, next.tenure) && Trimmed(token)
  {
    var r := x.candidate.execution.value.reservation;
    var req, next := s.origin[r.token], Apply(s.store, c).0;
    TakeoverSucceeds(digest, s, x, token, attemptID, c);
    InstalledTenure(s.store, c, x.stamp, req, true);
    RecoveredRequestIsFaithful(digest, x.key, ExecutionAt(next, x.key).reservation, req);
  }

  lemma TakeoverLeaves(
    digest: Digest, s: System, x: Worker, token: string, attemptID: string, c: Call, origin: Origin, reply: Reply)
    requires Inv(digest, s) && x.Listed? && WorkerInv(digest, s.store, s.now, s.origin, x)
    requires x.candidate.execution.value.status != ResultRecorded
    requires c.key == x.key && Some(c.op) == TakeoverOp(x, token, attemptID)
    requires origin == s.origin[token := s.origin[x.candidate.execution.value.reservation.token]]
    requires reply == Apply(s.store, c).1 || reply.Failed?
    ensures Under(AfterTakeover(digest, x, reply), token)
    ensures WorkerInv(digest, Apply(s.store, c).0, s.now, origin, AfterTakeover(digest, x, reply))
  {
    if reply.Ok? {
      TakenOverRequestRebuilds(digest, s, x, token, attemptID, c);
      TakenTenure(digest, s, x, token, c, origin, AfterTakeover(digest, x, reply).tenure);
    }
  }

  lemma TakenTenure(digest: Digest, s: System, x: Worker, token: string, c: Call, origin: Origin, t: Tenure)
    requires x.Listed? && WorkerInv(digest, s.store, s.now, s.origin, x)
    requires origin == s.origin[token := s.origin[x.candidate.execution.value.reservation.token]]
    requires t.token == token && t.key == x.key && t.stamp == x.stamp && t.expires == LeaseEnd(x.stamp)
    requires SameRequest(t.request, s.origin[x.candidate.execution.value.reservation.token])
    requires Live(Apply(s.store, c).0, t) && Trimmed(token)
    ensures TenureInv(digest, Apply(s.store, c).0, s.now, origin, t, Installed)
  {
    assert origin[token] == s.origin[x.candidate.execution.value.reservation.token];
    assert t.stamp <= s.now;
    FreshTenure(digest, Apply(s.store, c).0, s.now, origin, t);
  }

  lemma TakeoverShape(digest: Digest, s: System, a: Action)
    requires a.TakeoverStep? && Enabled(digest, s, a)
    ensures var x, c, t := s.workers[a.worker], StoreCall(digest, s, a), Perform(digest, s, a);
            if TakeoverOp(x, a.token, a.attemptID).None? then Quiet(digest, s, a)
            else
              && OneStep(s, t, a.worker, c) && c.key == x.key && Some(c.op) == TakeoverOp(x, a.token, a.attemptID)
              && t.workers[a.worker] == AfterTakeover(digest, x, Issue(s, x.key, c.op, a.fault).1)
              && (Issue(s, x.key, c.op, a.fault).1 == Apply(s.store, c).1 || Issue(s, x.key, c.op, a.fault).1.Failed?)
              && var token := x.candidate.execution.value.reservation.token;
                 (token in s.origin ==> t.origin == s.origin[a.token := s.origin[token]])
  {
  }

  lemma TakeoverIsSafe(digest: Digest, s: System, a: Action)
    requires Inv(digest, s) && a.TakeoverStep? && Enabled(digest, s, a)
    ensures Inv(digest, Perform(digest, s, a))
  {
    TakeoverShape(digest, s, a);
    var x, c, t := s.workers[a.worker], StoreCall(digest, s, a), Perform(digest, s, a);
    assert WorkerInv(digest, s.store, s.now, s.origin, x);
    if TakeoverOp(x, a.token, a.attemptID).None? {
      QuietIsSafe(digest, s, t, a.worker, c);
    } else {
      IssuedTakeoverIsSafe(digest, s, t, a.worker, a.token, a.attemptID, c, Issue(s, x.key, c.op, a.fault).1);
    }
  }

  lemma IssuedTakeoverIsSafe(
    digest: Digest, s: System, t: System, w: nat, token: string, attemptID: string, c: Call, reply: Reply)
    requires Inv(digest, s) && OneStep(s, t, w, c) && w in s.workers && token !in s.origin
    requires var x := s.workers[w];
             && x.Listed? && x.candidate.execution.Some? && x.candidate.execution.value.status != ResultRecorded
             && c.key == x.key && Some(c.op) == TakeoverOp(x, token, attemptID)
             && var e := x.candidate.execution.value;
             && e.reservation.token in s.origin && t.origin == s.origin[token := s.origin[e.reservation.token]]
             && (reply == Apply(s.store, c).1 || reply.Failed?) && t.workers[w] == AfterTakeover(digest, x, reply)
    ensures Inv(digest, t)
  {
    var x := s.workers[w];
    assert WorkerInv(digest, s.store, s.now, s.origin, x);
    if Succeeds(s.store, c) { TakeoverSucceeds(digest, s, x, token, attemptID, c); }
    NewTokenIsUnheld(digest, s, token);
    TakeoverLeaves(digest, s, x, token, attemptID, c, t.origin, reply);
    InstallingIsSafe(digest, s, t, w, c, token);
  }
}
