/** The chat loop, the write coordinator and the recovery pass as the sequential code they are, over a store that others change between any two of its calls. */
module Workers {
  import opened Base
  import opened Types
  import opened Recovery
  import opened WorkflowStore
  import opened Protocol

  // ---- what one worker meets and makes of it ---------------------------------------------

  /** The store and clock a worker finds when it comes to act, after whatever the others did, and what happens to its call. */
  datatype Moment = Moment(store: Store, now: Time, fault: Fault)

  /** What is decided outside the store: the pipeline's outcome and the drawn token of each attempt, the recovery's attempt name, the executor's effect. */
  datatype Inputs = Inputs(outcomes: (TurnOutcome, TurnOutcome), tokens: (string, string), attemptID: string, effect: Option<WriteEffect>)

  function OutcomeFor(given: Inputs, second: bool): TurnOutcome { if second then given.outcomes.1 else given.outcomes.0 }

  function TokenFor(given: Inputs, second: bool): string { if second then given.tokens.1 else given.tokens.0 }

  /** A store call at a moment: what it leaves and what its caller learns. The workers assume nothing about it. */
  type Port = (Moment, WorkflowKey, Op) -> (Store, Reply)

  /** How a request is rebuilt from a stored reservation. */
  type Rebuild = (WorkflowKey, Reservation) -> Option<OperationRequest>

  datatype Setting = Setting(port: Port, rebuild: Rebuild, given: Inputs)

  function Addressed(key: WorkflowKey, op: Option<Op>): Option<(WorkflowKey, Op)> {
    match op case None => None case Some(op) => Some((key, op))
  }

  /** The store call a worker makes in its state, if any. */
  function CallIn(g: Setting, m: Moment, x: Worker): Option<(WorkflowKey, Op)> {
    match x
    case Loading(key, _) => Some((key, Load))
    case Persisting(key, _, current, outcome) => Addressed(key, PersistOp(current, outcome))
    case Reserving(key, _, _, _, _, _) => Some((key, ReserveOp(x)))
    case Listed(key, candidate, _) => (
      match candidate.execution
      case None => None
      case Some(e) =>
        if e.status != ResultRecorded then Addressed(key, TakeoverOp(x, g.given.tokens.0, g.given.attemptID))
        else if e.result.None? then None
        else Some((key, DeleteReserved(candidate.version, e.reservation.token))))
    case Holding(t, Returned(effect)) => Addressed(t.key, RecordOp(t, effect, m.now))
    case Holding(t, ResultStored(version)) => Some((t.key, DeleteReserved(version, t.token)))
    case Deferring(t) => Some((t.key, MarkRecoveryRequired(t.version, t.token, t.stamp + LEASE)))
    case _ => None
  }

  /** After a takeover recovery rebuilds the request, or defers. */
  function AfterTakeoverReply(g: Setting, x: Worker, reply: Reply): Worker
    requires x.Listed?
  {
    if reply.Failed? || reply.workflow.None? || reply.workflow.value.execution.None? then Ended(RecoveryFailed)
    else
      var seen := reply.workflow.value;
      var r := seen.execution.value.reservation;
      match g.rebuild(x.key, r)
      case Some(request) => Holding(TenureOf(x.key, seen, x.stamp, request, true), Installed)
      case None => Deferring(TenureOf(x.key, seen, x.stamp, RecoveredRequest(x.key, r), true))
  }

  /** Where the reply to its call takes a worker. */
  function AfterReply(g: Setting, x: Worker, reply: Reply): Worker {
    match x
    case Loading(_, _) => AfterLoad(x, reply)
    case Persisting(_, _, _, _) => AfterPersist(x, reply)
    case Reserving(_, _, _, _, _, _) => AfterReserve(x, reply)
    case Listed(_, candidate, _) =>
      if candidate.execution.Some? && candidate.execution.value.status != ResultRecorded then AfterTakeoverReply(g, x, reply)
      else Ended(if reply.Ok? then Recovered else RecoveryFailed)
    case Holding(t, Returned(_)) => AfterRecord(t, reply)
    case Holding(t, _) => AfterRelease(t, reply)
    case Deferring(_) => Ended(RecoveryFailed)
    case _ => x
  }

  /** Where a worker goes without a call. */
  function AfterPause(g: Setting, m: Moment, x: Worker): Worker {
    match x
    case Deciding(key, second, current) => Decided(g, m, x)
    case Persisting(_, _, _, _) => Ended(TurnPersisted)
    case Listed(_, _, _) => Ended(RecoveryFailed)
    case Holding(t, Installed) => Holding(t, Running(m.now))
    case Holding(t, Running(_)) => Holding(t, Returned(g.given.effect))
    case Holding(t, Returned(_)) => GivenUp(t)
    case _ => x
  }

  function Decided(g: Setting, m: Moment, x: Worker): Worker
    requires x.Deciding?
  {
    var outcome := OutcomeFor(g.given, x.second);
    match outcome.prepared
    case None => Persisting(x.key, x.second, x.current, outcome)
    case Some(request) => Coordinated(Found(m), x, outcome, request, TokenFor(g.given, x.second))
  }

  /** A world with this store and clock, and nobody in it. */
  function Found(m: Moment): System { System(m.store, m.now, map[], map[], []) }

  /** The worker's next step: the store it leaves and its next state. */
  function Stepped(g: Setting, m: Moment, x: Worker): (Store, Worker) {
    match CallIn(g, m, x)
    case None => (m.store, AfterPause(g, m, x))
    case Some((key, op)) =>
      var (left, reply) := g.port(m, key, op);
      (left, AfterReply(g, x, reply))
  }

  /** One step as it happened: what was met and what was left. */
  datatype Exchange = Exchange(moment: Moment, left: Store)

  /** The exchanges lead the worker from one state to the other by its own steps, each leaving the store that step leaves. */
  predicate Path(g: Setting, es: seq<Exchange>, x: Worker, y: Worker) {
    if es == [] then x == y
    else
      var (left, next) := Stepped(g, es[0].moment, x);
      es[0].left == left && Path(g, es[1..], next, y)
  }

  lemma {:induction false} PathsCompose(g: Setting, a: seq<Exchange>, b: seq<Exchange>, x: Worker, y: Worker, z: Worker)
    requires Path(g, a, x, y) && Path(g, b, y, z)
    ensures Path(g, a + b, x, z)
  {
    if a == [] {
      assert a + b == b;
    } else {
      assert (a + b)[1..] == a[1..] + b;
      PathsCompose(g, a[1..], b, Stepped(g, a[0].moment, x).1, y, z);
    }
  }

  /** A call, and then a path from where its reply takes the worker. */
  lemma CallLeads(
    g: Setting, m: Moment, key: WorkflowKey, op: Op, left: Store, reply: Reply, x: Worker, y: Worker, rest: seq<Exchange>, z: Worker)
    requires CallIn(g, m, x) == Some((key, op)) && (left, reply) == g.port(m, key, op) && y == AfterReply(g, x, reply)
    requires Path(g, rest, y, z)
    ensures Path(g, [Exchange(m, left)] + rest, x, z)
  {
    assert ([Exchange(m, left)] + rest)[1..] == rest;
  }

  /** A step without a call, and then a path. */
  lemma PauseLeads(g: Setting, m: Moment, x: Worker, y: Worker, rest: seq<Exchange>, z: Worker)
    requires CallIn(g, m, x) == None && y == AfterPause(g, m, x) && Path(g, rest, y, z)
    ensures Path(g, [Exchange(m, m.store)] + rest, x, z)
  {
    assert ([Exchange(m, m.store)] + rest)[1..] == rest;
  }

  // ---- the shared store -----------------------------------------------------------------

  /** A store others change between this worker's steps, in any way, as `coming` lists. */
  class SharedStore {
    const port: Port
    var contents: Store
    var clock: Time
    var coming: seq<Moment>
    var exchanges: seq<Exchange>

    constructor (port: Port, contents: Store, clock: Time, coming: seq<Moment>)
      ensures this.port == port && this.contents == contents && this.clock == clock && this.coming == coming && exchanges == []
    {
      this.port, this.contents, this.clock, this.coming, exchanges := port, contents, clock, coming, [];
    }

    /** Others act and time passes; then this worker comes to act. */
    method Meet() returns (m: Moment)
      modifies this
      ensures contents == m.store && exchanges == old(exchanges)
      ensures m == if old(coming) == [] then Moment(old(contents), old(clock), Sound) else old(coming)[0]
    {
      m := Moment(contents, clock, Sound);
      if coming != [] { m, coming := coming[0], coming[1..]; }
      contents, clock := m.store, m.now;
    }

    /** An atomic call at this moment. */
    method Do(m: Moment, key: WorkflowKey, op: Op) returns (reply: Reply)
      requires contents == m.store
      modifies this
      ensures (contents, reply) == port(m, key, op)
      ensures exchanges == old(exchanges) + [Exchange(m, contents)]
    {
      var (next, answer) := port(m, key, op);
      contents := next;
      exchanges := exchanges + [Exchange(m, next)];
      reply := answer;
    }

    /** A step of the worker that leaves the store alone. */
    method Pass(m: Moment)
      requires contents == m.store
      modifies this
      ensures contents == m.store && exchanges == old(exchanges) + [Exchange(m, contents)]
    {
      exchanges := exchanges + [Exchange(m, contents)];
    }
  }

  // ---- under a token ---------------------------------------------------------------------

  /** `deferWorkflowRecovery` for a recovery; a chat turn just answers "pending". */
  method GiveUp(store: SharedStore, g: Setting, t: Tenure) returns (end: Worker, ghost es: seq<Exchange>)
    requires store.port == g.port
    modifies store
    ensures store.exchanges == old(store.exchanges) + es && Path(g, es, GivenUp(t), end) && end.Ended?
  {
    if !t.recovering { return GivenUp(t), []; }
    var m := store.Meet();
    var op := MarkRecoveryRequired(t.version, t.token, t.stamp + LEASE);
    var marked := store.Do(m, t.key, op);
    end, es := Ended(RecoveryFailed), [Exchange(m, store.contents)] + [];
    CallLeads(g, m, t.key, op, store.contents, marked, GivenUp(t), end, [], end);
  }

  /** Check the effect, record it, release the reservation. */
  method Conclude(store: SharedStore, g: Setting, t: Tenure) returns (end: Worker, ghost es: seq<Exchange>)
    requires store.port == g.port
    modifies store
    ensures store.exchanges == old(store.exchanges) + es
    ensures Path(g, es, Holding(t, Returned(g.given.effect)), end) && end.Ended?
  {
    ghost var x := Holding(t, Returned(g.given.effect));
    var m := store.Meet();
    if g.given.effect.None? || !ValidEffect(g.given.effect.value) {
      store.Pass(m);
      end, es := GiveUp(store, g, t);
      PauseLeads(g, m, x, GivenUp(t), es, end);
      es := [Exchange(m, m.store)] + es;
      return;
    }
    var op := RecordResult(t.version, t.token, ExecutionResult(t.request.idempotencyKey, g.given.effect.value, m.now));
    var recorded := store.Do(m, t.key, op);
    ghost var left := store.contents;
    if recorded.Failed? || recorded.workflow.None? {
      end, es := GiveUp(store, g, t);
      CallLeads(g, m, t.key, op, left, recorded, x, GivenUp(t), es, end);
    } else {
      end, es := Release(store, g, t, recorded.workflow.value.version);
      CallLeads(g, m, t.key, op, left, recorded, x, Holding(t, ResultStored(recorded.workflow.value.version)), es, end);
    }
    es := [Exchange(m, left)] + es;
  }

  method Release(store: SharedStore, g: Setting, t: Tenure, version: nat) returns (end: Worker, ghost es: seq<Exchange>)
    requires store.port == g.port
    modifies store
    ensures store.exchanges == old(store.exchanges) + es
    ensures Path(g, es, Holding(t, ResultStored(version)), end) && end.Ended?
  {
    var m := store.Meet();
    var op := DeleteReserved(version, t.token);
    var released := store.Do(m, t.key, op);
    if released.Ok? {
      end := Ended(if t.recovering then Recovered else WriteCompleted(t.token));
    } else {
      end := Ended(if t.recovering then RecoveryFailed else WritePending);
    }
    es := [Exchange(m, store.contents)] + [];
    CallLeads(g, m, t.key, op, store.contents, released, Holding(t, ResultStored(version)), end, [], end);
  }

  /** Run the executor, while others go on, and conclude. */
  method Execute(store: SharedStore, g: Setting, t: Tenure) returns (end: Worker, ghost es: seq<Exchange>)
    requires store.port == g.port
    modifies store
    ensures store.exchanges == old(store.exchanges) + es && Path(g, es, Holding(t, Installed), end) && end.Ended?
  {
    var m := store.Meet();
    store.Pass(m);
    var n := store.Meet();
    store.Pass(n);
    end, es := Conclude(store, g, t);
    PauseLeads(g, n, Holding(t, Running(m.now)), Holding(t, Returned(g.given.effect)), es, end);
    es := [Exchange(n, n.store)] + es;
    PauseLeads(g, m, Holding(t, Installed), Holding(t, Running(m.now)), es, end);
    es := [Exchange(m, m.store)] + es;
  }

  // ---- the coordinator --------------------------------------------------------------------

  /** How an attempt can leave the chat loop: at its end, or loading again after the first conflict. */
  predicate Leaves(end: Worker, key: WorkflowKey, second: bool) { end.Ended? || (!second && end == Loading(key, true)) }

  /** `coordinatePreparedWrite`. */
  method CoordinatePreparedWrite(
    store: SharedStore, g: Setting, key: WorkflowKey, second: bool,
    current: Option<VersionedWorkflow>, request: OperationRequest) returns (end: Worker, ghost es: seq<Exchange>)
    requires store.port == g.port && OutcomeFor(g.given, second).prepared == Some(request)
    modifies store
    ensures store.exchanges == old(store.exchanges) + es
    ensures Path(g, es, Deciding(key, second, current), end) && Leaves(end, key, second)
  {
    ghost var x := Deciding(key, second, current);
    var outcome, token := OutcomeFor(g.given, second), TokenFor(g.given, second);
    var m := store.Meet();
    store.Pass(m);
    if current.Some? && current.value.execution.Some? {
      end, es := Ended(WritePending), [];
      PauseLeads(g, m, x, end, es, end);
    } else {
      var snapshot := ReservationSnapshot(outcome, request, key, m.now);
      var params := PersistTrustedParams(request.params);
      if snapshot.None? || params.None? {
        end, es := Ended(StoreUnavailable), [];
        PauseLeads(g, m, x, end, es, end);
      } else {
        var reservation := ReservationFor(request, request.idempotencyKey, params.value, token, outcome.requestID, m.now, LEASE);
        end, es := ReserveAndExecute(store, g, key, second, current, snapshot.value, reservation, request);
        PauseLeads(g, m, x, Reserving(key, second, current, snapshot.value, reservation, request), es, end);
      }
    }
    es := [Exchange(m, m.store)] + es;
  }

  /** Its second half, from the reservation call on. */
  method ReserveAndExecute(
    store: SharedStore, g: Setting, key: WorkflowKey, second: bool, current: Option<VersionedWorkflow>,
    snapshot: WorkflowSnapshot, reservation: Reservation, request: OperationRequest) returns (end: Worker, ghost es: seq<Exchange>)
    requires store.port == g.port
    modifies store
    ensures store.exchanges == old(store.exchanges) + es
    ensures Path(g, es, Reserving(key, second, current, snapshot, reservation, request), end) && Leaves(end, key, second)
  {
    ghost var x := Reserving(key, second, current, snapshot, reservation, request);
    var m := store.Meet();
    var reply: Reply;
    if current.None? {
      reply := store.Do(m, key, CreateReserved(Some(snapshot), reservation));
    } else {
      reply := store.Do(m, key, Reserve(current.value.version, Some(snapshot), reservation));
    }
    ghost var left := store.contents;
    if reply.Failed? {
      end, es := AfterError(key, second, reply.error), [];
      CallLeads(g, m, key, ReserveOp(x), left, reply, x, end, es, end);
    } else if reply.workflow.None? || reply.workflow.value.execution.None? {
      end, es := Ended(StoreUnavailable), [];
      CallLeads(g, m, key, ReserveOp(x), left, reply, x, end, es, end);
    } else {
      var t := TenureOf(key, reply.workflow.value, reservation.startedAt, request, false);
      end, es := Execute(store, g, t);
      CallLeads(g, m, key, ReserveOp(x), left, reply, x, Holding(t, Installed), es, end);
    }
    es := [Exchange(m, left)] + es;
  }

  // ---- the chat loop ------------------------------------------------------------------------

  /** `persistProtocolLiveWorkflowOutcome`. */
  method Persist(store: SharedStore, g: Setting, key: WorkflowKey, second: bool, current: Option<VersionedWorkflow>)
    returns (end: Worker, ghost es: seq<Exchange>)
    requires store.port == g.port && OutcomeFor(g.given, second).prepared.None?
    modifies store
    ensures store.exchanges == old(store.exchanges) + es
    ensures Path(g, es, Deciding(key, second, current), end) && Leaves(end, key, second)
  {
    var outcome := OutcomeFor(g.given, second);
    ghost var y := Persisting(key, second, current, outcome);
    var m := store.Meet();
    store.Pass(m);
    var n := store.Meet();
    var op := PersistOp(current, outcome);
    if op.None? {
      store.Pass(n);
      end := Ended(TurnPersisted);
      PauseLeads(g, n, y, end, [], end);
    } else {
      var persisted := store.Do(n, key, op.value);
      end := if persisted.Ok? then Ended(TurnPersisted) else AfterError(key, second, persisted.error);
      CallLeads(g, n, key, op.value, store.contents, persisted, y, end, [], end);
    }
    es := [Exchange(n, store.contents)] + [];
    PauseLeads(g, m, Deciding(key, second, current), y, es, end);
    es := [Exchange(m, m.store)] + es;
  }

  /** One attempt: load, decide, then write or store the turn. */
  method Attempt(store: SharedStore, g: Setting, key: WorkflowKey, second: bool) returns (end: Worker, ghost es: seq<Exchange>)
    requires store.port == g.port
    modifies store
    ensures store.exchanges == old(store.exchanges) + es
    ensures Path(g, es, Loading(key, second), end) && Leaves(end, key, second)
  {
    ghost var x := Loading(key, second);
    var m := store.Meet();
    var loaded := store.Do(m, key, Load);
    ghost var left := store.contents;
    if loaded.Failed? {
      end, es := Ended(StoreUnavailable), [];
      CallLeads(g, m, key, Load, left, loaded, x, end, es, end);
    } else if ActiveExecution(loaded.workflow) {
      end, es := Ended(WritePending), [];
      CallLeads(g, m, key, Load, left, loaded, x, end, es, end);
    } else {
      var prepared := OutcomeFor(g.given, second).prepared;
      if prepared.Some? {
        end, es := CoordinatePreparedWrite(store, g, key, second, loaded.workflow, prepared.value);
      } else {
        end, es := Persist(store, g, key, second, loaded.workflow);
      }
      CallLeads(g, m, key, Load, left, loaded, x, Deciding(key, second, loaded.workflow), es, end);
    }
    es := [Exchange(m, left)] + es;
  }

  /** The chat loop: a conflict before any write started is retried once, and only once. */
  method Chat(store: SharedStore, g: Setting, key: WorkflowKey) returns (end: Worker, ghost es: seq<Exchange>)
    requires store.port == g.port
    modifies store
    ensures store.exchanges == old(store.exchanges) + es && Path(g, es, Loading(key, false), end) && end.Ended?
  {
    end, es := Loading(key, false), [];
    for attempt := 0 to 2
      invariant store.exchanges == old(store.exchanges) + es && Path(g, es, Loading(key, false), end)
      invariant if attempt == 2 then end.Ended? else end == Loading(key, attempt == 1)
    {
      ghost var first, from := es, end;
      end, es := Attempt(store, g, key, attempt == 1);
      PathsCompose(g, first, es, Loading(key, false), from, end);
      es := first + es;
      if end.Ended? { return; }
    }
  }

  // ---- recovery -----------------------------------------------------------------------------

  /** `recoverWorkflowExecution`. */
  method RecoverWorkflowExecution(store: SharedStore, g: Setting, key: WorkflowKey, candidate: VersionedWorkflow, stamp: Time)
    returns (end: Worker, ghost es: seq<Exchange>)
    requires store.port == g.port
    modifies store
    ensures store.exchanges == old(store.exchanges) + es && Path(g, es, Listed(key, candidate, stamp), end) && end.Ended?
  {
    ghost var x := Listed(key, candidate, stamp);
    var m := store.Meet();
    if candidate.execution.None? || (candidate.execution.value.status == ResultRecorded && candidate.execution.value.result.None?) {
      store.Pass(m);
      end, es := Ended(RecoveryFailed), [Exchange(m, m.store)] + [];
      PauseLeads(g, m, x, end, [], end);
    } else if candidate.execution.value.status == ResultRecorded {
      var op := DeleteReserved(candidate.version, candidate.execution.value.reservation.token);
      var released := store.Do(m, key, op);
      end, es := Ended(if released.Ok? then Recovered else RecoveryFailed), [Exchange(m, store.contents)] + [];
      CallLeads(g, m, key, op, store.contents, released, x, end, [], end);
    } else {
      end, es := TakeOver(store, g, key, candidate, stamp, m);
    }
  }

  /** Its second half: take over an expired lease, rebuild the request, run it. */
  method TakeOver(store: SharedStore, g: Setting, key: WorkflowKey, candidate: VersionedWorkflow, stamp: Time, m: Moment)
    returns (end: Worker, ghost es: seq<Exchange>)
    requires store.port == g.port && store.contents == m.store
    requires candidate.execution.Some? && candidate.execution.value.status != ResultRecorded
    modifies store
    ensures store.exchanges == old(store.exchanges) + es && Path(g, es, Listed(key, candidate, stamp), end) && end.Ended?
  {
    ghost var x := Listed(key, candidate, stamp);
    var e := candidate.execution.value;
    if e.reservation.leaseExpiresAt > stamp {
      store.Pass(m);
      end, es := Ended(RecoveryFailed), [Exchange(m, m.store)] + [];
      PauseLeads(g, m, x, end, [], end);
      return;
    }
    var op := Takeover(candidate.version, e.reservation.token, Successor(e, g.given.tokens.0, g.given.attemptID, stamp));
    var taken := store.Do(m, key, op);
    ghost var left := store.contents;
    if taken.Failed? || taken.workflow.None? || taken.workflow.value.execution.None? {
      end, es := Ended(RecoveryFailed), [];
      CallLeads(g, m, key, op, left, taken, x, end, es, end);
    } else {
      var r := taken.workflow.value.execution.value.reservation;
      var request := g.rebuild(key, r);
      if request.None? {
        var t := TenureOf(key, taken.workflow.value, stamp, RecoveredRequest(key, r), true);
        end, es := GiveUp(store, g, t);
        CallLeads(g, m, key, op, left, taken, x, GivenUp(t), es, end);
      } else {
        var t := TenureOf(key, taken.workflow.value, stamp, request.value, true);
        end, es := Execute(store, g, t);
        CallLeads(g, m, key, op, left, taken, x, Holding(t, Installed), es, end);
      }
    }
    es := [Exchange(m, left)] + es;
  }

  /** A listed candidate and the setting of its recovery. */
  datatype Job = Job(key: WorkflowKey, candidate: VersionedWorkflow, setting: Setting)

  function Concatenated(segments: seq<seq<Exchange>>): seq<Exchange> {
    if segments == [] then [] else Concatenated(segments[..|segments| - 1]) + segments[|segments| - 1]
  }

  function Completed(ends: seq<Worker>): nat {
    if ends == [] then 0
    else Completed(ends[..|ends| - 1]) + if ends[|ends| - 1] == Ended(Recovered) then 1 else 0
  }

  /** One candidate's recovery took the protocol's steps from its listing to its end. */
  predicate RecoveryOf(stamp: Time, job: Job, es: seq<Exchange>, end: Worker) {
    end.Ended? && Path(job.setting, es, Listed(job.key, job.candidate, stamp), end)
  }

  predicate Recoveries(stamp: Time, jobs: seq<Job>, segments: seq<seq<Exchange>>, ends: seq<Worker>) {
    && |segments| == |jobs| && |ends| == |jobs|
    && var last := |jobs| - 1;
    && (jobs != [] ==>
          RecoveryOf(stamp, jobs[last], segments[last], ends[last]) && Recoveries(stamp, jobs[..last], segments[..last], ends[..last]))
  }

  lemma OneMoreRecovery(
    stamp: Time, jobs: seq<Job>, segments: seq<seq<Exchange>>, ends: seq<Worker>, job: Job, es: seq<Exchange>, end: Worker)
    requires Recoveries(stamp, jobs, segments, ends) && RecoveryOf(stamp, job, es, end)
    ensures Recoveries(stamp, jobs + [job], segments + [es], ends + [end])
    ensures Concatenated(segments + [es]) == Concatenated(segments) + es
    ensures Completed(ends + [end]) == Completed(ends) + if end == Ended(Recovered) then 1 else 0
  {
    assert (segments + [es])[..|segments|] == segments && (ends + [end])[..|ends|] == ends && (jobs + [job])[..|jobs|] == jobs;
  }

  /** `RecoverExpiredExecutions`: every candidate under one clock reading, one after the other, and a count of those completed. */
  method RecoverExpiredExecutions(store: SharedStore, stamp: Time, jobs: seq<Job>)
    returns (completed: nat, ghost segments: seq<seq<Exchange>>, ghost ends: seq<Worker>)
    requires forall job | job in jobs :: store.port == job.setting.port
    modifies store
    ensures store.exchanges == old(store.exchanges) + Concatenated(segments)
    ensures Recoveries(stamp, jobs, segments, ends) && completed == Completed(ends)
  {
    completed, segments, ends := 0, [], [];
    for i := 0 to |jobs|
      invariant store.exchanges == old(store.exchanges) + Concatenated(segments)
      invariant Recoveries(stamp, jobs[..i], segments, ends) && completed == Completed(ends)
    {
      assert jobs[i] in jobs;
      var end, es := RecoverWorkflowExecution(store, jobs[i].setting, jobs[i].key, jobs[i].candidate, stamp);
      OneMoreRecovery(stamp, jobs[..i], segments, ends, jobs[i], es, end);
      assert jobs[..i + 1] == jobs[..i] + [jobs[i]];
      segments, ends := segments + [es], ends + [end];
      if end == Ended(Recovered) { completed := completed + 1; }
    }
    assert jobs[..|jobs|] == jobs;
  }
}
