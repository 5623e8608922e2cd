/** The sequential code of the workers stays within the protocol, whatever the others do between its calls. */
module WorkerRuns {
  import opened Types
  import opened BusinessKey
  import opened Recovery
  import opened WorkflowStore
  import opened Protocol
  import opened Reaching
  import opened ExecutorCalls
  import opened Workers

  // ---- what the others do ------------------------------------------------------------------

  predicate ActsFor(a: Action, w: nat) { !a.Tick? && a.worker == w }

  /** Time and the other workers alone lead from one state to the other. */
  ghost predicate OthersLead(digest: Digest, w: nat, s: System, t: System) {
    exists actions :: Leads(digest, s, actions, t) && forall a | a in actions :: !ActsFor(a, w)
  }

  lemma OtherActionsLeaveTheWorker(digest: Digest, s: System, a: Action, w: nat)
    requires Enabled(digest, s, a) && !ActsFor(a, w) && w in s.workers
    ensures var t := Perform(digest, s, a); w in t.workers && t.workers[w] == s.workers[w]
  {
  }

  lemma {:induction false} OthersLeaveTheWorker(digest: Digest, w: nat, s: System, actions: seq<Action>, t: System)
    requires Leads(digest, s, actions, t) && w in s.workers && forall a | a in actions :: !ActsFor(a, w)
    ensures w in t.workers && t.workers[w] == s.workers[w]
    decreases |actions|
  {
    if actions != [] {
      assert actions[0] in actions && forall a | a in actions[1..] :: a in actions;
      OtherActionsLeaveTheWorker(digest, s, actions[0], w);
      OthersLeaveTheWorker(digest, w, Perform(digest, s, actions[0]), actions[1..], t);
    }
  }

  // ---- the worker's own steps -----------------------------------------------------------------

  /** The store the protocol is about, and recovery as the code does it. */
  function Protocolled(digest: Digest, given: Inputs): Setting {
    Setting((m, key, op) => Issue(Found(m), key, op, m.fault), (key, r) => RequestFromReservation(digest, key, r), given)
  }

  /** The action a worker takes in its state. */
  function ActionOf(w: nat, given: Inputs, m: Moment, x: Worker): Action {
    match x
    case Loading(_, _) => LoadStep(w, m.fault)
    case Deciding(_, second, _) => DecideStep(w, OutcomeFor(given, second), TokenFor(given, second))
    case Persisting(_, _, _, _) => PersistStep(w, m.fault)
    case Reserving(_, _, _, _, _, _) => ReserveStep(w, m.fault)
    case Listed(_, candidate, _) =>
      if candidate.execution.Some? && candidate.execution.value.status == ResultRecorded then FinishRecordedStep(w, m.fault)
      else TakeoverStep(w, given.tokens.0, given.attemptID, m.fault)
    case Holding(_, Installed) => ExecuteStep(w)
    case Holding(_, Running(_)) => ReturnStep(w, given.effect)
    case Holding(_, Returned(_)) => RecordStep(w, m.fault)
    case Holding(_, ResultStored(_)) => ReleaseStep(w, m.fault)
    case Deferring(_) => DeferStep(w, m.fault)
    case Ended(_) => CrashStep(w)
  }

  /** The worker comes to act in this state of the system. */
  predicate ActsIn(s: System, w: nat, m: Moment, x: Worker) {
    w in s.workers && s.workers[w] == x && s.store == m.store && s.now == m.now && !x.Ended?
  }

  ghost predicate Agrees(digest: Digest, s: System, w: nat, given: Inputs, m: Moment, x: Worker)
    requires Enabled(digest, s, ActionOf(w, given, m, x))
  {
    var t := Perform(digest, s, ActionOf(w, given, m, x));
    && w in t.workers && (t.store, t.workers[w]) == Stepped(Protocolled(digest, given), m, x)
  }

  /** A call at a moment is the call in the system of that moment. */
  lemma PortIsIssue(digest: Digest, given: Inputs, s: System, m: Moment, key: WorkflowKey, op: Op)
    requires s.store == m.store && s.now == m.now
    ensures Protocolled(digest, given).port(m, key, op) == Issue(s, key, op, m.fault)
  {
  }

  lemma RebuildIsRequest(digest: Digest, given: Inputs, key: WorkflowKey, r: Reservation)
    ensures Protocolled(digest, given).rebuild(key, r) == RequestFromReservation(digest, key, r)
  {
  }

  lemma TurnAgrees(digest: Digest, s: System, w: nat, given: Inputs, m: Moment, x: Worker)
    requires ActsIn(s, w, m, x) && Enabled(digest, s, ActionOf(w, given, m, x))
    requires x.Loading? || x.Persisting? || x.Reserving?
    ensures Agrees(digest, s, w, given, m, x)
  {
    var g := Protocolled(digest, given);
    var call := CallIn(g, m, x);
    if call.Some? { PortIsIssue(digest, given, s, m, call.value.0, call.value.1); }
  }

  lemma DecisionAgrees(digest: Digest, s: System, w: nat, given: Inputs, m: Moment, x: Worker)
    requires ActsIn(s, w, m, x) && Enabled(digest, s, ActionOf(w, given, m, x)) && x.Deciding?
    ensures Agrees(digest, s, w, given, m, x)
  {
  }

  lemma RecoveryAgrees(digest: Digest, s: System, w: nat, given: Inputs, m: Moment, x: Worker)
    requires ActsIn(s, w, m, x) && Enabled(digest, s, ActionOf(w, given, m, x)) && x.Listed?
    ensures Agrees(digest, s, w, given, m, x)
  {
    var g := Protocolled(digest, given);
    var call := CallIn(g, m, x);
    if call.Some? { PortIsIssue(digest, given, s, m, call.value.0, call.value.1); }
    forall key, r ensures g.rebuild(key, r) == RequestFromReservation(digest, key, r) { RebuildIsRequest(digest, given, key, r); }
  }

  lemma DeferralAgrees(digest: Digest, s: System, w: nat, given: Inputs, m: Moment, x: Worker)
    requires ActsIn(s, w, m, x) && Enabled(digest, s, ActionOf(w, given, m, x)) && x.Deferring?
    ensures Agrees(digest, s, w, given, m, x)
  {
    var call := CallIn(Protocolled(digest, given), m, x);
    if call.Some? { PortIsIssue(digest, given, s, m, call.value.0, call.value.1); }
  }

  lemma TenureAgrees(digest: Digest, s: System, w: nat, given: Inputs, m: Moment, x: Worker)
    requires ActsIn(s, w, m, x) && Enabled(digest, s, ActionOf(w, given, m, x)) && x.Holding?
    ensures Agrees(digest, s, w, given, m, x)
  {
    var g := Protocolled(digest, given);
    var call := CallIn(g, m, x);
    if call.Some? { PortIsIssue(digest, given, s, m, call.value.0, call.value.1); }
  }

  /** A step of the code is the protocol's action: the same store, the same next state. */
  lemma CodeStepIsAnAction(digest: Digest, s: System, w: nat, given: Inputs, m: Moment, x: Worker)
    requires ActsIn(s, w, m, x) && Enabled(digest, s, ActionOf(w, given, m, x))
    ensures Agrees(digest, s, w, given, m, x)
  {
    match x
    case Deciding(_, _, _) => DecisionAgrees(digest, s, w, given, m, x);
    case Listed(_, _, _) => RecoveryAgrees(digest, s, w, given, m, x);
    case Deferring(_) => DeferralAgrees(digest, s, w, given, m, x);
    case Holding(_, _) => TenureAgrees(digest, s, w, given, m, x);
    case _ => TurnAgrees(digest, s, w, given, m, x);
  }

  // ---- whole executions -------------------------------------------------------------------------

  /** The exchanges take place in this system: the others lead it to each moment, the worker's draws are legitimate, and what it leaves is what the others go on from. */
  ghost predicate Hosted(digest: Digest, w: nat, given: Inputs, s: System, es: seq<Exchange>, x: Worker, t: System)
    decreases |es|
  {
    if es == [] then OthersLead(digest, w, s, t)
    else exists m: System ::
      && OthersLead(digest, w, s, m) && m.store == es[0].moment.store && m.now == es[0].moment.now && !x.Ended?
      && var a := ActionOf(w, given, es[0].moment, x);
      && Enabled(digest, m, a)
      && Hosted(digest, w, given, Perform(digest, m, a), es[1..], Stepped(Protocolled(digest, given), es[0].moment, x).1, t)
  }

  lemma OthersReach(digest: Digest, w: nat, s: System, t: System)
    requires OthersLead(digest, w, s, t) && w in s.workers
    ensures Reaches(digest, s, t) && w in t.workers && t.workers[w] == s.workers[w]
  {
    var actions :| Leads(digest, s, actions, t) && forall a | a in actions :: !ActsFor(a, w);
    OthersLeaveTheWorker(digest, w, s, actions, t);
  }

  /** Whatever the others do between its calls, an execution of the code is a run of the protocol that ends in the very state the code reports. */
  lemma {:induction false} ExecutionsAreRuns(
    digest: Digest, w: nat, given: Inputs, s: System, es: seq<Exchange>, x: Worker, y: Worker, t: System)
    requires w in s.workers && s.workers[w] == x
    requires Path(Protocolled(digest, given), es, x, y) && Hosted(digest, w, given, s, es, x, t)
    ensures Reaches(digest, s, t) && w in t.workers && t.workers[w] == y
    decreases |es|
  {
    if es == [] {
      OthersReach(digest, w, s, t);
    } else {
      var m: System :|
        && OthersLead(digest, w, s, m) && m.store == es[0].moment.store && m.now == es[0].moment.now && !x.Ended?
        && var a := ActionOf(w, given, es[0].moment, x);
        && Enabled(digest, m, a)
        && Hosted(digest, w, given, Perform(digest, m, a), es[1..], Stepped(Protocolled(digest, given), es[0].moment, x).1, t);
      FirstStep(digest, w, given, s, m, es[0].moment, x);
      var next := Perform(digest, m, ActionOf(w, given, es[0].moment, x));
      ExecutionsAreRuns(digest, w, given, next, es[1..], Stepped(Protocolled(digest, given), es[0].moment, x).1, y, t);
      Onward(digest, s, next, t);
    }
  }

  lemma FirstStep(digest: Digest, w: nat, given: Inputs, s: System, m: System, moment: Moment, x: Worker)
    requires w in s.workers && s.workers[w] == x && OthersLead(digest, w, s, m)
    requires m.store == moment.store && m.now == moment.now && !x.Ended? && Enabled(digest, m, ActionOf(w, given, moment, x))
    ensures var next := Perform(digest, m, ActionOf(w, given, moment, x));
            && Reaches(digest, s, next) && w in next.workers
            && next.workers[w] == Stepped(Protocolled(digest, given), moment, x).1
  {
    OthersReach(digest, w, s, m);
    CodeStepIsAnAction(digest, m, w, given, moment, x);
    OneStep(digest, m, ActionOf(w, given, moment, x));
    Onward(digest, s, m, Perform(digest, m, ActionOf(w, given, moment, x)));
  }

  // ---- what the answers mean -------------------------------------------------------------------

  /** The chat loop's answer is true of the system it ran in, and its message called the executor at most once: "completed" means called, recorded and released under one token, in that order. */
  lemma ChatAnswersAreTrue(
    digest: Digest, w: nat, given: Inputs, s: System, key: WorkflowKey, es: seq<Exchange>, end: Worker, t: System)
    requires Reachable(digest, s) && w in s.workers && s.workers[w] == Loading(key, false)
    requires Path(Protocolled(digest, given), es, Loading(key, false), end) && Hosted(digest, w, given, s, es, Loading(key, false), t)
    ensures Reachable(digest, t) && CallsMade(Story(t.log, w)) <= 1
    ensures forall token | end == Ended(WriteCompleted(token)) :: exists effect :: Story(t.log, w) == WholeStory(w, token, effect)
    ensures end in {Ended(TurnPersisted), Ended(ConflictRefused), Ended(StoreUnavailable)} ==> CallsMade(Story(t.log, w)) == 0
  {
    ExecutionsAreRuns(digest, w, given, s, es, Loading(key, false), end, t);
    ReachableFurther(digest, s, t);
    AtMostOneExecutorCall(digest, t, w);
    forall token | end == Ended(WriteCompleted(token)) ensures exists effect :: Story(t.log, w) == WholeStory(w, token, effect) {
      CompletedMeansRecordedAndReleased(digest, t, w, token);
    }
  }
}
