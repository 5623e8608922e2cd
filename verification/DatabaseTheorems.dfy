/** Every run over the database is a run of the protocol, and what that gives. */
module DatabaseTheorems {
  import opened Types
  import opened BusinessKey
  import opened Recovery
  import opened WorkflowStore
  import opened StoreRuns
  import opened Protocol
  import opened ProtocolSafety
  import opened ProtocolTheorems
  import opened ProtocolRuns
  import opened Reaching
  import opened ExecutorCalls
  import opened DatabaseStore
  import opened DatabaseProtocol

  lemma LoneStepFollowsToo(digest: Digest, d: DatabaseSystem, s: System, a: Action)
    requires Follows(d, s) && Reachable(digest, s) && StoreInv(s.store) && DatabaseEnabled(digest, d, a)
    requires !a.LoadStep? && !a.PersistStep? && !a.ReserveStep? && !a.TakeoverStep? && !a.FinishRecordedStep? && !a.RecordStep? && !a.ReleaseStep?
    ensures exists b :: StepFollows(digest, d, s, a, b)
  {
    match a
    case Tick(duration) => TickFollows(digest, d, s, duration);
    case ListCandidate(_, _, _) => ListStepFollows(digest, d, s, a);
    case DecideStep(_, _, _) => DecideStepFollows(digest, d, s, a);
    case ExecuteStep(_) => ExecuteStepFollows(digest, d, s, a);
    case ReturnStep(_, _) => ExecuteStepFollows(digest, d, s, a);
    case DeferStep(w, fault) => DeferStepFollows(digest, d, s, w, fault);
    case _ => ComingAndGoingFollows(digest, d, s, a);
  }

  /** Every step over the database is a step of the protocol over the store. */
  lemma EveryStepFollows(digest: Digest, d: DatabaseSystem, s: System, a: Action)
    requires Follows(d, s) && Reachable(digest, s) && DatabaseEnabled(digest, d, a)
    ensures exists b :: StepFollows(digest, d, s, a, b)
  {
    ReachableStatesAreSafe(digest, s);
    if a.LoadStep? || a.PersistStep? || a.ReserveStep? { TurnStepFollows(digest, d, s, a); }
    else if a.TakeoverStep? || a.FinishRecordedStep? { RecoveryStepFollows(digest, d, s, a); }
    else if a.RecordStep? || a.ReleaseStep? { ConcludingStepFollows(digest, d, s, a); }
    else { LoneStepFollowsToo(digest, d, s, a); }
  }

  lemma TurnStepFollows(digest: Digest, d: DatabaseSystem, s: System, a: Action)
    requires Follows(d, s) && StoreInv(s.store) && DatabaseEnabled(digest, d, a) && (a.LoadStep? || a.PersistStep? || a.ReserveStep?)
    ensures exists b :: StepFollows(digest, d, s, a, b)
  {
    match a
    case LoadStep(_, _) => var b := LoadStepFollows(digest, d, s, a);
    case PersistStep(_, _) => var b := PersistStepFollows(digest, d, s, a);
    case ReserveStep(_, _) => var b := ReserveStepFollows(digest, d, s, a);
  }

  lemma RecoveryStepFollows(digest: Digest, d: DatabaseSystem, s: System, a: Action)
    requires Follows(d, s) && Reachable(digest, s) && StoreInv(s.store) && DatabaseEnabled(digest, d, a) && (a.TakeoverStep? || a.FinishRecordedStep?)
    ensures exists b :: StepFollows(digest, d, s, a, b)
  {
    match a
    case TakeoverStep(_, _, _, _) => var b := TakeoverStepFollows(digest, d, s, a);
    case FinishRecordedStep(_, _) => var b := FinishStepFollows(digest, d, s, a);
  }

  lemma ConcludingStepFollows(digest: Digest, d: DatabaseSystem, s: System, a: Action)
    requires Follows(d, s) && StoreInv(s.store) && DatabaseEnabled(digest, d, a) && (a.RecordStep? || a.ReleaseStep?)
    ensures exists b :: StepFollows(digest, d, s, a, b)
  {
    match a
    case RecordStep(_, _) => var b := RecordStepFollows(digest, d, s, a);
    case ReleaseStep(_, _) => var b := ReleaseStepFollows(digest, d, s, a);
  }

  // ---- whole runs ----------------------------------------------------------------------------------------

  ghost predicate DatabaseLeads(digest: Digest, d: DatabaseSystem, actions: seq<Action>, e: DatabaseSystem)
    decreases |actions|
  {
    if actions == [] then d == e
    else DatabaseEnabled(digest, d, actions[0]) && DatabaseLeads(digest, DatabasePerform(digest, d, actions[0]), actions[1..], e)
  }

  predicate EmptyDatabase(d: DatabaseSystem) {
    d.db == map[] && d.workers == map[] && d.origin == map[] && d.log == [] && d.now > 0
  }

  ghost predicate DatabaseReachable(digest: Digest, e: DatabaseSystem) {
    exists d, actions :: EmptyDatabase(d) && DatabaseLeads(digest, d, actions, e)
  }

  /** The database before each action of a run, and after the last. */
  ghost function DatabasesAlong(digest: Digest, d: DatabaseSystem, actions: seq<Action>): (dbs: seq<Database>)
    ensures |dbs| >= 1 && dbs[0] == d.db
    decreases |actions|
  {
    if actions == [] || !DatabaseEnabled(digest, d, actions[0]) then [d.db]
    else [d.db] + DatabasesAlong(digest, DatabasePerform(digest, d, actions[0]), actions[1..])
  }

  /** The store mirrors the database at every moment. */
  predicate MirrorsThroughout(dbs: seq<Database>, states: seq<Store>) {
    |dbs| == |states| && forall i | 0 <= i < |dbs| :: Mirrors(dbs[i], states[i])
  }

  /** The protocol's run beside a run over the database: action for action, in step throughout. */
  ghost predicate RunsBeside(
    digest: Digest, d: DatabaseSystem, s: System, actions: seq<Action>, e: DatabaseSystem, behind: seq<Action>, t: System)
  {
    && Leads(digest, s, behind, t) && Reachable(digest, t) && Follows(e, t) && |behind| == |actions|
    && MirrorsThroughout(DatabasesAlong(digest, d, actions), StatesAlong(digest, s, behind))
  }

  /** Every run over the database is a run of the protocol. */
  lemma {:induction false} DatabaseRunsFollow(digest: Digest, d: DatabaseSystem, s: System, actions: seq<Action>, e: DatabaseSystem)
    requires Follows(d, s) && Reachable(digest, s) && DatabaseLeads(digest, d, actions, e)
    ensures exists behind, t :: RunsBeside(digest, d, s, actions, e, behind, t)
    decreases |actions|
  {
    if actions == [] {
      NoStepFollows(digest, d, s);
    } else {
      var b, s' := NextFollows(digest, d, s, actions[0]);
      DatabaseRunsFollow(digest, DatabasePerform(digest, d, actions[0]), s', actions[1..], e);
      RunsFollowFromHere(digest, d, s, actions, e, b, s');
    }
  }

  lemma NoStepFollows(digest: Digest, d: DatabaseSystem, s: System)
    requires Follows(d, s) && Reachable(digest, s)
    ensures RunsBeside(digest, d, s, [], d, [], s)
  {
    MirrorsAlone(d.db, s.store);
    assert DatabasesAlong(digest, d, []) == [d.db] && StatesAlong(digest, s, []) == [s.store];
  }

  lemma MirrorsAlone(db: Database, store: Store)
    requires Mirrors(db, store)
    ensures MirrorsThroughout([db], [store])
  {
  }

  lemma RunsFollowFromHere(
    digest: Digest, d: DatabaseSystem, s: System, actions: seq<Action>, e: DatabaseSystem, b: Action, s': System)
    requires Mirrors(d.db, s.store) && actions != [] && DatabaseEnabled(digest, d, actions[0])
    requires Enabled(digest, s, b) && s' == Perform(digest, s, b)
    requires exists rest, t :: RunsBeside(digest, DatabasePerform(digest, d, actions[0]), s', actions[1..], e, rest, t)
    ensures exists behind, t :: RunsBeside(digest, d, s, actions, e, behind, t)
  {
    var rest, t :| RunsBeside(digest, DatabasePerform(digest, d, actions[0]), s', actions[1..], e, rest, t);
    RunsBesideFromHere(digest, d, s, actions, e, b, rest, t);
  }

  lemma RunsBesideFromHere(
    digest: Digest, d: DatabaseSystem, s: System, actions: seq<Action>, e: DatabaseSystem, b: Action, rest: seq<Action>, t: System)
    requires Mirrors(d.db, s.store) && actions != [] && DatabaseEnabled(digest, d, actions[0]) && Enabled(digest, s, b)
    requires RunsBeside(digest, DatabasePerform(digest, d, actions[0]), Perform(digest, s, b), actions[1..], e, rest, t)
    ensures RunsBeside(digest, d, s, actions, e, [b] + rest, t)
  {
    OneMoreFollows(digest, d, s, actions, b, rest);
    LeadsFromHere(digest, s, b, rest, t);
  }

  lemma NextFollows(digest: Digest, d: DatabaseSystem, s: System, a: Action) returns (b: Action, s': System)
    requires Follows(d, s) && Reachable(digest, s) && DatabaseEnabled(digest, d, a)
    ensures Enabled(digest, s, b) && s' == Perform(digest, s, b) && Reachable(digest, s') && Follows(DatabasePerform(digest, d, a), s')
  {
    EveryStepFollows(digest, d, s, a);
    b :| StepFollows(digest, d, s, a, b);
    s' := Perform(digest, s, b);
    OneStepFurther(digest, s, b);
  }

  lemma LeadsFromHere(digest: Digest, s: System, b: Action, rest: seq<Action>, t: System)
    requires Enabled(digest, s, b) && Leads(digest, Perform(digest, s, b), rest, t)
    ensures Leads(digest, s, [b] + rest, t)
  {
    assert ([b] + rest)[1..] == rest;
  }

  lemma OneMoreFollows(digest: Digest, d: DatabaseSystem, s: System, actions: seq<Action>, b: Action, rest: seq<Action>)
    requires Mirrors(d.db, s.store) && actions != [] && DatabaseEnabled(digest, d, actions[0]) && Enabled(digest, s, b)
    requires MirrorsThroughout(DatabasesAlong(digest, DatabasePerform(digest, d, actions[0]), actions[1..]),
                               StatesAlong(digest, Perform(digest, s, b), rest))
    ensures MirrorsThroughout(DatabasesAlong(digest, d, actions), StatesAlong(digest, s, [b] + rest))
  {
    DatabasesFromHere(digest, d, actions);
    StatesFromHere(digest, s, b, rest);
    MirrorsOnward(d.db, DatabasesAlong(digest, DatabasePerform(digest, d, actions[0]), actions[1..]),
                  s.store, StatesAlong(digest, Perform(digest, s, b), rest));
  }

  lemma DatabasesFromHere(digest: Digest, d: DatabaseSystem, actions: seq<Action>)
    requires actions != [] && DatabaseEnabled(digest, d, actions[0])
    ensures DatabasesAlong(digest, d, actions) == [d.db] + DatabasesAlong(digest, DatabasePerform(digest, d, actions[0]), actions[1..])
  {
  }

  lemma StatesFromHere(digest: Digest, s: System, b: Action, rest: seq<Action>)
    requires Enabled(digest, s, b)
    ensures StatesAlong(digest, s, [b] + rest) == [s.store] + StatesAlong(digest, Perform(digest, s, b), rest)
  {
    assert ([b] + rest)[1..] == rest;
  }

  lemma MirrorsOnward(db: Database, dbs: seq<Database>, store: Store, states: seq<Store>)
    requires Mirrors(db, store) && MirrorsThroughout(dbs, states)
    ensures MirrorsThroughout([db] + dbs, [store] + states)
  {
    assert ([db] + dbs)[1..] == dbs;
    PairsExtend(Mirrors, [db] + dbs, store, states);
  }

  lemma OneStepFurther(digest: Digest, s: System, b: Action)
    requires Reachable(digest, s) && Enabled(digest, s, b)
    ensures Reachable(digest, Perform(digest, s, b))
  {
    Reaching.OneStep(digest, s, b);
    ReachableFurther(digest, s, Perform(digest, s, b));
  }

  /** The composition: every reachable state of the protocol over the database has a reachable state of the protocol over the store in step with it. */
  lemma DatabaseProtocolRefinesProtocol(digest: Digest, e: DatabaseSystem) returns (t: System)
    requires DatabaseReachable(digest, e)
    ensures Reachable(digest, t) && Follows(e, t)
  {
    var d, actions :| EmptyDatabase(d) && DatabaseLeads(digest, d, actions, e);
    var s := System(map[], d.now, map[], map[], []);
    assert Initial(s) && Leads(digest, s, [], s);
    DatabaseRunsFollow(digest, d, s, actions, e);
    var behind: seq<Action>;
    behind, t :| RunsBeside(digest, d, s, actions, e, behind, t);
  }

  // ---- what holds over the database --------------------------------------------------------------------

  /** Over the database too, a prompt executor is beside another on its key only if that one has outlived its lease. */
  lemma PromptExecutorsNeverOverlapOverTheDatabase(digest: Digest, e: DatabaseSystem, w: nat, v: nat)
    requires DatabaseReachable(digest, e) && w != v && RunsExecutor(Faced(e), w) && RunsExecutor(Faced(e), v)
    requires e.workers[w].tenure.key == e.workers[v].tenure.key && Prompt(e.workers[w])
    ensures e.workers[v].tenure.expires <= e.now < e.workers[w].tenure.expires
  {
    var t := DatabaseProtocolRefinesProtocol(digest, e);
    HoldersAreTheSame(e, t, w);
    HoldersAreTheSame(e, t, v);
    PromptExecutorsNeverOverlap(digest, t, w, v);
  }

  /** One message, or one recovery of one row, calls the executor at most once; "completed" means called, answered, recorded in the database and released from it, under one token. */
  lemma OneExecutorCallOverTheDatabase(digest: Digest, e: DatabaseSystem, w: nat)
    requires DatabaseReachable(digest, e)
    ensures CallsMade(Story(e.log, w)) <= 1
    ensures w in e.workers && e.workers[w].Ended? && e.workers[w].ending.WriteCompleted? ==>
              exists effect :: Story(e.log, w) == WholeStory(w, e.workers[w].ending.token, effect)
  {
    var t := DatabaseProtocolRefinesProtocol(digest, e);
    AtMostOneExecutorCall(digest, t, w);
    WorkerFollows(e, t, w);
    if w in e.workers && e.workers[w].Ended? && e.workers[w].ending.WriteCompleted? {
      CompletedMeansRecordedAndReleased(digest, t, w, e.workers[w].ending.token);
    }
  }

  /** Every execution a row holds can be rebuilt, and what recovery would run is what its chat turn prepared. */
  lemma EveryRowRebuilds(digest: Digest, e: DatabaseSystem, key: WorkflowKey)
    requires DatabaseReachable(digest, e) && RowHolds(e.db, key)
    ensures var r := RowExecution(e.db, key).reservation;
            && r.token in e.origin && RequestFromReservation(digest, key, r).Some?
            && SameRequest(RequestFromReservation(digest, key, r).value, e.origin[r.token])
  {
    var t := DatabaseProtocolRefinesProtocol(digest, e);
    RowReadsExecution(e.db, t.store, key);
    StoredExecutionsAlwaysRebuild(digest, t, key);
  }

  /** No write is lost over the database: in any continuation the row carries it throughout, or up to a moment at which its result is recorded. */
  lemma NoWriteIsLostOverTheDatabase(digest: Digest, d: DatabaseSystem, actions: seq<Action>, e: DatabaseSystem, key: WorkflowKey)
    requires DatabaseReachable(digest, d) && DatabaseLeads(digest, d, actions, e) && RowHolds(d.db, key)
    ensures var dbs := DatabasesAlong(digest, d, actions);
            && |dbs| == |actions| + 1
            && (RowsCarry(dbs, key, 0, |actions|)
                || exists m :: 0 <= m < |actions| && RowsCarry(dbs, key, 0, m) && Recorded(RowExecution(dbs[m], key)))
  {
    var s := DatabaseProtocolRefinesProtocol(digest, d);
    DatabaseRunsFollow(digest, d, s, actions, e);
    var behind, t :| RunsBeside(digest, d, s, actions, e, behind, t);
    RowReadsExecution(d.db, s.store, key);
    ProtocolLosesNoWrite(digest, s, behind, t, key);
    RowsCarryOrAreRecorded(DatabasesAlong(digest, d, actions), StatesAlong(digest, s, behind), CallsAlong(digest, s, behind), key);
  }

  lemma RowsCarryOrAreRecorded(dbs: seq<Database>, states: seq<Store>, calls: seq<Call>, key: WorkflowKey)
    requires MirrorsThroughout(dbs, states) && |states| == |calls| + 1 && RowHolds(dbs[0], key) && HasExecution(states[0], key)
    requires Carried(states, key, 0, |calls|)
             || exists m :: 0 <= m < |calls| && Carried(states, key, 0, m) && ReleasedBy(states[m], calls[m], key)
    ensures RowsCarry(dbs, key, 0, |calls|)
            || exists m :: 0 <= m < |calls| && RowsCarry(dbs, key, 0, m) && Recorded(RowExecution(dbs[m], key))
  {
    if Carried(states, key, 0, |calls|) {
      RowsCarryWhatStatesCarry(dbs, states, key, 0, |calls|);
    } else {
      var m :| 0 <= m < |calls| && Carried(states, key, 0, m) && ReleasedBy(states[m], calls[m], key);
      RowsCarryWhatStatesCarry(dbs, states, key, 0, m);
      RowReadsExecution(dbs[m], states[m], key);
    }
  }
}
