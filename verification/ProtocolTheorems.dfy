/** What the protocol guarantees in every reachable state. */
module ProtocolTheorems {
  import opened Base
  import opened Types
  import opened BusinessKey
  import opened Recovery
  import opened WorkflowStore
  import opened Protocol
  import opened ProtocolSafety
  import opened ProtocolSteps

  lemma EveryActionKeepsInv(digest: Digest, s: System, a: Action)
    requires Inv(digest, s) && Enabled(digest, s, a)
    ensures Inv(digest, Perform(digest, s, a))
  {
    match a
    case Tick(_) => TickIsSafe(digest, s, a);
    case Message(_, _) => QuietActionIsSafe(digest, s, a);
    case ListCandidate(_, _, _) => ListIsSafe(digest, s, a);
    case LoadStep(_, _) => QuietActionIsSafe(digest, s, a);
    case DecideStep(_, _, _) => DecideIsSafe(digest, s, a);
    case PersistStep(_, _) => QuietActionIsSafe(digest, s, a);
    case ReserveStep(_, _) => ReserveIsSafe(digest, s, a);
    case TakeoverStep(_, _, _, _) => TakeoverIsSafe(digest, s, a);
    case FinishRecordedStep(_, _) => QuietActionIsSafe(digest, s, a);
    case ExecuteStep(_) => RunningIsSafe(digest, s, a);
    case ReturnStep(_, _) => RunningIsSafe(digest, s, a);
    case RecordStep(_, _) => RecordIsSafe(digest, s, a);
    case ReleaseStep(_, _) => QuietActionIsSafe(digest, s, a);
    case DeferStep(_, _) => DeferIsSafe(digest, s, a);
    case CrashStep(_) => QuietActionIsSafe(digest, s, a);
  }

  lemma {:induction false} RunsKeepInv(digest: Digest, s: System, actions: seq<Action>, t: System)
    requires Inv(digest, s) && Leads(digest, s, actions, t)
    ensures Inv(digest, t)
    decreases |actions|
  {
    if actions != [] {
      EveryActionKeepsInv(digest, s, actions[0]);
      RunsKeepInv(digest, Perform(digest, s, actions[0]), actions[1..], t);
    }
  }

  lemma ReachableStatesAreSafe(digest: Digest, t: System)
    requires Reachable(digest, t)
    ensures Inv(digest, t)
  {
    var s, actions :| Initial(s) && Leads(digest, s, actions, t);
    RunsKeepInv(digest, s, actions, t);
  }

  // ---- lease arithmetic ------------------------------------------------------------

  predicate RunsExecutor(s: System, w: nat) {
    w in s.workers && s.workers[w].Holding? && s.workers[w].phase.Running?
  }

  /** The executor was started early enough that its timeout ends before the lease does. */
  predicate Prompt(x: Worker)
    requires x.Holding? && x.phase.Running?
  {
    x.phase.startedAt + EXECUTOR_TIMEOUT < x.tenure.expires
  }

  /** Thirty seconds minus one millisecond from the stamp of the reservation, or of the recovery batch, is early enough. */
  lemma PromptStarts(digest: Digest, s: System, w: nat)
    requires Reachable(digest, s) && RunsExecutor(s, w)
    requires s.workers[w].phase.startedAt + MILLISECOND <= s.workers[w].tenure.stamp + 30 * SECOND
    ensures Prompt(s.workers[w])
  {
    ReachableStatesAreSafe(digest, s);
    assert WorkerInv(digest, s.store, s.now, s.origin, s.workers[w]);
  }

  /** Two executors work on one key at the same time only if one of them has outlived its lease. */
  lemma OverlapOnlyPastTheLease(digest: Digest, s: System, w: nat, v: nat)
    requires Reachable(digest, s) && w != v && RunsExecutor(s, w) && RunsExecutor(s, v)
    requires s.workers[w].tenure.key == s.workers[v].tenure.key
    ensures s.workers[w].tenure.expires <= s.now || s.workers[v].tenure.expires <= s.now
  {
    ReachableStatesAreSafe(digest, s);
    var x, y := s.workers[w], s.workers[v];
    assert WorkerInv(digest, s.store, s.now, s.origin, x) && WorkerInv(digest, s.store, s.now, s.origin, y);
    assert OwnToken(x) != OwnToken(y);
  }

  /** Mutual exclusion: whatever crashed, retried or recovered in between, a prompt executor is never beside another on its key but one that has outlived its own lease; so two prompt ones never work on one key at the same time. */
  lemma PromptExecutorsNeverOverlap(digest: Digest, s: System, w: nat, v: nat)
    requires Reachable(digest, s) && w != v && RunsExecutor(s, w) && RunsExecutor(s, v)
    requires s.workers[w].tenure.key == s.workers[v].tenure.key
    ensures Prompt(s.workers[w]) ==> s.workers[v].tenure.expires <= s.now < s.workers[w].tenure.expires
    ensures !Prompt(s.workers[w]) || !Prompt(s.workers[v])
  {
    OverlapOnlyPastTheLease(digest, s, w, v);
    ReachableStatesAreSafe(digest, s);
    assert WorkerInv(digest, s.store, s.now, s.origin, s.workers[w]);
    assert WorkerInv(digest, s.store, s.now, s.origin, s.workers[v]);
  }

  // ---- what executors are asked to do --------------------------------------------------

  /** Every executor call, whether by the chat turn or by the last of many recoveries, is the business call of a request some chat turn prepared and the pipeline admitted for this key. */
  lemma ExecutorsRunPreparedRequests(digest: Digest, s: System, w: nat)
    requires Reachable(digest, s) && RunsExecutor(s, w)
    ensures var t := s.workers[w].tenure;
            t.token in s.origin && Admissible(digest, t.key, s.origin[t.token])
            && CallFor(t.request) == CallFor(s.origin[t.token])
            && t.request.idempotencyKey == s.origin[t.token].idempotencyKey
            && MeaningOf(t.request) == MeaningOf(s.origin[t.token])
  {
    ReachableStatesAreSafe(digest, s);
    assert WorkerInv(digest, s.store, s.now, s.origin, s.workers[w]);
  }

  /** Every stored execution can be rebuilt, and what recovery would run is what its chat turn prepared. */
  lemma StoredExecutionsAlwaysRebuild(digest: Digest, s: System, key: WorkflowKey)
    requires Reachable(digest, s) && HasExecution(s.store, key)
    ensures var r := ExecutionAt(s.store, key).reservation;
            && r.token in s.origin
            && RequestFromReservation(digest, key, r).Some?
            && SameRequest(RequestFromReservation(digest, key, r).value, s.origin[r.token])
  {
    ReachableStatesAreSafe(digest, s);
    var r := ExecutionAt(s.store, key).reservation;
    assert Traced(digest, s.origin, key, r);
    RecoveredRequestIsFaithful(digest, key, r, s.origin[r.token]);
  }
}
