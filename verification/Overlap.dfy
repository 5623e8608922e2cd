/** Promptness is exact: an executor whose timeout, counted from its start, ends no earlier than its truncated lease can be overtaken by a recovery that runs beside it. */
module Overlap {
  import opened Base
  import opened Types
  import opened ReservationCodec
  import opened BusinessKey
  import opened WorkflowStore
  import opened Protocol
  import opened ProtocolSafety
  import opened ProtocolTheorems
  import opened Progress
  import opened Reaching

  predicate Overlapping(s: System, w: nat, v: nat) {
    && w != v && RunsExecutor(s, w) && RunsExecutor(s, v)
    && s.workers[w].tenure.key == s.workers[v].tenure.key
  }

  // ---- the other executors return -------------------------------------------------------

  function OthersRunning(s: System, w: nat): set<nat> { set v | v in s.workers && v != w && RunsExecutor(s, v) }

  /** Only other workers have moved, none of them runs an executor, and nothing else has changed. */
  ghost predicate Settled(s: System, s': System, w: nat) {
    && s'.store == s.store && s'.now == s.now && s'.origin == s.origin && s'.workers.Keys == s.workers.Keys
    && (w in s.workers ==> s'.workers[w] == s.workers[w])
    && OthersRunning(s', w) == {}
  }

  lemma ReturnLetsGo(digest: Digest, s: System, w: nat, v: nat)
    requires v != w && RunsExecutor(s, v)
    ensures Enabled(digest, s, ReturnStep(v, None))
    ensures var s' := Perform(digest, s, ReturnStep(v, None));
            && s' == s.(workers := s.workers[v := Holding(s.workers[v].tenure, Returned(None))],
                        log := s.log + [Answered(v, s.workers[v].tenure.token, None)])
            && OthersRunning(s', w) == OthersRunning(s, w) - {v}
  {
  }

  lemma {:induction false} OthersSettle(digest: Digest, s: System, w: nat) returns (s': System)
    ensures Reaches(digest, s, s') && Settled(s, s', w)
    decreases OthersRunning(s, w)
  {
    if OthersRunning(s, w) == {} {
      Stays(digest, s);
      s' := s;
    } else {
      var v :| v in OthersRunning(s, w);
      ReturnLetsGo(digest, s, w, v);
      var s1 := Perform(digest, s, ReturnStep(v, None));
      OneStep(digest, s, ReturnStep(v, None));
      s' := OthersSettle(digest, s1, w);
      Onward(digest, s, s1, s');
    }
  }

  // ---- the lease runs out ------------------------------------------------------------------

  /** The time left on a lease. */
  function Wait(s: System, t: Tenure): nat { if t.expires > s.now then t.expires - s.now else 0 }

  /** With everybody else settled, time may pass the lease of an executor that is not prompt. */
  lemma LeaseRunsOut(digest: Digest, s: System, w: nat) returns (s': System)
    requires Reachable(digest, s) && RunsExecutor(s, w) && !Prompt(s.workers[w]) && OthersRunning(s, w) == {}
    ensures Reaches(digest, s, s') && s' == s.(now := s.now + Wait(s, s.workers[w].tenure))
  {
    OwnDeadline(digest, s, w);
    NobodyElseRuns(s, w);
    var tick := Tick(Wait(s, s.workers[w].tenure));
    OneStep(digest, s, tick);
    s' := Perform(digest, s, tick);
  }

  lemma NobodyElseRuns(s: System, w: nat)
    requires OthersRunning(s, w) == {}
    ensures forall v | v in s.workers && v != w :: !RunsExecutor(s, v)
  {
    forall v | v in s.workers && v != w ensures !RunsExecutor(s, v) {
      assert v in OthersRunning(s, w) <==> RunsExecutor(s, v);
    }
  }

  lemma OwnDeadline(digest: Digest, s: System, w: nat)
    requires Reachable(digest, s) && RunsExecutor(s, w) && !Prompt(s.workers[w])
    ensures s.now + Wait(s, s.workers[w].tenure) <= s.workers[w].phase.startedAt + EXECUTOR_TIMEOUT
  {
    ReachableStatesAreSafe(digest, s);
    assert WorkerInv(digest, s.store, s.now, s.origin, s.workers[w]);
  }

  // ---- a recovery starts beside it -------------------------------------------------------------

  /** A recovery pass up to the moment its executor runs. */
  lemma RecoveryStarts(digest: Digest, s: System, key: WorkflowKey, v: nat, token: string, attemptID: string) returns (end: System)
    requires Inv(digest, s) && HasExecution(s.store, key) && v !in s.workers
    requires ExecutionAt(s.store, key).status != ResultRecorded && ExecutionAt(s.store, key).reservation.leaseExpiresAt <= s.now
    requires Generates(s, token) && Identifier(attemptID) && s.now >= MILLISECOND
    ensures Reaches(digest, s, end) && v in end.workers && end.workers == s.workers[v := end.workers[v]]
    ensures RunsExecutor(end, v) && end.workers[v].tenure.key == key
  {
    var listed := ListStepWorks(digest, s, key, v);
    ByContinuation(digest, s, [ListCandidate(v, key, s.now)], listed);
    var taken := TakeoverStepGoesOn(digest, listed, key, v, token, attemptID);
    ByContinuation(digest, listed, [TakeoverStep(v, token, attemptID, Sound)], taken);
    Onward(digest, s, listed, taken);
    end := RunStepWorks(digest, taken, v, taken.workers[v].tenure);
    Onward(digest, s, taken, end);
    StartedWorkers(s, listed, taken, end, key, v);
  }

  lemma RunStepWorks(digest: Digest, s: System, v: nat, t: Tenure) returns (end: System)
    requires v in s.workers && s.workers[v] == Holding(t, Installed)
    ensures end.workers == s.workers[v := Holding(t, Running(s.now))] && Reaches(digest, s, end)
  {
    end := Perform(digest, s, ExecuteStep(v));
    OneStep(digest, s, ExecuteStep(v));
  }

  lemma StartedWorkers(s: System, listed: System, taken: System, end: System, key: WorkflowKey, v: nat)
    requires v in listed.workers && listed.workers == s.workers[v := listed.workers[v]]
    requires v in taken.workers && taken.workers[v].Holding?
    requires var t := taken.workers[v].tenure;
             TakenBack(listed, taken, key, v, t) && end.workers == taken.workers[v := Holding(t, Running(taken.now))]
    ensures v in end.workers && end.workers == s.workers[v := end.workers[v]]
    ensures RunsExecutor(end, v) && end.workers[v].tenure.key == key
  {
  }

  lemma LiveIsRecoverable(digest: Digest, s: System, t: Tenure)
    requires Inv(digest, s) && Live(s.store, t)
    ensures HasExecution(s.store, t.key) && ExecutionAt(s.store, t.key).status != ResultRecorded
    ensures ExecutionAt(s.store, t.key).reservation.leaseExpiresAt == t.expires
  {
    assert RecordInv(t.key, s.store[t.key]);
  }

  /** The state at which a recovery can start beside a late executor. */
  ghost predicate Overdue(digest: Digest, s: System, w: nat, key: WorkflowKey) {
    && Inv(digest, s) && RunsExecutor(s, w) && s.workers[w].tenure.key == key && HasExecution(s.store, key)
    && ExecutionAt(s.store, key).status != ResultRecorded && ExecutionAt(s.store, key).reservation.leaseExpiresAt <= s.now
  }

  lemma LateExecutorBecomesOverdue(digest: Digest, s: System, w: nat) returns (late: System)
    requires Reachable(digest, s) && RunsExecutor(s, w) && Live(s.store, s.workers[w].tenure) && !Prompt(s.workers[w])
    ensures Reaches(digest, s, late) && Overdue(digest, late, w, s.workers[w].tenure.key)
    ensures late.workers.Keys == s.workers.Keys && late.origin == s.origin && late.now >= s.now
  {
    var settled := OthersSettle(digest, s, w);
    ReachableFurther(digest, s, settled);
    late := LeaseRunsOut(digest, settled, w);
    Onward(digest, s, settled, late);
    ReachableFurther(digest, settled, late);
    ReachableStatesAreSafe(digest, late);
    LiveIsRecoverable(digest, late, s.workers[w].tenure);
  }

  /** While its reservation stands, an executor that is not prompt can be overlapped: the others return, its lease runs out, and a recovery lists, takes over and executes. Together with the exclusion of prompt executors this makes promptness the exact condition. */
  lemma LateExecutorCanBeOverlapped(digest: Digest, s: System, w: nat, v: nat, token: string, attemptID: string)
    requires Reachable(digest, s) && RunsExecutor(s, w) && Live(s.store, s.workers[w].tenure) && !Prompt(s.workers[w])
    requires v !in s.workers && Generates(s, token) && Identifier(attemptID) && s.now >= MILLISECOND
    ensures exists end :: Reaches(digest, s, end) && Overlapping(end, w, v)
  {
    var key := s.workers[w].tenure.key;
    var late := LateExecutorBecomesOverdue(digest, s, w);
    var end := RecoveryStarts(digest, late, key, v, token, attemptID);
    Onward(digest, s, late, end);
    BothRun(late, end, w, v, key);
  }

  lemma BothRun(late: System, end: System, w: nat, v: nat, key: WorkflowKey)
    requires RunsExecutor(late, w) && late.workers[w].tenure.key == key && v !in late.workers
    requires v in end.workers && end.workers == late.workers[v := end.workers[v]]
    requires RunsExecutor(end, v) && end.workers[v].tenure.key == key
    ensures Overlapping(end, w, v)
  {
  }
}
