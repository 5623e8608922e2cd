/** The protocol meets what the database asks of its callers: takeovers draw new tokens, and a deferral retries at the lease its request was stored with. */
module LawfulCalls {
  import opened Base
  import opened Types
  import opened BusinessKey
  import opened WorkflowStore
  import opened StoreRuns
  import opened Protocol
  import opened ProtocolSafety
  import opened ProtocolSteps
  import opened ProtocolTheorems
  import opened ProtocolRuns
  import DatabaseStore

  // ---- the lease of a tenure --------------------------------------------------------------

  /** While its token stands, the record is the one the tenure was given, under its lease, or a newer version. */
  predicate Anchored(store: Store, t: Tenure) {
    && t.expires == LeaseEnd(t.stamp)
    && (Holds(store, t.key, t.token) ==>
          || store[t.key].version > t.version
          || (store[t.key].version == t.version && ExecutionAt(store, t.key).reservation.leaseExpiresAt == t.expires))
  }

  function TenureIn(x: Worker): Option<Tenure> {
    match x
    case Holding(t, _) => Some(t)
    case Deferring(t) => Some(t)
    case _ => None
  }

  predicate AllAnchored(s: System) {
    forall w | w in s.workers && TenureIn(s.workers[w]).Some? :: Anchored(s.store, TenureIn(s.workers[w]).value)
  }

  lemma LiveIsAnchored(s: Store, t: Tenure)
    requires Live(s, t) && t.expires == LeaseEnd(t.stamp)
    ensures Anchored(s, t)
  {
  }

  lemma AnchorHolds(s: Store, c: Call, t: Tenure)
    requires Anchored(s, t) && Installs(s, c) != Some(t.token)
    ensures Anchored(Apply(s, c).0, t)
  {
    if Holds(Apply(s, c).0, t.key, t.token) { TokenWasHeld(s, c, t.key, t.token); }
  }

  /** A token under which somebody acts is never installed again. */
  lemma TenureTokenIsSpent(digest: Digest, s: System, w: nat)
    requires Inv(digest, s) && w in s.workers && TenureIn(s.workers[w]).Some?
    ensures Spent(s, TenureIn(s.workers[w]).value.token)
  {
    OthersAwaitOthers(digest, s, w, TenureIn(s.workers[w]).value.token);
  }

  lemma StandingTenureStays(digest: Digest, s: System, a: Action, w: nat)
    requires Inv(digest, s) && AllAnchored(s) && Enabled(digest, s, a) && w in s.workers && TenureIn(s.workers[w]).Some?
    ensures Anchored(Apply(s.store, StoreCall(digest, s, a)).0, TenureIn(s.workers[w]).value)
  {
    var t, c := TenureIn(s.workers[w]).value, StoreCall(digest, s, a);
    TenureTokenIsSpent(digest, s, w);
    if Installs(s.store, c) == Some(t.token) { InstallingSpends(digest, s, a, t.token); }
    AnchorHolds(s.store, c, t);
  }

  // ---- where tenures come from ----------------------------------------------------------------

  /** The acting worker goes on under the tenure it had, or under none. */
  ghost predicate KeepsTenure(digest: Digest, s: System, a: Action)
    requires Enabled(digest, s, a) && !a.Tick?
  {
    var t, w := Perform(digest, s, a), a.worker;
    w in t.workers && (TenureIn(t.workers[w]).None? || (w in s.workers && TenureIn(t.workers[w]) == TenureIn(s.workers[w])))
  }

  lemma TurnsKeepTenure(digest: Digest, s: System, a: Action)
    requires Enabled(digest, s, a)
    requires a.Message? || a.ListCandidate? || a.LoadStep? || a.DecideStep? || a.PersistStep? || a.FinishRecordedStep? || a.CrashStep?
    ensures KeepsTenure(digest, s, a)
  {
  }

  lemma ExecutionsKeepTenure(digest: Digest, s: System, a: Action)
    requires Enabled(digest, s, a) && (a.ExecuteStep? || a.ReturnStep? || a.RecordStep? || a.ReleaseStep? || a.DeferStep?)
    ensures KeepsTenure(digest, s, a)
  {
  }

  lemma ReservedTenureIsAnchored(digest: Digest, s: System, x: Worker, c: Call)
    requires Inv(digest, s) && x.Reserving? && WorkerInv(digest, s.store, s.now, s.origin, x)
    requires c.key == x.key && AsksToReserve(x, c.op) && Succeeds(s.store, c)
    ensures var next := AfterReserve(x, Apply(s.store, c).1);
            TenureIn(next).Some? ==> Anchored(Apply(s.store, c).0, TenureIn(next).value)
  {
    ReservationSucceeds(digest, s, x, c);
    InstalledTenure(s.store, c, x.reservation.startedAt, x.request, false);
    HoldingAfterReserve(x, Seen(Apply(s.store, c).0[x.key]));
  }

  lemma ReserveAnchors(digest: Digest, s: System, a: Action)
    requires Inv(digest, s) && a.ReserveStep? && Enabled(digest, s, a)
    ensures var t := Perform(digest, s, a);
            a.worker in t.workers && (TenureIn(t.workers[a.worker]).Some? ==> Anchored(t.store, TenureIn(t.workers[a.worker]).value))
  {
    var x, c := s.workers[a.worker], StoreCall(digest, s, a);
    assert WorkerInv(digest, s.store, s.now, s.origin, x);
    EveryActionIsOneStoreCall(digest, s, a);
    ReserveStepShape(digest, s, a);
    ReserveCallAsks(s, x, a.fault);
    if Issue(s, x.key, ReserveOp(x), a.fault).1.Ok? { ReservedTenureIsAnchored(digest, s, x, c); }
  }

  lemma TakenTenureIsAnchored(digest: Digest, s: System, x: Worker, token: string, attemptID: string, c: Call, reply: Reply)
    requires Inv(digest, s) && x.Listed? && WorkerInv(digest, s.store, s.now, s.origin, x)
    requires x.candidate.execution.value.status != ResultRecorded
    requires c.key == x.key && Some(c.op) == TakeoverOp(x, token, attemptID) && (reply == Apply(s.store, c).1 || reply.Failed?)
    ensures var next := AfterTakeover(digest, x, reply);
            TenureIn(next).Some? ==> Anchored(Apply(s.store, c).0, TenureIn(next).value)
  {
    if reply.Ok? {
      TakenOverRequestRebuilds(digest, s, x, token, attemptID, c);
      LiveIsAnchored(Apply(s.store, c).0, AfterTakeover(digest, x, reply).tenure);
    } else {
      assert AfterTakeover(digest, x, reply) == Ended(RecoveryFailed);
    }
  }

  lemma TakeoverAnchors(digest: Digest, s: System, a: Action)
    requires Inv(digest, s) && a.TakeoverStep? && Enabled(digest, s, a)
    ensures var t := Perform(digest, s, a);
            a.worker in t.workers && (TenureIn(t.workers[a.worker]).Some? ==> Anchored(t.store, TenureIn(t.workers[a.worker]).value))
  {
    var x, c := s.workers[a.worker], StoreCall(digest, s, a);
    assert WorkerInv(digest, s.store, s.now, s.origin, x);
    TakeoverShape(digest, s, a);
    if TakeoverOp(x, a.token, a.attemptID).Some? {
      TakenTenureIsAnchored(digest, s, x, a.token, a.attemptID, c, Issue(s, x.key, c.op, a.fault).1);
    }
  }

  lemma ActorIsAnchored(digest: Digest, s: System, a: Action)
    requires Inv(digest, s) && AllAnchored(s) && Enabled(digest, s, a) && !a.Tick?
    ensures var t := Perform(digest, s, a);
            a.worker in t.workers && (TenureIn(t.workers[a.worker]).Some? ==> Anchored(t.store, TenureIn(t.workers[a.worker]).value))
  {
    if a.ReserveStep? { ReserveAnchors(digest, s, a); }
    else if a.TakeoverStep? { TakeoverAnchors(digest, s, a); }
    else {
      if a.ExecuteStep? || a.ReturnStep? || a.RecordStep? || a.ReleaseStep? || a.DeferStep? { ExecutionsKeepTenure(digest, s, a); }
      else { TurnsKeepTenure(digest, s, a); }
      EveryActionIsOneStoreCall(digest, s, a);
      if a.worker in s.workers && TenureIn(s.workers[a.worker]).Some? { StandingTenureStays(digest, s, a, a.worker); }
    }
  }

  lemma EveryActionKeepsAnchors(digest: Digest, s: System, a: Action)
    requires Inv(digest, s) && AllAnchored(s) && Enabled(digest, s, a)
    ensures AllAnchored(Perform(digest, s, a))
  {
    if !a.Tick? {
      var t := Perform(digest, s, a);
      ActionIsOneStep(digest, s, a);
      ActorIsAnchored(digest, s, a);
      forall w | w in t.workers && TenureIn(t.workers[w]).Some? ensures Anchored(t.store, TenureIn(t.workers[w]).value) {
        if w != a.worker { StandingTenureStays(digest, s, a, w); }
      }
    }
  }

  lemma {:induction false} AnchorsAlongRuns(digest: Digest, s: System, actions: seq<Action>, t: System)
    requires Inv(digest, s) && AllAnchored(s) && Leads(digest, s, actions, t)
    ensures AllAnchored(t)
    decreases |actions|
  {
    if actions != [] {
      EveryActionKeepsInv(digest, s, actions[0]);
      EveryActionKeepsAnchors(digest, s, actions[0]);
      AnchorsAlongRuns(digest, Perform(digest, s, actions[0]), actions[1..], t);
    }
  }

  lemma AnchoredWhereReachable(digest: Digest, t: System)
    requires Reachable(digest, t)
    ensures Inv(digest, t) && AllAnchored(t)
  {
    ReachableStatesAreSafe(digest, t);
    var s, actions :| Initial(s) && Leads(digest, s, actions, t);
    AnchorsAlongRuns(digest, s, actions, t);
  }

  // ---- the protocol's calls are lawful -------------------------------------------------------------

  lemma DeferralIsLawful(s: Store, t: Tenure)
    requires Anchored(s, t) && Trimmed(t.token)
    ensures DatabaseStore.Lawful(s, t.key, MarkRecoveryRequired(t.version, t.token, t.stamp + LEASE))
  {
    TrimIsTrimmed(t.token);
  }

  lemma DeferringCallIsLawful(digest: Digest, s: System, a: Action)
    requires Inv(digest, s) && AllAnchored(s) && a.DeferStep? && Enabled(digest, s, a)
    ensures DatabaseStore.Lawful(s.store, StoreCall(digest, s, a).key, StoreCall(digest, s, a).op)
  {
    var t := s.workers[a.worker].tenure;
    assert WorkerInv(digest, s.store, s.now, s.origin, s.workers[a.worker]);
    assert TenureIn(s.workers[a.worker]) == Some(t);
    DeferralIsLawful(s.store, t);
  }

  lemma TakeoverIsLawful(digest: Digest, s: System, a: Action)
    requires Inv(digest, s) && a.TakeoverStep? && Enabled(digest, s, a)
    ensures DatabaseStore.Lawful(s.store, StoreCall(digest, s, a).key, StoreCall(digest, s, a).op)
  {
    assert WorkerInv(digest, s.store, s.now, s.origin, s.workers[a.worker]);
  }

  lemma OnlyDeferralsMark(digest: Digest, s: System, a: Action)
    requires Enabled(digest, s, a) && !a.TakeoverStep? && !a.DeferStep?
    ensures !StoreCall(digest, s, a).op.Takeover? && !StoreCall(digest, s, a).op.MarkRecoveryRequired?
  {
  }

  /** In every reachable state, whatever a worker does next, its call is one the database simulates: no takeover under the old token, no deferral to another lease. */
  lemma ProtocolCallsAreLawful(digest: Digest, s: System, a: Action)
    requires Reachable(digest, s) && Enabled(digest, s, a)
    ensures DatabaseStore.Lawful(s.store, StoreCall(digest, s, a).key, StoreCall(digest, s, a).op)
  {
    AnchoredWhereReachable(digest, s);
    if a.DeferStep? {
      DeferringCallIsLawful(digest, s, a);
    } else if a.TakeoverStep? {
      TakeoverIsLawful(digest, s, a);
    } else {
      OnlyDeferralsMark(digest, s, a);
    }
  }
}
