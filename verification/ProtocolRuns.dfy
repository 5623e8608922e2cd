/** Runs of the protocol are runs of the store, with fresh tokens: what holds of all such store runs holds of the protocol. */
module ProtocolRuns {
  import opened Base
  import opened Types
  import opened BusinessKey
  import opened WorkflowStore
  import opened StoreRuns
  import opened Protocol
  import opened ProtocolSafety
  import opened ProtocolSteps
  import opened ProtocolTheorems

  /** The store before each action of a run, and after the last. */
  ghost function StatesAlong(digest: Digest, s: System, actions: seq<Action>): (states: seq<Store>)
    ensures |states| >= 1 && states[0] == s.store
    decreases |actions|
  {
    if actions == [] || !Enabled(digest, s, actions[0]) then [s.store]
    else [s.store] + StatesAlong(digest, Perform(digest, s, actions[0]), actions[1..])
  }

  ghost function CallsAlong(digest: Digest, s: System, actions: seq<Action>): seq<Call>
    decreases |actions|
  {
    if actions == [] || !Enabled(digest, s, actions[0]) then []
    else [StoreCall(digest, s, actions[0])] + CallsAlong(digest, Perform(digest, s, actions[0]), actions[1..])
  }

  lemma {:induction false} ProtocolRunsAreStoreRuns(digest: Digest, s: System, actions: seq<Action>, t: System)
    requires Leads(digest, s, actions, t)
    ensures var states := StatesAlong(digest, s, actions);
            Run(states, CallsAlong(digest, s, actions)) && |states| == |actions| + 1 && states[|actions|] == t.store
    decreases |actions|
  {
    if actions != [] {
      var next := Perform(digest, s, actions[0]);
      ProtocolRunsAreStoreRuns(digest, next, actions[1..], t);
      EveryActionIsOneStoreCall(digest, s, actions[0]);
      PrependCall(s.store, StoreCall(digest, s, actions[0]),
                  StatesAlong(digest, next, actions[1..]), CallsAlong(digest, next, actions[1..]));
    }
  }

  // ---- tokens are installed once ----------------------------------------------------

  /** A token that was drawn and is not waiting to be installed. */
  predicate Spent(s: System, token: string) {
    && token in s.origin
    && forall w | w in s.workers && s.workers[w].Reserving? :: s.workers[w].reservation.token != token
  }

  lemma HeldIsSpent(digest: Digest, s: System, token: string)
    requires Inv(digest, s) && Held(s.store, token)
    ensures Spent(s, token)
  {
  }

  /** Nothing un-spends a token. */
  lemma SpentStays(digest: Digest, s: System, a: Action, token: string)
    requires Enabled(digest, s, a) && Spent(s, token)
    ensures Spent(Perform(digest, s, a), token)
  {
  }

  lemma WhoInstalls(digest: Digest, s: System, a: Action)
    requires Enabled(digest, s, a) && InstalledBy(StoreCall(digest, s, a).op).Some?
    ensures a.ReserveStep? || a.TakeoverStep?
  {
    if a.PersistStep? { PersistIsQuiet(digest, s, a); }
    else if a.FinishRecordedStep? { FinishIsQuiet(digest, s, a); }
    else if a.ReleaseStep? { ReleaseIsQuiet(digest, s, a); }
    else if a.LoadStep? { LoadIsQuiet(digest, s, a); }
    else if a.RecordStep? { RecordShape(digest, s, a); }
    else if a.DeferStep? { DeferringInstallsNothing(digest, s, a); }
  }

  lemma DeferringInstallsNothing(digest: Digest, s: System, a: Action)
    requires a.DeferStep? && Enabled(digest, s, a)
    ensures InstalledBy(StoreCall(digest, s, a).op).None?
  {
    var t := s.workers[a.worker].tenure;
    CallIsOfItsKind(s, t.key, MarkRecoveryRequired(t.version, t.token, t.stamp + LEASE), a.fault);
  }

  lemma OthersAwaitOthers(digest: Digest, s: System, w: nat, token: string)
    requires Inv(digest, s) && w in s.workers && OwnToken(s.workers[w]) == Some(token)
    ensures forall v | v in s.workers && v != w && s.workers[v].Reserving? :: s.workers[v].reservation.token != token
  {
    forall v | v in s.workers && v != w && s.workers[v].Reserving? ensures s.workers[v].reservation.token != token {
      assert OwnToken(s.workers[v]) != OwnToken(s.workers[w]);
    }
  }

  lemma ReserveStepShape(digest: Digest, s: System, a: Action)
    requires a.ReserveStep? && Enabled(digest, s, a)
    ensures var x, t := s.workers[a.worker], Perform(digest, s, a);
            && t.workers == s.workers[a.worker := AfterReserve(x, Issue(s, x.key, ReserveOp(x), a.fault).1)] && t.origin == s.origin
            && StoreCall(digest, s, a) == CallOf(s, x.key, ReserveOp(x), a.fault)
  {
  }

  lemma TakingOverAwaitsNothing(digest: Digest, x: Worker, reply: Reply)
    requires x.Listed?
    ensures !AfterTakeover(digest, x, reply).Reserving?
  {
  }

  lemma ReservingSpends(digest: Digest, s: System, a: Action, token: string)
    requires Inv(digest, s) && Enabled(digest, s, a) && a.ReserveStep?
    requires Installs(s.store, StoreCall(digest, s, a)) == Some(token)
    ensures !Spent(s, token) && Spent(Perform(digest, s, a), token)
  {
    var x, c, t := s.workers[a.worker], StoreCall(digest, s, a), Perform(digest, s, a);
    assert WorkerInv(digest, s.store, s.now, s.origin, x);
    ReserveCallAsks(s, x, a.fault);
    ReservationSucceeds(digest, s, x, c);
    assert OwnToken(x) == Some(token);
    ReserveLeaves(digest, s, x, c, Issue(s, x.key, ReserveOp(x), a.fault).1);
    ReserveStepShape(digest, s, a);
    OthersAwaitOthers(digest, s, a.worker, token);
  }

  lemma WaitingTokensAreKnown(digest: Digest, s: System)
    requires Inv(digest, s)
    ensures forall w | w in s.workers && s.workers[w].Reserving? :: s.workers[w].reservation.token in s.origin
  {
  }

  lemma DrawnTokenIsSpent(digest: Digest, s: System, a: Action)
    requires Enabled(digest, s, a) && a.TakeoverStep? && a.token in Perform(digest, s, a).origin
    requires forall w | w in s.workers && s.workers[w].Reserving? :: s.workers[w].reservation.token in s.origin
    requires !Perform(digest, s, a).workers[a.worker].Reserving?
    requires Perform(digest, s, a).workers == s.workers[a.worker := Perform(digest, s, a).workers[a.worker]]
    ensures !Spent(s, a.token) && Spent(Perform(digest, s, a), a.token)
  {
  }

  lemma TakingOverSpends(digest: Digest, s: System, a: Action, token: string)
    requires Inv(digest, s) && Enabled(digest, s, a) && a.TakeoverStep?
    requires Installs(s.store, StoreCall(digest, s, a)) == Some(token)
    ensures !Spent(s, token) && Spent(Perform(digest, s, a), token)
  {
    TakeoverInstallsDrawn(digest, s, a, token);
    WaitingTokensAreKnown(digest, s);
    DrawnTokenIsSpent(digest, s, a);
  }

  lemma TakeoverInstallsDrawn(digest: Digest, s: System, a: Action, token: string)
    requires Inv(digest, s) && Enabled(digest, s, a) && a.TakeoverStep?
    requires Installs(s.store, StoreCall(digest, s, a)) == Some(token)
    ensures var t := Perform(digest, s, a);
            token == a.token && token in t.origin && !t.workers[a.worker].Reserving?
            && t.workers == s.workers[a.worker := t.workers[a.worker]]
  {
    var x, c := s.workers[a.worker], StoreCall(digest, s, a);
    assert WorkerInv(digest, s.store, s.now, s.origin, x);
    TakeoverShape(digest, s, a);
    TakingOverAwaitsNothing(digest, x, Issue(s, x.key, c.op, a.fault).1);
    TakeoverSucceeds(digest, s, x, a.token, a.attemptID, c);
  }

  /** An installed token was not spent before, and is spent from then on. */
  lemma InstallingSpends(digest: Digest, s: System, a: Action, token: string)
    requires Inv(digest, s) && Enabled(digest, s, a) && Installs(s.store, StoreCall(digest, s, a)) == Some(token)
    ensures !Spent(s, token) && Spent(Perform(digest, s, a), token)
  {
    WhoInstalls(digest, s, a);
    if a.ReserveStep? { ReservingSpends(digest, s, a, token); } else { TakingOverSpends(digest, s, a, token); }
  }

  /** The token step i of a run installs. */
  ghost function InstalledAt(digest: Digest, s: System, actions: seq<Action>, i: nat): Option<string>
    decreases |actions|
  {
    if actions == [] || !Enabled(digest, s, actions[0]) then None
    else if i == 0 then Installs(s.store, StoreCall(digest, s, actions[0]))
    else InstalledAt(digest, Perform(digest, s, actions[0]), actions[1..], i - 1)
  }

  lemma {:induction false} InstalledAlong(digest: Digest, s: System, actions: seq<Action>, i: nat)
    requires i < |CallsAlong(digest, s, actions)| < |StatesAlong(digest, s, actions)|
    ensures Installs(StatesAlong(digest, s, actions)[i], CallsAlong(digest, s, actions)[i]) == InstalledAt(digest, s, actions, i)
    decreases |actions|
  {
    if i > 0 { InstalledAlong(digest, Perform(digest, s, actions[0]), actions[1..], i - 1); }
  }

  lemma {:induction false} SpentIsNeverInstalled(digest: Digest, s: System, actions: seq<Action>, token: string, i: nat)
    requires Inv(digest, s) && Spent(s, token)
    ensures InstalledAt(digest, s, actions, i) != Some(token)
    decreases |actions|
  {
    if actions != [] && Enabled(digest, s, actions[0]) {
      if i == 0 {
        if InstalledAt(digest, s, actions, i) == Some(token) { InstallingSpends(digest, s, actions[0], token); }
      } else {
        EveryActionKeepsInv(digest, s, actions[0]);
        SpentStays(digest, s, actions[0], token);
        SpentIsNeverInstalled(digest, Perform(digest, s, actions[0]), actions[1..], token, i - 1);
      }
    }
  }

  lemma InstalledFirst(digest: Digest, s: System, actions: seq<Action>, token: string, i: nat)
    requires Inv(digest, s) && InstalledAt(digest, s, actions, 0) == Some(token)
    ensures InstalledAt(digest, s, actions, i + 1) != Some(token)
  {
    EveryActionKeepsInv(digest, s, actions[0]);
    InstallingSpends(digest, s, actions[0], token);
    SpentIsNeverInstalled(digest, Perform(digest, s, actions[0]), actions[1..], token, i);
  }

  lemma {:induction false} InstalledEarlier(digest: Digest, s: System, actions: seq<Action>, token: string, j: nat, i: nat)
    requires Inv(digest, s) && j < i && InstalledAt(digest, s, actions, j) == Some(token)
    ensures InstalledAt(digest, s, actions, i) != Some(token)
    decreases j
  {
    if j == 0 {
      InstalledFirst(digest, s, actions, token, i - 1);
    } else {
      EveryActionKeepsInv(digest, s, actions[0]);
      InstalledEarlier(digest, Perform(digest, s, actions[0]), actions[1..], token, j - 1, i - 1);
    }
  }

  /** The token installed at step i of a run was not held at its start and not installed before. */
  lemma InstalledOnce(digest: Digest, s: System, actions: seq<Action>, i: nat)
    requires Inv(digest, s) && i < |CallsAlong(digest, s, actions)| < |StatesAlong(digest, s, actions)|
    ensures FreshAt(StatesAlong(digest, s, actions), CallsAlong(digest, s, actions), i)
  {
    var states, calls := StatesAlong(digest, s, actions), CallsAlong(digest, s, actions);
    InstalledAlong(digest, s, actions, i);
    var installed := InstalledAt(digest, s, actions, i);
    if installed.Some? {
      var token := installed.value;
      if Held(s.store, token) {
        HeldIsSpent(digest, s, token);
        SpentIsNeverInstalled(digest, s, actions, token, i);
      }
      forall j | 0 <= j < i ensures Installs(states[j], calls[j]) != Some(token) {
        InstalledAlong(digest, s, actions, j);
        if InstalledAt(digest, s, actions, j) == Some(token) { InstalledEarlier(digest, s, actions, token, j, i); }
      }
    }
  }

  /** Every run of the protocol from a reachable state is a store run whose tokens are all fresh and unique. */
  lemma ProtocolRunsHaveFreshTokens(digest: Digest, s: System, actions: seq<Action>, t: System)
    requires Reachable(digest, s) && Leads(digest, s, actions, t)
    ensures var states, calls := StatesAlong(digest, s, actions), CallsAlong(digest, s, actions);
            Run(states, calls) && FreshTokens(states, calls) && UniqueTokens(states[0]) && StoreInv(states[0])
  {
    ReachableStatesAreSafe(digest, s);
    ProtocolRunsAreStoreRuns(digest, s, actions, t);
    var states, calls := StatesAlong(digest, s, actions), CallsAlong(digest, s, actions);
    forall i | 0 <= i < |calls| ensures FreshAt(states, calls, i) {
      InstalledOnce(digest, s, actions, i);
    }
  }

  /** The fencing theorem, for the protocol: after a takeover no worker ever succeeds in presenting the token it replaced. */
  lemma ProtocolFencesTakenOverTokens(digest: Digest, s: System, actions: seq<Action>, t: System, i: nat, j: nat)
    requires Reachable(digest, s) && Leads(digest, s, actions, t)
    requires i < j < |CallsAlong(digest, s, actions)| < |StatesAlong(digest, s, actions)|
    requires var states, calls := StatesAlong(digest, s, actions), CallsAlong(digest, s, actions);
             && calls[i].op.Takeover? && Succeeds(states[i], calls[i])
             && Presents(calls[j].op, Trim(calls[i].op.token))
    ensures !Succeeds(StatesAlong(digest, s, actions)[j], CallsAlong(digest, s, actions)[j])
  {
    ProtocolRunsHaveFreshTokens(digest, s, actions, t);
    TakeoverFencesTheOldToken(StatesAlong(digest, s, actions), CallsAlong(digest, s, actions), i, j);
  }

  /** The no-loss theorem, for the protocol: a write reserved in any reachable state is there throughout any continuation, or it was there up to a step that released it after its result was recorded. */
  lemma ProtocolLosesNoWrite(digest: Digest, s: System, actions: seq<Action>, t: System, key: WorkflowKey)
    requires Reachable(digest, s) && Leads(digest, s, actions, t) && HasExecution(s.store, key)
    ensures var states, calls := StatesAlong(digest, s, actions), CallsAlong(digest, s, actions);
            && |states| == |actions| + 1 == |calls| + 1 && states[0] == s.store && states[|actions|] == t.store
            && (Carried(states, key, 0, |actions|)
                || exists m :: 0 <= m < |actions| && Carried(states, key, 0, m) && ReleasedBy(states[m], calls[m], key))
  {
    ProtocolRunsAreStoreRuns(digest, s, actions, t);
    NoReservedWriteIsLost(StatesAlong(digest, s, actions), CallsAlong(digest, s, actions), key, 0, |actions|);
  }
}
