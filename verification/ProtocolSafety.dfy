/** What holds in every reachable state of the protocol: the inductive invariant and its preservation by every action. */
module ProtocolSafety {
  import opened Base
  import opened Types
  import opened BusinessKey
  import opened Recovery
  import opened WorkflowStore
  import opened StoreRuns
  import opened Protocol

  type Origin = map<string, OperationRequest>

  /** Two requests that ask for the same thing, for the same actor, and make the executor perform the same business call. */
  predicate SameRequest(a: OperationRequest, b: OperationRequest) {
    && MeaningOf(a) == MeaningOf(b) && a.actorUserID == b.actorUserID
    && a.idempotencyKey == b.idempotencyKey && CallFor(a) == CallFor(b)
  }

  /** This reservation stands for a request some chat turn prepared for this key. */
  ghost predicate Traced(digest: Digest, origin: Origin, key: WorkflowKey, r: Reservation) {
    && r.token in origin
    && Admissible(digest, key, origin[r.token])
    && Carries(r, origin[r.token], origin[r.token].idempotencyKey)
  }

  ghost predicate StoreTraced(digest: Digest, store: Store, origin: Origin) {
    forall k | HasExecution(store, k) :: Traced(digest, origin, k, ExecutionAt(store, k).reservation)
  }

  predicate InFlight(phase: Phase) { !phase.ResultStored? }

  /** When a lease stamped at this instant ends, as the store keeps it. */
  function LeaseEnd(stamp: Time): Time { Truncate(stamp + LEASE) }

  /** The execution is in the store exactly as this worker installed it. */
  predicate Live(store: Store, t: Tenure) {
    && Unconcluded(store, t.key, t.token) && store[t.key].version == t.version
    && ExecutionAt(store, t.key).reservation.leaseExpiresAt == t.expires
  }

  ghost predicate TenureInv(digest: Digest, store: Store, now: Time, origin: Origin, t: Tenure, phase: Phase) {
    && t.token in origin && Admissible(digest, t.key, origin[t.token]) && Trimmed(t.token) && SameRequest(t.request, origin[t.token])
    && t.stamp <= now && t.expires == LeaseEnd(t.stamp)
    && (InFlight(phase) ==> Live(store, t) || t.expires <= now)
    && (phase.Running? ==> t.stamp <= phase.startedAt <= now <= phase.startedAt + EXECUTOR_TIMEOUT)
  }

  /** A listed candidate, as long as its token is in place, is either untouched or visibly newer. */
  predicate CandidateInv(store: Store, key: WorkflowKey, candidate: VersionedWorkflow) {
    candidate.execution.Some? &&
    var e := candidate.execution.value;
    && Normal(e.reservation) && (e.status == ResultRecorded <==> e.result.Some?)
    && (Holds(store, key, e.reservation.token) ==>
          store[key].version > candidate.version
          || (store[key].version == candidate.version && store[key].execution == candidate.execution))
  }

  ghost predicate ReservingInv(digest: Digest, store: Store, now: Time, origin: Origin, x: Worker)
    requires x.Reserving?
  {
    var r := x.reservation;
    && r.token in origin && origin[r.token] == x.request && !Held(store, r.token)
    && Admissible(digest, x.key, x.request) && PersistedParams(x.request.params).Some?
    && r.startedAt <= now
    && r == ReservationFor(x.request, x.request.idempotencyKey, PersistedParams(x.request.params).value,
                           r.token, r.attemptID, r.startedAt, LEASE)
  }

  ghost predicate WorkerInv(digest: Digest, store: Store, now: Time, origin: Origin, x: Worker) {
    match x
    case Reserving(_, _, _, _, _, _) => ReservingInv(digest, store, now, origin, x)
    case Listed(key, candidate, stamp) =>
      && stamp <= now && CandidateInv(store, key, candidate)
      && Traced(digest, origin, key, candidate.execution.value.reservation)
    case Holding(t, phase) => TenureInv(digest, store, now, origin, t, phase)
    case Deferring(t) => Trimmed(t.token)
    case _ => true
  }

  /** The token a worker acts under, or has drawn to act under. */
  function OwnToken(x: Worker): Option<string> {
    match x
    case Reserving(_, _, _, _, r, _) => Some(r.token)
    case Holding(t, _) => Some(t.token)
    case Deferring(t) => Some(t.token)
    case _ => None
  }

  /** The token a worker's view of the store depends on. */
  function Watched(x: Worker): Option<string> {
    match x
    case Listed(_, candidate, _) => if candidate.execution.Some? then Some(candidate.execution.value.reservation.token) else None
    case _ => OwnToken(x)
  }

  ghost predicate WorkersInv(digest: Digest, store: Store, now: Time, origin: Origin, workers: map<nat, Worker>) {
    forall w | w in workers :: WorkerInv(digest, store, now, origin, workers[w])
  }

  /** Own tokens are private, and a token not yet installed is watched by nobody else. */
  predicate PrivateTokens(workers: map<nat, Worker>) {
    forall w, v | w in workers && v in workers && w != v && OwnToken(workers[w]).Some? ::
      && OwnToken(workers[v]) != OwnToken(workers[w])
      && (workers[w].Reserving? ==> Watched(workers[v]) != OwnToken(workers[w]))
  }

  predicate KnownTokens(origin: Origin, workers: map<nat, Worker>) {
    forall w | w in workers && Watched(workers[w]).Some? :: Watched(workers[w]).value in origin
  }

  ghost predicate Inv(digest: Digest, s: System) {
    && s.now > 0 && StoreInv(s.store) && UniqueTokens(s.store) && StoreTraced(digest, s.store, s.origin)
    && WorkersInv(digest, s.store, s.now, s.origin, s.workers)
    && PrivateTokens(s.workers) && KnownTokens(s.origin, s.workers)
  }

  // ---- one store call, seen by everybody else --------------------------------------

  predicate Extends(origin: Origin, next: Origin) {
    forall t | t in origin :: t in next && next[t] == origin[t]
  }

  predicate RecordsOrMarks(op: Op) { op.RecordResult? || op.MarkRecoveryRequired? }

  lemma LiveStays(s: Store, c: Call, t: Tenure)
    requires Live(s, t) && t.expires > c.now
    requires RecordsOrMarks(c.op) ==> Trim(c.op.token) != t.token
    ensures Live(Apply(s, c).0, t)
  {
    if Acts(c) && c.key == t.key {
      LeaseProtects(s, t.key, t.token, c.op, c.now);
    } else {
      FailureChangesNothing(s, c);
    }
  }

  lemma TokenWasHeld(s: Store, c: Call, key: WorkflowKey, token: string)
    requires Installs(s, c) != Some(token) && Holds(Apply(s, c).0, key, token)
    ensures Holds(s, key, token)
    ensures Apply(s, c).0[key] == s[key] || Apply(s, c).0[key].version > s[key].version
  {
    if !Holds(s, key, token) { TokenArrivesOnlyByInstalling(s, c, key, token); }
    if Acts(c) && c.key == key {
      SameTokenNewerVersion(s, key, c.op, c.now);
    } else {
      FailureChangesNothing(s, c);
    }
  }

  lemma CandidateStays(s: Store, c: Call, key: WorkflowKey, candidate: VersionedWorkflow)
    requires CandidateInv(s, key, candidate)
    requires Installs(s, c) != Some(candidate.execution.value.reservation.token)
    ensures CandidateInv(Apply(s, c).0, key, candidate)
  {
    var token := candidate.execution.value.reservation.token;
    if Holds(Apply(s, c).0, key, token) { TokenWasHeld(s, c, key, token); }
  }

  lemma UnheldStays(s: Store, c: Call, token: string)
    requires !Held(s, token) && Installs(s, c) != Some(token)
    ensures !Held(Apply(s, c).0, token)
  {
    forall k ensures !Holds(Apply(s, c).0, k, token) {
      if Holds(Apply(s, c).0, k, token) { TokenArrivesOnlyByInstalling(s, c, k, token); }
    }
  }

  /** What a call by another worker leaves of a worker's invariant: everything. */
  lemma BystanderUndisturbed(
    digest: Digest, s: Store, now: Time, origin: Origin, next: Origin, x: Worker, c: Call)
    requires WorkerInv(digest, s, now, origin, x) && c.now <= now && Extends(origin, next)
    requires Watched(x).Some? ==> Installs(s, c) != Watched(x)
    requires OwnToken(x).Some? && RecordsOrMarks(c.op) ==> Trim(c.op.token) != OwnToken(x).value
    ensures WorkerInv(digest, Apply(s, c).0, now, next, x)
  {
    match x
    case Reserving(_, _, _, _, r, _) => UnheldStays(s, c, r.token);
    case Listed(key, candidate, _) => CandidateStays(s, c, key, candidate);
    case Holding(t, phase) =>
      if InFlight(phase) && t.expires > now { LiveStays(s, c, t); }
    case _ =>
  }

  /** An execution the call did not install carries what it carried before. */
  lemma UninstalledStays(s: Store, c: Call, key: WorkflowKey)
    requires HasExecution(Apply(s, c).0, key) && Installs(s, c) != Some(TokenAt(Apply(s, c).0, key))
    ensures Holds(s, key, TokenAt(Apply(s, c).0, key))
    ensures var r := ExecutionAt(Apply(s, c).0, key).reservation;
            r == ExecutionAt(s, key).reservation.(leaseExpiresAt := r.leaseExpiresAt)
  {
    var token := TokenAt(Apply(s, c).0, key);
    TokenWasHeld(s, c, key, token);
    if Acts(c) && c.key == key {
      ExecutionMovesOnlyByItsToken(s, key, c.op, c.now);
    } else {
      FailureChangesNothing(s, c);
    }
  }

  /** The store stays traced, if what the call installs is. */
  lemma CallKeepsTraced(digest: Digest, s: Store, origin: Origin, next: Origin, c: Call)
    requires StoreTraced(digest, s, origin) && Extends(origin, next) && UniqueTokens(Apply(s, c).0)
    requires Installs(s, c).Some? ==>
               && Holds(Apply(s, c).0, c.key, Installs(s, c).value)
               && Traced(digest, next, c.key, ExecutionAt(Apply(s, c).0, c.key).reservation)
    ensures StoreTraced(digest, Apply(s, c).0, next)
  {
    var after := Apply(s, c).0;
    forall k | HasExecution(after, k)
      ensures Traced(digest, next, k, ExecutionAt(after, k).reservation)
    {
      if Installs(s, c) == Some(TokenAt(after, k)) {
        assert Holds(after, k, TokenAt(after, k));
      } else {
        UninstalledStays(s, c, k);
        assert Traced(digest, origin, k, ExecutionAt(s, k).reservation);
      }
    }
  }

  // ---- the acting worker --------------------------------------------------------------

  /** The obligations of one action: what its store call may present and install, and the acting worker's own invariant afterwards. */
  ghost predicate Obligations(digest: Digest, s: System, w: nat, c: Call, x: Worker, origin: Origin) {
    var next := Apply(s.store, c).0;
    && c.now <= s.now && Extends(s.origin, origin)
    && WorkerInv(digest, next, s.now, origin, x)
    && (Installs(s.store, c).Some? ==>
          && !Held(s.store, Installs(s.store, c).value)
          && Holds(next, c.key, Installs(s.store, c).value)
          && Traced(digest, origin, c.key, ExecutionAt(next, c.key).reservation))
    && (Watched(x).Some? ==> Watched(x).value in origin)
  }

  /** Tokens this action uses belong to the acting worker or were never seen before. */
  predicate Mine(s: System, w: nat, token: string) {
    token !in s.origin || (w in s.workers && OwnToken(s.workers[w]) == Some(token))
  }

  ghost predicate Permitted(s: System, w: nat, c: Call, x: Worker) {
    && (Installs(s.store, c).Some? ==>
          var t := Installs(s.store, c).value;
          t !in s.origin || (w in s.workers && s.workers[w].Reserving? && OwnToken(s.workers[w]) == Some(t)))
    && (RecordsOrMarks(c.op) ==> Mine(s, w, Trim(c.op.token)))
    && (OwnToken(x).Some? ==> Mine(s, w, OwnToken(x).value))
    && (x.Reserving? ==> OwnToken(x).value !in s.origin)
    && (x.Listed? && x.candidate.execution.Some? ==>
          Held(s.store, x.candidate.execution.value.reservation.token))
  }

  /** The step every action takes: one store call (possibly refused), a new state for one worker, perhaps one more token. */
  lemma StepKeepsInv(digest: Digest, s: System, t: System, w: nat, c: Call, x: Worker)
    requires Inv(digest, s)
    requires t.now == s.now && t.workers == s.workers[w := x] && t.store == Apply(s.store, c).0
    requires Obligations(digest, s, w, c, x, t.origin) && Permitted(s, w, c, x)
    ensures Inv(digest, t)
  {
    ApplyKeepsInvariant(s.store, c);
    FreshInstallKeepsUnique(s.store, c);
    CallKeepsTraced(digest, s.store, s.origin, t.origin, c);
    BystandersKeepInv(digest, s, t, w, c, x);
    TokensStayPrivate(digest, s, t, w, c, x);
  }

  lemma BystandersKeepInv(digest: Digest, s: System, t: System, w: nat, c: Call, x: Worker)
    requires Inv(digest, s)
    requires t.now == s.now && t.workers == s.workers[w := x] && t.store == Apply(s.store, c).0
    requires Obligations(digest, s, w, c, x, t.origin) && Permitted(s, w, c, x)
    ensures WorkersInv(digest, t.store, t.now, t.origin, t.workers)
  {
    forall v | v in t.workers ensures WorkerInv(digest, t.store, t.now, t.origin, t.workers[v]) {
      if v != w {
        var y := s.workers[v];
        assert WorkerInv(digest, s.store, s.now, s.origin, y);
        assert Watched(y).Some? ==> Watched(y).value in s.origin;
        BystanderUndisturbed(digest, s.store, s.now, s.origin, t.origin, y, c);
      }
    }
  }

  lemma TokensStayPrivate(digest: Digest, s: System, t: System, w: nat, c: Call, x: Worker)
    requires Inv(digest, s)
    requires t.workers == s.workers[w := x]
    requires Obligations(digest, s, w, c, x, t.origin) && Permitted(s, w, c, x)
    ensures PrivateTokens(t.workers) && KnownTokens(t.origin, t.workers)
  {
    forall v, u | v in t.workers && u in t.workers && v != u && OwnToken(t.workers[v]).Some?
      ensures OwnToken(t.workers[u]) != OwnToken(t.workers[v])
      ensures t.workers[v].Reserving? ==> Watched(t.workers[u]) != OwnToken(t.workers[v])
    {
      if v != w && u != w { assert t.workers[v] == s.workers[v] && t.workers[u] == s.workers[u]; }
    }
  }
}
