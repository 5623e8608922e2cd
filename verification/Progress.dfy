/** What the protocol achieves when nothing goes wrong for a while: a held write completes, an expired one recovers. */
module Progress {
  import opened Base
  import opened Types
  import opened ReservationCodec
  import opened BusinessKey
  import opened Recovery
  import opened WorkflowStore
  import opened Protocol
  import opened ProtocolSafety
  import opened ProtocolSteps
  import opened ProtocolTheorems

  ghost predicate OthersKept(s: Store, t: Store, key: WorkflowKey) {
    forall k | k != key :: (k in t <==> k in s) && (k in s ==> t[k] == s[k])
  }

  /** The worker has its effect and the store still holds its reservation as it installed it. */
  ghost predicate Concluding(digest: Digest, s: System, w: nat, t: Tenure, effect: WriteEffect) {
    && Inv(digest, s) && w in s.workers && s.workers[w] == Holding(t, Returned(Some(effect)))
    && ValidEffect(effect) && Live(s.store, t)
  }

  /** The result a worker records is the one the store expects of its token. */
  lemma OwnResultIsAccepted(digest: Digest, s: System, w: nat, t: Tenure, effect: WriteEffect)
    requires Concluding(digest, s, w, t, effect)
    ensures var op := RecordResult(t.version, t.token, ExecutionResult(t.request.idempotencyKey, effect, s.now));
            CompleteKey(t.key) && Records(s.store, t.key, op)
  {
    var e := ExecutionAt(s.store, t.key);
    assert RecordInv(t.key, s.store[t.key]);
    assert Traced(digest, s.origin, t.key, e.reservation);
    assert WorkerInv(digest, s.store, s.now, s.origin, s.workers[w]);
    TrimIsTrimmed(t.token);
    TrimIsTrimmed(t.request.idempotencyKey);
  }

  lemma ReleasingWorks(s: Store, key: WorkflowKey, op: Op, now: Time)
    requires CompleteKey(key) && op.DeleteReserved? && Releases(s, key, op)
    ensures Apply(s, Call(key, op, now, false)) == (s - {key}, Ok(None))
  {
  }

  lemma OneMore(digest: Digest, s: System, a: Action, rest: seq<Action>, t: System)
    requires Enabled(digest, s, a) && Leads(digest, Perform(digest, s, a), rest, t)
    ensures Leads(digest, s, [a] + rest, t)
  {
  }

  lemma Onwards(digest: Digest, s: System, a: Action)
    requires Enabled(digest, s, a)
    ensures forall rest, end :: Leads(digest, Perform(digest, s, a), rest, end) ==> Leads(digest, s, [a] + rest, end)
  {
  }

  lemma LastOne(digest: Digest, s: System, a: Action)
    requires Enabled(digest, s, a)
    ensures Leads(digest, s, [a], Perform(digest, s, a))
  {
  }

  function Conclusion(w: nat): seq<Action> { [RecordStep(w, Sound)] + [ReleaseStep(w, Sound)] }

  ghost predicate AfterRecording(s: System, s': System, w: nat, t: Tenure, effect: WriteEffect) {
    && s'.workers == s.workers[w := Holding(t, ResultStored(t.version + 1))]
    && s'.log == s.log + [Stored(w, t.token, effect)] && OthersKept(s.store, s'.store, t.key) && CompleteKey(t.key)
    && Releases(s'.store, t.key, DeleteReserved(t.version + 1, t.token))
  }

  lemma RecordingWorks(s: Store, key: WorkflowKey, op: Op, now: Time)
    requires CompleteKey(key) && Records(s, key, op)
    ensures var (next, reply) := Apply(s, Call(key, op, now, false));
            && HasExecution(next, key) && reply == Ok(Some(Seen(next[key]))) && next[key].version == op.expected + 1
            && Recorded(ExecutionAt(next, key)) && TokenAt(next, key) == TokenAt(s, key) && OthersKept(s, next, key)
  {
  }

  lemma RecordPerformedWorks(s: System, w: nat, t: Tenure, effect: WriteEffect)
    requires ValidEffect(effect) && CompleteKey(t.key)
    requires Records(s.store, t.key, RecordResult(t.version, t.token, ExecutionResult(t.request.idempotencyKey, effect, s.now)))
    ensures AfterRecording(s, RecordPerformed(s, w, t, Some(effect), Sound), w, t, effect)
  {
    var op := RecordResult(t.version, t.token, ExecutionResult(t.request.idempotencyKey, effect, s.now));
    RecordingWorks(s.store, t.key, op, s.now);
    var (next, reply) := Apply(s.store, Call(t.key, op, s.now, false));
    RecordedReply(s, w, t, effect, next, reply);
    RecordedIsReleasable(s.store, next, t, op);
  }

  lemma RecordedReply(s: System, w: nat, t: Tenure, effect: WriteEffect, next: Store, reply: Reply)
    requires ValidEffect(effect)
    requires var op := RecordResult(t.version, t.token, ExecutionResult(t.request.idempotencyKey, effect, s.now));
             (next, reply) == Apply(s.store, Call(t.key, op, s.now, false))
    requires reply.Ok? && reply.workflow.Some? && reply.workflow.value.version == t.version + 1
    ensures var s' := RecordPerformed(s, w, t, Some(effect), Sound);
            && s'.workers == s.workers[w := Holding(t, ResultStored(t.version + 1))]
            && s'.log == s.log + [Stored(w, t.token, effect)] && s'.store == next
  {
  }

  lemma RecordedIsReleasable(s: Store, next: Store, t: Tenure, op: Op)
    requires op.RecordResult? && op.expected == t.version && op.token == t.token && Records(s, t.key, op)
    requires HasExecution(next, t.key) && next[t.key].version == t.version + 1
    requires Recorded(ExecutionAt(next, t.key)) && TokenAt(next, t.key) == TokenAt(s, t.key)
    ensures Releases(next, t.key, DeleteReserved(t.version + 1, t.token))
  {
  }

  lemma ReleasePerformedWorks(s: System, w: nat, t: Tenure, version: nat)
    requires CompleteKey(t.key) && Releases(s.store, t.key, DeleteReserved(version, t.token))
    ensures var s' := ReleasePerformed(s, w, t, version, Sound);
            && s'.workers == s.workers[w := Ended(if t.recovering then Recovered else WriteCompleted(t.token))]
            && s'.log == s.log + [Let(w, t.token)] && s'.store == s.store - {t.key}
  {
  }

  ghost predicate Concluded(s: System, s': System, w: nat, t: Tenure, effect: WriteEffect) {
    && t.key !in s'.store && OthersKept(s.store, s'.store, t.key)
    && s'.workers == s.workers[w := Ended(if t.recovering then Recovered else WriteCompleted(t.token))]
    && s'.log == s.log + [Stored(w, t.token, effect), Let(w, t.token)]
  }

  /** A worker that still holds its reservation and has a valid effect finishes in two sound calls: the key is free, the turn answers "completed", and nothing else in the store has moved. */
  lemma HeldWriteCompletes(digest: Digest, s: System, w: nat, t: Tenure, effect: WriteEffect) returns (end: System)
    requires Concluding(digest, s, w, t, effect)
    ensures Leads(digest, s, Conclusion(w), end) && Concluded(s, end, w, t, effect)
  {
    OwnResultIsAccepted(digest, s, w, t, effect);
    RecordPerformedWorks(s, w, t, effect);
    var s1 := Perform(digest, s, RecordStep(w, Sound));
    ReleasePerformedWorks(s1, w, t, t.version + 1);
    end := Perform(digest, s1, ReleaseStep(w, Sound));
    LastOne(digest, s1, ReleaseStep(w, Sound));
    OneMore(digest, s, RecordStep(w, Sound), [ReleaseStep(w, Sound)], end);
    ConclusionAdds(s, s1, end, w, t, effect);
  }

  lemma ConclusionAdds(s: System, s1: System, s2: System, w: nat, t: Tenure, effect: WriteEffect)
    requires AfterRecording(s, s1, w, t, effect)
    requires s2.workers == s1.workers[w := Ended(if t.recovering then Recovered else WriteCompleted(t.token))]
    requires s2.log == s1.log + [Let(w, t.token)] && s2.store == s1.store - {t.key}
    ensures Concluded(s, s2, w, t, effect)
  {
  }

  // ---- recovery --------------------------------------------------------------------

  /** The reservation a takeover at this instant asks for. */
  function NextReservation(r: Reservation, token: string, attemptID: string, stamp: Time): Reservation {
    r.(token := token, attemptID := attemptID, startedAt := stamp, leaseExpiresAt := stamp + LEASE)
  }

  /** A successor with a fresh token, a usable attempt name and a start past the first millisecond is one the store keeps. */
  lemma SuccessorIsKept(r: Reservation, req: OperationRequest, token: string, attemptID: string, stamp: Time)
    requires Carries(r, req, req.idempotencyKey) && Identifier(token) && Identifier(attemptID) && stamp >= MILLISECOND
    ensures Canonical(NextReservation(r, token, attemptID, stamp)).Some?
  {
    var successor := NextReservation(r, token, attemptID, stamp);
    NormalParamsAreStable(PersistedParams(req.params).value);
    assert Persistable(successor);
    LeaseOutlives(stamp);
    DecodesExactlyWhenLeaseOutlivesTruncation(successor);
  }

  lemma LeaseOutlives(stamp: Time)
    requires stamp >= MILLISECOND
    ensures 0 < Truncate(stamp) < LeaseEnd(stamp)
  {
  }

  lemma TakeoverGoesThrough(s: Store, key: WorkflowKey, op: Op, now: Time)
    requires CompleteKey(key) && op.Takeover? && Fenced(s, key, op.expected, op.token) && Canonical(op.successor).Some?
    requires Trim(op.token) != Canonical(op.successor).value.token
    requires var r, kept := ExecutionAt(s, key).reservation, Canonical(op.successor).value;
             r.leaseExpiresAt <= now && r.operation == kept.operation && r.businessKey == kept.businessKey
    ensures Succeeds(s, Call(key, op, now, false))
  {
  }

  /** An expired execution as a recovery worker has just listed it. */
  ghost predicate Recovering(digest: Digest, s: System, key: WorkflowKey, w: nat) {
    && Inv(digest, s) && HasExecution(s.store, key) && w in s.workers
    && s.workers[w] == Listed(key, s.store[key], s.now)
    && ExecutionAt(s.store, key).status != ResultRecorded
    && ExecutionAt(s.store, key).reservation.leaseExpiresAt <= s.now
  }

  lemma ListedTakeoverSucceeds(digest: Digest, s: System, key: WorkflowKey, w: nat, token: string, attemptID: string)
    requires Recovering(digest, s, key, w) && Generates(s, token) && Identifier(attemptID) && s.now >= MILLISECOND
    ensures var op := TakeoverOp(s.workers[w], token, attemptID);
            op.Some? && Succeeds(s.store, Call(key, op.value, s.now, false))
  {
    StoredReservation(digest, s, key);
    SuccessorIsStorable(digest, s, key, token, attemptID);
    ListedTakeover(digest, s, key, w, token, attemptID);
    FreshTakeoverSucceeds(s.store, key, ExecutionAt(s.store, key).reservation, TakeoverOp(s.workers[w], token, attemptID).value, token, attemptID, s.now);
  }

  lemma StoredReservation(digest: Digest, s: System, key: WorkflowKey)
    requires Inv(digest, s) && HasExecution(s.store, key)
    ensures var r := ExecutionAt(s.store, key).reservation;
            && CompleteKey(key) && Normal(r) && Trim(r.token) == r.token && r.token != "" && Traced(digest, s.origin, key, r)
  {
    assert RecordInv(key, s.store[key]);
    TrimIsTrimmed(ExecutionAt(s.store, key).reservation.token);
  }

  lemma SuccessorIsStorable(digest: Digest, s: System, key: WorkflowKey, token: string, attemptID: string)
    requires Inv(digest, s) && HasExecution(s.store, key) && Generates(s, token) && Identifier(attemptID) && s.now >= MILLISECOND
    ensures var r := ExecutionAt(s.store, key).reservation;
            && token != r.token
            && Canonical(NextReservation(r, token, attemptID, s.now)).Some?
  {
    StoredReservation(digest, s, key);
    TracedSuccessorIsKept(digest, s.origin, key, ExecutionAt(s.store, key).reservation, token, attemptID, s.now);
  }

  lemma TracedSuccessorIsKept(digest: Digest, origin: Origin, key: WorkflowKey, r: Reservation, token: string, attemptID: string, now: Time)
    requires Traced(digest, origin, key, r) && token !in origin && Identifier(token) && Identifier(attemptID) && now >= MILLISECOND
    ensures token != r.token
    ensures Canonical(NextReservation(r, token, attemptID, now)).Some?
  {
    SuccessorIsKept(r, origin[r.token], token, attemptID, now);
  }

  lemma ListedTakeover(digest: Digest, s: System, key: WorkflowKey, w: nat, token: string, attemptID: string)
    requires Recovering(digest, s, key, w)
    ensures var r := ExecutionAt(s.store, key).reservation;
            && r.leaseExpiresAt <= s.now
            && TakeoverOp(s.workers[w], token, attemptID)
               == Some(Takeover(s.store[key].version, r.token, NextReservation(r, token, attemptID, s.now)))
  {
    assert RecordInv(key, s.store[key]);
    SuccessorIsReservation(ExecutionAt(s.store, key).reservation, token, attemptID, s.now);
  }

  lemma FreshTakeoverSucceeds(s: Store, key: WorkflowKey, r: Reservation, op: Op, token: string, attemptID: string, now: Time)
    requires CompleteKey(key) && HasExecution(s, key) && ExecutionAt(s, key).reservation == r && r.leaseExpiresAt <= now
    requires Trim(r.token) == r.token && r.token != "" && token != r.token
    requires op.Takeover? && op.expected == s[key].version && op.token == r.token
    requires op.successor == NextReservation(r, token, attemptID, now)
    requires Canonical(op.successor).Some?
    ensures Succeeds(s, Call(key, op, now, false))
  {
    CanonicalIsANormalizer(op.successor);
    TakeoverGoesThrough(s, key, op, now);
  }

  ghost predicate TakenBack(s: System, s': System, key: WorkflowKey, w: nat, t: Tenure) {
    && s'.workers == s.workers[w := Holding(t, Installed)] && t.key == key && t.recovering
    && Live(s'.store, t) && OthersKept(s.store, s'.store, key) && s'.log == s.log && s'.now == s.now
  }

  /** What the takeover call itself brings: the worker's tenure, live in the store, and nothing moved under other keys. */
  lemma TakeoverTakes(digest: Digest, s: System, key: WorkflowKey, w: nat, token: string, attemptID: string)
    requires Recovering(digest, s, key, w) && Generates(s, token) && Identifier(attemptID) && s.now >= MILLISECOND
    ensures var op := TakeoverOp(s.workers[w], token, attemptID);
            && op.Some?
            && var (next, reply) := Apply(s.store, Call(key, op.value, s.now, false));
            && var x := AfterTakeover(digest, s.workers[w], reply);
            && x.Holding? && x.phase == Installed && x.tenure.token == token && x.tenure.key == key && x.tenure.recovering
            && Live(next, x.tenure) && OthersKept(s.store, next, key)
  {
    var x := s.workers[w];
    assert WorkerInv(digest, s.store, s.now, s.origin, x);
    ListedTakeoverSucceeds(digest, s, key, w, token, attemptID);
    var c := Call(key, TakeoverOp(x, token, attemptID).value, s.now, false);
    TakenOverRequestRebuilds(digest, s, x, token, attemptID, c);
    CallKeepsOthers(s.store, c);
  }

  lemma TakeoverStepWorks(digest: Digest, s: System, key: WorkflowKey, w: nat, token: string, attemptID: string)
    requires Recovering(digest, s, key, w) && Generates(s, token) && Identifier(attemptID) && s.now >= MILLISECOND
    ensures Enabled(digest, s, TakeoverStep(w, token, attemptID, Sound))
    ensures var s' := Perform(digest, s, TakeoverStep(w, token, attemptID, Sound));
            && s'.workers[w].Holding? && s'.workers[w].tenure.token == token
            && TakenBack(s, s', key, w, s'.workers[w].tenure)
  {
    TakeoverTakes(digest, s, key, w, token, attemptID);
    TakeoverShape(digest, s, TakeoverStep(w, token, attemptID, Sound));
  }

  lemma CallKeepsOthers(s: Store, c: Call)
    ensures OthersKept(s, Apply(s, c).0, c.key)
  {
    FailureChangesNothing(s, c);
  }

  ghost predicate Executed(s: System, s': System, w: nat, t: Tenure, effect: WriteEffect) {
    && s'.workers == s.workers[w := Holding(t, Returned(Some(effect)))]
    && s'.store == s.store && s'.log == s.log + [Began(w, t.token), Answered(w, t.token, Some(effect))]
  }

  lemma ExecuteStepWorks(digest: Digest, s: System, w: nat, t: Tenure)
    returns (s': System)
    requires Inv(digest, s) && w in s.workers && s.workers[w] == Holding(t, Installed)
    ensures s' == s.(workers := s.workers[w := Holding(t, Running(s.now))], log := s.log + [Began(w, t.token)]) && Inv(digest, s')
    ensures forall rest, end :: Leads(digest, s', rest, end) ==> Leads(digest, s, [ExecuteStep(w)] + rest, end)
  {
    s' := Perform(digest, s, ExecuteStep(w));
    EveryActionKeepsInv(digest, s, ExecuteStep(w));
    Onwards(digest, s, ExecuteStep(w));
  }

  lemma ReturnStepWorks(digest: Digest, s: System, w: nat, t: Tenure, startedAt: Time, effect: Option<WriteEffect>)
    returns (s': System)
    requires Inv(digest, s) && w in s.workers && s.workers[w] == Holding(t, Running(startedAt))
    ensures s' == s.(workers := s.workers[w := Holding(t, Returned(effect))], log := s.log + [Answered(w, t.token, effect)]) && Inv(digest, s')
    ensures forall rest, end :: Leads(digest, s', rest, end) ==> Leads(digest, s, [ReturnStep(w, effect)] + rest, end)
  {
    s' := Perform(digest, s, ReturnStep(w, effect));
    EveryActionKeepsInv(digest, s, ReturnStep(w, effect));
    Onwards(digest, s, ReturnStep(w, effect));
  }

  /** A worker holding its reservation runs the executor and concludes. */
  lemma InstalledWriteCompletes(digest: Digest, s: System, w: nat, t: Tenure, effect: WriteEffect) returns (end: System)
    requires Inv(digest, s) && w in s.workers && s.workers[w] == Holding(t, Installed) && Live(s.store, t) && ValidEffect(effect)
    ensures Leads(digest, s, Completion(w, effect), end)
    ensures t.key !in end.store && OthersKept(s.store, end.store, t.key)
    ensures end.workers == s.workers[w := Ended(if t.recovering then Recovered else WriteCompleted(t.token))]
    ensures end.log == s.log + WholeStory(w, t.token, effect)
  {
    var s1 := ExecuteStepWorks(digest, s, w, t);
    var s2 := ReturnStepWorks(digest, s1, w, t, s.now, Some(effect));
    end := HeldWriteCompletes(digest, s2, w, t, effect);
    PassLeads(digest, s, s1, s2, [ExecuteStep(w)], [ReturnStep(w, Some(effect))], Conclusion(w), end);
    StepsAdd(s, s1, s2, w, t, effect);
    CompletionAdds(s, s2, end, w, t, effect);
  }

  lemma StepsAdd(s: System, s1: System, s2: System, w: nat, t: Tenure, effect: WriteEffect)
    requires s1 == s.(workers := s.workers[w := Holding(t, Running(s.now))], log := s.log + [Began(w, t.token)])
    requires s2 == s1.(workers := s1.workers[w := Holding(t, Returned(Some(effect)))], log := s1.log + [Answered(w, t.token, Some(effect))])
    ensures Executed(s, s2, w, t, effect)
  {
  }

  lemma CompletionAdds(s: System, s1: System, s2: System, w: nat, t: Tenure, effect: WriteEffect)
    requires Executed(s, s1, w, t, effect) && Concluded(s1, s2, w, t, effect)
    ensures t.key !in s2.store && OthersKept(s.store, s2.store, t.key)
    ensures s2.workers == s.workers[w := Ended(if t.recovering then Recovered else WriteCompleted(t.token))]
    ensures s2.log == s.log + WholeStory(w, t.token, effect)
  {
  }

  function Completion(w: nat, effect: WriteEffect): seq<Action> {
    [ExecuteStep(w)] + ([ReturnStep(w, Some(effect))] + Conclusion(w))
  }

  /** One candidate of a recovery pass, when every call goes through: list, take over, run, record, release. */
  function RecoveryPass(s: System, key: WorkflowKey, w: nat, token: string, attemptID: string, effect: WriteEffect): seq<Action> {
    [ListCandidate(w, key, s.now)] + ([TakeoverStep(w, token, attemptID, Sound)] + Completion(w, effect))
  }

  ghost predicate FreedBy(s: System, end: System, key: WorkflowKey, w: nat, story: seq<Event>) {
    && key !in end.store && OthersKept(s.store, end.store, key)
    && end.workers == s.workers[w := Ended(Recovered)] && end.log == s.log + story
  }

  lemma ListStepWorks(digest: Digest, s: System, key: WorkflowKey, w: nat) returns (s': System)
    requires Inv(digest, s) && HasExecution(s.store, key) && w !in s.workers && Recoverable(ExecutionAt(s.store, key), s.now)
    ensures s' == s.(workers := s.workers[w := Listed(key, s.store[key], s.now)]) && Inv(digest, s')
    ensures forall rest, end :: Leads(digest, s', rest, end) ==> Leads(digest, s, [ListCandidate(w, key, s.now)] + rest, end)
  {
    SeenIsStored(s.store, key);
    s' := Perform(digest, s, ListCandidate(w, key, s.now));
    EveryActionKeepsInv(digest, s, ListCandidate(w, key, s.now));
    Onwards(digest, s, ListCandidate(w, key, s.now));
  }

  lemma TakeoverStepGoesOn(digest: Digest, s: System, key: WorkflowKey, w: nat, token: string, attemptID: string)
    returns (s': System)
    requires Recovering(digest, s, key, w) && Generates(s, token) && Identifier(attemptID) && s.now >= MILLISECOND
    ensures Inv(digest, s') && w in s'.workers && s'.workers[w].Holding? && s'.workers[w].tenure.token == token
    ensures TakenBack(s, s', key, w, s'.workers[w].tenure)
    ensures forall rest, end :: Leads(digest, s', rest, end) ==> Leads(digest, s, [TakeoverStep(w, token, attemptID, Sound)] + rest, end)
  {
    var take := TakeoverStep(w, token, attemptID, Sound);
    TakeoverStepWorks(digest, s, key, w, token, attemptID);
    s' := Perform(digest, s, take);
    EveryActionKeepsInv(digest, s, take);
    Onwards(digest, s, take);
  }

  /** Recovery completes: in every reachable state, one undisturbed pass over an expired execution whose executor reports a valid effect frees the key, touches no other, and calls the executor exactly once under the new token. */
  lemma ExpiredWriteRecovers(
    digest: Digest, s: System, key: WorkflowKey, w: nat, token: string, attemptID: string, effect: WriteEffect)
    requires Reachable(digest, s) && HasExecution(s.store, key) && w !in s.workers
    requires ExecutionAt(s.store, key).status != ResultRecorded && ExecutionAt(s.store, key).reservation.leaseExpiresAt <= s.now
    requires Generates(s, token) && Identifier(attemptID) && s.now >= MILLISECOND && ValidEffect(effect)
    ensures exists end ::
              && Leads(digest, s, RecoveryPass(s, key, w, token, attemptID, effect), end)
              && FreedBy(s, end, key, w, WholeStory(w, token, effect))
  {
    ReachableStatesAreSafe(digest, s);
    var s1 := ListStepWorks(digest, s, key, w);
    var s2 := TakeoverStepGoesOn(digest, s1, key, w, token, attemptID);
    var end := InstalledWriteCompletes(digest, s2, w, s2.workers[w].tenure, effect);
    PassLeads(digest, s, s1, s2, [ListCandidate(w, key, s.now)], [TakeoverStep(w, token, attemptID, Sound)], Completion(w, effect), end);
    PassAdds(s, s1, s2, end, key, w, effect);
  }

  lemma StepLeads(digest: Digest, s: System, s1: System, first: seq<Action>, rest: seq<Action>, end: System)
    requires forall rest, end :: Leads(digest, s1, rest, end) ==> Leads(digest, s, first + rest, end)
    requires Leads(digest, s1, rest, end)
    ensures Leads(digest, s, first + rest, end)
  {
  }

  lemma PassLeads(
    digest: Digest, s: System, s1: System, s2: System, first: seq<Action>, second: seq<Action>, rest: seq<Action>, end: System)
    requires forall rest, end :: Leads(digest, s1, rest, end) ==> Leads(digest, s, first + rest, end)
    requires forall rest, end :: Leads(digest, s2, rest, end) ==> Leads(digest, s1, second + rest, end)
    requires Leads(digest, s2, rest, end)
    ensures Leads(digest, s, first + (second + rest), end)
  {
  }

  lemma PassAdds(s: System, s1: System, s2: System, end: System, key: WorkflowKey, w: nat, effect: WriteEffect)
    requires s1.store == s.store && s1.log == s.log && w in s2.workers && s2.workers[w].Holding?
    requires w in s1.workers && s1.workers == s.workers[w := s1.workers[w]]
    requires var t := s2.workers[w].tenure;
             && TakenBack(s1, s2, key, w, t) && key !in end.store && OthersKept(s2.store, end.store, key)
             && end.workers == s2.workers[w := Ended(Recovered)]
             && end.log == s2.log + WholeStory(w, t.token, effect)
    ensures var token := s2.workers[w].tenure.token;
            FreedBy(s, end, key, w, WholeStory(w, token, effect))
  {
  }

  /** One already recorded candidate of a recovery pass: list, release. */
  function ReleasePass(s: System, key: WorkflowKey, w: nat): seq<Action> {
    [ListCandidate(w, key, s.now)] + [FinishRecordedStep(w, Sound)]
  }

  /** A crash after the result was recorded costs no second execution: recovery only releases, presenting the token of the worker that crashed. */
  lemma RecordedWriteIsOnlyReleased(digest: Digest, s: System, key: WorkflowKey, w: nat)
    requires Reachable(digest, s) && HasExecution(s.store, key) && w !in s.workers
    requires ExecutionAt(s.store, key).status == ResultRecorded
    ensures exists end ::
              && Leads(digest, s, ReleasePass(s, key, w), end)
              && FreedBy(s, end, key, w, [])
    ensures var listed := s.(workers := s.workers[w := Listed(key, s.store[key], s.now)]);
            && Enabled(digest, listed, FinishRecordedStep(w, Sound))
            && StoreCall(digest, listed, FinishRecordedStep(w, Sound)) ==
               Call(key, DeleteReserved(s.store[key].version, TokenAt(s.store, key)), s.now, false)
  {
    ReachableStatesAreSafe(digest, s);
    var s1 := ListStepWorks(digest, s, key, w);
    assert RecordInv(key, s.store[key]);
    FinishPresentsItsToken(digest, s1, key, w);
    var end := FinishStepWorks(digest, s1, key, w);
    StepLeads(digest, s, s1, [ListCandidate(w, key, s.now)], [FinishRecordedStep(w, Sound)], end);
    ReleaseAdds(s, s1, end, key, w);
  }

  lemma ReleaseAdds(s: System, s1: System, end: System, key: WorkflowKey, w: nat)
    requires w in s1.workers && s1 == s.(workers := s.workers[w := s1.workers[w]])
    requires end == s1.(store := s1.store - {key}, workers := s1.workers[w := Ended(Recovered)])
    ensures FreedBy(s, end, key, w, [])
  {
  }

  /** The release presents the token that recorded the result, not one of the recovery's own. */
  lemma FinishPresentsItsToken(digest: Digest, s: System, key: WorkflowKey, w: nat)
    requires HasExecution(s.store, key) && RecordInv(key, s.store[key])
    requires w in s.workers && s.workers[w] == Listed(key, s.store[key], s.now)
    requires ExecutionAt(s.store, key).status == ResultRecorded
    ensures Enabled(digest, s, FinishRecordedStep(w, Sound))
    ensures StoreCall(digest, s, FinishRecordedStep(w, Sound)) ==
            Call(key, DeleteReserved(s.store[key].version, TokenAt(s.store, key)), s.now, false)
  {
  }

  lemma FinishStepWorks(digest: Digest, s: System, key: WorkflowKey, w: nat) returns (end: System)
    requires HasExecution(s.store, key) && RecordInv(key, s.store[key])
    requires w in s.workers && s.workers[w] == Listed(key, s.store[key], s.now)
    requires ExecutionAt(s.store, key).status == ResultRecorded
    ensures Leads(digest, s, [FinishRecordedStep(w, Sound)], end)
    ensures end == s.(store := s.store - {key}, workers := s.workers[w := Ended(Recovered)])
  {
    TrimIsTrimmed(TokenAt(s.store, key));
    ReleasingWorks(s.store, key, DeleteReserved(s.store[key].version, TokenAt(s.store, key)), s.now);
    end := Perform(digest, s, FinishRecordedStep(w, Sound));
    LastOne(digest, s, FinishRecordedStep(w, Sound));
  }
}
