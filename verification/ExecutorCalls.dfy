/** How often one worker calls the executor, and what its answer says about that call. */
module ExecutorCalls {
  import opened Base
  import opened Types
  import opened BusinessKey
  import opened WorkflowStore
  import opened Protocol

  /** The part of the log one worker wrote. */
  function Story(log: seq<Event>, w: nat): seq<Event> {
    if log == [] then []
    else Story(log[..|log| - 1], w) + (if log[|log| - 1].worker == w then [log[|log| - 1]] else [])
  }

  lemma StoryGrows(log: seq<Event>, e: Event, w: nat)
    ensures Story(log + [e], w) == Story(log, w) + (if e.worker == w then [e] else [])
  {
  }

  /** The one story a worker can live through under a token, as far as it has come: one executor call, its answer, its effect accepted as the result, one release. */
  predicate PartOfAStory(w: nat, token: string, story: seq<Event>) {
    && |story| <= 4
    && (|story| >= 1 ==> story[0] == Began(w, token))
    && (|story| >= 2 ==> story[1].Answered? && story[1] == Answered(w, token, story[1].answer))
    && (|story| >= 3 ==> story[2].Stored? && story[2] == Stored(w, token, story[2].effect) && story[1].answer == Some(story[2].effect))
    && (|story| == 4 ==> story[3] == Let(w, token))
  }

  /** Some story under one token, as far as it has come. */
  predicate SomeStory(w: nat, story: seq<Event>) { story == [] || PartOfAStory(w, story[0].token, story) }

  /** What a worker's state says about its story. */
  predicate Tells(x: Worker, w: nat, story: seq<Event>) {
    match x
    case Holding(t, Installed) => story == []
    case Holding(t, Running(_)) => story == [Began(w, t.token)]
    case Holding(t, Returned(effect)) => story == [Began(w, t.token), Answered(w, t.token, effect)]
    case Holding(t, ResultStored(_)) => |story| == 3 && PartOfAStory(w, t.token, story)
    case Deferring(t) => PartOfAStory(w, t.token, story)
    case Ended(WriteCompleted(token)) => |story| == 4 && PartOfAStory(w, token, story)
    case Ended(Recovered) => story == [] || (|story| == 4 && SomeStory(w, story))
    case Ended(WritePending) => SomeStory(w, story)
    case Ended(RecoveryFailed) => SomeStory(w, story)
    case Ended(Crashed) => SomeStory(w, story)
    case _ => story == []
  }

  ghost predicate StoriesHold(s: System) {
    && (forall w | w in s.workers :: Tells(s.workers[w], w, Story(s.log, w)))
    && (forall w | w !in s.workers :: Story(s.log, w) == [])
  }

  /** Only the acting worker's story can grow, by at most one event, and its new state tells it. */
  ghost predicate StoryStep(s: System, t: System, w: nat) {
    && w in t.workers && t.workers == s.workers[w := t.workers[w]]
    && (t.log == s.log || exists e: Event :: e.worker == w && t.log == s.log + [e])
    && Tells(t.workers[w], w, Story(t.log, w))
  }

  lemma StoryStepKeeps(s: System, t: System, w: nat)
    requires StoriesHold(s) && StoryStep(s, t, w)
    ensures StoriesHold(t)
  {
    forall v | v != w ensures Story(t.log, v) == Story(s.log, v) {
      if t.log != s.log {
        var e: Event :| e.worker == w && t.log == s.log + [e];
        StoryGrows(s.log, e, v);
      }
    }
  }

  /** Giving up at any point leaves part of a story. */
  lemma PartIsAnEnding(w: nat, token: string, story: seq<Event>)
    requires PartOfAStory(w, token, story)
    ensures Tells(Ended(WritePending), w, story) && Tells(Ended(RecoveryFailed), w, story) && Tells(Ended(Crashed), w, story)
  {
  }

  lemma CrashTells(x: Worker, w: nat, story: seq<Event>)
    requires Tells(x, w, story)
    ensures Tells(Ended(Crashed), w, story)
  {
  }

  /** A worker that has written nothing may end or go on in any way that does not claim a write. */
  predicate Untold(x: Worker) {
    match x
    case Holding(_, phase) => phase.Installed?
    case Ended(ending) => !ending.WriteCompleted?
    case _ => true
  }

  lemma NothingToTell(x: Worker, w: nat)
    requires Untold(x)
    ensures Tells(x, w, [])
  {
  }

  /** A step of a worker whose story has not begun, to a state that claims nothing. */
  lemma UntoldStep(s: System, t: System, w: nat)
    requires StoriesHold(s) && t.log == s.log && Story(s.log, w) == []
    requires w in t.workers && t.workers == s.workers[w := t.workers[w]] && Untold(t.workers[w])
    ensures StoriesHold(t)
  {
    NothingToTell(t.workers[w], w);
    StoryStepKeeps(s, t, w);
  }

  lemma ArrivalTells(digest: Digest, s: System, a: Action)
    requires StoriesHold(s) && Enabled(digest, s, a) && (a.Message? || a.ListCandidate?)
    ensures StoriesHold(Perform(digest, s, a))
  {
    UntoldStep(s, Perform(digest, s, a), a.worker);
  }

  lemma LoadTells(digest: Digest, s: System, a: Action)
    requires StoriesHold(s) && Enabled(digest, s, a) && a.LoadStep?
    ensures StoriesHold(Perform(digest, s, a))
  {
    UntoldStep(s, Perform(digest, s, a), a.worker);
  }

  lemma PersistedTells(s: System, w: nat, x: Worker, fault: Fault)
    requires StoriesHold(s) && w in s.workers && s.workers[w] == x && x.Persisting?
    ensures StoriesHold(PersistPerformed(s, w, x, fault))
  {
    UntoldStep(s, PersistPerformed(s, w, x, fault), w);
  }

  lemma PersistTells(digest: Digest, s: System, a: Action)
    requires StoriesHold(s) && Enabled(digest, s, a) && a.PersistStep?
    ensures StoriesHold(Perform(digest, s, a))
  {
    PersistedTells(s, a.worker, s.workers[a.worker], a.fault);
  }

  lemma DecideTells(digest: Digest, s: System, a: Action)
    requires StoriesHold(s) && Enabled(digest, s, a) && a.DecideStep?
    ensures StoriesHold(Perform(digest, s, a))
  {
    UntoldStep(s, Perform(digest, s, a), a.worker);
  }

  lemma ReserveTells(digest: Digest, s: System, a: Action)
    requires StoriesHold(s) && Enabled(digest, s, a) && a.ReserveStep?
    ensures StoriesHold(Perform(digest, s, a))
  {
    UntoldStep(s, Perform(digest, s, a), a.worker);
  }

  lemma AfterTakeoverIsUntold(digest: Digest, x: Worker, reply: Reply)
    requires x.Listed?
    ensures Untold(AfterTakeover(digest, x, reply))
  {
  }

  lemma TakeoverTells(digest: Digest, s: System, a: Action)
    requires StoriesHold(s) && Enabled(digest, s, a) && a.TakeoverStep?
    ensures StoriesHold(Perform(digest, s, a))
  {
    forall reply ensures Untold(AfterTakeover(digest, s.workers[a.worker], reply)) {
      AfterTakeoverIsUntold(digest, s.workers[a.worker], reply);
    }
    UntoldStep(s, Perform(digest, s, a), a.worker);
  }

  lemma FinishedTells(s: System, w: nat, x: Worker, fault: Fault)
    requires StoriesHold(s) && w in s.workers && s.workers[w] == x && x.Listed? && x.candidate.execution.Some?
    ensures StoriesHold(FinishRecordedPerformed(s, w, x, fault))
  {
    UntoldStep(s, FinishRecordedPerformed(s, w, x, fault), w);
  }

  lemma FinishTells(digest: Digest, s: System, a: Action)
    requires StoriesHold(s) && Enabled(digest, s, a) && a.FinishRecordedStep?
    ensures StoriesHold(Perform(digest, s, a))
  {
    FinishedTells(s, a.worker, s.workers[a.worker], a.fault);
  }

  lemma CrashStepTells(digest: Digest, s: System, a: Action)
    requires StoriesHold(s) && a.CrashStep? && Enabled(digest, s, a)
    ensures StoriesHold(Perform(digest, s, a))
  {
    CrashTells(s.workers[a.worker], a.worker, Story(s.log, a.worker));
    StoryStepKeeps(s, Perform(digest, s, a), a.worker);
  }

  lemma ExecuteTells(digest: Digest, s: System, a: Action)
    requires StoriesHold(s) && a.ExecuteStep? && Enabled(digest, s, a)
    ensures StoriesHold(Perform(digest, s, a))
  {
    StoryGrows(s.log, Began(a.worker, s.workers[a.worker].tenure.token), a.worker);
    StoryStepKeeps(s, Perform(digest, s, a), a.worker);
  }

  lemma ReturnTells(digest: Digest, s: System, a: Action)
    requires StoriesHold(s) && a.ReturnStep? && Enabled(digest, s, a)
    ensures StoriesHold(Perform(digest, s, a))
  {
    StoryGrows(s.log, Answered(a.worker, s.workers[a.worker].tenure.token, a.effect), a.worker);
    StoryStepKeeps(s, Perform(digest, s, a), a.worker);
  }

  lemma RecordTells(digest: Digest, s: System, a: Action)
    requires StoriesHold(s) && a.RecordStep? && Enabled(digest, s, a)
    ensures StoriesHold(Perform(digest, s, a))
  {
    RecordedTells(s, a.worker, s.workers[a.worker].tenure, s.workers[a.worker].phase.effect, a.fault);
  }

  lemma RecordedTells(s: System, w: nat, own: Tenure, effect: Option<WriteEffect>, fault: Fault)
    requires StoriesHold(s) && w in s.workers && s.workers[w] == Holding(own, Returned(effect))
    ensures StoriesHold(RecordPerformed(s, w, own, effect, fault))
  {
    var t := RecordPerformed(s, w, own, effect, fault);
    RecordOutcome(s, w, own, effect, fault);
    if t.log != s.log { StoringTells(s, t, w, own, effect.value); } else { GivingUpTells(s, t, w, own); }
  }

  lemma GivingUpTells(s: System, t: System, w: nat, own: Tenure)
    requires StoriesHold(s) && w in s.workers && s.workers[w].Holding? && s.workers[w].tenure == own
    requires t.workers == s.workers[w := GivenUp(own)] && t.log == s.log
    ensures StoriesHold(t)
  {
    assert PartOfAStory(w, own.token, Story(s.log, w));
    StoryStepKeeps(s, t, w);
  }

  lemma StoringTells(s: System, t: System, w: nat, own: Tenure, effect: WriteEffect)
    requires StoriesHold(s) && w in s.workers && s.workers[w] == Holding(own, Returned(Some(effect)))
    requires w in t.workers && t.workers == s.workers[w := t.workers[w]] && t.log == s.log + [Stored(w, own.token, effect)]
    requires var x := t.workers[w]; x == GivenUp(own) || (x.Holding? && x.tenure == own && x.phase.ResultStored?)
    ensures StoriesHold(t)
  {
    StoryGrows(s.log, Stored(w, own.token, effect), w);
    assert PartOfAStory(w, own.token, Story(t.log, w));
    StoryStepKeeps(s, t, w);
  }

  /** Whoever goes on to release has had its result accepted; whoever gives up may or may not have. */
  lemma RecordOutcome(s: System, w: nat, own: Tenure, effect: Option<WriteEffect>, fault: Fault)
    requires w in s.workers
    ensures var t := RecordPerformed(s, w, own, effect, fault);
            && t.workers == s.workers[w := t.workers[w]]
            && (t.log == s.log || (effect.Some? && t.log == s.log + [Stored(w, own.token, effect.value)]))
            && (t.workers[w] == GivenUp(own)
                || (t.workers[w].Holding? && t.workers[w].tenure == own && t.workers[w].phase.ResultStored?
                    && t.log != s.log))
  {
  }

  lemma ReleasedTells(s: System, w: nat, own: Tenure, version: nat, fault: Fault)
    requires StoriesHold(s) && w in s.workers && s.workers[w] == Holding(own, ResultStored(version))
    ensures StoriesHold(ReleasePerformed(s, w, own, version, fault))
  {
    var t := ReleasePerformed(s, w, own, version, fault);
    if t.log == s.log { PartIsAnEnding(w, own.token, Story(s.log, w)); StoryStepKeeps(s, t, w); } else { LettingTells(s, t, w, own); }
  }

  lemma LettingTells(s: System, t: System, w: nat, own: Tenure)
    requires StoriesHold(s) && w in s.workers && s.workers[w].Holding? && s.workers[w].tenure == own && s.workers[w].phase.ResultStored?
    requires w in t.workers && t.workers == s.workers[w := t.workers[w]] && t.log == s.log + [Let(w, own.token)]
    requires t.workers[w] in {Ended(WriteCompleted(own.token)), Ended(Recovered), Ended(WritePending), Ended(RecoveryFailed)}
    ensures StoriesHold(t)
  {
    StoryGrows(s.log, Let(w, own.token), w);
    assert Story(t.log, w)[..3] == Story(s.log, w);
    PartIsAnEnding(w, own.token, Story(t.log, w));
    StoryStepKeeps(s, t, w);
  }

  lemma ReleaseTells(digest: Digest, s: System, a: Action)
    requires StoriesHold(s) && a.ReleaseStep? && Enabled(digest, s, a)
    ensures StoriesHold(Perform(digest, s, a))
  {
    ReleasedTells(s, a.worker, s.workers[a.worker].tenure, s.workers[a.worker].phase.recordedVersion, a.fault);
  }

  lemma DeferTells(digest: Digest, s: System, a: Action)
    requires StoriesHold(s) && a.DeferStep? && Enabled(digest, s, a)
    ensures StoriesHold(Perform(digest, s, a))
  {
  }

  lemma EveryActionTells(digest: Digest, s: System, a: Action)
    requires StoriesHold(s) && Enabled(digest, s, a)
    ensures StoriesHold(Perform(digest, s, a))
  {
    match a
    case Tick(_) =>
    case ExecuteStep(_) => ExecuteTells(digest, s, a);
    case ReturnStep(_, _) => ReturnTells(digest, s, a);
    case RecordStep(_, _) => RecordTells(digest, s, a);
    case ReleaseStep(_, _) => ReleaseTells(digest, s, a);
    case DeferStep(_, _) => DeferTells(digest, s, a);
    case CrashStep(_) => CrashStepTells(digest, s, a);
    case TakeoverStep(_, _, _, _) => TakeoverTells(digest, s, a);
    case DecideStep(_, _, _) => DecideTells(digest, s, a);
    case ReserveStep(_, _) => ReserveTells(digest, s, a);
    case FinishRecordedStep(_, _) => FinishTells(digest, s, a);
    case LoadStep(_, _) => LoadTells(digest, s, a);
    case PersistStep(_, _) => PersistTells(digest, s, a);
    case _ => ArrivalTells(digest, s, a);
  }

  lemma {:induction false} RunsTell(digest: Digest, s: System, actions: seq<Action>, t: System)
    requires StoriesHold(s) && Leads(digest, s, actions, t)
    ensures StoriesHold(t)
    decreases |actions|
  {
    if actions != [] {
      EveryActionTells(digest, s, actions[0]);
      RunsTell(digest, Perform(digest, s, actions[0]), actions[1..], t);
    }
  }

  lemma StoriesHoldWhereReachable(digest: Digest, t: System)
    requires Reachable(digest, t)
    ensures StoriesHold(t)
  {
    var s, actions :| Initial(s) && Leads(digest, s, actions, t);
    RunsTell(digest, s, actions, t);
  }

  // ---- what follows ---------------------------------------------------------------------

  function CallsMade(story: seq<Event>): nat {
    if story == [] then 0 else CallsMade(story[..|story| - 1]) + (if story[|story| - 1].Began? then 1 else 0)
  }

  lemma {:induction false} OneCallSoFar(w: nat, token: string, story: seq<Event>, n: nat)
    requires PartOfAStory(w, token, story) && 1 <= n <= |story|
    ensures CallsMade(story[..n]) == 1
  {
    assert story[..n][..n - 1] == story[..n - 1];
    if n > 1 { OneCallSoFar(w, token, story, n - 1); } else { assert CallsMade(story[..0]) == 0; }
  }

  lemma StoriesHaveOneCall(w: nat, token: string, story: seq<Event>)
    requires PartOfAStory(w, token, story) && story != []
    ensures CallsMade(story) == 1
  {
    forall n | 1 <= n <= |story| ensures CallsMade(story[..n]) == 1 { OneCallSoFar(w, token, story, n); }
    assert story[..|story|] == story;
  }

  /** One chat message, with its retry, and one recovery of one candidate call the executor at most once, whatever other workers do between its steps; a worker still before its reservation, on a retry, told of a conflict or of an unavailable store has not called it at all. */
  lemma AtMostOneExecutorCall(digest: Digest, s: System, w: nat)
    requires Reachable(digest, s)
    ensures CallsMade(Story(s.log, w)) <= 1
    ensures w in s.workers && (s.workers[w].Loading? || s.workers[w].Deciding? || s.workers[w].Persisting? || s.workers[w].Reserving?
                               || s.workers[w] in {Ended(TurnPersisted), Ended(ConflictRefused), Ended(StoreUnavailable)})
            ==> CallsMade(Story(s.log, w)) == 0
  {
    StoriesHoldWhereReachable(digest, s);
    var story := Story(s.log, w);
    if story != [] {
      EveryStoryIsPartOfOne(s, w);
      StoriesHaveOneCall(w, story[0].token, story);
    }
  }

  lemma EveryStoryIsPartOfOne(s: System, w: nat)
    requires StoriesHold(s)
    ensures SomeStory(w, Story(s.log, w))
  {
  }

  /** "Completed" is said only by a worker whose executor answered an effect, which the store accepted as the result, and whose reservation was then released, all under the token it installed itself. */
  lemma CompletedMeansRecordedAndReleased(digest: Digest, s: System, w: nat, token: string)
    requires Reachable(digest, s) && w in s.workers && s.workers[w] == Ended(WriteCompleted(token))
    ensures exists effect :: Story(s.log, w) == WholeStory(w, token, effect)
  {
    StoriesHoldWhereReachable(digest, s);
    var story := Story(s.log, w);
    assert story == WholeStory(w, token, story[2].effect);
  }

  /** Accepted means stored: when a result is accepted, the store holds it, with the effect the executor answered and the business key of the worker's request, under the worker's token. */
  lemma AcceptedEffectIsStored(digest: Digest, s: System, w: nat, fault: Fault)
    requires Enabled(digest, s, RecordStep(w, fault)) && Perform(digest, s, RecordStep(w, fault)).log != s.log
    ensures var t, own, effect := Perform(digest, s, RecordStep(w, fault)), s.workers[w].tenure, s.workers[w].phase.effect;
            && effect.Some? && t.log == s.log + [Stored(w, own.token, effect.value)]
            && HasExecution(t.store, own.key) && TokenAt(t.store, own.key) == Trim(own.token)
            && ExecutionAt(t.store, own.key).result
               == Some(ExecutionResult(Trim(own.request.idempotencyKey), effect.value, s.now))
  {
  }
}
