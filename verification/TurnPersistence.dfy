/** What the next chat turn finds after this one was stored without interference. */
module TurnPersistence {
  import opened Base
  import opened Types
  import opened WorkflowStore
  import opened WorkflowEngine
  import opened PolicyGates
  import opened Pipeline
  import opened PreparedWrites
  import opened BusinessKey
  import Protocol

  /** The calls of one uninterrupted turn: load, store the outcome, and the next turn's load. */
  function Loaded(s: Store, key: WorkflowKey, now: Time): (Store, Reply) { Apply(s, Call(key, Op.Load, now, false)) }

  function TurnStored(s: Store, key: WorkflowKey, current: Option<VersionedWorkflow>, o: Protocol.TurnOutcome, now: Time): (Store, Reply) {
    match Protocol.PersistOp(current, o)
    case None => (s, Ok(current))
    case Some(op) => Apply(s, Call(key, op, now, false))
  }

  /** What is stored when the turn hands over a workflow. */
  function Kept(key: WorkflowKey, current: Option<VersionedWorkflow>, after: WorkflowSnapshot, now: Time): VersionedWorkflow {
    match current
    case None => VersionedWorkflow(Prepare(key, Clone(after), 1, None, now), 1, None)
    case Some(v) => VersionedWorkflow(Prepare(key, Clone(after), v.version + 1, Some(v.snapshot), now), v.version + 1, None)
  }

  /** What the next load finds: nothing if the turn cleared, else the turn's workflow under the key's identity, else the old one; and nothing that has expired by then. */
  function Found(key: WorkflowKey, current: Option<VersionedWorkflow>, o: Protocol.TurnOutcome, now: Time, later: Time): Option<VersionedWorkflow> {
    var left := if o.clear then None else if o.after.Some? then Some(Kept(key, current, o.after.value, now)) else current;
    if left.Some? && Expired(left.value.snapshot, later) then None else left
  }

  /** The workflow a load returns is idle, stored as returned, and not expired. */
  lemma LoadedIsStored(s: Store, key: WorkflowKey, now: Time)
    requires StoreInv(s) && CompleteKey(key)
    ensures var (s1, reply) := Loaded(s, key, now);
            && StoreInv(s1) && reply.Ok?
            && (reply.workflow.None? <==> key !in s1)
            && (reply.workflow.Some? ==> s1[key] == reply.workflow.value)
  {
    ApplyKeepsInvariant(s, Call(key, Op.Load, now, false));
    if key in Loaded(s, key, now).0 { SeenIsStored(s, key); }
  }

  lemma StoringATurn(s1: Store, key: WorkflowKey, current: Option<VersionedWorkflow>, o: Protocol.TurnOutcome, now: Time)
    requires StoreInv(s1) && CompleteKey(key)
    requires (current.None? <==> key !in s1) && (current.Some? ==> s1[key] == current.value && current.value.execution.None?)
    requires current.Some? ==> !Expired(current.value.snapshot, now)
    ensures var (s2, reply) := TurnStored(s1, key, current, o, now);
            && reply.Ok? && StoreInv(s2)
            && (if o.clear then key !in s2
                else if o.after.Some? then key in s2 && s2[key] == Kept(key, current, o.after.value, now)
                else s2 == s1)
  {
    var op := Protocol.PersistOp(current, o);
    if op.Some? {
      ApplyKeepsInvariant(s1, Call(key, op.value, now, false));
      StoringAWorkflow(s1, key, current, o, op.value, now);
    }
  }

  lemma StoringAWorkflow(
    s1: Store, key: WorkflowKey, current: Option<VersionedWorkflow>, o: Protocol.TurnOutcome, op: Op, now: Time)
    requires CompleteKey(key) && Protocol.PersistOp(current, o) == Some(op)
    requires (current.None? <==> key !in s1) && (current.Some? ==> s1[key] == current.value && current.value.execution.None?)
    requires current.Some? ==> !Expired(current.value.snapshot, now)
    ensures var (s2, reply) := Apply(s1, Call(key, op, now, false));
            && reply.Ok?
            && (if o.clear then key !in s2 else o.after.Some? && key in s2 && s2[key] == Kept(key, current, o.after.value, now))
  {
  }

  lemma LoadingBack(s2: Store, key: WorkflowKey, later: Time)
    requires StoreInv(s2) && CompleteKey(key) && (key in s2 ==> s2[key].execution.None?)
    ensures Loaded(s2, key, later).1 == Ok(if key in s2 && !Expired(s2[key].snapshot, later) then Some(s2[key]) else None)
  {
    if key in s2 { SeenIsStored(s2, key); }
  }

  /** Turn persistence: with no interference and no write, storing the turn succeeds and the next load finds exactly what the turn left. */
  lemma NextTurnFindsThisOne(s: Store, key: WorkflowKey, o: Protocol.TurnOutcome, now: Time, stored: Time, later: Time)
    requires StoreInv(s) && CompleteKey(key) && o.prepared.None?
    requires var current := Loaded(s, key, now).1.workflow;
             current.Some? ==> current.value.execution.None? && !Expired(current.value.snapshot, stored)
    ensures var (s1, first) := Loaded(s, key, now);
            var (s2, reply) := TurnStored(s1, key, first.workflow, o, stored);
            reply.Ok? && Loaded(s2, key, later).1 == Ok(Found(key, first.workflow, o, stored, later))
  {
    LoadedIsStored(s, key, now);
    var (s1, first) := Loaded(s, key, now);
    StoringATurn(s1, key, first.workflow, o, stored);
    var s2 := TurnStored(s1, key, first.workflow, o, stored).0;
    if o.clear || o.after.Some? {
      LoadingBack(s2, key, later);
    } else if key in s1 {
      LoadingBack(s1, key, later);
    }
  }

  // ---- does the workflow a reply asks about survive? --------------------------------------

  function OutcomeOf(requestID: string, o: Outcome): Protocol.TurnOutcome {
    Protocol.TurnOutcome(requestID, o.prepared, o.after, o.clear)
  }

  /** A turn that leaves a workflow clears exactly when it expired or interrupted the one before. */
  lemma ClearingMeansLeaving(
    digest: Digest, env: Environment, user: Option<User>, d: Draft, received: Option<WorkflowSnapshot>, h: Heard)
    requires Handled(digest, env, user, Some(d), received, h).after.Some?
    ensures Handled(digest, env, user, Some(d), received, h).clear
            <==> (received.Some? && Expired(received.value, env.now)) || Validate(env.catalogue, d, Live(received, env.now), user).interrupt
  {
    var validation := Validate(env.catalogue, d, Live(received, env.now), user);
    var o := NOTHING.(clear := Live(received, env.now) != received || validation.interrupt);
    HandlersKeepClear(digest, env, user, d, if validation.interrupt then None else Live(received, env.now), h, o);
  }

  lemma HandlersKeepClear(
    digest: Digest, env: Environment, user: Option<User>, d: Draft, active: Option<WorkflowSnapshot>, h: Heard, o: Outcome)
    ensures Dispatched(digest, env, user, d, active, h, o).clear == o.clear
  {
    SubscribingKeepsClear(digest, user, d, active, h, env.directory, env.options, env.newID, o);
    PreparingKeepsClear(digest, user, CancelRequest(user), env.directory, o);
  }

  lemma PreparingKeepsClear(digest: Digest, user: Option<User>, req: OperationRequest, directory: Directory, o: Outcome)
    requires req.operation in {Start, Cancel}
    ensures Prepared(digest, user, req, directory, o).clear == o.clear
  {
  }

  lemma SubscribingKeepsClear(
    digest: Digest, user: Option<User>, d: Draft, active: Option<WorkflowSnapshot>, h: Heard,
    directory: Directory, options: seq<Candidate>, id: string, o: Outcome)
    ensures HandleSubscription(digest, user, d, active, h, directory, options, id, o).clear == o.clear
  {
    forall act, w, t ensures ContinueSubscription(digest, user, act, w, t, directory, options, o).clear == o.clear {
      ContinuingKeepsClear(digest, user, act, w, t, directory, options, o);
    }
  }

  lemma ContinuingKeepsClear(
    digest: Digest, user: Option<User>, act: Act, w: WorkflowSnapshot, t: Trusted, directory: Directory, options: seq<Candidate>, o: Outcome)
    ensures ContinueSubscription(digest, user, act, w, t, directory, options, o).clear == o.clear
  {
    var next := Continued(w, act, Start, t).1;
    PreparingKeepsClear(digest, user, StartRequest(Who(user), next.trusted), directory, o.(after := Some(next)));
  }

  /** What the turn's load returned. */
  function Received(s: Store, key: WorkflowKey, now: Time): Option<VersionedWorkflow> {
    match Loaded(s, key, now).1 case Ok(workflow) => workflow case Failed(_) => None
  }

  function SnapshotOf(current: Option<VersionedWorkflow>): Option<WorkflowSnapshot> {
    match current case None => None case Some(v) => Some(v.snapshot)
  }

  /** The workflow a reply prompts for is found by the next turn exactly when this turn neither expired nor interrupted another, and it has not expired itself meanwhile. */
  lemma PromptedWorkflowSurvives(
    digest: Digest, env: Environment, user: Option<User>, d: Draft, h: Heard, requestID: string,
    s: Store, current: Option<VersionedWorkflow>, o: Outcome, now: Time, stored: Time, later: Time)
    requires StoreInv(s) && CompleteKey(KeyOf(user)) && current == Received(s, KeyOf(user), now)
    requires current.Some? ==> current.value.execution.None? && !Expired(current.value.snapshot, stored)
    requires o == Handled(digest, env, user, Some(d), SnapshotOf(current), h) && o.prepared.None? && o.after.Some?
    ensures var s2 := TurnStored(Loaded(s, KeyOf(user), now).0, KeyOf(user), current, OutcomeOf(requestID, o), stored).0;
            var kept := Kept(KeyOf(user), current, o.after.value, stored);
            Received(s2, KeyOf(user), later) == Some(kept)
            <==> && !(current.Some? && Expired(current.value.snapshot, env.now))
                 && !Validate(env.catalogue, d, Live(SnapshotOf(current), env.now), user).interrupt
                 && !Expired(kept.snapshot, later)
  {
    LoadedIsStored(s, KeyOf(user), now);
    ClearingMeansLeaving(digest, env, user, d, SnapshotOf(current), h);
    NextTurnFindsThisOne(s, KeyOf(user), OutcomeOf(requestID, o), now, stored, later);
  }

  /** The failing family in full: asking to subscribe while a subscription is under way prompts for a scope and forgets the workflow it prompts for. */
  lemma RestartingForgetsTheNewWorkflow(
    digest: Digest, env: Environment, u: User, received: WorkflowSnapshot, h: Heard)
    requires u.role >= 1 && u.conversationType == GROUP_CHAT && !Expired(received, env.now) && !env.terminated && h.scope.NoScope?
    ensures var o := Handled(digest, env, Some(u), Some(Draft(WriteRequest, SubscriptionDomain, Start, 1.0)), Some(received), h);
            o.after == Some(Started(env.newID)) && o.clear && o.blocked == Some(MissingScope)
  {
  }
}
