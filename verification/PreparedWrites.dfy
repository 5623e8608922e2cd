/** From the subscription conversation to the write protocol: what is prepared is what the protocol assumes. */
module PreparedWrites {
  import opened Base
  import opened Types
  import opened SortedIds
  import opened BusinessKey
  import opened Recovery
  import opened WorkflowEngine
  import opened PolicyGates
  import opened Pipeline
  import Protocol

  // ---- the resolvers answer consistently ---------------------------------------------

  lemma ResolversAnswer(w: WorkflowSnapshot, h: Heard, tenantID: nat)
    ensures InitialAnswer(h, tenantID).Some? ==> Answer(InitialAnswer(h, tenantID).value)
    ensures NextAnswer(w, h, tenantID).Some? ==> Answer(NextAnswer(w, h, tenantID).value)
  {
  }

  // ---- a ready subscription has a business key -------------------------------------------

  /** The departments a ready subscription is for. */
  function ChosenDepartments(t: Trusted): seq<int> { if t.scope == "all" then [] else t.deptIDs }

  lemma StartParamsRead(u: User, t: Trusted)
    requires ForEverybody(t) || ForDepartments(t)
    requires t.params.Keys <= {Scope, DeptIDs}
    ensures var p := StartParams(u, t);
            && p.Keys <= {ConversationID, Scope, DeptIDs}
            && ParamString(p, Scope) == Some(t.scope) && Scope in p && p[Scope].value == Str(t.scope)
            && ParamIDs(p, DeptIDs) == (if ChosenDepartments(t) == [] then None else Some(ChosenDepartments(t)))
            && (DeptIDs in p ==> p[DeptIDs].value == Int64s(t.deptIDs) && t.deptIDs != [])
            && ConversationID in p && p[ConversationID].value == Str(u.conversationID)
  {
  }

  lemma ScopeWordsAreTrimmed()
    ensures Trim("all") == "all" && Trim("department") == "department"
  {
    TrimIsTrimmed("all");
    TrimIsTrimmed("department");
  }

  /** A ready subscription passes every scope check of the business key exactly when its departments are all positive, given a tenant and a conversation. */
  lemma ReadySubscriptionsHaveAKey(u: User, w: WorkflowSnapshot)
    requires Consistent(w) && w.state == ReadyToRun
    ensures KeyFor(StartRequest(u, w.trusted)).Some?
            <==> u.tenantID != 0 && Trim(u.conversationID) != "" && AllPositive(ChosenDepartments(w.trusted))
  {
    StartParamsRead(u, w.trusted);
    ScopeWordsAreTrimmed();
    AcceptedRequests(StartRequest(u, w.trusted));
  }

  // ---- a prepared request meets the protocol's assumption ---------------------------------------

  /** The request names its own conversation, tenant and actor. */
  predicate OwnRequest(u: User, req: OperationRequest) {
    && req.tenantID == u.tenantID && req.actorUserID == u.userID && req.conversationID == u.conversationID
    && ConversationID in req.params && req.params[ConversationID].value == Str(u.conversationID)
    && ActorRole !in req.params && ConversationType !in req.params && ConversationTitle !in req.params
    && forall f | f in req.params && f != ConversationID :: Acceptable(f, req.params[f].value)
  }

  lemma EnrichingKeepsOwn(u: User, req: OperationRequest)
    requires OwnRequest(u, req)
    ensures var full := Enriched(req, Some(u));
            && full.operation == req.operation && full.tenantID == u.tenantID && full.actorUserID == u.userID
            && Trim(full.conversationID) == Trim(u.conversationID)
            && ParamString(full.params, ConversationID) == (if u.conversationID == "" then None else Some(u.conversationID))
            && (u.role >= 0 && u.conversationID != "" ==> PersistedParams(full.params).Some?)
  {
  }

  lemma OwnRequestIsAdmissible(digest: Digest, u: User, req: OperationRequest, directory: Directory, o: Outcome)
    requires OwnRequest(u, req) && req.operation in {Start, Cancel} && o.prepared.None? && u.role >= 0
    ensures var p := Prepared(digest, Some(u), req, directory, o).prepared;
            p.Some? ==> Protocol.Admissible(digest, KeyOf(Some(u)), p.value) && PersistedParams(p.value.params).Some?
  {
    var p := Prepared(digest, Some(u), req, directory, o).prepared;
    if p.Some? {
      PreparedIsChecked(digest, Some(u), req, directory, o);
      EnrichingKeepsOwn(u, req);
      TrimIsTrimmed(u.conversationID);
      TrimIsTrimmed(Trim(u.conversationID));
    }
  }

  lemma ContinuingIsAdmissible(
    digest: Digest, u: User, act: Act, w: WorkflowSnapshot, t: Trusted, directory: Directory, options: seq<Candidate>, o: Outcome)
    requires Consistent(w) && Answer(t) && o.prepared.None? && u.role >= 0
    ensures var p := ContinueSubscription(digest, Some(u), act, w, t, directory, options, o).prepared;
            p.Some? ==> Protocol.Admissible(digest, KeyOf(Some(u)), p.value) && PersistedParams(p.value.params).Some?
  {
    var (decision, next) := Continued(w, act, Start, t);
    if decision == ReadyToExecute {
      ReadyIsReady(w, act, t);
      StartIsOwn(u, next);
      OwnRequestIsAdmissible(digest, u, StartRequest(u, next.trusted), directory, o.(after := Some(next)));
    }
  }

  lemma ReadyIsReady(w: WorkflowSnapshot, act: Act, t: Trusted)
    requires Consistent(w) && Answer(t)
    ensures var (decision, next) := Continued(w, act, Start, t);
            Consistent(next) && (decision == ReadyToExecute ==> next.state == ReadyToRun)
  {
  }

  lemma StartIsOwn(u: User, w: WorkflowSnapshot)
    requires Consistent(w) && w.state == ReadyToRun
    ensures OwnRequest(u, StartRequest(u, w.trusted))
  {
    StartParamsRead(u, w.trusted);
  }

  /** The workflow a turn starts from: absent, of another kind, or one a subscription conversation reached. */
  predicate Usable(received: Option<WorkflowSnapshot>) {
    received.Some? && received.value.kind == StartSubscription ==> Consistent(received.value)
  }

  lemma SubscribingIsAdmissible(
    digest: Digest, u: User, d: Draft, active: Option<WorkflowSnapshot>, h: Heard,
    directory: Directory, options: seq<Candidate>, id: string, o: Outcome)
    requires Usable(active) && o.prepared.None? && u.role >= 0
    ensures var p := HandleSubscription(digest, Some(u), d, active, h, directory, options, id, o).prepared;
            p.Some? ==> Protocol.Admissible(digest, KeyOf(Some(u)), p.value) && PersistedParams(p.value.params).Some?
  {
    if d.operation == ListDepartments {
      ListingPreparesNothing(digest, Some(u), d, active, h, directory, options, id, o);
    } else if active.None? {
      if InitialAnswer(h, u.tenantID).Some? { StartingIsAdmissible(digest, u, h, directory, options, id, o); }
    } else if active.value.kind == StartSubscription && NextAnswer(active.value, h, u.tenantID).Some? {
      AnsweringIsAdmissible(digest, u, d.act, active.value, h, directory, options, o);
    }
  }

  lemma StartingIsAdmissible(digest: Digest, u: User, h: Heard, directory: Directory, options: seq<Candidate>, id: string, o: Outcome)
    requires o.prepared.None? && u.role >= 0 && InitialAnswer(h, u.tenantID).Some?
    ensures var p := ContinueSubscription(digest, Some(u), WorkflowContinue, Started(id), InitialAnswer(h, u.tenantID).value, directory, options, o).prepared;
            p.Some? ==> Protocol.Admissible(digest, KeyOf(Some(u)), p.value) && PersistedParams(p.value.params).Some?
  {
    ResolversAnswer(Started(id), h, u.tenantID);
    ContinuingIsAdmissible(digest, u, WorkflowContinue, Started(id), InitialAnswer(h, u.tenantID).value, directory, options, o);
  }

  lemma AnsweringIsAdmissible(digest: Digest, u: User, act: Act, w: WorkflowSnapshot, h: Heard, directory: Directory, options: seq<Candidate>, o: Outcome)
    requires Usable(Some(w)) && w.kind == StartSubscription && o.prepared.None? && u.role >= 0 && NextAnswer(w, h, u.tenantID).Some?
    ensures var p := ContinueSubscription(digest, Some(u), act, w, NextAnswer(w, h, u.tenantID).value, directory, options, o).prepared;
            p.Some? ==> Protocol.Admissible(digest, KeyOf(Some(u)), p.value) && PersistedParams(p.value.params).Some?
  {
    ResolversAnswer(w, h, u.tenantID);
    ContinuingIsAdmissible(digest, u, act, w, NextAnswer(w, h, u.tenantID).value, directory, options, o);
  }

  /** Whatever the pipeline prepares satisfies what the write protocol assumes of a prepared request, for the key the chat turn will use; and all its parameters can be persisted. */
  lemma PreparedWritesAreAdmissible(
    digest: Digest, env: Environment, user: Option<User>, draft: Option<Draft>, received: Option<WorkflowSnapshot>, h: Heard)
    requires Usable(received)
    ensures var p := Handled(digest, env, user, draft, received, h).prepared;
            p.Some? ==> Protocol.Admissible(digest, KeyOf(user), p.value) && PersistedParams(p.value.params).Some?
  {
    if Handled(digest, env, user, draft, received, h).prepared.Some? {
      PreparedWritesAreAuthorised(digest, env, user, draft, received, h);
      var d, active, u := draft.value, Live(received, env.now), user.value;
      var validation := Validate(env.catalogue, d, active, user);
      var kept := if validation.interrupt then None else active;
      var o := NOTHING.(clear := active != received || validation.interrupt);
      if d.operation == Start {
        SubscribingIsAdmissible(digest, u, d, kept, h, env.directory, env.options, env.newID, o);
      } else {
        OwnRequestIsAdmissible(digest, u, CancelRequest(user), env.directory, o);
      }
    }
  }

  // ---- what the turn leaves behind -------------------------------------------------------------------

  lemma CopiesStayConsistent(w: WorkflowSnapshot, options: seq<Candidate>)
    requires Consistent(w)
    ensures Consistent(Clone(w)) && Consistent(Shown(w, options)) && Consistent(Shown(Clone(w), options))
  {
  }

  lemma ContinuingLeavesConsistent(
    digest: Digest, user: Option<User>, act: Act, w: WorkflowSnapshot, t: Trusted, directory: Directory, options: seq<Candidate>, o: Outcome)
    requires Consistent(w) && Answer(t)
    ensures var after := ContinueSubscription(digest, user, act, w, t, directory, options, o).after;
            after.Some? && Consistent(after.value)
  {
    MessagesKeepConsistency(w, act, Start, t);
    CopiesStayConsistent(w, options);
    CopiesStayConsistent(Continued(w, act, Start, t).1, options);
    ContinuingLeaves(digest, user, act, w, t, directory, options, o);
  }

  /** What a continuation leaves: the next workflow, with its options if it goes on collecting, or the old one. */
  lemma ContinuingLeaves(
    digest: Digest, user: Option<User>, act: Act, w: WorkflowSnapshot, t: Trusted, directory: Directory, options: seq<Candidate>, o: Outcome)
    ensures var (decision, next) := Continued(w, act, Start, t);
            ContinueSubscription(digest, user, act, w, t, directory, options, o).after ==
              match decision
              case ContinueDecision => Some(Shown(next, options))
              case ReadyToExecute => Some(next)
              case _ => Some(Clone(w))
  {
  }

  lemma SubscribingLeavesConsistent(
    digest: Digest, user: Option<User>, d: Draft, active: Option<WorkflowSnapshot>, h: Heard,
    directory: Directory, options: seq<Candidate>, id: string, o: Outcome)
    requires Usable(active) && o.after.None?
    ensures Usable(HandleSubscription(digest, user, d, active, h, directory, options, id, o).after)
  {
    match active
    case None =>
      ResolversAnswer(Started(id), h, Who(user).tenantID);
      var t := InitialAnswer(h, Who(user).tenantID);
      if t.Some? { ContinuingLeavesConsistent(digest, user, WorkflowContinue, Started(id), t.value, directory, options, o); }
    case Some(w) =>
      if w.kind == StartSubscription { GoingOnLeavesConsistent(digest, user, d, w, h, directory, options, id, o); }
  }

  lemma GoingOnLeavesConsistent(
    digest: Digest, user: Option<User>, d: Draft, w: WorkflowSnapshot, h: Heard,
    directory: Directory, options: seq<Candidate>, id: string, o: Outcome)
    requires Consistent(w) && o.after.None?
    ensures var after := HandleSubscription(digest, user, d, Some(w), h, directory, options, id, o).after;
            after.Some? ==> Consistent(after.value)
  {
    if d.operation == ListDepartments {
      CopiesStayConsistent(w, options);
      ContinuingLeavesConsistent(digest, user, d.act, w, SimpleAnswer("department", 0), directory, options, o);
    } else {
      AnsweringLeavesConsistent(digest, user, d, w, h, directory, options, id, o);
    }
  }

  lemma AnsweringLeavesConsistent(
    digest: Digest, user: Option<User>, d: Draft, w: WorkflowSnapshot, h: Heard,
    directory: Directory, options: seq<Candidate>, id: string, o: Outcome)
    requires Consistent(w) && o.after.None? && d.operation != ListDepartments
    ensures var after := HandleSubscription(digest, user, d, Some(w), h, directory, options, id, o).after;
            after.Some? ==> Consistent(after.value)
  {
    var t := NextAnswer(w, h, Who(user).tenantID);
    AnsweringGoesOn(digest, user, d, w, h, directory, options, id, o);
    ResolversAnswer(w, h, Who(user).tenantID);
    CopiesStayConsistent(w, h.ambiguous);
    if t.Some? { ContinuingLeavesConsistent(digest, user, d.act, w, t.value, directory, options, o); }
  }

  lemma AnsweringGoesOn(
    digest: Digest, user: Option<User>, d: Draft, w: WorkflowSnapshot, h: Heard,
    directory: Directory, options: seq<Candidate>, id: string, o: Outcome)
    requires d.operation != ListDepartments && o.after.None?
    ensures var after := HandleSubscription(digest, user, d, Some(w), h, directory, options, id, o).after;
            var t := NextAnswer(w, h, Who(user).tenantID);
            || after.None?
            || (t.Some? && after == ContinueSubscription(digest, user, d.act, w, t.value, directory, options, o).after)
            || after == Some(Shown(Clone(w), h.ambiguous))
  {
  }

  /** A turn leaves every subscription consistent, whatever the draft: the conversations of the workflow engine are the ones the pipeline conducts. */
  lemma TurnsLeaveWorkflowsConsistent(
    digest: Digest, env: Environment, user: Option<User>, draft: Option<Draft>, received: Option<WorkflowSnapshot>, h: Heard)
    requires Usable(received)
    ensures Usable(Handled(digest, env, user, draft, received, h).after)
  {
    if draft.Some? {
      var d, active := draft.value, Live(received, env.now);
      var validation := Validate(env.catalogue, d, active, user);
      var kept := if validation.interrupt then None else active;
      var o := NOTHING.(clear := active != received || validation.interrupt);
      SubscribingLeavesConsistent(digest, user, d, kept, h, env.directory, env.options, env.newID, o);
    }
  }
}
