/** One chat message, from an untrusted draft to a prepared write, a stored workflow, or neither. */
module Pipeline {
  import opened Base
  import opened Types
  import opened BusinessKey
  import opened WorkflowEngine
  import opened PolicyGates

  /** `protocolLiveOutcome`, as far as the workflow store and the coordinator are concerned. */
  datatype Outcome = Outcome(
    prepared: Option<OperationRequest>, after: Option<WorkflowSnapshot>, clear: bool, blocked: Option<Reason>)

  const NOTHING: Outcome := Outcome(None, None, false, None)

  /** A missing user counts as one with every field empty. */
  function Who(user: Option<User>): User {
    match user case Some(u) => u case None => User(0, 0, 0, "", "", "", "")
  }

  // ---- from request to prepared write ---------------------------------------------------

  function Runtime(field: Field, value: Value, tenantID: nat, resolver: string): TrustedParam {
    TrustedParam(field, value, ParamSource(SourceKind.Runtime, "", resolver), tenantID)
  }

  function WithDefault(params: Params, field: Field, p: TrustedParam): Params {
    if field in params then params else params[field := p]
  }

  /** `enrichOperationRequestFromUser`. */
  function Enriched(req: OperationRequest, user: Option<User>): OperationRequest {
    match user
    case None => req
    case Some(u) =>
      var own := Trim(u.conversationID);
      var conversation :=
        if Trim(req.conversationID) != "" then req.conversationID
        else if own != "" then own
        else match ParamString(req.params, ConversationID) case Some(id) => id case None => req.conversationID;
      var withRole := WithDefault(req.params, ActorRole, Runtime(ActorRole, Int(u.role), u.tenantID, "user_context_runtime"));
      var withType :=
        if Trim(u.conversationType) == "" then withRole
        else WithDefault(withRole, ConversationType,
                         Runtime(ConversationType, Str(Trim(u.conversationType)), u.tenantID, "user_context_runtime"));
      var withTitle :=
        if Trim(u.conversationTitle) == "" then withType
        else WithDefault(withType, ConversationTitle,
                         Runtime(ConversationTitle, Str(Trim(u.conversationTitle)), u.tenantID, "user_context_runtime"));
      req.(tenantID := if req.tenantID == 0 then u.tenantID else req.tenantID,
           actorUserID := if req.actorUserID == 0 then u.userID else req.actorUserID,
           conversationID := conversation, params := withTitle)
  }

  /** `protocolLivePipeline.execute` for the two writes: it prepares them and runs neither. */
  function Prepared(digest: Digest, user: Option<User>, req: OperationRequest, directory: Directory, o: Outcome): Outcome
    requires req.operation in {Start, Cancel}
  {
    var full := Enriched(req, user);
    var refused := ResourcePolicy(user, full, directory);
    if refused.Some? then o.(blocked := refused)
    else if !GuardAllows(user, full, o.after) then o.(blocked := Some(KeyMissing))
    else match BusinessKeyFor(digest, full)
      case None => o.(blocked := Some(InvalidBusinessKey))
      case Some(key) => o.(prepared := Some(full.(idempotencyKey := key)))
  }

  // ---- the subscription workflow ------------------------------------------------------------

  datatype ScopeWord = NoScope | AllScope | DepartmentScopeWord

  /** `resolveCandidateSelection` on the displayed departments, reduced to the chosen department. */
  datatype Selection = NotHandled | NotChosen | Chosen(candidate: Candidate, departmentID: int)

  /** What the message yields once its raw slots are read: the scope word, whether a department is named, the departments it resolves to, none if it does not, or else the several it could mean, and the candidate it selects. */
  datatype Heard = Heard(
    scope: ScopeWord, named: bool, resolved: seq<int>, ambiguous: seq<Candidate>, raw: string, selection: Selection)

  function SimpleAnswer(scope: string, tenantID: nat): Trusted {
    NOTHING_TRUSTED.(tenantID := tenantID, scope := scope)
  }

  function ResolvedDepartments(ids: seq<int>, raw: string, tenantID: nat): Trusted
    requires ids != []
  {
    SimpleAnswer("department", tenantID).(
      departmentID := ids[0], deptIDs := ids,
      params := map[DeptIDs := TrustedParam(DeptIDs, Int64s(ids), ParamSource(RawSlot, raw, "department_resolver"), tenantID)])
  }

  /** `trustedEntitiesFromDepartmentCandidate`. */
  function ChosenDepartment(c: Candidate, id: int, message: string, tenantID: nat): Option<Trusted> {
    var source := ParamSource(FromCandidate, message, "workflow_candidate");
    if (tenantID != 0 && c.tenantID != tenantID) || id == 0 then None
    else Some(SimpleAnswer("department", tenantID).(
      departmentID := id, deptIDs := [id],
      params := map[Scope := TrustedParam(Scope, Str("department"), source, c.tenantID),
                    DeptIDs := TrustedParam(DeptIDs, Int64s([id]), source, c.tenantID)]))
  }

  /** `resolveInitialSubscriptionTrustedEntities`: an unresolved department still fixes the scope. */
  function InitialAnswer(h: Heard, tenantID: nat): Option<Trusted> {
    match h.scope
    case NoScope => None
    case AllScope => Some(SimpleAnswer("all", tenantID))
    case DepartmentScopeWord =>
      if h.named && h.resolved != [] then Some(ResolvedDepartments(h.resolved, h.raw, tenantID))
      else Some(SimpleAnswer("department", tenantID))
  }

  function NamedAnswer(h: Heard, tenantID: nat): Option<Trusted> {
    if h.named && h.resolved != [] then Some(ResolvedDepartments(h.resolved, h.raw, tenantID)) else None
  }

  /** `resolveSubscriptionTrustedEntities`. */
  function NextAnswer(w: WorkflowSnapshot, h: Heard, tenantID: nat): Option<Trusted> {
    match w.state
    case CollectScope => (
      match h.scope
      case AllScope => Some(SimpleAnswer("all", tenantID))
      case DepartmentScopeWord => Some(SimpleAnswer("department", tenantID))
      case NoScope => NamedAnswer(h, tenantID))
    case CollectDepartments =>
      if h.scope == AllScope then Some(SimpleAnswer("all", tenantID))
      else (match h.selection
        case Chosen(c, id) => ChosenDepartment(c, id, h.raw, tenantID)
        case NotChosen => None
        case NotHandled => NamedAnswer(h, tenantID))
    case _ => None
  }

  /** `subscriptionStartTrustedParams`. */
  function StartParams(u: User, t: Trusted): Params {
    var ids :=
      if t.deptIDs != [] then t.deptIDs
      else if t.scope == "department" && t.departmentID != 0 then [t.departmentID] else [];
    var own := map[ConversationID := Runtime(ConversationID, Str(u.conversationID), u.tenantID, "conversation_runtime")];
    var merged := own + map f | f in t.params :: (if t.params[f].tenantID == 0 then t.params[f].(tenantID := u.tenantID) else t.params[f]);
    var source := ParamSource(FromWorkflow, "", "subscription_workflow");
    var scoped := if t.scope != "" then WithDefault(merged, Scope, TrustedParam(Scope, Str(t.scope), source, u.tenantID)) else merged;
    if ids != [] then WithDefault(scoped, DeptIDs, TrustedParam(DeptIDs, Int64s(ids), source, u.tenantID)) else scoped
  }

  function StartRequest(u: User, t: Trusted): OperationRequest {
    OperationRequest(Start, u.tenantID, u.userID, u.conversationID, StartParams(u, t), "")
  }

  /** `persistWorkflowCandidatesFromResponse`: what was displayed is remembered. */
  function Shown(w: WorkflowSnapshot, options: seq<Candidate>): WorkflowSnapshot {
    if options == [] then w else w.(candidates := w.candidates[DeptIDs := options])
  }

  /** `continueSubscription`; `options` are the departments the list operation would display. */
  function ContinueSubscription(
    digest: Digest, user: Option<User>, act: Act, w: WorkflowSnapshot, t: Trusted, directory: Directory, options: seq<Candidate>,
    o: Outcome): Outcome
  {
    var (decision, next) := Continued(w, act, Start, t);
    match decision
    case ContinueDecision => o.(after := Some(Shown(next, options)))
    case ReadyToExecute => Prepared(digest, user, StartRequest(Who(user), next.trusted), directory, o.(after := Some(next)))
    case _ => o.(after := Some(Clone(w)))
  }

  /** `handleSubscription`. */
  function HandleSubscription(
    digest: Digest, user: Option<User>, d: Draft, active: Option<WorkflowSnapshot>, h: Heard,
    directory: Directory, options: seq<Candidate>, id: string, o: Outcome): Outcome
  {
    if d.operation == ListDepartments then
      match active
      case None => o
      case Some(w) =>
        if w.kind == StartSubscription && w.state == CollectScope then
          ContinueSubscription(digest, user, d.act, w, SimpleAnswer("department", 0), directory, options, o)
        else o.(after := Some(Shown(Clone(w), options)))
    else if user.None? || user.value.conversationType != GROUP_CHAT then o.(blocked := Some(GroupRequired))
    else match active
      case None =>
        if d.act != WriteRequest || d.operation != Start then o
        else (match InitialAnswer(h, user.value.tenantID)
          case Some(t) => ContinueSubscription(digest, user, WorkflowContinue, Started(id), t, directory, options, o)
          case None => o.(after := Some(Started(id)), blocked := Some(MissingScope)))
      case Some(w) =>
        if w.kind != StartSubscription || d.act != WorkflowContinue then o
        else (match NextAnswer(w, h, user.value.tenantID)
          case Some(t) => ContinueSubscription(digest, user, d.act, w, t, directory, options, o)
          case None => o.(after := Some(Shown(Clone(w), h.ambiguous))))
  }

  // ---- one message ----------------------------------------------------------------------------

  function CancelRequest(user: Option<User>): OperationRequest {
    var u := Who(user);
    OperationRequest(Cancel, u.tenantID, u.userID, u.conversationID,
      map[ConversationID := Runtime(ConversationID, Str(u.conversationID), u.tenantID, "conversation_runtime")], "")
  }

  datatype Environment = Environment(
    catalogue: Catalogue, directory: Directory, options: seq<Candidate>, now: Time, terminated: bool, newID: string)

  function Live(received: Option<WorkflowSnapshot>, now: Time): Option<WorkflowSnapshot> {
    if received.Some? && Expired(received.value, now) then None else received
  }

  function Dispatched(
    digest: Digest, env: Environment, user: Option<User>, d: Draft, active: Option<WorkflowSnapshot>, h: Heard, o: Outcome): Outcome
  {
    if Lookup(env.catalogue, d.operation).None? then o
    else if env.terminated then o.(blocked := Some(Terminated))
    else match d.operation
      case Start => HandleSubscription(digest, user, d, active, h, env.directory, env.options, env.newID, o)
      case ListDepartments => HandleSubscription(digest, user, d, active, h, env.directory, env.options, env.newID, o)
      case Cancel => Prepared(digest, user, CancelRequest(user), env.directory, o)
      case OtherOperation(_) => o
  }

  /** `protocolLivePipeline.Handle`; no draft means that compilation failed. */
  function Handled(
    digest: Digest, env: Environment, user: Option<User>, draft: Option<Draft>, received: Option<WorkflowSnapshot>, h: Heard): Outcome
  {
    match draft
    case None => NOTHING
    case Some(d) =>
      var active := Live(received, env.now);
      var validation := Validate(env.catalogue, d, active, user);
      var expired := active != received;
      var kept := if validation.interrupt then None else active;
      var o := NOTHING.(clear := expired || validation.interrupt);
      if RoleRefused(env.catalogue, d, user) then o.(blocked := Some(RoleTooLow))
      else if !DispatchAllowed(validation) then o
      else if d.act == WorkflowCancel then (if kept.None? then o else o.(clear := true))
      else Dispatched(digest, env, user, d, kept, h, o)
  }

  /** The same as the source performs it: one outcome, updated on the way through early returns. */
  method Handle(
    digest: Digest, env: Environment, user: Option<User>, draft: Option<Draft>, received: Option<WorkflowSnapshot>, h: Heard)
    returns (outcome: Outcome)
    ensures outcome == Handled(digest, env, user, draft, received, h)
  {
    outcome := NOTHING;
    var active := received;
    if received.Some? && Expired(received.value, env.now) { active := None; }
    if draft.None? { return; }
    var validation := Validate(env.catalogue, draft.value, active, user);
    if received.Some? && Expired(received.value, env.now) { outcome := outcome.(clear := true); }
    if validation.interrupt {
      outcome := outcome.(clear := true);
      active := None;
    }
    if RoleRefused(env.catalogue, draft.value, user) {
      outcome := outcome.(blocked := Some(RoleTooLow));
      return;
    }
    if !DispatchAllowed(validation) { return; }
    if draft.value.act == WorkflowCancel {
      if active.Some? { outcome := outcome.(clear := true); }
      return;
    }
    outcome := Dispatched(digest, env, user, draft.value, active, h, outcome);
  }

  // ---- prepared writes are authorised ---------------------------------------------------------------

  /** What the user and the request of a prepared write satisfy. */
  predicate Authorised(user: Option<User>, req: OperationRequest) {
    && user.Some? && Trim(user.value.conversationType) == GROUP_CHAT
    && CurrentConversation(user, req)
    && (req.operation == Start ==> ScopeValid(req.params))
    && req.operation in {Start, Cancel}
  }

  /** Preparing anything takes a group chat, the current conversation, a valid scope, every idempotency field and a business key. */
  lemma PreparedIsChecked(digest: Digest, user: Option<User>, req: OperationRequest, directory: Directory, o: Outcome)
    requires req.operation in {Start, Cancel} && o.prepared.None?
    ensures var p := Prepared(digest, user, req, directory, o).prepared;
            p.Some? ==>
              && Authorised(user, p.value) && p.value.operation == req.operation
              && BusinessKeyFor(digest, p.value) == Some(p.value.idempotencyKey)
  {
  }

  lemma ContinuingPreparesOnlyStarts(
    digest: Digest, user: Option<User>, act: Act, w: WorkflowSnapshot, t: Trusted, directory: Directory, options: seq<Candidate>, o: Outcome)
    requires o.prepared.None?
    ensures var p := ContinueSubscription(digest, user, act, w, t, directory, options, o).prepared;
            p.Some? ==> Continued(w, act, Start, t).0 == ReadyToExecute && p.value.operation == Start && Authorised(user, p.value)
  {
  }

  /** Listing departments prepares no write, not even when it is rewritten into a step of the subscription. */
  lemma ListingPreparesNothing(
    digest: Digest, user: Option<User>, d: Draft, active: Option<WorkflowSnapshot>, h: Heard,
    directory: Directory, options: seq<Candidate>, id: string, o: Outcome)
    requires d.operation == ListDepartments && o.prepared.None?
    ensures HandleSubscription(digest, user, d, active, h, directory, options, id, o).prepared.None?
  {
  }

  lemma SubscribingPreparesOnlyStarts(
    digest: Digest, user: Option<User>, d: Draft, active: Option<WorkflowSnapshot>, h: Heard,
    directory: Directory, options: seq<Candidate>, id: string, o: Outcome)
    requires d.operation == Start && o.prepared.None?
    ensures var p := HandleSubscription(digest, user, d, active, h, directory, options, id, o).prepared;
            p.Some? ==> p.value.operation == Start && Authorised(user, p.value)
  {
    if user.Some? {
      match active
      case None =>
        var t := InitialAnswer(h, user.value.tenantID);
        if t.Some? { ContinuingPreparesOnlyStarts(digest, user, WorkflowContinue, Started(id), t.value, directory, options, o); }
      case Some(w) =>
        var t := NextAnswer(w, h, user.value.tenantID);
        if t.Some? { ContinuingPreparesOnlyStarts(digest, user, d.act, w, t.value, directory, options, o); }
    }
  }

  /** For every draft, however untrusted, and every workflow: a prepared write is the drafted operation, asked for in the current group conversation by a user of sufficient role, with a valid scope, and either a confident write request or the continuation of an unexpired workflow of that very operation. */
  lemma PreparedWritesAreAuthorised(
    digest: Digest, env: Environment, user: Option<User>, draft: Option<Draft>, received: Option<WorkflowSnapshot>, h: Heard)
    requires Handled(digest, env, user, draft, received, h).prepared.Some?
    ensures var req := Handled(digest, env, user, draft, received, h).prepared.value;
            && draft.Some? && draft.value.operation == req.operation
            && Authorised(user, req) && user.value.role >= 1
            && ((draft.value.act == WriteRequest && draft.value.confidence >= LOW_CONFIDENCE)
                || (draft.value.act == WorkflowContinue && received.Some? && !Expired(received.value, env.now)
                    && TypeOf(req.operation) == Some(received.value.kind)))
  {
    var d, active := draft.value, Live(received, env.now);
    var validation := Validate(env.catalogue, d, active, user);
    var kept := if validation.interrupt then None else active;
    var o := NOTHING.(clear := active != received || validation.interrupt);
    if d.operation == Start {
      SubscribingPreparesOnlyStarts(digest, user, d, kept, h, env.directory, env.options, env.newID, o);
    } else if d.operation == ListDepartments {
      ListingPreparesNothing(digest, user, d, kept, h, env.directory, env.options, env.newID, o);
    } else if d.operation == Cancel {
      PreparedIsChecked(digest, user, CancelRequest(user), env.directory, o);
    }
    WritesReachHandlersAuthorised(env.catalogue, d, active, user);
  }
}
