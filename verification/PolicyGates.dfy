/** The gates between an untrusted draft and a write: catalogue policy, resource policy and the write guard. */
module PolicyGates {
  import opened Base
  import opened Types
  import opened WorkflowEngine

  // ---- who is asking -----------------------------------------------------------------

  datatype User = User(
    tenantID: nat, userID: nat, role: int, dingUserID: string,
    conversationType: string, conversationID: string, conversationTitle: string)

  /** `workflowKeyFromUserContext`. */
  function KeyOf(user: Option<User>): WorkflowKey {
    match user
    case None => WorkflowKey(0, "", 0)
    case Some(u) =>
      var conversation := Trim(u.conversationID);
      WorkflowKey(u.tenantID, if conversation == "" then "direct:" + Trim(u.dingUserID) else conversation, u.userID)
  }

  // ---- the catalogue --------------------------------------------------------------------

  datatype Domain = SubscriptionDomain | OtherDomain(name: string)

  datatype Conversations = Everywhere | GroupsOnly | DirectOnly

  datatype ResponseKind = Answering | Result | Clarify | SelectOptions | Refuse | Confirm

  datatype Manifest = Manifest(
    domain: Domain, isWrite: bool, conversations: Conversations, minRole: int, allowedActs: set<Act>,
    hasCapability: bool, kind: ResponseKind)

  /** The manifests of the operations outside the subscription writes and their department list; they are all reads. */
  type Catalogue = string -> Option<Manifest>

  function Lookup(catalogue: Catalogue, operation: Operation): Option<Manifest> {
    match operation
    case Start => Some(Manifest(SubscriptionDomain, true, GroupsOnly, 1, {WriteRequest}, false, Result))
    case Cancel => Some(Manifest(SubscriptionDomain, true, GroupsOnly, 1, {WriteRequest}, false, Result))
    case ListDepartments =>
      Some(Manifest(SubscriptionDomain, false, Everywhere, 0, {ReadQuery, WorkflowContinue}, false, SelectOptions))
    case OtherOperation(name) => catalogue(name)
  }

  // ---- before resolution: the draft against the catalogue -------------------------------------

  datatype Draft = Draft(act: Act, domain: Domain, operation: Operation, confidence: real)

  const LOW_CONFIDENCE: real := 0.75

  datatype Code =
    | UnknownIntent | WorkflowMissing | CancelNonExecutable | OperationNotAllowed | DomainMismatch | ReadCannotWrite
    | WriteCannotRead | ActMismatch | CapabilityNonExecutable | RuleNonExecutable | HelpNonExecutable | AllowedRead
    | LowConfidenceWrite | AllowedWrite | WorkflowMismatch | ContinueAllowed | ScopeDenied | RoleDenied

  datatype Validation = Validation(allow: bool, code: Code, useActive: bool, interrupt: bool, kind: ResponseKind)

  function Denied(code: Code, interrupt: bool): Validation { Validation(false, code, false, interrupt, Refuse) }

  predicate ConversationAllowed(where: Conversations, conversationType: string) {
    match where
    case Everywhere => true
    case GroupsOnly => Trim(conversationType) == GROUP_CHAT
    case DirectOnly => Trim(conversationType) != GROUP_CHAT
  }

  /** `enforcePreUserPolicy`: what the asking user may not do, if there is a user. */
  function UserPolicy(user: Option<User>, m: Manifest): Option<Code> {
    match user
    case None => None
    case Some(u) =>
      if !ConversationAllowed(m.conversations, u.conversationType) then Some(ScopeDenied)
      else if u.role < m.minRole then Some(RoleDenied)
      else None
  }

  function TypeOf(operation: Operation): Option<WorkflowType> {
    match operation case Start => Some(StartSubscription) case Cancel => Some(CancelSubscription) case _ => None
  }

  /** `workflowAllowsAuxiliaryOperation`: only the subscription start has one. */
  predicate Auxiliary(kind: WorkflowType, operation: Operation) {
    kind == StartSubscription && operation == ListDepartments
  }

  /** `workflowContinueShapeAllowed`: the workflow still misses a parameter its operation requires. */
  predicate ShapeAllowed(operation: Operation, w: WorkflowSnapshot) {
    var missing := MissingFields(w);
    || Auxiliary(w.kind, operation)
    || (operation == Start && w.kind == StartSubscription && (Scope in missing || DeptIDs in missing || DEPT_NAMES in missing))
    || (operation == Cancel && w.kind == CancelSubscription && ConversationID in missing)
  }

  /** `validateWorkflowContinue`. */
  function ValidateContinue(catalogue: Catalogue, d: Draft, active: Option<WorkflowSnapshot>, user: Option<User>): Validation {
    match active
    case None => Validation(false, WorkflowMissing, false, false, Clarify)
    case Some(w) =>
      if TypeOf(d.operation) != Some(w.kind) && !Auxiliary(w.kind, d.operation) then Denied(WorkflowMismatch, false).(useActive := true)
      else match Lookup(catalogue, d.operation)
        case None => Denied(OperationNotAllowed, false).(useActive := true)
        case Some(m) =>
          if d.domain != m.domain then Denied(DomainMismatch, false).(useActive := true)
          else if !ShapeAllowed(d.operation, w) then Denied(WorkflowMismatch, false).(useActive := true)
          else match UserPolicy(user, m)
            case Some(code) => Denied(code, false).(useActive := true)
            case None => Validation(true, ContinueAllowed, true, false, m.kind)
  }

  /** The part of `prePolicyGate.Validate` after the manifest is known and the draft fits it. */
  function ValidateAct(d: Draft, m: Manifest, interrupt: bool, user: Option<User>): Validation {
    var denied := UserPolicy(user, m);
    if d.act == WriteRequest && d.confidence < LOW_CONFIDENCE then Validation(false, LowConfidenceWrite, false, false, Clarify)
    else if denied.Some? then Denied(denied.value, interrupt)
    else match d.act
      case CapabilityQuestion =>
        if !m.hasCapability then Denied(ActMismatch, false) else Validation(false, CapabilityNonExecutable, false, interrupt, m.kind)
      case RuleQuestion => Validation(false, RuleNonExecutable, false, interrupt, m.kind)
      case Help =>
        if !m.hasCapability || m.domain != OtherDomain("system") then Denied(ActMismatch, false)
        else Validation(false, HelpNonExecutable, false, interrupt, m.kind)
      case ReadQuery => Validation(true, AllowedRead, false, interrupt, m.kind)
      case _ => Validation(true, AllowedWrite, false, interrupt, m.kind)
  }

  /** `prePolicyGate.Validate`. */
  function Validate(catalogue: Catalogue, d: Draft, active: Option<WorkflowSnapshot>, user: Option<User>): Validation {
    var interrupt := active.Some? && ExplicitNewRequest(d.act);
    match d.act
    case UnknownAct => Validation(false, UnknownIntent, false, false, Clarify)
    case WorkflowContinue => ValidateContinue(catalogue, d, active, user)
    case WorkflowCancel =>
      if active.None? then Validation(false, WorkflowMissing, false, false, Clarify)
      else Validation(false, CancelNonExecutable, true, false, Result)
    case _ =>
      match Lookup(catalogue, d.operation)
      case None =>
        Denied(OperationNotAllowed, interrupt && !(d.act == WriteRequest && d.confidence < LOW_CONFIDENCE))
      case Some(m) =>
        if d.domain != m.domain then Denied(DomainMismatch, interrupt)
        else if d.act == ReadQuery && m.isWrite then Denied(ReadCannotWrite, interrupt)
        else if d.act == WriteRequest && !m.isWrite then Denied(WriteCannotRead, interrupt)
        else if d.act !in m.allowedActs then Denied(ActMismatch, interrupt)
        else ValidateAct(d, m, interrupt, user)
  }

  /** `protocolPrimaryDispatchAllowed`. */
  predicate DispatchAllowed(v: Validation) {
    v.allow || (v.useActive && v.kind == Result) || v.kind == Answering
  }

  /** `protocolLiveRoleRefusal`: unlike the gate, it also refuses when there is no user. */
  predicate RoleRefused(catalogue: Catalogue, d: Draft, user: Option<User>) {
    d.act != WorkflowCancel && match Lookup(catalogue, d.operation)
      case None => false
      case Some(m) => m.minRole > 0 && (user.None? || user.value.role < m.minRole)
  }

  /** A write reaches its handler only as a confident write request or as the continuation of its own workflow, and only for a user of sufficient role. */
  lemma WritesReachHandlersAuthorised(catalogue: Catalogue, d: Draft, active: Option<WorkflowSnapshot>, user: Option<User>)
    requires d.operation in {Start, Cancel} && d.act != WorkflowCancel
    requires DispatchAllowed(Validate(catalogue, d, active, user)) && !RoleRefused(catalogue, d, user)
    ensures user.Some? && user.value.role >= 1 && Trim(user.value.conversationType) == GROUP_CHAT
    ensures (d.act == WriteRequest && d.confidence >= LOW_CONFIDENCE)
            || (d.act == WorkflowContinue && active.Some? && TypeOf(d.operation) == Some(active.value.kind))
  {
  }

  // ---- after resolution: the request against its resources ---------------------------------------

  datatype Reason =
    | NotAllowed | GroupRequired | ScopeInvalid | DepartmentDenied | DepartmentUnverified | VisibilityDenied | ConversationMismatch
    | KeyMissing | InvalidBusinessKey | RoleTooLow | MissingScope | Terminated

  /** The department directory: not wired, failing, or a list of departments with their tenants. */
  datatype Directory = NotWired | Failing | Listing(items: seq<(int, nat)>)

  predicate OfTenant(item: (int, nat), user: Option<User>) {
    user.None? || user.value.tenantID == 0 || item.1 == 0 || item.1 == user.value.tenantID
  }

  predicate MayChoose(directory: Directory, id: int, user: Option<User>)
    requires directory.Listing?
  {
    exists i :: 0 <= i < |directory.items| && directory.items[i].0 == id && OfTenant(directory.items[i], user)
  }

  /** `candidateDeptParamAllowed`: a department chosen from displayed candidates was checked when it was displayed. */
  predicate CandidateParam(p: TrustedParam, user: Option<User>) {
    p.source.kind == FromCandidate
    && (if user.None? || user.value.tenantID == 0 then p.tenantID != 0 else p.tenantID == user.value.tenantID)
  }

  /** `validateDepartmentScope`. */
  function DepartmentScope(user: Option<User>, params: Params, directory: Directory): Option<Reason> {
    if ParamString(params, Scope) != Some("department") || directory.NotWired? then None
    else match ParamIDs(params, DeptIDs)
      case None => Some(DepartmentDenied)
      case Some(ids) =>
        if CandidateParam(params[DeptIDs], user) then None
        else if directory.Failing? then Some(DepartmentUnverified)
        else if forall id | id in ids :: MayChoose(directory, id, user) then None
        else Some(DepartmentDenied)
  }

  /** `subscriptionScopeValid`. */
  predicate ScopeValid(params: Params) {
    Scope in params && (
      params[Scope].value == Str("all")
      || (params[Scope].value == Str("department") && DeptIDs in params
          && params[DeptIDs].value.Int64s? && params[DeptIDs].value.ids != []))
  }

  /** `requestConversationMatchesUser`. */
  predicate CurrentConversation(user: Option<User>, req: OperationRequest) {
    user.Some? &&
    var own := Trim(user.value.conversationID);
    match ParamString(req.params, ConversationID)
    case Some(id) => id == own
    case None => Trim(req.conversationID) != "" && Trim(req.conversationID) == own
  }

  /** `resourcePolicyGate.Validate` for the two writes: a reason to refuse, if any. */
  function ResourcePolicy(user: Option<User>, req: OperationRequest, directory: Directory): Option<Reason>
    requires req.operation in {Start, Cancel}
  {
    var department := DepartmentScope(user, req.params, directory);
    if user.None? || Trim(user.value.conversationType) != GROUP_CHAT then Some(GroupRequired)
    else if req.operation == Start && !ScopeValid(req.params) then Some(ScopeInvalid)
    else if req.operation == Start && department.Some? then department
    else if !CurrentConversation(user, req) then Some(ConversationMismatch)
    else None
  }

  /** `writeGuard.Check` for a low-risk write: every field of the idempotency key must be at hand. */
  predicate GuardAllows(user: Option<User>, req: OperationRequest, w: Option<WorkflowSnapshot>) {
    && (req.tenantID != 0 || (user.Some? && user.value.tenantID != 0))
    && (req.actorUserID != 0 || (user.Some? && user.value.userID != 0))
    && (Trim(req.conversationID) != "" || ParamString(req.params, ConversationID).Some?
        || (user.Some? && Trim(user.value.conversationID) != ""))
    && (req.operation == Start ==>
          ParamValue(req.params, Scope).Some? && w.Some? && Trim(w.value.id) != "")
  }
}
