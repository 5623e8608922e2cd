/** The entities shared by the workflow store, its codecs and the protocol around them. */
module Types {
  import opened Base

  datatype WorkflowKey = WorkflowKey(tenantID: nat, conversationID: string, actorUserID: nat)

  // ---- trusted parameters ------------------------------------------------

  /** The dynamic values a trusted parameter may hold; `Unsupported` is every other Go type. */
  datatype Value =
    | Str(s: string)
    | Int(i: int)
    | Int64(i64: int)
    | Uint(n: nat)
    | Int64s(ids: seq<int>)
    | Bool(b: bool)
    | Unsupported

  datatype SourceKind = RawSlot | DefaultValue | Runtime | FromWorkflow | FromCandidate | Derived | UnknownKind(name: string)

  datatype ParamSource = ParamSource(kind: SourceKind, raw: string, resolver: string)

  datatype TrustedParam = TrustedParam(field: Field, value: Value, source: ParamSource, tenantID: nat)

  type Params = map<Field, TrustedParam>

  /** Parameter names; `OtherField` is any name without a meaning here, spelled out. */
  datatype Field =
    | ConversationID | Scope | DeptIDs | ActorRole | ConversationType | ConversationTitle
    | UserID | Date | Section | Week | RuleTopic | QueryShape
    | OtherField(name: string)

  predicate BlankField(f: Field) { f.OtherField? && Trim(f.name) == "" }

  /** The parameter a text names. */
  function FieldNamed(name: string): Field {
    if name == "conversation_id" then ConversationID
    else if name == "scope" then Scope
    else if name == "dept_ids" then DeptIDs
    else if name == "actor_role" then ActorRole
    else if name == "conversation_type" then ConversationType
    else if name == "conversation_title" then ConversationTitle
    else if name == "user_id" then UserID
    else if name == "date" then Date
    else if name == "section" then Section
    else if name == "week" then Week
    else if name == "rule_topic" then RuleTopic
    else if name == "query_shape" then QueryShape
    else OtherField(name)
  }

  /** `strings.TrimSpace` on a parameter name. */
  function TrimField(f: Field): Field {
    match f case OtherField(name) => FieldNamed(Trim(name)) case _ => f
  }

  /** A name that `strings.TrimSpace` would change. */
  predicate PaddedField(f: Field) { TrimField(f) != f }

  /** Catalogue operations; `OtherOperation` is any other name, spelled out. */
  datatype Operation = Start | Cancel | ListDepartments | OtherOperation(text: string)

  /** `strings.TrimSpace` on an operation name. */
  function TrimOperation(op: Operation): Operation {
    match op
    case OtherOperation(text) =>
      var t := Trim(text);
      if t == "subscription.start" then Start
      else if t == "subscription.cancel" then Cancel
      else if t == "subscription.list_departments" then ListDepartments
      else OtherOperation(t)
    case _ => op
  }

  const GROUP_CHAT := "2"

  predicate NonEmptyText(v: Value) { v.Str? && v.s != "" }

  predicate Digits(s: string) { forall i | 0 <= i < |s| :: '0' <= s[i] <= '9' }

  function Decimal(s: string): nat
    requires Digits(s)
  {
    if s == "" then 0 else Decimal(s[..|s| - 1]) * 10 + (s[|s| - 1] as int - '0' as int)
  }

  /** A calendar date written `2006-01-02`. */
  predicate CalendarDate(s: string) {
    && |s| == 10 && s[4] == '-' && s[7] == '-'
    && Digits(s[..4]) && Digits(s[5..7]) && Digits(s[8..])
    && var year, month, day := Decimal(s[..4]), Decimal(s[5..7]), Decimal(s[8..]);
    && 1 <= month <= 12
    && var leap := year % 4 == 0 && (year % 100 != 0 || year % 400 == 0);
    && 1 <= day <= (if month == 2 then (if leap then 29 else 28) else if month in {4, 6, 9, 11} then 30 else 31)
  }

  /** `canonicalTrustedParamValue`: the typed values a field accepts. */
  predicate Acceptable(field: Field, v: Value) {
    match field
    case ConversationID => NonEmptyText(v)
    case Scope => NonEmptyText(v)
    case DeptIDs => v.Int64s? && v.ids != []
    case UserID => v.Uint? && v.n != 0
    case Date => v.Str? && CalendarDate(v.s)
    case Section => v.Int? && v.i > 0
    case Week => v.Int? && v.i > 0
    case RuleTopic => NonEmptyText(v)
    case QueryShape => NonEmptyText(v)
    case ActorRole => v.Int? && v.i >= 0
    case ConversationType => NonEmptyText(v)
    case ConversationTitle => v.Str?
    case OtherField(_) => false
  }

  /** `trustedParamConcreteValue` and the `extractParam` family built on it. */
  function ParamValue(params: Params, field: Field): (r: Option<Value>)
    ensures r.Some? ==> field in params && r.value == params[field].value && Acceptable(field, r.value)
  {
    if field in params && Acceptable(field, params[field].value) then Some(params[field].value) else None
  }

  function ParamString(params: Params, field: Field): Option<string> {
    match ParamValue(params, field)
    case Some(Str(s)) => Some(s)
    case _ => None
  }

  function ParamIDs(params: Params, field: Field): (r: Option<seq<int>>)
    ensures r.Some? && field == DeptIDs ==> r.value != []
  {
    match ParamValue(params, field)
    case Some(Int64s(ids)) => if ids == [] then None else Some(ids)
    case _ => None
  }

  datatype OperationRequest = OperationRequest(
    operation: Operation, tenantID: nat, actorUserID: nat, conversationID: string,
    params: Params, idempotencyKey: string)

  // ---- workflow snapshots ------------------------------------------------

  datatype WorkflowType = StartSubscription | CancelSubscription | ManualSignCreate | OtherType(typeName: string)

  datatype WorkflowState =
    | CollectScope | CollectDepartments | CollectUser | CollectDate | CollectSection
    | ReadyToRun | Completed | Cancelled | Interrupted | OtherState(stateName: string)

  datatype TrustedEntity = TrustedEntity(id: string, kind: string, caption: string, value: Value, tenantID: nat)

  datatype Candidate = Candidate(id: string, caption: string, value: Value, tenantID: nat)

  /** `trustedEntities`: what a workflow has established so far. */
  datatype Trusted = Trusted(
    tenantID: nat, departmentID: int, deptIDs: seq<int>, userID: nat, userName: string,
    date: string, section: int, week: int, conversationID: string, scope: string,
    queryShape: string, userRole: int, params: Params)

  const NOTHING_TRUSTED: Trusted := Trusted(0, 0, [], 0, "", "", 0, 0, "", "", "", 0, map[])

  datatype WorkflowSnapshot = WorkflowSnapshot(
    id: string, tenantID: nat, actorUserID: nat, conversationID: string,
    kind: WorkflowType, state: WorkflowState,
    missingFields: seq<Field>, entities: map<Field, TrustedEntity>, candidates: map<Field, seq<Candidate>>,
    lastUserMessage: string, createdAt: Time, updatedAt: Time, expiresAt: Time, version: nat,
    missingSlots: seq<Field>, trusted: Trusted)

  /** `workflowMissingFields`. */
  function MissingFields(w: WorkflowSnapshot): seq<Field> {
    if w.missingFields != [] then w.missingFields else w.missingSlots
  }

  function DropEmptyLists(candidates: map<Field, seq<Candidate>>): (r: map<Field, seq<Candidate>>)
    ensures forall f | f in r :: f in candidates && r[f] == candidates[f] && r[f] != []
    ensures (forall f | f in candidates :: candidates[f] != []) ==> r == candidates
  {
    map f | f in candidates && candidates[f] != [] :: candidates[f]
  }

  /** `cloneWorkflowSnapshot`, which realigns the missing slots and drops empty candidate lists. */
  function Clone(w: WorkflowSnapshot): WorkflowSnapshot {
    w.(missingFields := MissingFields(w),
       missingSlots := if w.missingSlots != [] then w.missingSlots else MissingFields(w),
       candidates := DropEmptyLists(w.candidates))
  }

  /** `setWorkflowMissingFields`. */
  function WithMissing(w: WorkflowSnapshot, fields: seq<Field>): WorkflowSnapshot {
    w.(missingFields := fields, missingSlots := fields)
  }

  /** A snapshot whose two missing lists agree and which has no empty candidate list. */
  predicate Aligned(w: WorkflowSnapshot) {
    && w.missingFields == w.missingSlots
    && forall f | f in w.candidates :: w.candidates[f] != []
  }

  predicate Expired(w: WorkflowSnapshot, now: Time) {
    w.expiresAt != 0 && w.expiresAt <= now
  }

  // ---- executions ----------------------------------------------------------

  datatype WriteEffect = EffectCreated | EffectUpdated | EffectNoOp | EffectCancelled | OtherEffect(effectName: string)

  /** `validWriteEffect`. */
  predicate ValidEffect(e: WriteEffect) { !e.OtherEffect? }

  datatype Reservation = Reservation(
    operation: Operation, businessKey: string, params: map<Field, Value>, token: string,
    attemptID: string, startedAt: Time, leaseExpiresAt: Time)

  datatype ExecutionResult = ExecutionResult(businessKey: string, effect: WriteEffect, completedAt: Time)

  datatype ExecutionStatus = Executing | ResultRecorded | RecoveryRequired

  datatype Execution = Execution(status: ExecutionStatus, reservation: Reservation, result: Option<ExecutionResult>)

  datatype VersionedWorkflow = VersionedWorkflow(snapshot: WorkflowSnapshot, version: nat, execution: Option<Execution>)
}
