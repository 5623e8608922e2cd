/** Multi-turn workflows: what one message makes of a workflow, and what holds of every workflow a run of messages can reach. */
module WorkflowEngine {
  import opened Base
  import opened Types
  import opened SortedIds
  import opened BusinessKey
  import opened SnapshotCodec
  import opened WorkflowStore

  datatype Act =
    | WorkflowContinue | WorkflowCancel | CapabilityQuestion | RuleQuestion | ReadQuery | WriteRequest | Help | UnknownAct

  datatype Decision =
    | ContinueDecision | ReadyToExecute | RejectInvalidShape | MetaResult | Canceled | InterruptedDecision

  const DEPT_NAMES: Field := OtherField("dept_names")

  // ---- one message -------------------------------------------------------------------

  predicate ExplicitNewRequest(act: Act) {
    act in {CapabilityQuestion, RuleQuestion, ReadQuery, WriteRequest, Help}
  }

  /** `startWorkflow`: a fresh subscription asks for its scope first. */
  function Started(id: string): WorkflowSnapshot {
    WorkflowSnapshot(id, 0, 0, "", StartSubscription, CollectScope, [Scope], map[], map[], "", 0, 0, 0, 0, [Scope], NOTHING_TRUSTED)
  }

  function Merged(params: Params, more: Params): Params { params + more }

  /** `mergeTrustedParams`, entry by entry. */
  method MergeTrustedParams(params: Params, more: Params) returns (merged: Params)
    ensures merged == Merged(params, more)
  {
    var fields := Listing(more.Keys);
    merged := params;
    for i := 0 to |fields|
      invariant merged.Keys == params.Keys + set f | f in fields[..i]
      invariant forall f | f in merged :: merged[f] == if f in fields[..i] then more[f] else params[f]
    {
      assert fields[..i + 1] == fields[..i] + [fields[i]];
      assert fields[i] in more.Keys;
      merged := merged[fields[i] := more[fields[i]]];
    }
    assert fields[..|fields|] == fields;
    assert forall f :: f in fields <==> f in more.Keys;
  }

  /** The departments an answer names. */
  function NamedDepartments(t: Trusted): seq<int> {
    if t.deptIDs == [] && t.departmentID != 0 then [t.departmentID] else t.deptIDs
  }

  function Ready(w: WorkflowSnapshot, t: Trusted): WorkflowSnapshot {
    WithMissing(w, []).(state := ReadyToRun, trusted := t)
  }

  function WithDepartments(t: Trusted, ids: seq<int>): Trusted
    requires ids != []
  {
    t.(departmentID := ids[0], deptIDs := ids)
  }

  /** The scope parameter once the user has widened the scope to everybody; it keeps or finds a tenant. */
  function WidenedParams(params: Params, own: nat, answered: nat): Params {
    var widened :=
      if Scope in params then
        var p := params[Scope];
        var tenantID := if p.tenantID != 0 then p.tenantID else if answered != 0 then answered else own;
        params[Scope := p.(field := Scope, value := Str("all"), tenantID := tenantID)]
      else params;
    widened - {DeptIDs}
  }

  function ScopeAnswered(w: WorkflowSnapshot, t: Trusted): (Decision, WorkflowSnapshot) {
    var merged := w.trusted.(scope := t.scope, params := Merged(w.trusted.params, t.params));
    if t.scope == "all" then (ReadyToExecute, Ready(w, merged))
    else if t.scope == "department" then
      var ids := NamedDepartments(t);
      if ids != [] then (ReadyToExecute, Ready(w, WithDepartments(merged, ids)))
      else (ContinueDecision, WithMissing(w, [DEPT_NAMES]).(state := CollectDepartments, trusted := merged))
    else (RejectInvalidShape, w)
  }

  function DepartmentsAnswered(w: WorkflowSnapshot, t: Trusted): (Decision, WorkflowSnapshot) {
    var params := Merged(w.trusted.params, t.params);
    if t.scope == "all" then
      (ReadyToExecute, Ready(w, w.trusted.(
        scope := "all", departmentID := 0, deptIDs := [], params := WidenedParams(params, w.trusted.tenantID, t.tenantID))))
    else
      var ids := NamedDepartments(t);
      if ids == [] then (RejectInvalidShape, w)
      else (ReadyToExecute, Ready(w, WithDepartments(w.trusted, ids).(params := params)))
  }

  /** `continueSubscriptionWorkflow`. */
  function Subscribed(w: WorkflowSnapshot, operation: Operation, t: Trusted): (Decision, WorkflowSnapshot) {
    if operation == ListDepartments && w.state == CollectDepartments then (MetaResult, w)
    else if operation != Start then (RejectInvalidShape, w)
    else match w.state
      case CollectScope => ScopeAnswered(w, t)
      case CollectDepartments => DepartmentsAnswered(w, t)
      case _ => (RejectInvalidShape, w)
  }

  /** The same, with the snapshot's fields assigned one after the other. */
  method ContinueSubscriptionWorkflow(w: WorkflowSnapshot, operation: Operation, t: Trusted)
    returns (decision: Decision, next: WorkflowSnapshot)
    ensures (decision, next) == Subscribed(w, operation, t)
  {
    next := w;
    if operation == ListDepartments && w.state == CollectDepartments { return MetaResult, next; }
    if operation != Start { return RejectInvalidShape, next; }
    var trusted := w.trusted;
    var ids := t.deptIDs;
    if ids == [] && t.departmentID != 0 { ids := [t.departmentID]; }
    if w.state == CollectScope {
      if t.scope != "all" && t.scope != "department" { return RejectInvalidShape, next; }
      trusted := trusted.(scope := t.scope);
      var params := MergeTrustedParams(trusted.params, t.params);
      trusted := trusted.(params := params);
      if t.scope == "department" {
        if ids == [] {
          next := WithMissing(next.(state := CollectDepartments, trusted := trusted), [DEPT_NAMES]);
          return ContinueDecision, next;
        }
        trusted := trusted.(departmentID := ids[0], deptIDs := ids);
      }
    } else if w.state == CollectDepartments {
      if t.scope == "all" {
        trusted := trusted.(scope := t.scope);
        var params := MergeTrustedParams(trusted.params, t.params);
        if Scope in params {
          var p := params[Scope].(field := Scope, value := Str(t.scope));
          if p.tenantID == 0 {
            p := p.(tenantID := t.tenantID);
            if p.tenantID == 0 { p := p.(tenantID := w.trusted.tenantID); }
          }
          params := params[Scope := p];
        }
        trusted := trusted.(departmentID := 0, deptIDs := [], params := params - {DeptIDs});
      } else {
        if ids == [] { return RejectInvalidShape, next; }
        trusted := trusted.(departmentID := ids[0], deptIDs := ids);
        var params := MergeTrustedParams(trusted.params, t.params);
        trusted := trusted.(params := params);
      }
    } else {
      return RejectInvalidShape, next;
    }
    next := WithMissing(next.(state := ReadyToRun, trusted := trusted), []);
    decision := ReadyToExecute;
  }

  // ---- manual sign-in ---------------------------------------------------------------------

  /** `workflowMissingSlots`. */
  function MissingSlots(t: Trusted): seq<Field> {
    (if t.userID == 0 then [UserID] else []) + (if t.date == "" then [Date] else []) + (if t.section == 0 then [Section] else [])
  }

  function Collecting(slot: Field): WorkflowState {
    match slot case Date => CollectDate case Section => CollectSection case _ => CollectUser
  }

  function Learned(known: Trusted, t: Trusted): Trusted {
    known.(
      userID := if t.userID != 0 then t.userID else known.userID,
      userName := if t.userName != "" then t.userName else known.userName,
      params := Merged(known.params, t.params),
      date := if t.date != "" then t.date else known.date,
      section := if t.section != 0 then t.section else known.section)
  }

  /** `continueManualSignWorkflow`. */
  function Signed(w: WorkflowSnapshot, t: Trusted): (Decision, WorkflowSnapshot) {
    var known := Learned(w.trusted, t);
    var missing := MissingSlots(known);
    if missing == [] then (ReadyToExecute, Ready(w, known))
    else (ContinueDecision, WithMissing(w, missing).(state := Collecting(missing[0]), trusted := known))
  }

  /** `continueWorkflow`. */
  function Continued(w: WorkflowSnapshot, act: Act, operation: Operation, t: Trusted): (Decision, WorkflowSnapshot) {
    if act == WorkflowCancel then (Canceled, WithMissing(w, []).(state := Cancelled))
    else if ExplicitNewRequest(act) then (InterruptedDecision, WithMissing(w, []).(state := Interrupted))
    else match w.kind
      case StartSubscription => Subscribed(w, operation, t)
      case ManualSignCreate => Signed(w, t)
      case _ => (RejectInvalidShape, w)
  }

  // ---- what an answer can be ------------------------------------------------------------------

  /** The answers the resolvers give: everybody; departments not yet named; or named departments, with their parameter. */
  predicate Answer(t: Trusted) {
    match t.scope
    case "all" => t.params == map[] && NamesNone(t)
    case _ => t.scope == "department" && ((t.params == map[] && NamesNone(t)) || NamesSome(t))
  }

  predicate NamesNone(t: Trusted) { t.deptIDs == [] && t.departmentID == 0 }

  predicate NamesSome(t: Trusted) {
    && t.deptIDs != [] && t.departmentID == t.deptIDs[0]
    && t.params.Keys <= {Scope, DeptIDs} && DeptIDs in t.params && t.params[DeptIDs].value == Int64s(t.deptIDs)
    && ScopeParamIs(t, "department")
  }

  predicate ScopeParamIs(t: Trusted, scope: string) { Scope in t.params ==> t.params[Scope].value == Str(scope) }

  // ---- what every reachable subscription satisfies ------------------------------------------------

  /** Subscribing everybody: departments are named nowhere. */
  predicate ForEverybody(t: Trusted) {
    t.scope == "all" && NamesNone(t) && DeptIDs !in t.params && ScopeParamIs(t, "all")
  }

  /** Subscribing departments: they are named, and wherever they are named the list is the same. */
  predicate ForDepartments(t: Trusted) {
    && t.scope == "department" && t.deptIDs != [] && t.departmentID == t.deptIDs[0]
    && (DeptIDs in t.params ==> t.params[DeptIDs].value == Int64s(t.deptIDs)) && ScopeParamIs(t, "department")
  }

  /** State, missing fields and trusted data say the same thing. */
  predicate Consistent(w: WorkflowSnapshot) {
    && w.kind == StartSubscription && w.missingSlots == w.missingFields
    && w.trusted.params.Keys <= {Scope, DeptIDs}
    && match w.state
       case CollectScope => w.missingFields == [Scope] && w.trusted.scope == "" && NamesNone(w.trusted) && w.trusted.params == map[]
       case CollectDepartments =>
         w.missingFields == [DEPT_NAMES] && w.trusted.scope == "department" && NamesNone(w.trusted) && w.trusted.params == map[]
       case ReadyToRun => w.missingFields == [] && (ForEverybody(w.trusted) || ForDepartments(w.trusted))
       case Cancelled => w.missingFields == []
       case Interrupted => w.missingFields == []
       case _ => false
  }

  /** Any message, cancellation or interruption keeps a subscription consistent. */
  lemma MessagesKeepConsistency(w: WorkflowSnapshot, act: Act, operation: Operation, t: Trusted)
    requires Consistent(w) && Answer(t)
    ensures Consistent(Continued(w, act, operation, t).1)
  {
  }

  /** How many answers are still needed at most. */
  function StepsLeft(state: WorkflowState): nat {
    match state case CollectScope => 2 case CollectDepartments => 1 case _ => 0
  }

  /** An accepted answer moves strictly towards ready; anything else leaves the workflow exactly as it was. */
  lemma AnswersMakeProgress(w: WorkflowSnapshot, operation: Operation, t: Trusted)
    requires Consistent(w) && Answer(t)
    ensures var (decision, next) := Subscribed(w, operation, t);
            && (decision in {ContinueDecision, ReadyToExecute} ==> StepsLeft(next.state) < StepsLeft(w.state))
            && (decision == ReadyToExecute <==> next.state == ReadyToRun && w.state != ReadyToRun)
            && (decision in {RejectInvalidShape, MetaResult} ==> next == w)
  {
  }

  // ---- between messages ------------------------------------------------------------------------

  /** The same workflow after a trip through a store or a codec, or with other candidates shown. */
  predicate SameWorkflow(a: WorkflowSnapshot, b: WorkflowSnapshot) {
    && b.kind == a.kind && b.state == a.state && MissingFields(b) == MissingFields(a) && b.missingSlots == b.missingFields
    && b.trusted.scope == a.trusted.scope && b.trusted.deptIDs == a.trusted.deptIDs
    && b.trusted.departmentID == a.trusted.departmentID && b.trusted.params.Keys == a.trusted.params.Keys
    && forall f | f in a.trusted.params :: b.trusted.params[f].value == a.trusted.params[f].value
  }

  lemma SameWorkflowIsConsistent(a: WorkflowSnapshot, b: WorkflowSnapshot)
    requires Consistent(a) && SameWorkflow(a, b)
    ensures Consistent(b)
  {
  }

  lemma StoringKeepsTheWorkflow(
    w: WorkflowSnapshot, key: WorkflowKey, version: nat, existing: Option<WorkflowSnapshot>, now: Time,
    shown: map<Field, seq<Candidate>>)
    requires Consistent(w)
    ensures SameWorkflow(w, Prepare(key, w, version, existing, now))
    ensures SameWorkflow(w, Erased(w))
    ensures SameWorkflow(w, w.(candidates := shown))
  {
  }

  datatype Message = Message(act: Act, operation: Operation, answer: Trusted)

  /** A conversation: a fresh subscription, a message at a time, stored in between. */
  ghost predicate Conversation(ws: seq<WorkflowSnapshot>, messages: seq<Message>, id: string) {
    && |ws| == |messages| + 1 && SameWorkflow(Started(id), ws[0])
    && (forall i {:trigger messages[i]} | 0 <= i < |messages| ::
          && Answer(messages[i].answer)
          && SameWorkflow(Continued(ws[i], messages[i].act, messages[i].operation, messages[i].answer).1, ws[i + 1]))
  }

  /** Every workflow a conversation reaches is consistent: collecting departments means the scope is departments and none is named yet; ready means everybody and no department anywhere, or departments and a list. */
  lemma {:induction false} ConversationsStayConsistent(ws: seq<WorkflowSnapshot>, messages: seq<Message>, id: string, i: nat)
    requires Conversation(ws, messages, id) && i < |ws|
    ensures Consistent(ws[i])
  {
    if i == 0 {
      SameWorkflowIsConsistent(Started(id), ws[0]);
    } else {
      ConversationsStayConsistent(ws, messages, id, i - 1);
      var m := messages[i - 1];
      MessagesKeepConsistency(ws[i - 1], m.act, m.operation, m.answer);
      SameWorkflowIsConsistent(Continued(ws[i - 1], m.act, m.operation, m.answer).1, ws[i]);
    }
  }

  // ---- manual sign-in: facts are only gained ------------------------------------------------------

  /** A manual sign-in forgets nothing it knows, is ready exactly when nothing is missing, and otherwise asks for the first missing fact. */
  lemma SigningOnlyLearns(w: WorkflowSnapshot, t: Trusted)
    ensures var (decision, next) := Signed(w, t);
            && (forall f | f in MissingSlots(next.trusted) :: f in MissingSlots(w.trusted))
            && (decision == ReadyToExecute <==> MissingSlots(next.trusted) == [])
            && (decision == ReadyToExecute <==> next.state == ReadyToRun)
            && next.missingFields == MissingSlots(next.trusted) && next.missingSlots == next.missingFields
            && (next.state == CollectUser <==> next.trusted.userID == 0)
            && (next.state == CollectDate <==> next.trusted.userID != 0 && next.trusted.date == "")
            && (next.state == CollectSection <==> next.trusted.userID != 0 && next.trusted.date != "" && next.trusted.section == 0)
  {
  }
}
