/** From a prepared request to its reservation and back. */
module Recovery {
  import opened Base
  import opened Types
  import opened SortedIds
  import opened ReservationCodec
  import opened BusinessKey

  // ---- what the coordinator persists -----------------------------------------

  /** `persistedTrustedParams`: every value must be acceptable for its field. */
  function PersistedParams(params: Params): Option<map<Field, Value>> {
    if exists f | f in params :: !Acceptable(f, params[f].value) then None
    else Some(map f | f in params :: params[f].value)
  }

  /** The same conversion as the source performs it, one map entry at a time. */
  method PersistTrustedParams(params: Params) returns (result: Option<map<Field, Value>>)
    ensures result == PersistedParams(params)
  {
    var fields := Listing(params.Keys);
    var values: map<Field, Value> := map[];
    for i := 0 to |fields|
      invariant forall f | f in fields[..i] :: Acceptable(f, params[f].value)
      invariant values.Keys == set f | f in fields[..i]
      invariant forall f | f in values :: f in params && values[f] == params[f].value
    {
      var field := fields[i];
      assert field in params.Keys;
      if !Acceptable(field, params[field].value) { return None; }
      assert fields[..i + 1] == fields[..i] + [field];
      values := values[field := params[field].value];
    }
    assert fields[..|fields|] == fields;
    forall f | f in params ensures f in values && Acceptable(f, params[f].value) {
      assert f in params.Keys;
    }
    assert values == map f | f in params :: params[f].value;
    result := Some(values);
  }

  /** The reservation `coordinatePreparedWrite` builds for a prepared request. */
  function ReservationFor(
    req: OperationRequest, businessKey: string, params: map<Field, Value>,
    token: string, attemptID: string, now: Time, lease: Time): Reservation
  {
    Reservation(req.operation, businessKey, params, token, attemptID, now, now + lease)
  }

  // ---- what recovery rebuilds --------------------------------------------------

  function RecoveredParam(key: WorkflowKey, field: Field, v: Value): TrustedParam {
    TrustedParam(field, v, ParamSource(FromWorkflow, "", "execution_recovery"), key.tenantID)
  }

  function RecoveredRequest(key: WorkflowKey, r: Reservation): OperationRequest {
    OperationRequest(
      r.operation, key.tenantID, key.actorUserID, key.conversationID,
      map f | f in r.params :: RecoveredParam(key, f, r.params[f]), r.businessKey)
  }

  /** `operationRequestFromReservation`: refuses parameters that are not acceptable, another conversation, and a business key the rebuilt request does not have. */
  function RequestFromReservation(digest: Digest, key: WorkflowKey, r: Reservation): Option<OperationRequest> {
    if exists f | f in r.params :: !Acceptable(f, r.params[f]) then None
    else
      var req := RecoveredRequest(key, r);
      var conversation := ParamString(req.params, ConversationID);
      if conversation.None? || Trim(conversation.value) != Trim(key.conversationID) then None
      else if BusinessKeyFor(digest, req) != Some(r.businessKey) then None
      else Some(req)
  }

  method RebuildParams(key: WorkflowKey, values: map<Field, Value>) returns (result: Option<Params>)
    ensures result == if exists f | f in values :: !Acceptable(f, values[f]) then None
                      else Some(map f | f in values :: RecoveredParam(key, f, values[f]))
  {
    var fields := Listing(values.Keys);
    var params: Params := map[];
    for i := 0 to |fields|
      invariant forall f | f in fields[..i] :: Acceptable(f, values[f])
      invariant params.Keys == set f | f in fields[..i]
      invariant forall f | f in params :: f in values && params[f] == RecoveredParam(key, f, values[f])
    {
      var field := fields[i];
      assert field in values.Keys;
      if !Acceptable(field, values[field]) { return None; }
      assert fields[..i + 1] == fields[..i] + [field];
      params := params[field := RecoveredParam(key, field, values[field])];
    }
    assert fields[..|fields|] == fields;
    forall f | f in values ensures f in params && Acceptable(f, values[f]) {
      assert f in values.Keys;
    }
    assert params == map f | f in values :: RecoveredParam(key, f, values[f]);
    result := Some(params);
  }

  // ---- what the executor does with a request -----------------------------------

  /** The call the subscription executor makes on the business service. */
  datatype BusinessCall =
    | Subscribe(tenantID: nat, conversationID: string, title: string, actorUserID: nat, departments: set<int>, businessKey: string)
    | Unsubscribe(tenantID: nat, conversationID: string, businessKey: string)
    | Refused

  function Departments(req: OperationRequest): Option<set<int>> {
    match ParamIDs(req.params, DeptIDs) case Some(ids) => Some(Elements(ids)) case None => None
  }

  function Text(value: Option<string>): string {
    match value case Some(s) => Trim(s) case None => ""
  }

  /** `executeSubscriptionStart` and `executeSubscriptionCancel` up to the service call; departments are handed over as a list whose order the service ignores. */
  function CallFor(req: OperationRequest): BusinessCall {
    var chat := Text(ParamString(req.params, ConversationType));
    var conversation := ParamString(req.params, ConversationID);
    if chat != "" && chat != GROUP_CHAT then Refused
    else if conversation.None? then Refused
    else if req.conversationID != "" && conversation.value != Trim(req.conversationID) then Refused
    else if req.operation == Cancel then Unsubscribe(req.tenantID, conversation.value, req.idempotencyKey)
    else if req.operation != Start then Refused
    else
      StartCall(req, conversation.value, Text(ParamString(req.params, ConversationTitle)),
                ParamString(req.params, Scope), Departments(req))
  }

  function StartCall(
    req: OperationRequest, conversation: string, title: string,
    scope: Option<string>, departments: Option<set<int>>): BusinessCall
  {
    if scope == Some("all") then
      Subscribe(req.tenantID, conversation, title, req.actorUserID, {}, req.idempotencyKey)
    else if scope == Some("department") && departments.Some? then
      Subscribe(req.tenantID, conversation, title, req.actorUserID, departments.value, req.idempotencyKey)
    else Refused
  }

  // ---- recovery fidelity ---------------------------------------------------------

  /** The request was prepared for the workflow key it is reserved under. */
  predicate Belongs(key: WorkflowKey, req: OperationRequest) {
    && req.tenantID == key.tenantID
    && Trim(req.conversationID) == Trim(key.conversationID)
    && ParamString(req.params, ConversationID) == Some(Trim(key.conversationID))
  }

  /** A stored reservation that carries this request's authority. */
  predicate Carries(r: Reservation, req: OperationRequest, businessKey: string) {
    && r.operation == req.operation && r.businessKey == businessKey
    && r.operation in {Start, Cancel} && Identifier(businessKey) && |r.params| <= MAX_PARAMS
    && PersistedParams(req.params).Some?
    && var values := PersistedParams(req.params).value;
    && Normalizable(values) && r.params == NormalizeParams(values)
  }

  /** What the store keeps of a fresh reservation carries the request. */
  lemma ReservingCarries(
    req: OperationRequest, businessKey: string, token: string, attemptID: string, now: Time, lease: Time)
    requires PersistedParams(req.params).Some?
    ensures var kept := Canonical(ReservationFor(
                req, businessKey, PersistedParams(req.params).value, token, attemptID, now, lease));
            kept.Some? ==> Carries(kept.value, req, businessKey) && kept.value.token == token
  {
    DecodesExactlyWhenLeaseOutlivesTruncation(
      ReservationFor(req, businessKey, PersistedParams(req.params).value, token, attemptID, now, lease));
  }

  /** A takeover re-stamps token, attempt and times; what it stores still carries the request. */
  lemma TakeoverCarries(
    r: Reservation, req: OperationRequest, businessKey: string, token: string, attemptID: string, now: Time, lease: Time)
    requires Carries(r, req, businessKey)
    ensures var kept := Canonical(r.(token := token, attemptID := attemptID, startedAt := now, leaseExpiresAt := now + lease));
            kept.Some? ==> Carries(kept.value, req, businessKey) && kept.value.token == token
  {
    var values := PersistedParams(req.params).value;
    NormalParamsAreStable(values);
    DecodesExactlyWhenLeaseOutlivesTruncation(
      r.(token := token, attemptID := attemptID, startedAt := now, leaseExpiresAt := now + lease));
  }

  /** Reading any field of the rebuilt request gives what the original gave, up to the order of departments. */
  lemma RebuiltParamReads(key: WorkflowKey, r: Reservation, req: OperationRequest, businessKey: string, field: Field)
    requires Carries(r, req, businessKey)
    ensures var rebuilt, original := ParamValue(RecoveredRequest(key, r).params, field), ParamValue(req.params, field);
            && (field != DeptIDs ==> rebuilt == original)
            && (field == DeptIDs ==>
                  && (rebuilt.None? <==> original.None?)
                  && (original.Some? ==> rebuilt.value == Int64s(SortedUnique(original.value.ids)) && AllPositive(original.value.ids)))
    ensures field in r.params ==> Acceptable(field, r.params[field])
  {
  }

  lemma SameSetSameForm(ids: seq<int>)
    ensures SortedUnique(SortedUnique(ids)) == SortedUnique(ids)
    ensures forall x :: x in SortedUnique(ids) <==> x in ids
  {
    SortedUniqueIsCanonical(ids);
    CanonicalFormIsIdempotent(ids);
  }

  lemma RebuiltKey(key: WorkflowKey, r: Reservation, req: OperationRequest, businessKey: string)
    requires Carries(r, req, businessKey)
    requires KeyFor(req).Some? && key.tenantID != 0 && Trim(key.conversationID) != ""
    ensures KeyFor(RecoveredRequest(key, r)) ==
            Some(KeyFor(req).value.(tenantID := key.tenantID, conversationID := Trim(key.conversationID)))
  {
    if ScopeOf(req).Some? { RebuiltScope(key, r, req, businessKey); }
  }

  lemma RebuiltScope(key: WorkflowKey, r: Reservation, req: OperationRequest, businessKey: string)
    requires Carries(r, req, businessKey) && ScopeOf(req).Some?
    ensures ScopeOf(RecoveredRequest(key, r)) == ScopeOf(req)
  {
    RebuiltParamReads(key, r, req, businessKey, Scope);
    RebuiltParamReads(key, r, req, businessKey, DeptIDs);
    SameSetSameForm(match ParamIDs(req.params, DeptIDs) case Some(ids) => ids case None => []);
  }

  lemma SpareParams(key: WorkflowKey, r: Reservation, req: OperationRequest, businessKey: string)
    requires Carries(r, req, businessKey)
    ensures forall f | f in r.params :: Acceptable(f, r.params[f])
    ensures ParamString(RecoveredRequest(key, r).params, ConversationID) == ParamString(req.params, ConversationID)
    ensures var conversation := ParamString(req.params, ConversationID);
            conversation.Some? ==> Trim(conversation.value) == conversation.value
  {
  }

  /** Rebuilding a stored write succeeds exactly when the request was prepared for the key it is stored under. */
  lemma RebuildsExactlyWhenItBelongs(digest: Digest, key: WorkflowKey, r: Reservation, req: OperationRequest, businessKey: string)
    requires Injective(digest)
    requires Carries(r, req, businessKey) && BusinessKeyFor(digest, req) == Some(businessKey)
    ensures RequestFromReservation(digest, key, r).Some? <==> Belongs(key, req)
  {
    SpareParams(key, r, req, businessKey);
    if key.tenantID != 0 && Trim(key.conversationID) != "" {
      RebuiltKey(key, r, req, businessKey);
    }
  }

  /** Recovery fidelity: the rebuilt request means what the original meant, carries its business key, and makes the executor perform the same business call. It holds of any digest. */
  lemma RecoveredRequestIsFaithful(digest: Digest, key: WorkflowKey, r: Reservation, req: OperationRequest)
    requires Carries(r, req, req.idempotencyKey) && BusinessKeyFor(digest, req) == Some(req.idempotencyKey)
    requires Belongs(key, req) && req.actorUserID == key.actorUserID
    ensures var rebuilt := RequestFromReservation(digest, key, r);
            && rebuilt.Some?
            && MeaningOf(rebuilt.value) == MeaningOf(req)
            && rebuilt.value.actorUserID == req.actorUserID
            && rebuilt.value.idempotencyKey == req.idempotencyKey
            && BusinessKeyFor(digest, rebuilt.value) == Some(req.idempotencyKey)
            && CallFor(rebuilt.value) == CallFor(req)
  {
    SpareParams(key, r, req, req.idempotencyKey);
    RebuiltKey(key, r, req, req.idempotencyKey);
    KeyCarriesMeaning(RecoveredRequest(key, r));
    KeyCarriesMeaning(req);
    SameCall(key, r, req);
  }

  lemma SameCall(key: WorkflowKey, r: Reservation, req: OperationRequest)
    requires Carries(r, req, req.idempotencyKey)
    requires Belongs(key, req) && req.actorUserID == key.actorUserID
    ensures CallFor(RecoveredRequest(key, r)) == CallFor(req)
  {
    var rebuilt := RecoveredRequest(key, r);
    SameText(key, r, req, ConversationID);
    SameText(key, r, req, ConversationType);
    SameText(key, r, req, ConversationTitle);
    SameText(key, r, req, Scope);
    SameDepartments(key, r, req);
  }

  lemma SameText(key: WorkflowKey, r: Reservation, req: OperationRequest, field: Field)
    requires Carries(r, req, req.idempotencyKey) && field != DeptIDs
    ensures ParamString(RecoveredRequest(key, r).params, field) == ParamString(req.params, field)
  {
    RebuiltParamReads(key, r, req, req.idempotencyKey, field);
  }

  lemma SameDepartments(key: WorkflowKey, r: Reservation, req: OperationRequest)
    requires Carries(r, req, req.idempotencyKey)
    ensures Departments(RecoveredRequest(key, r)) == Departments(req)
  {
    RebuiltParamReads(key, r, req, req.idempotencyKey, DeptIDs);
    match ParamIDs(req.params, DeptIDs)
    case Some(ids) =>
      SortedUniqueIsCanonical(ids);
      CanonicalFormIsIdempotent(ids);
      CanonicalFormIsTheSet(SortedUnique(ids), ids);
    case None =>
  }
}
