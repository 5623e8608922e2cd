/** The identity of a subscription write: what makes two requests the same business action. */
module BusinessKey {
  import opened Base
  import opened Types
  import opened SortedIds

  /** `SubscriptionBusinessKeyV1`; the version is the constant 1. */
  datatype SubscriptionKey = SubscriptionKey(
    tenantID: nat, conversationID: string, operation: Operation, scope: string, deptIDs: seq<int>)

  /** The JSON text and its SHA-256, taken as one function from identities to key text. */
  type Digest = SubscriptionKey -> string

  /** No two identities collide. */
  ghost predicate Injective(digest: Digest) {
    forall a, b :: digest(a) == digest(b) ==> a == b
  }

  /** The scope and departments a start request names, when they are well formed together. */
  function ScopeOf(req: OperationRequest): Option<(string, seq<int>)> {
    match ParamString(req.params, Scope)
    case None => None
    case Some(raw) =>
      var scope := Trim(raw);
      var ids := match ParamIDs(req.params, DeptIDs) case Some(ids) => ids case None => [];
      if !AllPositive(ids) then None
      else if scope == "all" then (if ids == [] then Some((scope, [])) else None)
      else if scope == "department" then (if ids == [] then None else Some((scope, SortedUnique(ids))))
      else None
  }

  /** `subscriptionBusinessKeyForRequest`, before hashing. */
  function KeyFor(req: OperationRequest): Option<SubscriptionKey> {
    var conversation, operation := Trim(req.conversationID), TrimOperation(req.operation);
    if req.tenantID == 0 || conversation == "" then None
    else match operation
      case Start => (
        match ScopeOf(req)
        case None => None
        case Some((scope, ids)) => Some(SubscriptionKey(req.tenantID, conversation, Start, scope, ids)))
      case Cancel => Some(SubscriptionKey(req.tenantID, conversation, Cancel, "", []))
      case _ => None
  }

  function BusinessKeyFor(digest: Digest, req: OperationRequest): Option<string> {
    match KeyFor(req)
    case None => None
    case Some(key) => Some(digest(key))
  }

  /** What a request asks for, independently of spelling: the departments as a set. */
  datatype Meaning = Meaning(tenantID: nat, conversationID: string, operation: Operation, scope: string, departments: set<int>)

  function MeaningOf(req: OperationRequest): Meaning {
    var operation := TrimOperation(req.operation);
    var starts := operation == Start;
    Meaning(
      req.tenantID, Trim(req.conversationID), operation,
      if starts then (match ParamString(req.params, Scope) case Some(s) => Trim(s) case None => "") else "",
      if starts then (match ParamIDs(req.params, DeptIDs) case Some(ids) => Elements(ids) case None => {}) else {})
  }

  lemma KeyCarriesMeaning(req: OperationRequest)
    requires KeyFor(req).Some?
    ensures var key, m := KeyFor(req).value, MeaningOf(req);
            && m == Meaning(key.tenantID, key.conversationID, key.operation, key.scope, Elements(key.deptIDs))
            && StrictlyIncreasing(key.deptIDs)
  {
    var ids := match ParamIDs(req.params, DeptIDs) case Some(ids) => ids case None => [];
    SortedUniqueIsCanonical(ids);
    CanonicalFormIsIdempotent(ids);
    CanonicalFormIsTheSet(SortedUnique(ids), ids);
    assert Elements([]) == {};
  }

  /** Two accepted requests share a business key exactly when tenant, trimmed conversation, operation, scope and department set agree: the order and repetition of departments, the actor and every other parameter are irrelevant. */
  lemma SameKeyExactlyWhenSameMeaning(digest: Digest, a: OperationRequest, b: OperationRequest)
    requires Injective(digest)
    requires BusinessKeyFor(digest, a).Some? && BusinessKeyFor(digest, b).Some?
    ensures BusinessKeyFor(digest, a) == BusinessKeyFor(digest, b) <==> MeaningOf(a) == MeaningOf(b)
  {
    KeyCarriesMeaning(a);
    KeyCarriesMeaning(b);
    var ka, kb := KeyFor(a).value, KeyFor(b).value;
    if MeaningOf(a) == MeaningOf(b) {
      forall x ensures x in ka.deptIDs <==> x in kb.deptIDs {
        assert x in ka.deptIDs <==> x in Elements(ka.deptIDs);
        assert x in kb.deptIDs <==> x in Elements(kb.deptIDs);
      }
      CanonicalListsAreUnique(ka.deptIDs, kb.deptIDs);
    }
  }

  /** Exactly the requests that have a business key. */
  lemma AcceptedRequests(req: OperationRequest)
    ensures KeyFor(req).Some? <==>
              && req.tenantID != 0 && Trim(req.conversationID) != ""
              && var ids := ParamIDs(req.params, DeptIDs);
              && match TrimOperation(req.operation)
                 case Start =>
                   && ParamString(req.params, Scope).Some?
                   && var scope := Trim(ParamString(req.params, Scope).value);
                   && ((scope == "all" && ids.None?) || (scope == "department" && ids.Some? && AllPositive(ids.value)))
                 case Cancel => true
                 case _ => false
  {
  }

  // ---- the key older callers build -------------------------------------------

  function Positive(ids: seq<int>): seq<int> {
    if ids == [] then []
    else (if ids[0] > 0 then [ids[0]] else []) + Positive(ids[1..])
  }

  /** `legacySubscriptionBusinessKey`, before hashing: it drops the ids the new builder rejects and derives the scope from what is left. */
  function LegacyKey(tenantID: nat, conversationID: string, operation: Operation, ids: seq<int>): SubscriptionKey {
    var kept := SortedUnique(Positive(ids));
    SubscriptionKey(
      tenantID, Trim(conversationID), operation,
      if operation != Start then "" else if kept == [] then "all" else "department",
      kept)
  }

  /** Its department loop: keep the positive ids, each once, then sort. */
  method LegacyDepartments(ids: seq<int>) returns (kept: seq<int>)
    ensures kept == SortedUnique(Positive(ids))
  {
    var seen: set<int>, collected: seq<int> := {}, [];
    for i := 0 to |ids|
      invariant forall x :: x in seen <==> x in collected
      invariant forall x :: x in collected <==> x > 0 && x in ids[..i]
    {
      assert ids[..i + 1] == ids[..i] + [ids[i]];
      if ids[i] > 0 && ids[i] !in seen {
        seen, collected := seen + {ids[i]}, collected + [ids[i]];
      }
    }
    assert ids[..|ids|] == ids;
    kept := SortedUnique(collected);
    PositiveMembers(ids);
    SortedUniqueIsCanonical(collected);
    SortedUniqueIsCanonical(Positive(ids));
    CanonicalListsAreUnique(kept, SortedUnique(Positive(ids)));
  }

  lemma {:induction false} PositiveMembers(ids: seq<int>)
    ensures forall x :: x in Positive(ids) <==> x > 0 && x in ids
  {
    if ids != [] {
      PositiveMembers(ids[1..]);
      assert ids == [ids[0]] + ids[1..];
    }
  }

  lemma AllPositiveAreKept(ids: seq<int>)
    requires AllPositive(ids)
    ensures Positive(ids) == ids
  {
    if ids != [] {
      assert ids[0] in ids;
      assert forall x | x in ids[1..] :: x in ids;
      AllPositiveAreKept(ids[1..]);
    }
  }

  /** Whenever the new builder accepts a request, the legacy builder given that request's departments agrees with it. For a cancellation the new key ignores departments, so there they agree exactly when the legacy caller passes no positive id. */
  lemma LegacyKeyAgrees(req: OperationRequest, ids: seq<int>)
    requires KeyFor(req).Some?
    requires TrimOperation(req.operation) == Start ==>
               ids == match ParamIDs(req.params, DeptIDs) case Some(ids) => ids case None => []
    ensures var legacy := LegacyKey(req.tenantID, req.conversationID, req.operation, ids);
            legacy == KeyFor(req).value <==>
            TrimOperation(req.operation) == req.operation && (req.operation == Cancel ==> Positive(ids) == [])
  {
    SortedUniqueIsCanonical(Positive(ids));
    SortedUniqueIsCanonical(ids);
    if TrimOperation(req.operation) == Start { AllPositiveAreKept(ids); }
  }
}
