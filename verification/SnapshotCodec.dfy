/** The persisted form of a workflow snapshot, at the level of its V1 data-transfer object. */
module SnapshotCodec {
  import opened Base
  import opened Types
  import opened ReservationCodec

  const MAX_CANDIDATE_FIELDS := 16
  const MAX_CANDIDATES := 50
  const MAX_CANDIDATES_TOTAL := 200
  const MAX_ENTITIES := 32
  const MAX_TRUSTED := 32
  const MAX_KEY := 64
  const MAX_ID := 128
  const MAX_WORKFLOW_ID := 64

  datatype PersistedParam = PersistedParam(
    field: Field, value: TypedValue, kind: SourceKind, resolver: string, tenantID: nat)

  datatype PersistedEntity = PersistedEntity(id: string, kind: string, caption: string, value: TypedValue, tenantID: nat)

  datatype PersistedCandidate = PersistedCandidate(id: string, caption: string, value: TypedValue, tenantID: nat)

  /** The trusted state without its parameters, and the parameters beside it. */
  datatype PersistedTrusted = PersistedTrusted(plain: Trusted, params: map<Field, PersistedParam>)

  /** No user message, no raw source text, one list of missing fields. */
  datatype PersistedSnapshot = PersistedSnapshot(
    id: string, tenantID: nat, actorUserID: nat, conversationID: string, kind: WorkflowType, state: WorkflowState,
    missingFields: seq<Field>, trusted: PersistedTrusted, entities: map<Field, PersistedEntity>,
    candidates: map<Field, seq<PersistedCandidate>>,
    createdAt: TimeText, updatedAt: TimeText, expiresAt: TimeText, version: nat)

  /** `validateWorkflowMapKey`. */
  predicate MapKey(f: Field) { f.OtherField? ==> Trim(f.name) != "" && |f.name| <= MAX_KEY }

  // ---- trusted parameters --------------------------------------------------------

  /** One entry of `trustedStateToV1`: a blank field name means the key, any other must be the key once trimmed. */
  function EncodeParam(key: Field, p: TrustedParam): Option<PersistedParam> {
    var field := if BlankField(p.field) then key else TrimField(p.field);
    var value := EncodeValue(p.value);
    if !MapKey(key) || value.None? || field != key || |p.source.resolver| > MAX_ID then None
    else Some(PersistedParam(field, value.value, p.source.kind, p.source.resolver, p.tenantID))
  }

  function DecodeParam(key: Field, p: PersistedParam): Option<TrustedParam> {
    var value := DecodeValue(p.value);
    if !MapKey(key) || p.field != key || value.None? then None
    else Some(TrustedParam(key, value.value, ParamSource(p.kind, "", p.resolver), p.tenantID))
  }

  /** A parameter as it comes back: named by its key, without the raw text it was read from. */
  function ErasedParam(key: Field, p: TrustedParam): TrustedParam {
    p.(field := key, source := p.source.(raw := ""))
  }

  predicate TextFits(t: Trusted) {
    && |t.deptIDs| <= MAX_IDS && |t.userName| <= MAX_LABEL && |t.conversationID| <= MAX_CONVERSATION
    && |t.date| <= MAX_ID && |t.scope| <= MAX_KEY && |t.queryShape| <= MAX_KEY
  }

  function EncodeTrustedParams(params: Params): Option<map<Field, PersistedParam>> {
    if |params| > MAX_TRUSTED || exists f | f in params :: EncodeParam(f, params[f]).None? then None
    else Some(map f | f in params :: EncodeParam(f, params[f]).value)
  }

  function DecodeTrustedParams(dto: map<Field, PersistedParam>): Option<Params> {
    if |dto| > MAX_TRUSTED || exists f | f in dto :: DecodeParam(f, dto[f]).None? then None
    else Some(map f | f in dto :: DecodeParam(f, dto[f]).value)
  }

  function ErasedParams(params: Params): Params {
    map f | f in params :: ErasedParam(f, params[f])
  }

  /** `trustedStateToV1`. */
  function TrustedToV1(t: Trusted): Option<PersistedTrusted> {
    match EncodeTrustedParams(t.params)
    case None => None
    case Some(params) => if TextFits(t) then Some(PersistedTrusted(t.(params := map[]), params)) else None
  }

  /** `trustedStateFromV1`, which checks what it decoded by encoding it again. */
  function TrustedFromV1(dto: PersistedTrusted): Option<Trusted> {
    match DecodeTrustedParams(dto.params)
    case None => None
    case Some(params) =>
      var t := dto.plain.(params := params);
      if TrustedToV1(t).Some? then Some(t) else None
  }

  function ErasedTrusted(t: Trusted): Trusted {
    t.(params := ErasedParams(t.params))
  }

  predicate KeysTrimmed(params: Params) { forall f | f in params :: !PaddedField(f) }

  /** One entry: what encodes decodes to its erasure, and the erasure encodes again, to the same text, exactly when the key is trimmed. */
  lemma ParamRoundTrip(key: Field, p: TrustedParam)
    requires EncodeParam(key, p).Some?
    ensures DecodeParam(key, EncodeParam(key, p).value) == Some(ErasedParam(key, p))
    ensures EncodeParam(key, ErasedParam(key, p)) == (if PaddedField(key) then None else EncodeParam(key, p))
  {
    TypedValueRoundTrip(p.value, EncodeValue(p.value).value);
  }

  lemma ParamsDecode(params: Params)
    requires EncodeTrustedParams(params).Some?
    ensures DecodeTrustedParams(EncodeTrustedParams(params).value) == Some(ErasedParams(params))
  {
    var dto, erased := EncodeTrustedParams(params).value, ErasedParams(params);
    forall f | f in params ensures f in dto && DecodeParam(f, dto[f]) == Some(erased[f]) {
      ParamRoundTrip(f, params[f]);
    }
    SameKeysSameSize(dto, params);
    DecodedParams(dto, erased);
  }

  lemma DecodedParams(dto: map<Field, PersistedParam>, erased: Params)
    requires dto.Keys == erased.Keys && |dto| <= MAX_TRUSTED && forall f | f in dto :: DecodeParam(f, dto[f]) == Some(erased[f])
    ensures DecodeTrustedParams(dto) == Some(erased)
  {
    assert (map f | f in dto :: DecodeParam(f, dto[f]).value) == erased;
  }

  lemma ReencodedParams(erased: Params, dto: map<Field, PersistedParam>)
    requires erased.Keys == dto.Keys && |erased| <= MAX_TRUSTED
    requires forall f | f in erased :: EncodeParam(f, erased[f]) == Some(dto[f])
    ensures EncodeTrustedParams(erased) == Some(dto)
  {
    assert (map f | f in erased :: EncodeParam(f, erased[f]).value) == dto;
  }

  lemma ErasedParamsEncode(params: Params)
    requires EncodeTrustedParams(params).Some?
    ensures EncodeTrustedParams(ErasedParams(params)) == (if KeysTrimmed(params) then EncodeTrustedParams(params) else None)
  {
    var dto, erased := EncodeTrustedParams(params).value, ErasedParams(params);
    forall f | f in params ensures EncodeParam(f, erased[f]) == (if PaddedField(f) then None else Some(dto[f])) {
      ParamRoundTrip(f, params[f]);
    }
    SameKeysSameSize(erased, params);
    if KeysTrimmed(params) {
      ReencodedParams(erased, dto);
    } else {
      var f :| f in params && PaddedField(f);
      assert f in erased && EncodeParam(f, erased[f]).None?;
    }
  }

  lemma TrustedRoundTrip(t: Trusted)
    requires TrustedToV1(t).Some?
    ensures TrustedFromV1(TrustedToV1(t).value) == (if KeysTrimmed(t.params) then Some(ErasedTrusted(t)) else None)
    ensures KeysTrimmed(t.params) ==> TrustedToV1(ErasedTrusted(t)) == TrustedToV1(t)
  {
    ParamsDecode(t.params);
    ErasedParamsEncode(t.params);
    assert TrustedToV1(t).value.plain.(params := ErasedParams(t.params)) == ErasedTrusted(t);
  }

  // ---- trusted entities ------------------------------------------------------------

  function EncodeEntity(key: Field, e: TrustedEntity): Option<PersistedEntity> {
    var value := EncodeValue(e.value);
    if !MapKey(key) || |e.id| > MAX_ID || |e.kind| > MAX_KEY || |e.caption| > MAX_LABEL || value.None? then None
    else Some(PersistedEntity(e.id, e.kind, e.caption, value.value, e.tenantID))
  }

  function DecodeEntity(key: Field, e: PersistedEntity): Option<TrustedEntity> {
    var value := DecodeValue(e.value);
    if !MapKey(key) || value.None? then None
    else Some(TrustedEntity(e.id, e.kind, e.caption, value.value, e.tenantID))
  }

  function EntitiesToV1(entities: map<Field, TrustedEntity>): Option<map<Field, PersistedEntity>> {
    if |entities| > MAX_ENTITIES || exists f | f in entities :: EncodeEntity(f, entities[f]).None? then None
    else Some(map f | f in entities :: EncodeEntity(f, entities[f]).value)
  }

  function EntitiesFromV1(dto: map<Field, PersistedEntity>): Option<map<Field, TrustedEntity>> {
    if |dto| > MAX_ENTITIES || exists f | f in dto :: DecodeEntity(f, dto[f]).None? then None
    else
      var entities := map f | f in dto :: DecodeEntity(f, dto[f]).value;
      if entities == map[] || EntitiesToV1(entities).Some? then Some(entities) else None
  }

  lemma EntitiesRoundTrip(entities: map<Field, TrustedEntity>)
    requires EntitiesToV1(entities).Some?
    ensures EntitiesFromV1(EntitiesToV1(entities).value) == Some(entities)
  {
    var dto := EntitiesToV1(entities).value;
    forall f | f in entities ensures f in dto && DecodeEntity(f, dto[f]) == Some(entities[f]) {
      TypedValueRoundTrip(entities[f].value, EncodeValue(entities[f].value).value);
    }
    SameKeysSameSize(dto, entities);
    assert (map f | f in dto :: DecodeEntity(f, dto[f]).value) == entities;
  }

  // ---- candidates ------------------------------------------------------------------

  function EncodeCandidate(c: Candidate): Option<PersistedCandidate> {
    var value := EncodeValue(c.value);
    if Trim(c.caption) == "" || |c.caption| > MAX_LABEL || |c.id| > MAX_ID || value.None? then None
    else Some(PersistedCandidate(c.id, c.caption, value.value, c.tenantID))
  }

  function DecodeCandidate(c: PersistedCandidate): Option<Candidate> {
    match DecodeValue(c.value)
    case None => None
    case Some(value) => Some(Candidate(c.id, c.caption, value, c.tenantID))
  }

  function EncodeList(list: seq<Candidate>): Option<seq<PersistedCandidate>> {
    if |list| > MAX_CANDIDATES || exists i | 0 <= i < |list| :: EncodeCandidate(list[i]).None? then None
    else Some(seq(|list|, i requires 0 <= i < |list| => EncodeCandidate(list[i]).value))
  }

  function DecodeList(list: seq<PersistedCandidate>): Option<seq<Candidate>> {
    if |list| > MAX_CANDIDATES || exists i | 0 <= i < |list| :: DecodeCandidate(list[i]).None? then None
    else Some(seq(|list|, i requires 0 <= i < |list| => DecodeCandidate(list[i]).value))
  }

  /** Every place in every list; the total the source counts is the number of places. */
  function Places<T>(lists: map<Field, seq<T>>): set<(Field, int)> {
    set f, i | f in lists && 0 <= i < |lists[f]| :: (f, i)
  }

  function DropEmpty<T>(lists: map<Field, seq<T>>): map<Field, seq<T>> {
    map f | f in lists && lists[f] != [] :: lists[f]
  }

  /** `candidatesToV1`: empty lists count as fields but are not stored. */
  function CandidatesToV1(lists: map<Field, seq<Candidate>>): Option<map<Field, seq<PersistedCandidate>>> {
    if |lists| > MAX_CANDIDATE_FIELDS || |Places(lists)| > MAX_CANDIDATES_TOTAL then None
    else if exists f | f in lists :: !MapKey(f) || EncodeList(lists[f]).None? then None
    else Some(DropEmpty(map f | f in lists :: EncodeList(lists[f]).value))
  }

  function CandidatesFromV1(dto: map<Field, seq<PersistedCandidate>>): Option<map<Field, seq<Candidate>>> {
    if |dto| > MAX_CANDIDATE_FIELDS || |Places(dto)| > MAX_CANDIDATES_TOTAL then None
    else if exists f | f in dto :: DecodeList(dto[f]).None? then None
    else
      var lists := DropEmpty(map f | f in dto :: DecodeList(dto[f]).value);
      if lists == map[] || CandidatesToV1(lists).Some? then Some(lists) else None
  }

  lemma ListRoundTrip(list: seq<Candidate>)
    requires EncodeList(list).Some?
    ensures |EncodeList(list).value| == |list|
    ensures DecodeList(EncodeList(list).value) == Some(list)
  {
    var dto := EncodeList(list).value;
    forall i | 0 <= i < |list| ensures DecodeCandidate(dto[i]) == Some(list[i]) {
      TypedValueRoundTrip(list[i].value, EncodeValue(list[i].value).value);
    }
    assert DecodeList(dto).value == list;
  }

  lemma FewerKeys<X, Y, Z>(a: map<X, Y>, b: map<X, Z>)
    requires a.Keys <= b.Keys
    ensures |a| <= |b|
  {
    FewerElements(a.Keys, b.Keys);
    assert |a| == |a.Keys| && |b| == |b.Keys|;
  }

  lemma FewerElements<T>(a: set<T>, b: set<T>)
    requires a <= b
    ensures |a| <= |b|
  {
    assert b == a + (b - a);
  }

  /** Candidate lists come back whole, except that empty ones are gone, and what came back encodes to the same text. */
  lemma CandidatesRoundTrip(lists: map<Field, seq<Candidate>>)
    requires CandidatesToV1(lists).Some?
    ensures CandidatesToV1(DropEmptyLists(lists)) == CandidatesToV1(lists)
    ensures CandidatesFromV1(CandidatesToV1(lists).value) == Some(DropEmptyLists(lists))
  {
    CandidatesReencode(lists);
    var dto, kept := CandidatesToV1(lists).value, DropEmptyLists(lists);
    EncodedListsDecode(lists, dto);
    DroppingKeepsPlaces(lists);
    FewerKeys(dto, lists);
    DecodedLists(dto, kept);
  }

  lemma DroppingKeepsPlaces(lists: map<Field, seq<Candidate>>)
    ensures Places(DropEmptyLists(lists)) == Places(lists) && DropEmpty(DropEmptyLists(lists)) == DropEmptyLists(lists)
  {
    assert Places(DropEmptyLists(lists)) == Places(lists);
    assert DropEmpty(DropEmptyLists(lists)) == DropEmptyLists(lists);
  }

  lemma DecodedLists(dto: map<Field, seq<PersistedCandidate>>, kept: map<Field, seq<Candidate>>)
    requires dto.Keys == kept.Keys && forall f | f in dto :: DecodeList(dto[f]) == Some(kept[f])
    ensures (map f | f in dto :: DecodeList(dto[f]).value) == kept
  {
  }

  lemma EncodedListsDecode(lists: map<Field, seq<Candidate>>, dto: map<Field, seq<PersistedCandidate>>)
    requires CandidatesToV1(lists) == Some(dto)
    ensures var kept := DropEmptyLists(lists);
            && dto.Keys == kept.Keys && Places(dto) == Places(kept)
            && (forall f | f in dto :: DecodeList(dto[f]) == Some(kept[f]))
  {
    var kept := DropEmptyLists(lists);
    forall f | f in kept ensures f in dto && DecodeList(dto[f]) == Some(kept[f]) && |dto[f]| == |kept[f]| {
      ListRoundTrip(lists[f]);
    }
    SamePlaces(dto, kept);
  }

  lemma SamePlaces<X, Y>(a: map<Field, seq<X>>, b: map<Field, seq<Y>>)
    requires a.Keys == b.Keys && forall f | f in a :: |a[f]| == |b[f]|
    ensures Places(a) == Places(b)
  {
  }

  lemma CandidatesReencode(lists: map<Field, seq<Candidate>>)
    requires CandidatesToV1(lists).Some?
    ensures CandidatesToV1(DropEmptyLists(lists)) == CandidatesToV1(lists)
  {
    var kept := DropEmptyLists(lists);
    FewerKeys(kept, lists);
    DroppingKeepsPlaces(lists);
    assert DropEmpty(map f | f in kept :: EncodeList(kept[f]).value) == DropEmpty(map f | f in lists :: EncodeList(lists[f]).value);
  }

  // ---- the whole snapshot --------------------------------------------------------------

  /** `validateWorkflowSnapshotIdentity`, without the authority check. */
  predicate IdentityValid(w: WorkflowSnapshot) {
    && Trim(w.id) != "" && |w.id| <= MAX_WORKFLOW_ID && w.tenantID != 0 && w.actorUserID != 0
    && Trim(w.conversationID) != "" && |w.conversationID| <= MAX_CONVERSATION
    && !w.kind.OtherType? && !w.state.OtherState? && w.expiresAt != 0
    && forall f | f in MissingFields(w) :: MapKey(f)
  }

  /** `validateWorkflowSnapshotAuthority`: everything trusted belongs to the snapshot's tenant and conversation. */
  predicate AuthorityValid(w: WorkflowSnapshot) {
    && w.trusted.tenantID in {0, w.tenantID}
    && w.trusted.conversationID in {"", w.conversationID}
    && (forall f | f in w.trusted.params ::
          w.trusted.params[f].tenantID == w.tenantID && !w.trusted.params[f].source.kind.UnknownKind?)
    && (forall f | f in w.entities :: w.entities[f].tenantID == w.tenantID)
    && (forall f, i | f in w.candidates && 0 <= i < |w.candidates[f]| :: w.candidates[f][i].tenantID in {0, w.tenantID})
  }

  /** `workflowSnapshotToV1`. */
  function ToDTO(w: WorkflowSnapshot): Option<PersistedSnapshot> {
    if !IdentityValid(w) || !AuthorityValid(w) then None
    else
      match (TrustedToV1(w.trusted), EntitiesToV1(w.entities), CandidatesToV1(w.candidates))
      case (Some(trusted), Some(entities), Some(candidates)) => Some(PersistedSnapshot(
        w.id, w.tenantID, w.actorUserID, w.conversationID, w.kind, w.state, MissingFields(w),
        trusted, entities, candidates,
        FormatTime(w.createdAt), FormatTime(w.updatedAt), FormatTime(w.expiresAt), w.version))
      case _ => None
  }

  /** `parseWorkflowTime` where the text may be blank. */
  function ParseOptionalTime(text: TimeText): Option<Time> {
    match text case Blank => Some(0) case At(t) => Some(t) case Malformed => None
  }

  /** `workflowSnapshotFromV1`. */
  function FromDTO(dto: PersistedSnapshot): Option<WorkflowSnapshot> {
    match (TrustedFromV1(dto.trusted), EntitiesFromV1(dto.entities), CandidatesFromV1(dto.candidates))
    case (Some(trusted), Some(entities), Some(candidates)) => FromParts(dto, trusted, entities, candidates)
    case _ => None
  }

  function FromParts(
    dto: PersistedSnapshot, trusted: Trusted, entities: map<Field, TrustedEntity>, candidates: map<Field, seq<Candidate>>):
    Option<WorkflowSnapshot>
  {
    match (ParseOptionalTime(dto.createdAt), ParseOptionalTime(dto.updatedAt), ParseTime(dto.expiresAt))
    case (Some(createdAt), Some(updatedAt), Some(expiresAt)) =>
      var w := WorkflowSnapshot(
        dto.id, dto.tenantID, dto.actorUserID, dto.conversationID, dto.kind, dto.state, dto.missingFields,
        entities, candidates, "", createdAt, updatedAt, expiresAt, dto.version, dto.missingFields, trusted);
      if IdentityValid(w) && AuthorityValid(w) then Some(w) else None
    case _ => None
  }

  /** What persistence drops on purpose: the user's message, raw source text, empty candidate lists and the second list of missing fields. */
  function Erased(w: WorkflowSnapshot): WorkflowSnapshot {
    WithMissing(w, MissingFields(w)).(
      lastUserMessage := "", trusted := ErasedTrusted(w.trusted), candidates := DropEmptyLists(w.candidates))
  }

  /** Erasure keeps every identity and authority check. */
  lemma ErasureStaysValid(w: WorkflowSnapshot)
    requires IdentityValid(w) && AuthorityValid(w)
    ensures IdentityValid(Erased(w)) && AuthorityValid(Erased(w))
  {
  }

  /** Snapshot round trip: a snapshot that encodes decodes exactly when its trusted-parameter keys are trimmed, and then to its erasure, which encodes to the same text again. */
  lemma SnapshotRoundTrip(w: WorkflowSnapshot)
    requires ToDTO(w).Some?
    ensures FromDTO(ToDTO(w).value) == (if KeysTrimmed(w.trusted.params) then Some(Erased(w)) else None)
    ensures KeysTrimmed(w.trusted.params) ==> ToDTO(Erased(w)) == ToDTO(w)
  {
    TrustedRoundTrip(w.trusted);
    EntitiesRoundTrip(w.entities);
    CandidatesRoundTrip(w.candidates);
    if KeysTrimmed(w.trusted.params) {
      ErasureStaysValid(w);
      PartsRoundTrip(w);
    }
  }

  lemma PartsRoundTrip(w: WorkflowSnapshot)
    requires ToDTO(w).Some? && IdentityValid(Erased(w)) && AuthorityValid(Erased(w))
    ensures FromParts(ToDTO(w).value, ErasedTrusted(w.trusted), w.entities, DropEmptyLists(w.candidates)) == Some(Erased(w))
  {
  }

  /** A padded key under a blank field name is the one way a snapshot is stored and never read again. */
  lemma PaddedKeyIsLost(w: WorkflowSnapshot, key: Field, p: TrustedParam)
    requires IdentityValid(w) && AuthorityValid(w) && EntitiesToV1(w.entities).Some? && CandidatesToV1(w.candidates).Some?
    requires TextFits(w.trusted) && w.trusted.params == map[key := p]
    requires PaddedField(key) && MapKey(key) && BlankField(p.field) && EncodeValue(p.value).Some? && |p.source.resolver| <= MAX_ID
    ensures ToDTO(w).Some? && FromDTO(ToDTO(w).value) == None
  {
    assert EncodeParam(key, p).Some?;
    assert EncodeTrustedParams(w.trusted.params).Some?;
    SnapshotRoundTrip(w);
  }
}
