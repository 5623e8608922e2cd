/** The persisted form of a reservation, at the level of its V1 data-transfer object. */
module ReservationCodec {
  import opened Base
  import opened Types
  import opened SortedIds

  const MAX_PARAMS := 6
  const MAX_IDENTIFIER := 64
  const MAX_CONVERSATION := 128
  const MAX_LABEL := 256
  const MAX_TEXT := 4096
  const MAX_IDS := 256

  // ---- typed values ----------------------------------------------------------

  datatype Json = JNull | JString(text: string) | JNumber(number: int) | JArray(items: seq<int>) | JBool(flag: bool)

  /** The Go type a persisted value is tagged with. */
  datatype Tag = TagString | TagInt | TagInt64 | TagUint | TagInt64Slice | TagBool | UnknownTag(name: string)

  datatype TypedValue = TypedValue(tag: Tag, raw: Json)

  /** `encodePersistedTypedValue`. */
  function EncodeValue(v: Value): Option<TypedValue> {
    match v
    case Str(s) => if |s| <= MAX_TEXT then Some(TypedValue(TagString, JString(s))) else None
    case Int(i) => Some(TypedValue(TagInt, JNumber(i)))
    case Int64(i) => Some(TypedValue(TagInt64, JNumber(i)))
    case Uint(n) => Some(TypedValue(TagUint, JNumber(n)))
    case Int64s(ids) => if |ids| <= MAX_IDS then Some(TypedValue(TagInt64Slice, JArray(ids))) else None
    case Bool(b) => Some(TypedValue(TagBool, JBool(b)))
    case Unsupported => None
  }

  /** `decodePersistedTypedValue`. */
  function DecodeValue(t: TypedValue): Option<Value> {
    match t.tag
    case TagString => if t.raw.JString? && |t.raw.text| <= MAX_TEXT then Some(Str(t.raw.text)) else None
    case TagInt => if t.raw.JNumber? then Some(Int(t.raw.number)) else None
    case TagInt64 => if t.raw.JNumber? then Some(Int64(t.raw.number)) else None
    case TagUint => if t.raw.JNumber? && t.raw.number >= 0 then Some(Uint(t.raw.number)) else None
    case TagInt64Slice => if t.raw.JArray? && |t.raw.items| <= MAX_IDS then Some(Int64s(t.raw.items)) else None
    case TagBool => if t.raw.JBool? then Some(Bool(t.raw.flag)) else None
    case UnknownTag(_) => None
  }

  /** Decoding undoes encoding, and nothing else decodes to the same value: the tagged form is a bijection onto the values it accepts. */
  lemma TypedValueRoundTrip(v: Value, t: TypedValue)
    ensures EncodeValue(v) == Some(t) <==> DecodeValue(t) == Some(v)
  {
  }

  // ---- the parameter allow-list ----------------------------------------------

  /** `normalizeExecutionTrustedParam`: what a reservation may carry, and in which form. */
  function NormalizeParam(field: Field, v: Value): Option<Value> {
    match field
    case ConversationID =>
      if v.Str? && v.s != "" && Trimmed(v.s) && |v.s| <= MAX_CONVERSATION then Some(v) else None
    case Scope =>
      if v == Str("all") || v == Str("department") then Some(v) else None
    case DeptIDs =>
      if v.Int64s? && |v.ids| <= MAX_IDS && AllPositive(v.ids) then Some(Int64s(SortedUnique(v.ids))) else None
    case ActorRole =>
      if v.Int? && v.i >= 0 then Some(v) else None
    case ConversationType =>
      if v == Str(GROUP_CHAT) then Some(v) else None
    case ConversationTitle =>
      if v.Str? && |v.s| <= MAX_LABEL then Some(v) else None
    case _ => None
  }

  predicate Normalizable(params: map<Field, Value>) {
    forall f | f in params :: NormalizeParam(f, params[f]).Some?
  }

  function NormalizeParams(params: map<Field, Value>): map<Field, Value>
    requires Normalizable(params)
  {
    map f | f in params :: NormalizeParam(f, params[f]).value
  }

  /** A normal parameter is its own normal form, and it survives the typed encoding. */
  lemma NormalParamIsStable(field: Field, v: Value)
    requires NormalizeParam(field, v).Some?
    ensures var n := NormalizeParam(field, v).value;
            NormalizeParam(field, n) == Some(n) && EncodeValue(n).Some?
  {
    if field == DeptIDs {
      SortedUniqueIsCanonical(v.ids);
      CanonicalFormIsIdempotent(v.ids);
    }
  }

  // ---- times and the whole reservation ----------------------------------------

  /** RFC 3339 text: blank for the zero time. */
  datatype TimeText = Blank | At(t: Time) | Malformed

  function FormatTime(t: Time): TimeText { if t == 0 then Blank else At(t) }

  function ParseTime(text: TimeText): Option<Time> { if text.At? then Some(text.t) else None }

  datatype PersistedReservation = PersistedReservation(
    operation: Operation, businessKey: string, params: map<Field, TypedValue>, token: string,
    attemptID: string, startedAt: TimeText, leaseExpiresAt: TimeText)

  /** A name the validator accepts and the codec finds already normalised. */
  predicate Identifier(s: string) { s != "" && Trimmed(s) && |s| <= MAX_IDENTIFIER }

  /** Everything `validateReservedExecution` and `reservedExecutionToV1` demand. */
  predicate Persistable(r: Reservation) {
    && r.operation in {Start, Cancel}
    && Identifier(r.businessKey) && Identifier(r.token) && Identifier(r.attemptID)
    && 0 < r.startedAt < r.leaseExpiresAt
    && |r.params| <= MAX_PARAMS
    && Normalizable(r.params)
  }

  function EncodeParams(params: map<Field, Value>): (r: Option<map<Field, TypedValue>>) {
    if !Normalizable(params) then None
    else if exists f | f in params :: EncodeValue(NormalizeParam(f, params[f]).value).None? then None
    else Some(map f | f in params :: EncodeValue(NormalizeParam(f, params[f]).value).value)
  }

  function DecodeParams(encoded: map<Field, TypedValue>): Option<map<Field, Value>> {
    if exists f | f in encoded :: DecodeValue(encoded[f]).None? then None
    else
      var decoded := map f | f in encoded :: DecodeValue(encoded[f]).value;
      if Normalizable(decoded) then Some(NormalizeParams(decoded)) else None
  }

  /** `reservedExecutionToV1`. */
  function ToV1(r: Reservation): Option<PersistedReservation> {
    if !Persistable(r) then None
    else match EncodeParams(r.params)
      case None => None
      case Some(params) => Some(PersistedReservation(
        r.operation, r.businessKey, params, r.token, r.attemptID,
        FormatTime(Truncate(r.startedAt)), FormatTime(Truncate(r.leaseExpiresAt))))
  }

  /** `reservedExecutionFromV1`. */
  function FromV1(dto: PersistedReservation): Option<Reservation> {
    match (ParseTime(dto.startedAt), ParseTime(dto.leaseExpiresAt), DecodeParams(dto.params))
    case (Some(startedAt), Some(lease), Some(params)) =>
      var r := Reservation(dto.operation, dto.businessKey, params, dto.token, dto.attemptID, startedAt, lease);
      if ToV1(r).Some? then Some(r) else None
    case _ => None
  }

  /** `canonicalReservedExecution`: what a store keeps of the reservation it is handed. */
  function Canonical(r: Reservation): Option<Reservation> {
    match ToV1(r)
    case None => None
    case Some(dto) => FromV1(dto)
  }

  /** The lease survives truncation: still after the start, and the start is still an instant. */
  predicate LeaseOutlivesTruncation(r: Reservation) {
    0 < Truncate(r.startedAt) < Truncate(r.leaseExpiresAt)
  }

  function NormalForm(r: Reservation): Reservation
    requires Normalizable(r.params)
  {
    r.(params := NormalizeParams(r.params),
       startedAt := Truncate(r.startedAt), leaseExpiresAt := Truncate(r.leaseExpiresAt))
  }

  lemma NormalParamsAreStable(params: map<Field, Value>)
    requires Normalizable(params)
    ensures Normalizable(NormalizeParams(params))
    ensures NormalizeParams(NormalizeParams(params)) == NormalizeParams(params)
  {
    var n := NormalizeParams(params);
    forall f | f in n ensures NormalizeParam(f, n[f]) == Some(n[f]) {
      NormalParamIsStable(f, params[f]);
    }
    var nn := NormalizeParams(n);
    assert forall f | f in n :: nn[f] == n[f];
    assert nn.Keys == n.Keys;
  }

  lemma SameKeysSameSize<X, Y, Z>(a: map<X, Y>, b: map<X, Z>)
    requires a.Keys == b.Keys
    ensures |a| == |b|
  {
  }

  lemma NormalParamsEncode(params: map<Field, Value>)
    requires Normalizable(params)
    ensures EncodeParams(params).Some?
  {
    forall f | f in params ensures EncodeValue(NormalizeParam(f, params[f]).value).Some? {
      NormalParamIsStable(f, params[f]);
    }
  }

  lemma EncodedParamsDecode(params: map<Field, Value>, encoded: map<Field, TypedValue>)
    requires EncodeParams(params) == Some(encoded)
    ensures DecodeParams(encoded) == Some(NormalizeParams(params))
  {
    var n := NormalizeParams(params);
    forall f | f in encoded ensures DecodeValue(encoded[f]) == Some(n[f]) {
      TypedValueRoundTrip(n[f], encoded[f]);
    }
    assert (map f | f in encoded :: DecodeValue(encoded[f]).value) == n;
    NormalParamsAreStable(params);
  }

  /** Anything persistable encodes; the encoded form then decodes exactly when the lease outlives truncation, and decoding gives the normal form. */
  lemma DecodesExactlyWhenLeaseOutlivesTruncation(r: Reservation)
    ensures ToV1(r).Some? <==> Persistable(r)
    ensures Canonical(r).Some? <==> Persistable(r) && LeaseOutlivesTruncation(r)
    ensures Canonical(r).Some? ==> Canonical(r).value == NormalForm(r)
  {
    if Persistable(r) {
      NormalParamsEncode(r.params);
      var dto := ToV1(r).value;
      EncodedParamsDecode(r.params, dto.params);
      NormalFormPersists(r);
    }
  }

  lemma NormalFormPersists(r: Reservation)
    ensures Persistable(r) ==>
              && Normalizable(NormalForm(r).params)
              && NormalForm(NormalForm(r)) == NormalForm(r)
              && (Persistable(NormalForm(r)) <==> LeaseOutlivesTruncation(r))
              && (ToV1(NormalForm(r)).Some? <==> LeaseOutlivesTruncation(r))
  {
    if Persistable(r) {
      var n := NormalForm(r);
      NormalParamsAreStable(r.params);
      SameKeysSameSize(n.params, r.params);
      NormalParamsEncode(n.params);
    }
  }

  /** Canonicalisation is idempotent and keeps every identifier; times become whole milliseconds and the lease still follows the start. */
  lemma CanonicalIsANormalizer(r: Reservation)
    ensures Canonical(r).Some? ==>
              var c := Canonical(r).value;
              && Canonical(c) == Some(c)
              && c == r.(params := c.params, startedAt := Truncate(r.startedAt), leaseExpiresAt := Truncate(r.leaseExpiresAt))
              && c.startedAt < c.leaseExpiresAt
              && Trimmed(c.token) && c.token != "" && c.operation in {Start, Cancel}
  {
    DecodesExactlyWhenLeaseOutlivesTruncation(r);
    if Canonical(r).Some? {
      NormalFormPersists(r);
      DecodesExactlyWhenLeaseOutlivesTruncation(NormalForm(r));
    }
  }

  /** What canonicalisation does to the parameters: the same fields, scalars untouched, and the department list strictly increasing over the same set. */
  lemma CanonicalKeepsParams(r: Reservation)
    ensures Canonical(r).Some? ==>
              var p := Canonical(r).value.params;
              && p.Keys == r.params.Keys
              && (forall f | f in r.params && f != DeptIDs :: p[f] == r.params[f])
              && (DeptIDs in r.params ==>
                    && r.params[DeptIDs].Int64s? && p[DeptIDs].Int64s?
                    && StrictlyIncreasing(p[DeptIDs].ids)
                    && Elements(p[DeptIDs].ids) == Elements(r.params[DeptIDs].ids))
  {
    DecodesExactlyWhenLeaseOutlivesTruncation(r);
    if Canonical(r).Some? && DeptIDs in r.params {
      NormalDepartments(r.params[DeptIDs]);
    }
  }

  lemma NormalDepartments(v: Value)
    requires NormalizeParam(DeptIDs, v).Some?
    ensures v.Int64s? && NormalizeParam(DeptIDs, v).value.Int64s?
    ensures var ids := NormalizeParam(DeptIDs, v).value.ids;
            StrictlyIncreasing(ids) && Elements(ids) == Elements(v.ids)
  {
    SortedUniqueIsCanonical(v.ids);
    CanonicalFormIsIdempotent(v.ids);
    CanonicalFormIsTheSet(SortedUnique(v.ids), v.ids);
  }

  /** A lease shorter than the clock's persisted resolution can encode and still not decode. */
  lemma SubMillisecondLeaseIsLost()
    ensures exists r: Reservation :: ToV1(r).Some? && Canonical(r).None?
  {
    var start := MILLISECOND;
    var r := Reservation(Cancel, "k", map[], "t", "a", start, start + 1);
    assert Persistable(r);
    DecodesExactlyWhenLeaseOutlivesTruncation(r);
    assert Truncate(start) == Truncate(start + 1);
    assert ToV1(r).Some? && Canonical(r).None?;
  }
}
