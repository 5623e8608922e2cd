/** The database store over whole runs: every run of its conditional updates is a run of the workflow store, so what holds of all store runs holds of it. */
module DatabaseStore {
  import opened Base
  import opened Types
  import opened SnapshotCodec
  import opened WorkflowStore
  import opened StoreRuns
  import opened ShadowStore
  import opened DatabaseRows

  type Database = map<WorkflowKey, FullRow>

  // ---- the operations ---------------------------------------------------------------------

  /** The snapshot `encodeSnapshotUpdate` stores: marshalled, and read back. */
  function Kept(key: WorkflowKey, w: WorkflowSnapshot, now: Time): Option<WorkflowSnapshot> {
    match ToDTO(Filled(key, w, now)) case None => None case Some(dto) => FromDTO(dto)
  }

  /** The snapshot columns of an update; the creation time stays, the update time is the database's own. */
  function WithSnapshot(r: FullRow, w: WorkflowSnapshot, now: Time, touched: Time, row: Row): FullRow
    requires Kept(r.key, w, now).Some?
  {
    var c := Kept(r.key, w, now).value;
    r.(workflowID := c.id, kind := c.kind, state := c.state, snapshotSchema := CODEC, snapshot := ToDTO(Filled(r.key, w, now)).value,
       expiresAt := c.expiresAt, updatedAt := touched, row := row)
  }

  function WithRow(r: FullRow, touched: Time, row: Row): FullRow { r.(updatedAt := touched, row := row) }

  predicate IdleAt(db: Database, key: WorkflowKey, expected: nat) {
    key in db && expected != 0 && db[key].row.version == expected && db[key].row.columns == NO_AUTHORITY
  }

  /** One conditional update; nothing when it does not apply or its input does not marshal. `touched` is the update time the database sets. */
  function Updated(db: Database, key: WorkflowKey, op: Op, now: Time, touched: Time): Option<Database> {
    match op
    case Load => if key in db && db[key].row.columns.status == Idle && db[key].expiresAt <= now then Some(db - {key}) else Some(db)
    case Create(next) => Inserted(db, key, next, None, now)
    case CreateReserved(next, r) => Inserted(db, key, next, Some(r), now)
    case CompareAndSwap(expected, next) =>
      if !IdleAt(db, key, expected) || next.None? || Kept(db[key].key, next.value, now).None? then None
      else Some(db[key := WithSnapshot(db[key], next.value, now, touched, Row(expected + 1, NO_AUTHORITY))])
    case Reserve(expected, next, r) =>
      if key !in db || next.None? || Kept(db[key].key, next.value, now).None? then None
      else (match ReserveRow(db[key].row, expected, r)
        case None => None
        case Some(row) => Some(db[key := WithSnapshot(db[key], next.value, now, touched, row)]))
    case DeleteIfVersion(expected) => if IdleAt(db, key, expected) then Some(db - {key}) else None
    case RecordResult(expected, token, result) =>
      if key !in db then None
      else (match RecordRow(db[key].row, expected, token, result)
        case None => None
        case Some(row) => Some(db[key := WithRow(db[key], touched, row)]))
    case Finalize(expected, token, next) =>
      if key !in db || next.None? || Kept(db[key].key, next.value, now).None? || !ReleasableRow(db[key].row, expected, token) then None
      else Some(db[key := WithSnapshot(db[key], next.value, now, touched, Row(expected + 1, NO_AUTHORITY))])
    case DeleteReserved(expected, token) =>
      if key in db && ReleasableRow(db[key].row, expected, token) then Some(db - {key}) else None
    case Takeover(expected, token, successor) =>
      if key !in db then None
      else (match TakeoverRow(db[key].row, expected, token, now, successor)
        case None => None
        case Some(row) => Some(db[key := WithRow(db[key], touched, row)]))
    case MarkRecoveryRequired(expected, token, retryAt) =>
      if key !in db then None
      else (match MarkRow(db[key].row, expected, token, retryAt)
        case None => None
        case Some(row) => Some(db[key := WithRow(db[key], touched, row)]))
  }

  function Inserted(db: Database, key: WorkflowKey, next: Option<WorkflowSnapshot>, r: Option<Reservation>, now: Time): Option<Database> {
    if key in db || next.None? || EncodeRow(key, next.value, now).None? then None
    else
      var made := EncodeRow(key, next.value, now).value;
      match r
      case None => Some(db[key := made])
      case Some(r) =>
        match ReservationColumns(Executing, r)
        case None => None
        case Some(columns) => Some(db[key := made.(row := Row(1, columns))])
  }

  // ---- rows and records ----------------------------------------------------------------------

  /** The same business content; creation and update times are each store's own. */
  predicate SameContent(a: WorkflowSnapshot, b: WorkflowSnapshot) {
    a.(createdAt := 0, updatedAt := 0) == b.(createdAt := 0, updatedAt := 0)
  }

  /** The row reads back, and says what the record says. */
  predicate Stands(key: WorkflowKey, r: FullRow, record: VersionedWorkflow) {
    && r.key == key && Represents(r.row, record) && r.expiresAt == record.snapshot.expiresAt != 0
    && (match DecodeRow(r) case None => false case Some(v) => SameContent(v.snapshot, record.snapshot))
  }

  predicate Mirrors(db: Database, s: Store) {
    db.Keys == s.Keys && forall key | key in db :: Stands(key, db[key], s[key])
  }

  /** The store call that does what an update does: with the snapshot the database kept, and for anything but loading and taking over at an instant at which nothing has expired. */
  function Simulating(key: WorkflowKey, op: Op, now: Time): Call {
    match op
    case Load => Call(key, op, now, false)
    case Takeover(_, _, _) => Call(key, op, now, false)
    case _ => Call(key, KeptIn(key, op, now), 0, false)
  }

  function KeptIn(key: WorkflowKey, op: Op, now: Time): Op {
    match op
    case Create(Some(w)) => Create(Kept(key, w, now))
    case CompareAndSwap(expected, Some(w)) => CompareAndSwap(expected, Kept(key, w, now))
    case CreateReserved(Some(w), r) => CreateReserved(Kept(key, w, now), r)
    case Reserve(expected, Some(w), r) => Reserve(expected, Kept(key, w, now), r)
    case Finalize(expected, token, Some(w)) => Finalize(expected, token, Kept(key, w, now))
    case _ => op
  }

  /** What the callers of the database guarantee: a takeover draws a new token, a deferral keeps the lease its request was stored with. */
  predicate Lawful(s: Store, key: WorkflowKey, op: Op) {
    && (op.Takeover? ==> op.token != op.successor.token)
    && (op.MarkRecoveryRequired? && Fenced(s, key, op.expected, op.token) ==> Truncate(op.retryAt) == ExecutionAt(s, key).reservation.leaseExpiresAt)
  }

  // ---- one update ------------------------------------------------------------------------------

  lemma KeptIsErased(key: WorkflowKey, w: WorkflowSnapshot, now: Time)
    requires Kept(key, w, now).Some?
    ensures var c := Kept(key, w, now).value;
            && c == Erased(Filled(key, w, now)) && Aligned(c) && Identified(key, c) && c.expiresAt != 0
  {
    SnapshotRoundTrip(Filled(key, w, now));
  }

  /** What the store makes of a kept snapshot differs from it in version and the store's own times only. */
  lemma PreparedKept(key: WorkflowKey, c: WorkflowSnapshot, version: nat, existing: Option<WorkflowSnapshot>)
    requires Aligned(c) && Identified(key, c) && c.expiresAt != 0
    ensures var p := Prepare(key, c, version, existing, 0);
            SameContent(p, c.(version := version)) && p.expiresAt == c.expiresAt && p.version == version
  {
    assert Clone(c) == c;
  }

  /** A row whose projected columns agree with its snapshot reads back with the content of that snapshot. */
  lemma ReadsBack(r: FullRow, c: WorkflowSnapshot)
    requires r.snapshotSchema == CODEC && FromDTO(r.snapshot) == Some(c) && Identified(r.key, c)
    requires r.workflowID == c.id && r.kind == c.kind && r.state == c.state && r.expiresAt == c.expiresAt
    requires DecodeExecution(r.row.columns) != Refused
    ensures DecodeRow(r).Some? && SameContent(DecodeRow(r).value.snapshot, c.(version := r.row.version))
  {
  }

  /** A row that reads back stands for the record the store prepared from the same snapshot. */
  lemma PreparedStands(r: FullRow, c: WorkflowSnapshot, record: VersionedWorkflow, existing: Option<WorkflowSnapshot>)
    requires Aligned(c) && Identified(r.key, c) && c.expiresAt != 0 && r.expiresAt == c.expiresAt && Represents(r.row, record)
    requires DecodeRow(r).Some? && SameContent(DecodeRow(r).value.snapshot, c.(version := r.row.version))
    requires record.snapshot == Prepare(r.key, c, record.version, existing, 0)
    ensures Stands(r.key, r, record)
  {
    PreparedKept(r.key, c, record.version, existing);
  }

  lemma NewSnapshotStands(r: FullRow, w: WorkflowSnapshot, now: Time, touched: Time, row: Row, record: VersionedWorkflow, existing: Option<WorkflowSnapshot>)
    requires Kept(r.key, w, now).Some? && Represents(row, record)
    requires record.snapshot == Prepare(r.key, Kept(r.key, w, now).value, record.version, existing, 0)
    ensures Stands(r.key, WithSnapshot(r, w, now, touched, row), record)
  {
    var c := Kept(r.key, w, now).value;
    KeptIsErased(r.key, w, now);
    ReadsBack(WithSnapshot(r, w, now, touched, row), c);
    PreparedStands(WithSnapshot(r, w, now, touched, row), c, record, existing);
  }

  lemma NewRowStands(key: WorkflowKey, w: WorkflowSnapshot, now: Time, row: Row, record: VersionedWorkflow)
    requires EncodeRow(key, w, now).Some? && Represents(row, record)
    requires record.snapshot == Prepare(key, Kept(key, w, now).value, record.version, None, 0)
    ensures Stands(key, EncodeRow(key, w, now).value.(row := row), record)
  {
    var c, made := Kept(key, w, now).value, EncodeRow(key, w, now).value.(row := row);
    KeptIsErased(key, w, now);
    ReadsBack(made, c);
    PreparedStands(made, c, record, None);
  }

  lemma NewColumnsStand(key: WorkflowKey, r: FullRow, record: VersionedWorkflow, touched: Time, row: Row, next: VersionedWorkflow)
    requires Stands(key, r, record) && Represents(row, next)
    requires next.snapshot == record.snapshot.(version := next.version)
    ensures Stands(key, WithRow(r, touched, row), next)
  {
  }

  /** An update and its store call, at the key they are about. */
  predicate Keeps(key: WorkflowKey, db: Database, s: Store) {
    (key in db <==> key in s) && (key in db ==> Stands(key, db[key], s[key]))
  }

  ghost predicate Refines(db: Database, s: Store, key: WorkflowKey, op: Op, now: Time, touched: Time) {
    var c := Simulating(key, op, now);
    Updated(db, key, op, now, touched).Some? ==> Succeeds(s, c) && Keeps(key, Updated(db, key, op, now, touched).value, Apply(s, c).0)
  }

  /** An update of the snapshot refines its call once the call leaves a record the new columns represent. */
  lemma SnapshotUpdateRefines(db: Database, s: Store, key: WorkflowKey, op: Op, now: Time, touched: Time,
                              w: WorkflowSnapshot, row: Row, c: Call, s': Store)
    requires key in db && db[key].key == key && key in s && key in s' && Kept(key, w, now).Some?
    requires Updated(db, key, op, now, touched) == Some(db[key := WithSnapshot(db[key], w, now, touched, row)])
    requires c == Simulating(key, op, now) && Succeeds(s, c) && s' == Apply(s, c).0 && Represents(row, s'[key])
    requires s'[key].snapshot == Prepare(key, Kept(key, w, now).value, s'[key].version, Some(s[key].snapshot), 0)
    ensures Refines(db, s, key, op, now, touched)
  {
    NewSnapshotStands(db[key], w, now, touched, row, s'[key], Some(s[key].snapshot));
  }

  lemma IdleRowsAreFree(row: Row, record: VersionedWorkflow)
    requires Represents(row, record)
    ensures row.columns.status == Idle <==> record.execution.None?
  {
  }

  lemma LoadingPurges(s: Store, key: WorkflowKey, now: Time)
    requires CompleteKey(key)
    ensures Succeeds(s, Call(key, Load, now, false)) && Apply(s, Call(key, Load, now, false)).0 == Purge(s, key, now)
  {
  }

  /** Both drop an idle workflow past its expiry. */
  lemma LoadedKeeps(db: Database, s: Store, key: WorkflowKey, now: Time, touched: Time)
    requires Keeps(key, db, s) && (key in db ==> (db[key].row.columns.status == Idle <==> s[key].execution.None?))
    requires key in db ==> db[key].expiresAt == s[key].snapshot.expiresAt != 0
    ensures Updated(db, key, Load, now, touched).Some? && Keeps(key, Updated(db, key, Load, now, touched).value, Purge(s, key, now))
  {
  }

  lemma LoadingRefines(db: Database, s: Store, key: WorkflowKey, now: Time, touched: Time)
    requires Keeps(key, db, s) && CompleteKey(key)
    ensures Refines(db, s, key, Load, now, touched)
  {
    if key in db { IdleRowsAreFree(db[key].row, s[key]); }
    LoadedKeeps(db, s, key, now, touched);
    LoadingPurges(s, key, now);
  }

  lemma InsertingRefines(db: Database, s: Store, key: WorkflowKey, op: Op, now: Time, touched: Time)
    requires Keeps(key, db, s) && CompleteKey(key) && (op.Create? || op.CreateReserved?)
    ensures Refines(db, s, key, op, now, touched)
  {
    if Updated(db, key, op, now, touched).Some? {
      var w := op.next.value;
      KeptIsErased(key, w, now);
      if op.CreateReserved? { ReservedColumnsDecode(Executing, op.reservation); }
      var c := Simulating(key, op, now);
      var next, db' := Apply(s, c).0, Updated(db, key, op, now, touched).value;
      NewRowStands(key, w, now, db'[key].row, next[key]);
    }
  }

  lemma SwappingUpdates(db: Database, key: WorkflowKey, expected: nat, w: WorkflowSnapshot, now: Time, touched: Time)
    requires key in db && db[key].key == key
    requires Updated(db, key, CompareAndSwap(expected, Some(w)), now, touched).Some?
    ensures IdleAt(db, key, expected) && Kept(key, w, now).Some?
    ensures Updated(db, key, CompareAndSwap(expected, Some(w)), now, touched)
              == Some(db[key := WithSnapshot(db[key], w, now, touched, Row(expected + 1, NO_AUTHORITY))])
    ensures Simulating(key, CompareAndSwap(expected, Some(w)), now) == Call(key, CompareAndSwap(expected, Kept(key, w, now)), 0, false)
  {
  }

  lemma SwappedWrite(row: Row, s: Store, key: WorkflowKey, expected: nat, w: WorkflowSnapshot)
    requires CompleteKey(key) && key in s && Identified(key, w) && Represents(row, s[key])
    requires expected != 0 && row.version == expected && row.columns == NO_AUTHORITY
    ensures var c := Call(key, CompareAndSwap(expected, Some(w)), 0, false);
            && Succeeds(s, c) && key in Apply(s, c).0 && Represents(Row(expected + 1, NO_AUTHORITY), Apply(s, c).0[key])
            && Apply(s, c).0[key].snapshot == Prepare(key, w, Apply(s, c).0[key].version, Some(s[key].snapshot), 0)
  {
  }

  lemma SwappingRefines(db: Database, s: Store, key: WorkflowKey, expected: nat, w: WorkflowSnapshot, now: Time, touched: Time)
    requires CompleteKey(key) && key in db && key in s && db[key].key == key && Represents(db[key].row, s[key])
    requires Updated(db, key, CompareAndSwap(expected, Some(w)), now, touched).Some?
    ensures Refines(db, s, key, CompareAndSwap(expected, Some(w)), now, touched)
  {
    SwappingUpdates(db, key, expected, w, now, touched);
    KeptIsErased(key, w, now);
    SwappedWrite(db[key].row, s, key, expected, Kept(key, w, now).value);
    var c := Call(key, CompareAndSwap(expected, Kept(key, w, now)), 0, false);
    SnapshotUpdateRefines(db, s, key, CompareAndSwap(expected, Some(w)), now, touched, w, Row(expected + 1, NO_AUTHORITY), c, Apply(s, c).0);
  }

  lemma ReservingUpdates(db: Database, key: WorkflowKey, expected: nat, w: WorkflowSnapshot, r: Reservation, now: Time, touched: Time)
    requires key in db && db[key].key == key
    requires Updated(db, key, Reserve(expected, Some(w), r), now, touched).Some?
    ensures Kept(key, w, now).Some? && ReserveRow(db[key].row, expected, r).Some?
    ensures Updated(db, key, Reserve(expected, Some(w), r), now, touched)
              == Some(db[key := WithSnapshot(db[key], w, now, touched, ReserveRow(db[key].row, expected, r).value)])
    ensures Simulating(key, Reserve(expected, Some(w), r), now) == Call(key, Reserve(expected, Kept(key, w, now), r), 0, false)
  {
  }

  lemma ReservedWrite(row: Row, s: Store, key: WorkflowKey, expected: nat, w: WorkflowSnapshot, r: Reservation)
    requires CompleteKey(key) && key in s && Represents(row, s[key]) && ReserveRow(row, expected, r).Some?
    ensures var c := Call(key, Reserve(expected, Some(w), r), 0, false);
            && Succeeds(s, c) && key in Apply(s, c).0 && Represents(ReserveRow(row, expected, r).value, Apply(s, c).0[key])
            && Apply(s, c).0[key].snapshot == Prepare(key, w, Apply(s, c).0[key].version, Some(s[key].snapshot), 0)
  {
    ReserveRefines(row, s, key, expected, w, r, 0);
    WriteInstalls(s, key, Reserve(expected, Some(w), r), 0);
  }

  lemma ReservingRefines(db: Database, s: Store, key: WorkflowKey, expected: nat, w: WorkflowSnapshot, r: Reservation, now: Time, touched: Time)
    requires CompleteKey(key) && key in db && key in s && db[key].key == key && Represents(db[key].row, s[key])
    requires Updated(db, key, Reserve(expected, Some(w), r), now, touched).Some?
    ensures Refines(db, s, key, Reserve(expected, Some(w), r), now, touched)
  {
    ReservingUpdates(db, key, expected, w, r, now, touched);
    ReservedWrite(db[key].row, s, key, expected, Kept(key, w, now).value, r);
    var c := Call(key, Reserve(expected, Kept(key, w, now), r), 0, false);
    SnapshotUpdateRefines(db, s, key, Reserve(expected, Some(w), r), now, touched, w, ReserveRow(db[key].row, expected, r).value, c, Apply(s, c).0);
  }

  lemma RecordingRefines(db: Database, s: Store, key: WorkflowKey, op: Op, now: Time, touched: Time)
    requires Keeps(key, db, s) && StoreInv(s) && CompleteKey(key) && op.RecordResult?
    ensures Refines(db, s, key, op, now, touched)
  {
    if Updated(db, key, op, now, touched).Some? {
      RecordRefines(db[key].row, s, key, op.expected, op.token, op.result, 0);
      var next, db' := Apply(s, Simulating(key, op, now)).0, Updated(db, key, op, now, touched).value;
      NewColumnsStand(key, db[key], s[key], touched, db'[key].row, next[key]);
    }
  }

  lemma TakingOverRefines(db: Database, s: Store, key: WorkflowKey, op: Op, now: Time, touched: Time)
    requires Keeps(key, db, s) && StoreInv(s) && CompleteKey(key) && op.Takeover? && Lawful(s, key, op)
    ensures Refines(db, s, key, op, now, touched)
  {
    if Updated(db, key, op, now, touched).Some? {
      TakeoverRefines(db[key].row, s, key, op.expected, op.token, op.successor, now);
      TakenOverRecord(s, key, op, now);
      NewColumnsStand(key, db[key], s[key], touched, TakeoverRow(db[key].row, op.expected, op.token, now, op.successor).value,
                      Apply(s, Simulating(key, op, now)).0[key]);
    }
  }

  lemma TakenOverRecord(s: Store, key: WorkflowKey, op: Op, now: Time)
    requires CompleteKey(key) && op.Takeover? && TakeoverIn(s, key, op.expected, op.token, op.successor, now).1.Ok?
    ensures var c := Call(key, op, now, false);
            && Apply(s, c) == TakeoverIn(s, key, op.expected, op.token, op.successor, now) && key in s && key in Apply(s, c).0
            && Apply(s, c).0[key].snapshot == s[key].snapshot.(version := Apply(s, c).0[key].version)
  {
    TakingOverInstalls(s, key, op, now);
  }

  lemma MarkingRefines(db: Database, s: Store, key: WorkflowKey, op: Op, now: Time, touched: Time)
    requires Keeps(key, db, s) && StoreInv(s) && CompleteKey(key) && op.MarkRecoveryRequired? && Lawful(s, key, op)
    ensures Refines(db, s, key, op, now, touched)
  {
    if Updated(db, key, op, now, touched).Some? {
      var row := db[key].row;
      MatchingTokenIsTrimmed(row, s, key, op.token);
      MarkedRowIsReadable(row, ExecutionAt(s, key), op.expected, op.token, op.retryAt);
      var next, db' := Apply(s, Simulating(key, op, now)).0, Updated(db, key, op, now, touched).value;
      NewColumnsStand(key, db[key], s[key], touched, db'[key].row, next[key]);
    }
  }

  lemma FinalizingUpdates(db: Database, key: WorkflowKey, expected: nat, token: string, w: WorkflowSnapshot, now: Time, touched: Time)
    requires key in db && db[key].key == key
    requires Updated(db, key, Finalize(expected, token, Some(w)), now, touched).Some?
    ensures Kept(key, w, now).Some? && ReleasableRow(db[key].row, expected, token)
    ensures Updated(db, key, Finalize(expected, token, Some(w)), now, touched)
              == Some(db[key := WithSnapshot(db[key], w, now, touched, Row(expected + 1, NO_AUTHORITY))])
    ensures Simulating(key, Finalize(expected, token, Some(w)), now) == Call(key, Finalize(expected, token, Kept(key, w, now)), 0, false)
  {
  }

  lemma FinalizedWrite(s: Store, key: WorkflowKey, expected: nat, token: string, w: WorkflowSnapshot)
    requires CompleteKey(key) && Identified(key, w) && Fenced(s, key, expected, token) && Recorded(ExecutionAt(s, key))
    ensures var c := Call(key, Finalize(expected, token, Some(w)), 0, false);
            && Succeeds(s, c) && key in Apply(s, c).0 && Represents(Row(expected + 1, NO_AUTHORITY), Apply(s, c).0[key])
            && Apply(s, c).0[key].snapshot == Prepare(key, w, Apply(s, c).0[key].version, Some(s[key].snapshot), 0)
  {
  }

  lemma FinalizingRefines(db: Database, s: Store, key: WorkflowKey, expected: nat, token: string, w: WorkflowSnapshot, now: Time, touched: Time)
    requires StoreInv(s) && CompleteKey(key) && key in db && key in s && db[key].key == key && Represents(db[key].row, s[key])
    requires Updated(db, key, Finalize(expected, token, Some(w)), now, touched).Some?
    ensures Refines(db, s, key, Finalize(expected, token, Some(w)), now, touched)
  {
    FinalizingUpdates(db, key, expected, token, w, now, touched);
    ReleasableIsRecorded(db[key].row, s, key, expected, token);
    KeptIsErased(key, w, now);
    FinalizedWrite(s, key, expected, token, Kept(key, w, now).value);
    var c := Call(key, Finalize(expected, token, Kept(key, w, now)), 0, false);
    SnapshotUpdateRefines(db, s, key, Finalize(expected, token, Some(w)), now, touched, w, Row(expected + 1, NO_AUTHORITY), c, Apply(s, c).0);
  }

  lemma DeletingRefines(db: Database, s: Store, key: WorkflowKey, op: Op, now: Time, touched: Time)
    requires Keeps(key, db, s) && StoreInv(s) && CompleteKey(key) && Deletes(op)
    ensures Refines(db, s, key, op, now, touched)
  {
    if Updated(db, key, op, now, touched).Some? && op.DeleteReserved? {
      ReleasableIsRecorded(db[key].row, s, key, op.expected, op.token);
    }
  }

  lemma UpdateRefines(db: Database, s: Store, key: WorkflowKey, op: Op, now: Time, touched: Time)
    requires Keeps(key, db, s) && StoreInv(s) && CompleteKey(key) && Lawful(s, key, op)
    ensures Refines(db, s, key, op, now, touched)
  {
    if Updated(db, key, op, now, touched).None? { return; }
    match op
    case Load => LoadingRefines(db, s, key, now, touched);
    case Create(_) => InsertingRefines(db, s, key, op, now, touched);
    case CreateReserved(_, _) => InsertingRefines(db, s, key, op, now, touched);
    case CompareAndSwap(expected, next) => SwappingRefines(db, s, key, expected, next.value, now, touched);
    case Reserve(expected, next, r) => ReservingRefines(db, s, key, expected, next.value, r, now, touched);
    case RecordResult(_, _, _) => RecordingRefines(db, s, key, op, now, touched);
    case Takeover(_, _, _) => TakingOverRefines(db, s, key, op, now, touched);
    case MarkRecoveryRequired(_, _, _) => MarkingRefines(db, s, key, op, now, touched);
    case Finalize(expected, token, next) => FinalizingRefines(db, s, key, expected, token, next.value, now, touched);
    case _ => DeletingRefines(db, s, key, op, now, touched);
  }

  // ---- whole runs ------------------------------------------------------------------------------

  datatype Step = Step(key: WorkflowKey, op: Op, now: Time, touched: Time)

  /** A step that does not apply leaves the database as it is. */
  function After(db: Database, e: Step): Database {
    match Updated(db, e.key, e.op, e.now, e.touched) case None => db case Some(next) => next
  }

  predicate DatabaseRun(dbs: seq<Database>, steps: seq<Step>) {
    && |dbs| == |steps| + 1
    && forall i {:trigger steps[i]} | 0 <= i < |steps| :: dbs[i + 1] == After(dbs[i], steps[i]) && CompleteKey(steps[i].key)
  }

  /** The store call behind a step: its simulation, or one that never reaches the store. */
  function CallOfStep(db: Database, e: Step): Call {
    if Updated(db, e.key, e.op, e.now, e.touched).None? then Call(e.key, Load, e.now, true) else Simulating(e.key, e.op, e.now)
  }

  lemma UpdateKeepsOthers(db: Database, e: Step)
    ensures forall k | k != e.key :: (k in After(db, e) <==> k in db) && (k in db ==> After(db, e)[k] == db[k])
  {
  }

  /** Step by step the store mirrors the database. */
  lemma StepRefines(db: Database, s: Store, e: Step)
    requires Mirrors(db, s) && StoreInv(s) && CompleteKey(e.key) && Lawful(s, e.key, e.op)
    ensures var c := CallOfStep(db, e);
            && Mirrors(After(db, e), Apply(s, c).0) && StoreInv(Apply(s, c).0)
            && (Updated(db, e.key, e.op, e.now, e.touched).Some? ==> Succeeds(s, c))
  {
    var c := CallOfStep(db, e);
    assert Keeps(e.key, db, s);
    UpdateRefines(db, s, e.key, e.op, e.now, e.touched);
    ApplyKeepsInvariant(s, c);
    UpdateKeepsOthers(db, e);
    FailureChangesNothing(s, c);
    MirrorsByKey(After(db, e), Apply(s, c).0, db, s, e.key);
  }

  lemma MirrorsByKey(db': Database, s': Store, db: Database, s: Store, key: WorkflowKey)
    requires Mirrors(db, s) && Keeps(key, db', s')
    requires forall k | k != key :: (k in db' <==> k in db) && (k in db ==> db'[k] == db[k])
    requires forall k | k != key :: (k in s' <==> k in s) && (k in s ==> s'[k] == s[k])
    ensures Mirrors(db', s')
  {
    forall k ensures (k in db' <==> k in s') && (k in db' ==> Stands(k, db'[k], s'[k])) {
      if k != key { MirrorsAt(db, s, k); }
    }
  }

  lemma MirrorsAt(db: Database, s: Store, key: WorkflowKey)
    requires Mirrors(db, s)
    ensures Keeps(key, db, s)
  {
    assert key in db.Keys <==> key in s.Keys;
  }

  /** The store's run beside a run of the database. */
  function StatesBeside(s: Store, dbs: seq<Database>, steps: seq<Step>): (states: seq<Store>)
    requires |dbs| == |steps| + 1
    ensures |states| == |dbs|
    decreases |steps|
  {
    if steps == [] then [s]
    else [s] + StatesBeside(Apply(s, CallOfStep(dbs[0], steps[0])).0, dbs[1..], steps[1..])
  }

  function CallsBeside(dbs: seq<Database>, steps: seq<Step>): (calls: seq<Call>)
    requires |dbs| == |steps| + 1
    ensures |calls| == |steps|
    decreases |steps|
  {
    if steps == [] then [] else [CallOfStep(dbs[0], steps[0])] + CallsBeside(dbs[1..], steps[1..])
  }

  /** Every step of the run is lawful where it is taken. */
  predicate LawfulRun(s: Store, dbs: seq<Database>, steps: seq<Step>)
    requires |dbs| == |steps| + 1
    decreases |steps|
  {
    steps != [] ==>
      && Lawful(s, steps[0].key, steps[0].op)
      && LawfulRun(Apply(s, CallOfStep(dbs[0], steps[0])).0, dbs[1..], steps[1..])
  }

  lemma FirstStepRefines(s: Store, dbs: seq<Database>, steps: seq<Step>)
    requires DatabaseRun(dbs, steps) && Mirrors(dbs[0], s) && StoreInv(s) && LawfulRun(s, dbs, steps) && steps != []
    ensures var s1 := Apply(s, CallOfStep(dbs[0], steps[0])).0;
            DatabaseRun(dbs[1..], steps[1..]) && Mirrors(dbs[1..][0], s1) && StoreInv(s1) && LawfulRun(s1, dbs[1..], steps[1..])
  {
    assert dbs[0 + 1] == After(dbs[0], steps[0]);
    StepRefines(dbs[0], s, steps[0]);
    TailIsRun(dbs, steps);
  }

  /** Every run of the database is a run of the store: same keys, versions, executions and contents at every moment. */
  lemma {:induction false} DatabaseRunsAreStoreRuns(s: Store, dbs: seq<Database>, steps: seq<Step>)
    requires DatabaseRun(dbs, steps) && Mirrors(dbs[0], s) && StoreInv(s) && LawfulRun(s, dbs, steps)
    ensures var states := StatesBeside(s, dbs, steps);
            && Run(states, CallsBeside(dbs, steps)) && states[0] == s
            && forall i | 0 <= i < |dbs| :: Mirrors(dbs[i], states[i])
    decreases |steps|
  {
    if steps != [] {
      var s1 := Apply(s, CallOfStep(dbs[0], steps[0])).0;
      FirstStepRefines(s, dbs, steps);
      DatabaseRunsAreStoreRuns(s1, dbs[1..], steps[1..]);
      PrependCall(s, CallOfStep(dbs[0], steps[0]), StatesBeside(s1, dbs[1..], steps[1..]), CallsBeside(dbs[1..], steps[1..]));
      PairsExtend(Mirrors, dbs, s, StatesBeside(s1, dbs[1..], steps[1..]));
    }
  }

  lemma TailIsRun(dbs: seq<Database>, steps: seq<Step>)
    requires DatabaseRun(dbs, steps) && steps != []
    ensures DatabaseRun(dbs[1..], steps[1..])
  {
    forall i | 0 <= i < |steps[1..]|
      ensures dbs[1..][i + 1] == After(dbs[1..][i], steps[1..][i]) && CompleteKey(steps[1..][i].key)
    {
      assert steps[1..][i] == steps[i + 1] && dbs[1..][i + 1] == dbs[i + 1 + 1] && dbs[1..][i] == dbs[i + 1];
    }
  }

  lemma PairsExtend<A, B>(related: (A, B) -> bool, left: seq<A>, first: B, rest: seq<B>)
    requires |left| == |rest| + 1 && related(left[0], first) && forall i | 0 <= i < |rest| :: related(left[1..][i], rest[i])
    ensures forall i | 0 <= i < |left| :: related(left[i], ([first] + rest)[i])
  {
    forall i | 0 <= i < |left| ensures related(left[i], ([first] + rest)[i]) {
      if i > 0 { assert left[1..][i - 1] == left[i] && ([first] + rest)[i] == rest[i - 1]; }
    }
  }

  // ---- no write is lost --------------------------------------------------------------------------

  /** The row under the key holds an execution that reads back. */
  predicate RowHolds(db: Database, key: WorkflowKey) { key in db && DecodeExecution(db[key].row.columns).Is? }

  function RowExecution(db: Database, key: WorkflowKey): Execution
    requires RowHolds(db, key)
  {
    DecodeExecution(db[key].row.columns).execution
  }

  /** From database i up to and including database j the row carries the write it carried at i. */
  predicate RowsCarry(dbs: seq<Database>, key: WorkflowKey, i: nat, j: nat)
    requires i <= j < |dbs| && RowHolds(dbs[i], key)
  {
    forall q | i <= q <= j :: RowHolds(dbs[q], key) && SameWrite(RowExecution(dbs[i], key), RowExecution(dbs[q], key))
  }

  /** The step lets the row's execution go, under its token and after its result was recorded. */
  predicate ReleasesRow(db: Database, e: Step, key: WorkflowKey) {
    && e.key == key && key in db && (e.op.Finalize? || e.op.DeleteReserved?)
    && ReleasableRow(db[key].row, e.op.expected, e.op.token) && Updated(db, key, e.op, e.now, e.touched).Some?
  }

  lemma ReleaseShowsInTheRow(db: Database, e: Step, s: Store, key: WorkflowKey)
    requires ReleasedBy(s, CallOfStep(db, e), key)
    ensures ReleasesRow(db, e, key)
  {
  }

  lemma {:induction false} CallBesideStep(dbs: seq<Database>, steps: seq<Step>, m: nat)
    requires |dbs| == |steps| + 1 && m < |steps|
    ensures CallsBeside(dbs, steps)[m] == CallOfStep(dbs[m], steps[m])
    decreases m
  {
    if m > 0 { CallBesideStep(dbs[1..], steps[1..], m - 1); }
  }

  lemma RowReadsExecution(db: Database, s: Store, key: WorkflowKey)
    requires Mirrors(db, s)
    ensures RowHolds(db, key) <==> HasExecution(s, key)
    ensures RowHolds(db, key) ==> RowExecution(db, key) == ExecutionAt(s, key)
  {
    MirrorsAt(db, s, key);
  }

  lemma RowsCarryWhatStatesCarry(dbs: seq<Database>, states: seq<Store>, key: WorkflowKey, i: nat, j: nat)
    requires |dbs| == |states| && (forall q | 0 <= q < |dbs| :: Mirrors(dbs[q], states[q])) && i <= j < |dbs|
    requires HasExecution(states[i], key) && Carried(states, key, i, j)
    ensures RowHolds(dbs[i], key) && RowsCarry(dbs, key, i, j)
  {
    RowReadsExecution(dbs[i], states[i], key);
    forall q | i <= q <= j ensures RowHolds(dbs[q], key) && SameWrite(RowExecution(dbs[i], key), RowExecution(dbs[q], key)) {
      RowReadsExecution(dbs[q], states[q], key);
    }
  }

  /** No reserved write is lost in the database: an execution a row holds is carried by the row throughout, for the same business action, or up to a step that released it under its token after its result was recorded. */
  lemma DatabaseLosesNoWrite(s: Store, dbs: seq<Database>, steps: seq<Step>, key: WorkflowKey, i: nat, j: nat)
    requires DatabaseRun(dbs, steps) && Mirrors(dbs[0], s) && StoreInv(s) && LawfulRun(s, dbs, steps)
    requires i <= j < |dbs| && RowHolds(dbs[i], key)
    ensures RowsCarry(dbs, key, i, j)
            || exists m :: i <= m < j && RowsCarry(dbs, key, i, m) && ReleasesRow(dbs[m], steps[m], key)
  {
    DatabaseRunsAreStoreRuns(s, dbs, steps);
    var states, calls := StatesBeside(s, dbs, steps), CallsBeside(dbs, steps);
    RowReadsExecution(dbs[i], states[i], key);
    NoReservedWriteIsLost(states, calls, key, i, j);
    if Carried(states, key, i, j) {
      RowsCarryWhatStatesCarry(dbs, states, key, i, j);
    } else {
      var m :| i <= m < j && Carried(states, key, i, m) && ReleasedBy(states[m], calls[m], key);
      RowsCarryWhatStatesCarry(dbs, states, key, i, m);
      CallBesideStep(dbs, steps, m);
      ReleaseShowsInTheRow(dbs[m], steps[m], states[m], key);
    }
  }
}
