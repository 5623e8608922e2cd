/** The protocol over the database: its workers call the database store, and whatever they do there the protocol can do over the workflow store, so what holds in every reachable state of the one holds in every reachable state of the other. */
module DatabaseProtocol {
  import opened Base
  import opened Types
  import opened BusinessKey
  import opened WorkflowStore
  import opened Protocol
  import opened ProtocolSteps
  import opened DatabaseRows
  import opened DatabaseStore
  import opened DatabaseAnswers
  import opened LawfulCalls

  // ---- the system ---------------------------------------------------------------------------

  datatype DatabaseSystem = DatabaseSystem(
    db: Database, now: Time, workers: map<nat, Worker>, origin: map<string, OperationRequest>, log: seq<Event>)

  /** Its workers, without a store. */
  function Faced(d: DatabaseSystem): System { System(map[], d.now, d.workers, d.origin, d.log) }

  function Onto(db: Database, s: System): DatabaseSystem { DatabaseSystem(db, s.now, s.workers, s.origin, s.log) }

  function Moved(d: DatabaseSystem, db: Database, w: nat, x: Worker): DatabaseSystem { d.(db := db, workers := d.workers[w := x]) }

  /** `ListRecoverableExecutions`. */
  predicate RecoverableRow(c: Columns, stamp: Time) {
    || c.status == Active(ResultRecorded)
    || (c.status in {Active(Executing), Active(RecoveryRequired)} && c.lease.Some? && c.lease.value <= stamp)
  }

  /** The protocol's conditions, and a recovery scan reads rows; those that do not decode are passed over. */
  ghost predicate DatabaseEnabled(digest: Digest, d: DatabaseSystem, a: Action) {
    match a
    case ListCandidate(w, key, stamp) =>
      && w !in d.workers && stamp <= d.now && key in d.db
      && RecoverableRow(d.db[key].row.columns, stamp) && DecodeRow(d.db[key]).Some?
    case _ => Enabled(digest, Faced(d), a)
  }

  function LoadOnto(d: DatabaseSystem, w: nat, x: Worker, fault: Fault): DatabaseSystem
    requires x.Loading?
  {
    var (db, reply) := Asked(d.db, x.key, Load, d.now, fault);
    Moved(d, db, w, AfterLoad(x, reply))
  }

  function PersistOnto(d: DatabaseSystem, w: nat, x: Worker, fault: Fault): DatabaseSystem
    requires x.Persisting?
  {
    match PersistOp(x.current, x.outcome)
    case None => Moved(d, d.db, w, Ended(TurnPersisted))
    case Some(op) =>
      var (db, reply) := Asked(d.db, x.key, op, d.now, fault);
      Moved(d, db, w, AfterPersist(x, reply))
  }

  function ReserveOnto(d: DatabaseSystem, w: nat, x: Worker, fault: Fault): DatabaseSystem
    requires x.Reserving?
  {
    var (db, reply) := Asked(d.db, x.key, ReserveOp(x), d.now, fault);
    Moved(d, db, w, AfterReserve(x, reply))
  }

  function TakeoverOnto(
    digest: Digest, d: DatabaseSystem, w: nat, x: Worker, token: string, attemptID: string, fault: Fault): DatabaseSystem
    requires x.Listed? && x.candidate.execution.Some?
  {
    match TakeoverOp(x, token, attemptID)
    case None => Moved(d, d.db, w, Ended(RecoveryFailed))
    case Some(op) =>
      var (db, reply) := Asked(d.db, x.key, op, d.now, fault);
      var previous := x.candidate.execution.value.reservation.token;
      Moved(d, db, w, AfterTakeover(digest, x, reply)).(origin := if previous in d.origin then d.origin[token := d.origin[previous]] else d.origin)
  }

  function FinishRecordedOnto(d: DatabaseSystem, w: nat, x: Worker, fault: Fault): DatabaseSystem
    requires x.Listed? && x.candidate.execution.Some?
  {
    var e := x.candidate.execution.value;
    if e.result.None? then Moved(d, d.db, w, Ended(RecoveryFailed))
    else
      var (db, reply) := Asked(d.db, x.key, DeleteReserved(x.candidate.version, e.reservation.token), d.now, fault);
      Moved(d, db, w, Ended(if reply.Ok? then Recovered else RecoveryFailed))
  }

  function RecordOnto(d: DatabaseSystem, w: nat, t: Tenure, effect: Option<WriteEffect>, fault: Fault): DatabaseSystem {
    match RecordOp(t, effect, d.now)
    case None => Moved(d, d.db, w, GivenUp(t))
    case Some(op) =>
      var (db, reply) := Asked(d.db, t.key, op, d.now, fault);
      Moved(d, db, w, AfterRecord(t, reply)).(
        log := if Done(d.db, t.key, op, d.now, fault) then d.log + [Stored(w, t.token, effect.value)] else d.log)
  }

  function ReleaseOnto(d: DatabaseSystem, w: nat, t: Tenure, version: nat, fault: Fault): DatabaseSystem {
    var op := DeleteReserved(version, t.token);
    var (db, reply) := Asked(d.db, t.key, op, d.now, fault);
    Moved(d, db, w, AfterRelease(t, reply)).(
      log := if Done(d.db, t.key, op, d.now, fault) then d.log + [Let(w, t.token)] else d.log)
  }

  function Deferral(t: Tenure): Op { MarkRecoveryRequired(t.version, t.token, t.stamp + LEASE) }

  function DeferOnto(d: DatabaseSystem, w: nat, t: Tenure, fault: Fault): DatabaseSystem {
    var (db, reply) := Asked(d.db, t.key, Deferral(t), d.now, fault);
    Moved(d, db, w, Ended(RecoveryFailed))
  }

  ghost function DatabasePerform(digest: Digest, d: DatabaseSystem, a: Action): DatabaseSystem
    requires DatabaseEnabled(digest, d, a)
  {
    match a
    case ListCandidate(w, key, stamp) => Moved(d, d.db, w, Listed(key, DecodeRow(d.db[key]).value, stamp))
    case LoadStep(w, fault) => LoadOnto(d, w, d.workers[w], fault)
    case PersistStep(w, fault) => PersistOnto(d, w, d.workers[w], fault)
    case ReserveStep(w, fault) => ReserveOnto(d, w, d.workers[w], fault)
    case TakeoverStep(w, token, attemptID, fault) => TakeoverOnto(digest, d, w, d.workers[w], token, attemptID, fault)
    case FinishRecordedStep(w, fault) => FinishRecordedOnto(d, w, d.workers[w], fault)
    case RecordStep(w, fault) => RecordOnto(d, w, d.workers[w].tenure, d.workers[w].phase.effect, fault)
    case ReleaseStep(w, fault) => ReleaseOnto(d, w, d.workers[w].tenure, d.workers[w].phase.recordedVersion, fault)
    case DeferStep(w, fault) => DeferOnto(d, w, d.workers[w].tenure, fault)
    case _ => Onto(d.db, Perform(digest, Faced(d), a))
  }

  // ---- workers that no step tells apart ---------------------------------------------------------

  /** The same worker, but for the contents of the workflow it has seen; of that it looks at version and execution only. */
  predicate AlikeWorkers(x: Worker, y: Worker) {
    match x
    case Deciding(key, second, current) => y.Deciding? && y.key == key && y.second == second && Alike(current, y.current)
    case Persisting(key, second, current, outcome) =>
      y.Persisting? && y.key == key && y.second == second && Alike(current, y.current) && y.outcome == outcome
    case Reserving(key, second, current, snapshot, reservation, request) =>
      && y.Reserving? && y.key == key && y.second == second && Alike(current, y.current)
      && y.snapshot == snapshot && y.reservation == reservation && y.request == request
    case Listed(key, candidate, stamp) => y.Listed? && y.key == key && y.stamp == stamp && Alike(Some(candidate), Some(y.candidate))
    case _ => x == y
  }

  lemma AfterLoadAlike(x: Worker, a: Reply, b: Reply)
    requires x.Loading? && AlikeReplies(a, b)
    ensures AlikeWorkers(AfterLoad(x, a), AfterLoad(x, b))
  {
  }

  lemma AfterPersistAlike(x: Worker, y: Worker, a: Reply, b: Reply)
    requires x.Persisting? && AlikeWorkers(x, y) && AlikeReplies(a, b)
    ensures AlikeWorkers(AfterPersist(x, a), AfterPersist(y, b))
  {
  }

  lemma AfterReserveAlike(x: Worker, y: Worker, a: Reply, b: Reply)
    requires x.Reserving? && AlikeWorkers(x, y) && AlikeReplies(a, b)
    ensures AlikeWorkers(AfterReserve(x, a), AfterReserve(y, b))
  {
  }

  lemma AfterTakeoverAlike(digest: Digest, x: Worker, y: Worker, a: Reply, b: Reply)
    requires x.Listed? && AlikeWorkers(x, y) && AlikeReplies(a, b)
    ensures AlikeWorkers(AfterTakeover(digest, x, a), AfterTakeover(digest, y, b))
  {
  }

  lemma AfterRecordAlike(t: Tenure, a: Reply, b: Reply)
    requires AlikeReplies(a, b)
    ensures AfterRecord(t, a) == AfterRecord(t, b)
  {
  }

  lemma PersistsAlike(x: Worker, y: Worker)
    requires x.Persisting? && AlikeWorkers(x, y)
    ensures PersistOp(x.current, x.outcome) == PersistOp(y.current, y.outcome)
  {
  }

  lemma ReservesAlike(x: Worker, y: Worker)
    requires x.Reserving? && AlikeWorkers(x, y)
    ensures ReserveOp(x) == ReserveOp(y)
  {
  }

  lemma TakesOverAlike(x: Worker, y: Worker, token: string, attemptID: string)
    requires x.Listed? && x.candidate.execution.Some? && AlikeWorkers(x, y)
    ensures y.candidate.execution == x.candidate.execution && TakeoverOp(x, token, attemptID) == TakeoverOp(y, token, attemptID)
  {
  }

  // ---- following -----------------------------------------------------------------------------------

  /** The store mirrors the database, and beside it the same workers are in the same states. */
  predicate Follows(d: DatabaseSystem, s: System) {
    && Mirrors(d.db, s.store) && d.now == s.now && d.origin == s.origin && d.log == s.log
    && d.workers.Keys == s.workers.Keys && forall w | w in d.workers :: AlikeWorkers(d.workers[w], s.workers[w])
  }

  lemma WorkerFollows(d: DatabaseSystem, s: System, w: nat)
    requires Follows(d, s)
    ensures w in d.workers <==> w in s.workers
    ensures w in d.workers ==> AlikeWorkers(d.workers[w], s.workers[w])
  {
    assert w in d.workers.Keys <==> w in s.workers.Keys;
  }

  lemma MovedFollows(d: DatabaseSystem, s: System, db: Database, store: Store, w: nat, x: Worker, y: Worker,
                     origin: map<string, OperationRequest>, log: seq<Event>)
    requires Follows(d, s) && Mirrors(db, store) && AlikeWorkers(x, y)
    ensures Follows(Moved(d, db, w, x).(origin := origin, log := log), Replaced(s, store, w, y).(origin := origin, log := log))
  {
  }

  lemma MovedPlainly(d: DatabaseSystem, s: System, db: Database, store: Store, w: nat, x: Worker, y: Worker)
    requires Follows(d, s) && Mirrors(db, store) && AlikeWorkers(x, y)
    ensures Follows(Moved(d, db, w, x), Replaced(s, store, w, y))
  {
    MovedFollows(d, s, db, store, w, x, y, s.origin, s.log);
    assert Moved(d, db, w, x).(origin := s.origin, log := s.log) == Moved(d, db, w, x);
    assert Replaced(s, store, w, y).(origin := s.origin, log := s.log) == Replaced(s, store, w, y);
  }

  /** A call of the database and the store call behind it. */
  lemma CallFollows(d: DatabaseSystem, s: System, key: WorkflowKey, op: Op, fault: Fault) returns (behind: Fault)
    requires Follows(d, s) && StoreInv(s.store) && (CompleteKey(key) ==> Lawful(s.store, key, op))
    ensures behind == Behind(d.db, key, op, d.now, fault)
    ensures var (next, reply), (store, answer) := Asked(d.db, key, op, d.now, fault), Issue(s, key, op, behind);
            Mirrors(next, store) && AlikeReplies(reply, answer)
    ensures Done(d.db, key, op, d.now, fault) <==> Succeeds(s.store, CallOf(s, key, op, behind))
  {
    behind := Behind(d.db, key, op, d.now, fault);
    AnswerFollows(d.db, s, key, op, fault);
  }

  lemma LoadFollows(d: DatabaseSystem, s: System, w: nat, fault: Fault) returns (behind: Fault)
    requires Follows(d, s) && StoreInv(s.store) && w in d.workers && d.workers[w].Loading?
    ensures w in s.workers && s.workers[w].Loading? && Follows(LoadOnto(d, w, d.workers[w], fault), LoadPerformed(s, w, s.workers[w], behind))
  {
    WorkerFollows(d, s, w);
    var x := d.workers[w];
    behind := CallFollows(d, s, x.key, Load, fault);
    var (next, reply) := Asked(d.db, x.key, Load, d.now, fault);
    var (store, answer) := Issue(s, x.key, Load, behind);
    AfterLoadAlike(x, reply, answer);
    MovedPlainly(d, s, next, store, w, AfterLoad(x, reply), AfterLoad(x, answer));
  }

  lemma PersistFollows(d: DatabaseSystem, s: System, w: nat, fault: Fault) returns (behind: Fault)
    requires Follows(d, s) && StoreInv(s.store) && w in d.workers && d.workers[w].Persisting?
    ensures w in s.workers && s.workers[w].Persisting?
    ensures Follows(PersistOnto(d, w, d.workers[w], fault), PersistPerformed(s, w, s.workers[w], behind))
  {
    WorkerFollows(d, s, w);
    var x, y := d.workers[w], s.workers[w];
    PersistsAlike(x, y);
    match PersistOp(x.current, x.outcome)
    case None =>
      behind := fault;
      MovedPlainly(d, s, d.db, s.store, w, Ended(TurnPersisted), Ended(TurnPersisted));
    case Some(op) =>
      behind := CallFollows(d, s, x.key, op, fault);
      var (next, reply) := Asked(d.db, x.key, op, d.now, fault);
      var (store, answer) := Issue(s, x.key, op, behind);
      AfterPersistAlike(x, y, reply, answer);
      MovedPlainly(d, s, next, store, w, AfterPersist(x, reply), AfterPersist(y, answer));
  }

  lemma ReserveFollows(d: DatabaseSystem, s: System, w: nat, fault: Fault) returns (behind: Fault)
    requires Follows(d, s) && StoreInv(s.store) && w in d.workers && d.workers[w].Reserving?
    ensures w in s.workers && s.workers[w].Reserving?
    ensures Follows(ReserveOnto(d, w, d.workers[w], fault), ReservePerformed(s, w, s.workers[w], behind))
  {
    WorkerFollows(d, s, w);
    var x, y := d.workers[w], s.workers[w];
    ReservesAlike(x, y);
    var op := ReserveOp(x);
    behind := CallFollows(d, s, x.key, op, fault);
    var (next, reply) := Asked(d.db, x.key, op, d.now, fault);
    var (store, answer) := Issue(s, x.key, op, behind);
    AfterReserveAlike(x, y, reply, answer);
    MovedPlainly(d, s, next, store, w, AfterReserve(x, reply), AfterReserve(y, answer));
  }

  lemma TakeoverFollows(
    digest: Digest, d: DatabaseSystem, s: System, w: nat, token: string, attemptID: string, fault: Fault) returns (behind: Fault)
    requires Follows(d, s) && StoreInv(s.store) && w in d.workers && d.workers[w].Listed? && d.workers[w].candidate.execution.Some?
    requires w in s.workers && s.workers[w].Listed? && s.workers[w].candidate.execution.Some?
    requires forall op | TakeoverOp(s.workers[w], token, attemptID) == Some(op) :: Lawful(s.store, s.workers[w].key, op)
    ensures Follows(TakeoverOnto(digest, d, w, d.workers[w], token, attemptID, fault),
                    TakeoverPerformed(digest, s, w, s.workers[w], token, attemptID, behind))
  {
    WorkerFollows(d, s, w);
    var x, y := d.workers[w], s.workers[w];
    TakesOverAlike(x, y, token, attemptID);
    match TakeoverOp(x, token, attemptID)
    case None =>
      behind := fault;
      MovedPlainly(d, s, d.db, s.store, w, Ended(RecoveryFailed), Ended(RecoveryFailed));
    case Some(op) =>
      behind := CallFollows(d, s, x.key, op, fault);
      var (next, reply) := Asked(d.db, x.key, op, d.now, fault);
      var (store, answer) := Issue(s, x.key, op, behind);
      AfterTakeoverAlike(digest, x, y, reply, answer);
      TracedFollows(d, s, next, store, w, AfterTakeover(digest, x, reply), AfterTakeover(digest, y, answer),
                    x.candidate.execution.value.reservation.token, token);
  }

  lemma TracedFollows(d: DatabaseSystem, s: System, db: Database, store: Store, w: nat, x: Worker, y: Worker, previous: string, token: string)
    requires Follows(d, s) && Mirrors(db, store) && AlikeWorkers(x, y)
    ensures var traced := if previous in s.origin then s.(origin := s.origin[token := s.origin[previous]]) else s;
            Follows(Moved(d, db, w, x).(origin := if previous in d.origin then d.origin[token := d.origin[previous]] else d.origin),
                    Replaced(traced, store, w, y))
  {
    var origin := if previous in d.origin then d.origin[token := d.origin[previous]] else d.origin;
    var traced := if previous in s.origin then s.(origin := s.origin[token := s.origin[previous]]) else s;
    MovedFollows(d, s, db, store, w, x, y, origin, s.log);
    assert Replaced(s, store, w, y).(origin := origin, log := s.log) == Replaced(traced, store, w, y);
  }

  lemma FinishRecordedFollows(d: DatabaseSystem, s: System, w: nat, fault: Fault) returns (behind: Fault)
    requires Follows(d, s) && StoreInv(s.store) && w in d.workers && d.workers[w].Listed? && d.workers[w].candidate.execution.Some?
    ensures w in s.workers && s.workers[w].Listed? && s.workers[w].candidate.execution.Some?
    ensures Follows(FinishRecordedOnto(d, w, d.workers[w], fault), FinishRecordedPerformed(s, w, s.workers[w], behind))
  {
    WorkerFollows(d, s, w);
    var x, y := d.workers[w], s.workers[w];
    var e := x.candidate.execution.value;
    if e.result.None? {
      behind := fault;
      MovedPlainly(d, s, d.db, s.store, w, Ended(RecoveryFailed), Ended(RecoveryFailed));
    } else {
      var op := DeleteReserved(x.candidate.version, e.reservation.token);
      behind := CallFollows(d, s, x.key, op, fault);
      var (next, reply) := Asked(d.db, x.key, op, d.now, fault);
      var (store, answer) := Issue(s, x.key, op, behind);
      var ending := Ended(if reply.Ok? then Recovered else RecoveryFailed);
      MovedPlainly(d, s, next, store, w, ending, ending);
    }
  }

  lemma RecordFollows(d: DatabaseSystem, s: System, w: nat, t: Tenure, effect: Option<WriteEffect>, fault: Fault) returns (behind: Fault)
    requires Follows(d, s) && StoreInv(s.store) && w in d.workers
    ensures Follows(RecordOnto(d, w, t, effect, fault), RecordPerformed(s, w, t, effect, behind))
  {
    match RecordOp(t, effect, d.now)
    case None =>
      behind := fault;
      MovedPlainly(d, s, d.db, s.store, w, GivenUp(t), GivenUp(t));
    case Some(op) =>
      behind := CallFollows(d, s, t.key, op, fault);
      var (next, reply) := Asked(d.db, t.key, op, d.now, fault);
      var (store, answer) := Issue(s, t.key, op, behind);
      AfterRecordAlike(t, reply, answer);
      LoggedFollows(d, s, next, store, w, AfterRecord(t, reply), Stored(w, t.token, effect.value), Done(d.db, t.key, op, d.now, fault));
  }

  lemma LoggedFollows(d: DatabaseSystem, s: System, db: Database, store: Store, w: nat, x: Worker, event: Event, done: bool)
    requires Follows(d, s) && Mirrors(db, store) && AlikeWorkers(x, x)
    ensures Follows(Moved(d, db, w, x).(log := if done then d.log + [event] else d.log),
                    Replaced(s, store, w, x).(log := if done then s.log + [event] else s.log))
  {
    var log := if done then d.log + [event] else d.log;
    MovedFollows(d, s, db, store, w, x, x, s.origin, log);
    assert Moved(d, db, w, x).(origin := s.origin, log := log) == Moved(d, db, w, x).(log := log);
  }

  lemma ReleaseFollows(d: DatabaseSystem, s: System, w: nat, t: Tenure, version: nat, fault: Fault) returns (behind: Fault)
    requires Follows(d, s) && StoreInv(s.store) && w in d.workers
    ensures Follows(ReleaseOnto(d, w, t, version, fault), ReleasePerformed(s, w, t, version, behind))
  {
    var op := DeleteReserved(version, t.token);
    behind := CallFollows(d, s, t.key, op, fault);
    var (next, reply) := Asked(d.db, t.key, op, d.now, fault);
    var (store, answer) := Issue(s, t.key, op, behind);
    assert AfterRelease(t, reply) == AfterRelease(t, answer);
    LoggedFollows(d, s, next, store, w, AfterRelease(t, reply), Let(w, t.token), Done(d.db, t.key, op, d.now, fault));
  }

  lemma DeferFollows(d: DatabaseSystem, s: System, w: nat, t: Tenure, fault: Fault) returns (behind: Fault)
    requires Follows(d, s) && StoreInv(s.store) && w in d.workers && Lawful(s.store, t.key, Deferral(t))
    ensures Follows(DeferOnto(d, w, t, fault), DeferPerformed(s, w, t, behind))
  {
    var op := Deferral(t);
    behind := CallFollows(d, s, t.key, op, fault);
    var (next, reply) := Asked(d.db, t.key, op, d.now, fault);
    var (store, answer) := Issue(s, t.key, op, behind);
    MovedPlainly(d, s, next, store, w, Ended(RecoveryFailed), Ended(RecoveryFailed));
    DeferringIs(s, w, t, op, behind);
  }

  lemma DeferringIs(s: System, w: nat, t: Tenure, op: Op, fault: Fault)
    requires op == Deferral(t)
    ensures DeferPerformed(s, w, t, fault) == Replaced(s, Issue(s, t.key, op, fault).0, w, Ended(RecoveryFailed))
  {
  }

  // ---- steps without a call ---------------------------------------------------------------------------

  lemma RecoverableRowsAreRecoverable(c: Columns, stamp: Time)
    requires RecoverableRow(c, stamp) && DecodeExecution(c) != Decoded.Refused
    ensures DecodeExecution(c).Is? && Recoverable(DecodeExecution(c).execution, stamp)
  {
  }

  lemma ListFollows(d: DatabaseSystem, s: System, w: nat, key: WorkflowKey, stamp: Time)
    requires Follows(d, s) && StoreInv(s.store) && key in d.db && RecoverableRow(d.db[key].row.columns, stamp) && DecodeRow(d.db[key]).Some?
    ensures HasExecution(s.store, key) && Recoverable(ExecutionAt(s.store, key), stamp)
    ensures Follows(Moved(d, d.db, w, Listed(key, DecodeRow(d.db[key]).value, stamp)),
                    Replaced(s, s.store, w, Listed(key, Seen(s.store[key]), stamp)))
  {
    RowAlike(d.db, s.store, key);
    RowReadsExecution(d.db, s.store, key);
    DecodedRowsDecode(d.db[key]);
    RecoverableRowsAreRecoverable(d.db[key].row.columns, stamp);
    MovedPlainly(d, s, d.db, s.store, w, Listed(key, DecodeRow(d.db[key]).value, stamp), Listed(key, Seen(s.store[key]), stamp));
  }

  lemma DecodedRowsDecode(r: FullRow)
    requires DecodeRow(r).Some?
    ensures DecodeExecution(r.row.columns) != Decoded.Refused
  {
  }

  lemma CoordinatedAlike(d: DatabaseSystem, s: System, x: Worker, y: Worker, outcome: TurnOutcome, request: OperationRequest, token: string)
    requires d.now == s.now && x.Deciding? && AlikeWorkers(x, y)
    ensures AlikeWorkers(Coordinated(Faced(d), x, outcome, request, token), Coordinated(s, y, outcome, request, token))
  {
  }

  lemma DecideFollows(d: DatabaseSystem, s: System, w: nat, outcome: TurnOutcome, token: string)
    requires Follows(d, s) && w in d.workers && d.workers[w].Deciding?
    ensures w in s.workers && s.workers[w].Deciding?
    ensures Follows(Onto(d.db, DecidePerformed(Faced(d), w, d.workers[w], outcome, token)), DecidePerformed(s, w, s.workers[w], outcome, token))
  {
    WorkerFollows(d, s, w);
    var x, y := d.workers[w], s.workers[w];
    match outcome.prepared
    case None =>
      MovedPlainly(d, s, d.db, s.store, w, Persisting(x.key, x.second, x.current, outcome), Persisting(y.key, y.second, y.current, outcome));
    case Some(request) =>
      CoordinatedAlike(d, s, x, y, outcome, request, token);
      MovedFollows(d, s, d.db, s.store, w, Coordinated(Faced(d), x, outcome, request, token), Coordinated(s, y, outcome, request, token),
                   s.origin[token := request], s.log);
  }

  /** A step of the worker alone, with at most one event. */
  lemma LoneStepFollows(d: DatabaseSystem, s: System, w: nat, x: Worker, log: seq<Event>)
    requires Follows(d, s)
    ensures Follows(Onto(d.db, Replaced(Faced(d), map[], w, x).(log := log)), Replaced(s, s.store, w, x).(log := log))
  {
    MovedFollows(d, s, d.db, s.store, w, x, x, s.origin, log);
  }

  // ---- every step ------------------------------------------------------------------------------------

  /** The protocol can do beside it what the database's workers do. */
  ghost predicate StepFollows(digest: Digest, d: DatabaseSystem, s: System, a: Action, b: Action)
    requires DatabaseEnabled(digest, d, a)
  {
    Enabled(digest, s, b) && Follows(DatabasePerform(digest, d, a), Perform(digest, s, b))
  }

  lemma FollowsStep(digest: Digest, d: DatabaseSystem, s: System, a: Action, b: Action, e: DatabaseSystem, t: System)
    requires DatabaseEnabled(digest, d, a) && DatabasePerform(digest, d, a) == e && Enabled(digest, s, b) && Perform(digest, s, b) == t
    requires Follows(e, t)
    ensures StepFollows(digest, d, s, a, b)
  {
  }

  lemma LoadStepFollows(digest: Digest, d: DatabaseSystem, s: System, a: Action) returns (b: Action)
    requires Follows(d, s) && StoreInv(s.store) && a.LoadStep? && DatabaseEnabled(digest, d, a)
    ensures StepFollows(digest, d, s, a, b)
  {
    var behind := LoadFollows(d, s, a.worker, a.fault);
    b := LoadStep(a.worker, behind);
  }

  lemma PersistStepFollows(digest: Digest, d: DatabaseSystem, s: System, a: Action) returns (b: Action)
    requires Follows(d, s) && StoreInv(s.store) && a.PersistStep? && DatabaseEnabled(digest, d, a)
    ensures StepFollows(digest, d, s, a, b)
  {
    var behind := PersistFollows(d, s, a.worker, a.fault);
    b := PersistStep(a.worker, behind);
  }

  lemma ReserveStepFollows(digest: Digest, d: DatabaseSystem, s: System, a: Action) returns (b: Action)
    requires Follows(d, s) && StoreInv(s.store) && a.ReserveStep? && DatabaseEnabled(digest, d, a)
    ensures StepFollows(digest, d, s, a, b)
  {
    var behind := ReserveFollows(d, s, a.worker, a.fault);
    b := ReserveStep(a.worker, behind);
  }

  lemma SameActionEnabled(digest: Digest, d: DatabaseSystem, s: System, a: Action)
    requires Follows(d, s) && DatabaseEnabled(digest, d, a) && (a.TakeoverStep? || a.DeferStep? || a.FinishRecordedStep?)
    ensures Enabled(digest, s, a)
  {
    WorkerFollows(d, s, a.worker);
  }

  lemma TakeoverCall(digest: Digest, s: System, a: Action, op: Op)
    requires a.TakeoverStep? && Enabled(digest, s, a) && TakeoverOp(s.workers[a.worker], a.token, a.attemptID) == Some(op)
    ensures StoreCall(digest, s, a).key == s.workers[a.worker].key && StoreCall(digest, s, a).op == op
  {
  }

  lemma TakeoverStepFollows(digest: Digest, d: DatabaseSystem, s: System, a: Action) returns (b: Action)
    requires Follows(d, s) && Reachable(digest, s) && StoreInv(s.store) && a.TakeoverStep? && DatabaseEnabled(digest, d, a)
    ensures StepFollows(digest, d, s, a, b)
  {
    SameActionEnabled(digest, d, s, a);
    ProtocolCallsAreLawful(digest, s, a);
    forall op | TakeoverOp(s.workers[a.worker], a.token, a.attemptID) == Some(op) ensures Lawful(s.store, s.workers[a.worker].key, op) {
      TakeoverCall(digest, s, a, op);
    }
    var behind := TakeoverFollows(digest, d, s, a.worker, a.token, a.attemptID, a.fault);
    b := TakeoverStep(a.worker, a.token, a.attemptID, behind);
  }

  lemma FinishStepFollows(digest: Digest, d: DatabaseSystem, s: System, a: Action) returns (b: Action)
    requires Follows(d, s) && StoreInv(s.store) && a.FinishRecordedStep? && DatabaseEnabled(digest, d, a)
    ensures StepFollows(digest, d, s, a, b)
  {
    SameActionEnabled(digest, d, s, a);
    var behind := FinishRecordedFollows(d, s, a.worker, a.fault);
    b := FinishRecordedStep(a.worker, behind);
  }

  lemma RecordStepFollows(digest: Digest, d: DatabaseSystem, s: System, a: Action) returns (b: Action)
    requires Follows(d, s) && StoreInv(s.store) && a.RecordStep? && DatabaseEnabled(digest, d, a)
    ensures StepFollows(digest, d, s, a, b)
  {
    WorkerFollows(d, s, a.worker);
    var behind := RecordFollows(d, s, a.worker, d.workers[a.worker].tenure, d.workers[a.worker].phase.effect, a.fault);
    b := RecordStep(a.worker, behind);
  }

  lemma ReleaseStepFollows(digest: Digest, d: DatabaseSystem, s: System, a: Action) returns (b: Action)
    requires Follows(d, s) && StoreInv(s.store) && a.ReleaseStep? && DatabaseEnabled(digest, d, a)
    ensures StepFollows(digest, d, s, a, b)
  {
    WorkerFollows(d, s, a.worker);
    var x := d.workers[a.worker];
    var behind := ReleaseFollows(d, s, a.worker, x.tenure, x.phase.recordedVersion, a.fault);
    b := ReleaseStep(a.worker, behind);
  }

  lemma DeferCall(digest: Digest, s: System, a: Action)
    requires a.DeferStep? && Enabled(digest, s, a)
    ensures var t, c := s.workers[a.worker].tenure, StoreCall(digest, s, a);
            c.key == t.key && c.op == Deferral(t)
  {
  }

  lemma DeferStepFollows(digest: Digest, d: DatabaseSystem, s: System, w: nat, fault: Fault)
    requires Follows(d, s) && Reachable(digest, s) && StoreInv(s.store) && DatabaseEnabled(digest, d, DeferStep(w, fault))
    ensures exists b :: StepFollows(digest, d, s, DeferStep(w, fault), b)
  {
    DeferringWorker(digest, d, w, fault);
    WorkerFollows(d, s, w);
    var t := d.workers[w].tenure;
    DeferStepIs(digest, s, w, t, fault);
    DeferralIsCalledLawfully(digest, s, w, t, fault);
    var b := DeferringFollows(digest, d, s, w, t, fault);
  }

  lemma DeferringWorker(digest: Digest, d: DatabaseSystem, w: nat, fault: Fault)
    requires DatabaseEnabled(digest, d, DeferStep(w, fault))
    ensures w in d.workers && d.workers[w].Deferring?
  {
  }

  lemma DeferringFollows(digest: Digest, d: DatabaseSystem, s: System, w: nat, t: Tenure, fault: Fault) returns (b: Action)
    requires Follows(d, s) && StoreInv(s.store) && w in d.workers && w in s.workers && s.workers[w] == Deferring(t)
    requires Lawful(s.store, t.key, Deferral(t))
    ensures DatabaseEnabled(digest, d, DeferStep(w, fault)) && StepFollows(digest, d, s, DeferStep(w, fault), b)
  {
    WorkerFollows(d, s, w);
    var behind := DeferFollows(d, s, w, t, fault);
    b := DeferStep(w, behind);
    DeferStepIs(digest, s, w, t, behind);
    DeferStepOnto(digest, d, w, t, fault);
    FollowsStep(digest, d, s, DeferStep(w, fault), b, DeferOnto(d, w, t, fault), DeferPerformed(s, w, t, behind));
  }

  lemma DeferralIsCalledLawfully(digest: Digest, s: System, w: nat, t: Tenure, fault: Fault)
    requires Reachable(digest, s) && w in s.workers && s.workers[w] == Deferring(t) && Enabled(digest, s, DeferStep(w, fault))
    ensures Lawful(s.store, t.key, Deferral(t))
  {
    ProtocolCallsAreLawful(digest, s, DeferStep(w, fault));
    DeferCall(digest, s, DeferStep(w, fault));
  }

  lemma DeferStepIs(digest: Digest, s: System, w: nat, t: Tenure, fault: Fault)
    requires w in s.workers && s.workers[w] == Deferring(t)
    ensures Enabled(digest, s, DeferStep(w, fault)) && Perform(digest, s, DeferStep(w, fault)) == DeferPerformed(s, w, t, fault)
  {
  }

  lemma DeferStepOnto(digest: Digest, d: DatabaseSystem, w: nat, t: Tenure, fault: Fault)
    requires w in d.workers && d.workers[w] == Deferring(t)
    ensures DatabaseEnabled(digest, d, DeferStep(w, fault)) && DatabasePerform(digest, d, DeferStep(w, fault)) == DeferOnto(d, w, t, fault)
  {
  }

  lemma DecideStepFollows(digest: Digest, d: DatabaseSystem, s: System, a: Action)
    requires Follows(d, s) && a.DecideStep? && DatabaseEnabled(digest, d, a)
    ensures StepFollows(digest, d, s, a, a)
  {
    WorkerFollows(d, s, a.worker);
    DecideFollows(d, s, a.worker, a.outcome, a.token);
  }

  lemma ExecuteStepFollows(digest: Digest, d: DatabaseSystem, s: System, a: Action)
    requires Follows(d, s) && (a.ExecuteStep? || a.ReturnStep?) && DatabaseEnabled(digest, d, a)
    ensures StepFollows(digest, d, s, a, a)
  {
    WorkerFollows(d, s, a.worker);
    var t := d.workers[a.worker].tenure;
    if a.ExecuteStep? {
      LoneStepFollows(d, s, a.worker, Holding(t, Running(s.now)), s.log + [Began(a.worker, t.token)]);
    } else {
      LoneStepFollows(d, s, a.worker, Holding(t, Returned(a.effect)), s.log + [Answered(a.worker, t.token, a.effect)]);
    }
  }

  lemma ComingAndGoingFollows(digest: Digest, d: DatabaseSystem, s: System, a: Action)
    requires Follows(d, s) && (a.Message? || a.CrashStep?) && DatabaseEnabled(digest, d, a)
    ensures StepFollows(digest, d, s, a, a)
  {
    WorkerFollows(d, s, a.worker);
    LoneStepFollows(d, s, a.worker, if a.Message? then Loading(a.key, false) else Ended(Crashed), s.log);
  }

  lemma ListStepFollows(digest: Digest, d: DatabaseSystem, s: System, a: Action)
    requires Follows(d, s) && StoreInv(s.store) && a.ListCandidate? && DatabaseEnabled(digest, d, a)
    ensures StepFollows(digest, d, s, a, a)
  {
    WorkerFollows(d, s, a.worker);
    ListFollows(d, s, a.worker, a.key, a.stamp);
  }

  lemma TickFollows(digest: Digest, d: DatabaseSystem, s: System, duration: nat)
    requires Follows(d, s) && DatabaseEnabled(digest, d, Tick(duration))
    ensures exists b :: StepFollows(digest, d, s, Tick(duration), b)
  {
    var until := s.now + duration;
    TickOnto(digest, d, duration);
    DeadlinesFollow(d, s, until);
    TimeFollows(d, s, until);
    TickIs(digest, s, duration);
    FollowsStep(digest, d, s, Tick(duration), Tick(duration), d.(now := until), s.(now := until));
  }

  lemma TickOnto(digest: Digest, d: DatabaseSystem, duration: nat)
    requires DatabaseEnabled(digest, d, Tick(duration))
    ensures DatabasePerform(digest, d, Tick(duration)) == d.(now := d.now + duration)
    ensures DeadlinesHonoured(Faced(d), d.now + duration)
  {
  }

  lemma TickIs(digest: Digest, s: System, duration: nat)
    requires DeadlinesHonoured(s, s.now + duration)
    ensures Enabled(digest, s, Tick(duration)) && Perform(digest, s, Tick(duration)) == s.(now := s.now + duration)
  {
  }

  lemma TimeFollows(d: DatabaseSystem, s: System, now: Time)
    requires Follows(d, s)
    ensures Follows(d.(now := now), s.(now := now))
  {
  }

  lemma HoldersAreTheSame(d: DatabaseSystem, s: System, w: nat)
    requires Follows(d, s)
    ensures (w in d.workers && d.workers[w].Holding?) || (w in s.workers && s.workers[w].Holding?) ==>
              w in d.workers && w in s.workers && d.workers[w] == s.workers[w]
  {
    WorkerFollows(d, s, w);
  }

  lemma DeadlinesFollow(d: DatabaseSystem, s: System, until: Time)
    requires Follows(d, s) && DeadlinesHonoured(Faced(d), until)
    ensures DeadlinesHonoured(s, until)
  {
    forall w | w in s.workers && s.workers[w].Holding? && s.workers[w].phase.Running?
      ensures until <= s.workers[w].phase.startedAt + EXECUTOR_TIMEOUT
    {
      HoldersAreTheSame(d, s, w);
      assert Faced(d).workers[w] == s.workers[w];
    }
  }
}
