/** Chat turns and recovery workers as small-step processes over one store: every store call is a step, time passes and workers crash in between, and any call may be refused or lose its reply. */
module Protocol {
  import opened Base
  import opened Types
  import opened ReservationCodec
  import opened BusinessKey
  import opened Recovery
  import opened WorkflowStore

  const LEASE: nat := 2 * MINUTE
  const EXECUTOR_TIMEOUT: nat := 90 * SECOND

  // ---- processes ---------------------------------------------------------------

  /** What the pipeline decided for one turn. */
  datatype TurnOutcome = TurnOutcome(
    requestID: string, prepared: Option<OperationRequest>, after: Option<WorkflowSnapshot>, clear: bool)

  /** A reservation as the worker that installed it knows it. */
  datatype Tenure = Tenure(
    key: WorkflowKey, token: string, version: nat, stamp: Time, expires: Time, request: OperationRequest, recovering: bool)

  datatype Phase =
    | Installed
    | Running(startedAt: Time)
    | Returned(effect: Option<WriteEffect>)
    | ResultStored(recordedVersion: nat)

  datatype Ending =
    | TurnPersisted | WriteCompleted(token: string) | WritePending | ConflictRefused | StoreUnavailable
    | Recovered | RecoveryFailed | Crashed

  datatype Worker =
    // a chat turn; `second` is the retry after one version conflict
    | Loading(key: WorkflowKey, second: bool)
    | Deciding(key: WorkflowKey, second: bool, current: Option<VersionedWorkflow>)
    | Persisting(key: WorkflowKey, second: bool, current: Option<VersionedWorkflow>, outcome: TurnOutcome)
    | Reserving(key: WorkflowKey, second: bool, current: Option<VersionedWorkflow>,
                snapshot: WorkflowSnapshot, reservation: Reservation, request: OperationRequest)
    // recovery of one listed candidate; `stamp` is the batch's clock reading
    | Listed(key: WorkflowKey, candidate: VersionedWorkflow, stamp: Time)
    // both, once a reservation or takeover succeeded
    | Holding(tenure: Tenure, phase: Phase)
    | Deferring(tenure: Tenure)
    | Ended(ending: Ending)

  /** What the world saw: executor calls and what they answered, accepted results and releases, in order. */
  datatype Event =
    | Began(worker: nat, token: string)
    | Answered(worker: nat, token: string, answer: Option<WriteEffect>)
    | Stored(worker: nat, token: string, effect: WriteEffect)
    | Let(worker: nat, token: string)

  /** A write from the executor call to the release: the effect recorded is the one the executor answered. */
  function WholeStory(w: nat, token: string, effect: WriteEffect): seq<Event> {
    [Began(w, token), Answered(w, token, Some(effect)), Stored(w, token, effect), Let(w, token)]
  }

  /** `origin` remembers which prepared request each generated token stands for. */
  datatype System = System(
    store: Store, now: Time, workers: map<nat, Worker>, origin: map<string, OperationRequest>, log: seq<Event>)

  /** How a call fares. `Own`: the store carries it out by its own clock, which may be behind, and keeps its own form of a snapshot it is handed. */
  datatype Fault = Sound | Refused | ReplyLost | Own(clock: Time, kept: Option<WorkflowSnapshot>, lost: bool)

  datatype Action =
    | Tick(duration: nat)
    | Message(worker: nat, key: WorkflowKey)
    | ListCandidate(worker: nat, key: WorkflowKey, stamp: Time)
    | LoadStep(worker: nat, fault: Fault)
    | DecideStep(worker: nat, outcome: TurnOutcome, token: string)
    | PersistStep(worker: nat, fault: Fault)
    | ReserveStep(worker: nat, fault: Fault)
    | TakeoverStep(worker: nat, token: string, attemptID: string, fault: Fault)
    | FinishRecordedStep(worker: nat, fault: Fault)
    | ExecuteStep(worker: nat)
    | ReturnStep(worker: nat, effect: Option<WriteEffect>)
    | RecordStep(worker: nat, fault: Fault)
    | ReleaseStep(worker: nat, fault: Fault)
    | DeferStep(worker: nat, fault: Fault)
    | CrashStep(worker: nat)

  // ---- store calls ---------------------------------------------------------------

  function CallOf(s: System, key: WorkflowKey, op: Op, fault: Fault): Call {
    match fault
    case Own(clock, kept, _) => Call(key, Keeping(op, kept), if clock < s.now then clock else s.now, false)
    case _ => Call(key, op, s.now, fault == Fault.Refused)
  }

  /** The snapshot an operation hands to the store. */
  function SnapshotIn(op: Op): Option<WorkflowSnapshot> {
    match op
    case Create(next) => next
    case CompareAndSwap(_, next) => next
    case CreateReserved(next, _) => next
    case Reserve(_, next, _) => next
    case Finalize(_, _, next) => next
    case _ => None
  }

  /** The operation with the store's own form of the snapshot. */
  function Keeping(op: Op, kept: Option<WorkflowSnapshot>): Op {
    if kept.None? then op
    else match op
      case Create(Some(_)) => Create(kept)
      case CompareAndSwap(expected, Some(_)) => CompareAndSwap(expected, kept)
      case CreateReserved(Some(_), r) => CreateReserved(kept, r)
      case Reserve(expected, Some(_), r) => Reserve(expected, kept, r)
      case Finalize(expected, token, Some(_)) => Finalize(expected, token, kept)
      case _ => op
  }

  predicate Lost(fault: Fault) { fault == ReplyLost || (fault.Own? && fault.lost) }

  /** A store call as its caller experiences it: refused without effect, or carried out with the reply lost on the way. */
  function Issue(s: System, key: WorkflowKey, op: Op, fault: Fault): (Store, Reply) {
    var (store, reply) := Apply(s.store, CallOf(s, key, op, fault));
    (store, if Lost(fault) then Failed(ContextDone) else reply)
  }

  function Replaced(s: System, store: Store, worker: nat, next: Worker): System {
    s.(store := store, workers := s.workers[worker := next])
  }

  // ---- the chat turn -----------------------------------------------------------------

  /** `workflowHasActiveExecution`. */
  predicate ActiveExecution(current: Option<VersionedWorkflow>) {
    current.Some? && current.value.execution.Some? && Trim(current.value.execution.value.reservation.token) != ""
  }

  /** How the chat loop continues after a store error before any write started. */
  function AfterError(key: WorkflowKey, second: bool, error: StoreError): Worker {
    if error == Conflict then (if second then Ended(ConflictRefused) else Loading(key, true))
    else if error == InProgress then Ended(WritePending)
    else Ended(StoreUnavailable)
  }

  function AfterLoad(x: Worker, reply: Reply): Worker
    requires x.Loading?
  {
    match reply
    case Failed(_) => Ended(StoreUnavailable)
    case Ok(current) => if ActiveExecution(current) then Ended(WritePending) else Deciding(x.key, x.second, current)
  }

  function LoadPerformed(s: System, w: nat, x: Worker, fault: Fault): System
    requires x.Loading?
  {
    var (store, reply) := Issue(s, x.key, Load, fault);
    Replaced(s, store, w, AfterLoad(x, reply))
  }

  /** `reservationSnapshot`. */
  function ReservationSnapshot(outcome: TurnOutcome, request: OperationRequest, key: WorkflowKey, now: Time): Option<WorkflowSnapshot> {
    if outcome.after.Some? then Some(Clone(outcome.after.value))
    else if request.operation != Cancel then None
    else Some(WorkflowSnapshot(
      "execution-" + outcome.requestID, key.tenantID, key.actorUserID, key.conversationID,
      CancelSubscription, ReadyToRun, [], map[], map[], "", 0, 0, now + LEASE, 0, [], NOTHING_TRUSTED))
  }

  /** What the pipeline guarantees of a prepared request: it carries its business key and was built for this workflow key. */
  ghost predicate Admissible(digest: Digest, key: WorkflowKey, request: OperationRequest) {
    && request.operation in {Start, Cancel}
    && BusinessKeyFor(digest, request) == Some(request.idempotencyKey)
    && Belongs(key, request) && request.actorUserID == key.actorUserID
  }

  /** The head of `coordinatePreparedWrite`, up to the reservation call. */
  function Coordinated(s: System, x: Worker, outcome: TurnOutcome, request: OperationRequest, token: string): Worker
    requires x.Deciding?
  {
    var snapshot, params := ReservationSnapshot(outcome, request, x.key, s.now), PersistedParams(request.params);
    if x.current.Some? && x.current.value.execution.Some? then Ended(WritePending)
    else if snapshot.None? || params.None? then Ended(StoreUnavailable)
    else Reserving(x.key, x.second, x.current, snapshot.value,
      ReservationFor(request, request.idempotencyKey, params.value, token, outcome.requestID, s.now, LEASE), request)
  }

  function DecidePerformed(s: System, w: nat, x: Worker, outcome: TurnOutcome, token: string): System
    requires x.Deciding?
  {
    match outcome.prepared
    case None => Replaced(s, s.store, w, Persisting(x.key, x.second, x.current, outcome))
    case Some(request) =>
      Replaced(s, s.store, w, Coordinated(s, x, outcome, request, token)).(origin := s.origin[token := request])
  }

  /** `persistProtocolLiveWorkflowOutcome`: which call, if any, stores the turn. */
  function PersistOp(current: Option<VersionedWorkflow>, outcome: TurnOutcome): Option<Op> {
    if outcome.clear then (match current case None => None case Some(v) => Some(DeleteIfVersion(v.version)))
    else match outcome.after
      case None => None
      case Some(after) =>
        match current
        case None => Some(Create(Some(Clone(after))))
        case Some(v) => Some(CompareAndSwap(v.version, Some(Clone(after))))
  }

  function AfterPersist(x: Worker, reply: Reply): Worker
    requires x.Persisting?
  {
    match reply
    case Ok(_) => Ended(TurnPersisted)
    case Failed(error) => AfterError(x.key, x.second, error)
  }

  function PersistPerformed(s: System, w: nat, x: Worker, fault: Fault): System
    requires x.Persisting?
  {
    match PersistOp(x.current, x.outcome)
    case None => Replaced(s, s.store, w, Ended(TurnPersisted))
    case Some(op) =>
      var (store, reply) := Issue(s, x.key, op, fault);
      Replaced(s, store, w, AfterPersist(x, reply))
  }

  function ReserveOp(x: Worker): Op
    requires x.Reserving?
  {
    match x.current
    case None => CreateReserved(Some(x.snapshot), x.reservation)
    case Some(v) => Reserve(v.version, Some(x.snapshot), x.reservation)
  }

  function TenureOf(key: WorkflowKey, seen: VersionedWorkflow, stamp: Time, request: OperationRequest, recovering: bool): Tenure
    requires seen.execution.Some?
  {
    var r := seen.execution.value.reservation;
    Tenure(key, r.token, seen.version, stamp, r.leaseExpiresAt, request, recovering)
  }

  function AfterReserve(x: Worker, reply: Reply): Worker
    requires x.Reserving?
  {
    match reply
    case Failed(error) => AfterError(x.key, x.second, error)
    case Ok(seen) =>
      if seen.Some? && seen.value.execution.Some? then
        Holding(TenureOf(x.key, seen.value, x.reservation.startedAt, x.request, false), Installed)
      else Ended(StoreUnavailable)
  }

  function ReservePerformed(s: System, w: nat, x: Worker, fault: Fault): System
    requires x.Reserving?
  {
    var (store, reply) := Issue(s, x.key, ReserveOp(x), fault);
    Replaced(s, store, w, AfterReserve(x, reply))
  }

  // ---- recovery -----------------------------------------------------------------------

  /** `ListRecoverableExecutions`: recorded, or past its lease at the batch's clock reading. */
  predicate Recoverable(e: Execution, stamp: Time) {
    e.status == ResultRecorded || e.reservation.leaseExpiresAt <= stamp
  }

  function Successor(candidate: Execution, token: string, attemptID: string, stamp: Time): Reservation {
    CloneReservation(candidate.reservation).(
      token := token, attemptID := attemptID, startedAt := stamp, leaseExpiresAt := stamp + LEASE)
  }

  function FinishRecordedPerformed(s: System, w: nat, x: Worker, fault: Fault): System
    requires x.Listed? && x.candidate.execution.Some?
  {
    var e := x.candidate.execution.value;
    if e.result.None? then Replaced(s, s.store, w, Ended(RecoveryFailed))
    else
      var (store, reply) := Issue(s, x.key, DeleteReserved(x.candidate.version, e.reservation.token), fault);
      Replaced(s, store, w, Ended(if reply.Ok? then Recovered else RecoveryFailed))
  }

  /** The takeover of a listed candidate, if its lease had expired at the batch's clock reading. */
  function TakeoverOp(x: Worker, token: string, attemptID: string): Option<Op>
    requires x.Listed? && x.candidate.execution.Some?
  {
    var e := x.candidate.execution.value;
    if e.reservation.leaseExpiresAt > x.stamp then None
    else Some(Takeover(x.candidate.version, e.reservation.token, Successor(e, token, attemptID, x.stamp)))
  }

  /** After a takeover recovery rebuilds the request; one that cannot be rebuilt is deferred. */
  function AfterTakeover(digest: Digest, x: Worker, reply: Reply): Worker
    requires x.Listed?
  {
    match reply
    case Failed(_) => Ended(RecoveryFailed)
    case Ok(taken) =>
      if taken.None? || taken.value.execution.None? then Ended(RecoveryFailed)
      else
        var r := taken.value.execution.value.reservation;
        match RequestFromReservation(digest, x.key, r)
        case Some(request) => Holding(TenureOf(x.key, taken.value, x.stamp, request, true), Installed)
        case None => Deferring(TenureOf(x.key, taken.value, x.stamp, RecoveredRequest(x.key, r), true))
  }

  function TakeoverPerformed(
    digest: Digest, s: System, w: nat, x: Worker, token: string, attemptID: string, fault: Fault): System
    requires x.Listed? && x.candidate.execution.Some?
  {
    var e := x.candidate.execution.value;
    match TakeoverOp(x, token, attemptID)
    case None => Replaced(s, s.store, w, Ended(RecoveryFailed))
    case Some(op) =>
      var (store, reply) := Issue(s, x.key, op, fault);
      var traced :=
        if e.reservation.token in s.origin then s.(origin := s.origin[token := s.origin[e.reservation.token]]) else s;
      Replaced(traced, store, w, AfterTakeover(digest, x, reply))
  }

  // ---- under a token ---------------------------------------------------------------------

  /** Giving up on the result: a chat turn answers "pending", recovery defers. */
  function GivenUp(t: Tenure): Worker {
    if t.recovering then Deferring(t) else Ended(WritePending)
  }

  /** The call that records an effect, if the effect is one to record. */
  function RecordOp(t: Tenure, effect: Option<WriteEffect>, now: Time): Option<Op> {
    if effect.None? || !ValidEffect(effect.value) then None
    else Some(RecordResult(t.version, t.token, ExecutionResult(t.request.idempotencyKey, effect.value, now)))
  }

  function AfterRecord(t: Tenure, reply: Reply): Worker {
    match reply
    case Ok(Some(seen)) => Holding(t, ResultStored(seen.version))
    case _ => GivenUp(t)
  }

  function AfterRelease(t: Tenure, reply: Reply): Worker {
    Ended(
      if reply.Ok? then (if t.recovering then Recovered else WriteCompleted(t.token))
      else if t.recovering then RecoveryFailed else WritePending)
  }

  function RecordPerformed(s: System, w: nat, t: Tenure, effect: Option<WriteEffect>, fault: Fault): System {
    match RecordOp(t, effect, s.now)
    case None => Replaced(s, s.store, w, GivenUp(t))
    case Some(op) =>
      var (store, reply) := Issue(s, t.key, op, fault);
      Replaced(s, store, w, AfterRecord(t, reply)).(
        log := if Succeeds(s.store, CallOf(s, t.key, op, fault)) then s.log + [Stored(w, t.token, effect.value)] else s.log)
  }

  function ReleasePerformed(s: System, w: nat, t: Tenure, version: nat, fault: Fault): System {
    var op := DeleteReserved(version, t.token);
    var (store, reply) := Issue(s, t.key, op, fault);
    Replaced(s, store, w, AfterRelease(t, reply)).(
      log := if Succeeds(s.store, CallOf(s, t.key, op, fault)) then s.log + [Let(w, t.token)] else s.log)
  }

  function DeferPerformed(s: System, w: nat, t: Tenure, fault: Fault): System {
    var (store, _) := Issue(s, t.key, MarkRecoveryRequired(t.version, t.token, t.stamp + LEASE), fault);
    Replaced(s, store, w, Ended(RecoveryFailed))
  }

  // ---- the system ---------------------------------------------------------------------------

  /** The executor honours its timeout: time does not pass a running executor's deadline. */
  predicate DeadlinesHonoured(s: System, now: Time) {
    forall w | w in s.workers && s.workers[w].Holding? && s.workers[w].phase.Running? ::
      now <= s.workers[w].phase.startedAt + EXECUTOR_TIMEOUT
  }

  predicate Generates(s: System, token: string) { Identifier(token) && token !in s.origin }

  /** When an action can happen. */
  ghost predicate Enabled(digest: Digest, s: System, a: Action) {
    match a
    case Tick(duration) => DeadlinesHonoured(s, s.now + duration)
    case Message(w, key) => w !in s.workers
    case ListCandidate(w, key, stamp) =>
      w !in s.workers && stamp <= s.now && HasExecution(s.store, key) && Recoverable(ExecutionAt(s.store, key), stamp)
    case LoadStep(w, _) => w in s.workers && s.workers[w].Loading?
    case DecideStep(w, outcome, token) =>
      && w in s.workers && s.workers[w].Deciding? && Generates(s, token)
      && (outcome.prepared.Some? ==> Admissible(digest, s.workers[w].key, outcome.prepared.value))
    case PersistStep(w, _) => w in s.workers && s.workers[w].Persisting?
    case ReserveStep(w, _) => w in s.workers && s.workers[w].Reserving?
    case TakeoverStep(w, token, attemptID, _) =>
      && w in s.workers && s.workers[w].Listed? && s.workers[w].candidate.execution.Some?
      && s.workers[w].candidate.execution.value.status != ResultRecorded && Generates(s, token)
    case FinishRecordedStep(w, _) =>
      && w in s.workers && s.workers[w].Listed? && s.workers[w].candidate.execution.Some?
      && s.workers[w].candidate.execution.value.status == ResultRecorded
    case ExecuteStep(w) => w in s.workers && s.workers[w].Holding? && s.workers[w].phase.Installed?
    case ReturnStep(w, _) => w in s.workers && s.workers[w].Holding? && s.workers[w].phase.Running?
    case RecordStep(w, _) => w in s.workers && s.workers[w].Holding? && s.workers[w].phase.Returned?
    case ReleaseStep(w, _) => w in s.workers && s.workers[w].Holding? && s.workers[w].phase.ResultStored?
    case DeferStep(w, _) => w in s.workers && s.workers[w].Deferring?
    case CrashStep(w) => w in s.workers
  }

  ghost function Perform(digest: Digest, s: System, a: Action): System
    requires Enabled(digest, s, a)
  {
    match a
    case Tick(duration) => s.(now := s.now + duration)
    case Message(w, key) => Replaced(s, s.store, w, Loading(key, false))
    case ListCandidate(w, key, stamp) => Replaced(s, s.store, w, Listed(key, Seen(s.store[key]), stamp))
    case LoadStep(w, fault) => LoadPerformed(s, w, s.workers[w], fault)
    case DecideStep(w, outcome, token) => DecidePerformed(s, w, s.workers[w], outcome, token)
    case PersistStep(w, fault) => PersistPerformed(s, w, s.workers[w], fault)
    case ReserveStep(w, fault) => ReservePerformed(s, w, s.workers[w], fault)
    case TakeoverStep(w, token, attemptID, fault) => TakeoverPerformed(digest, s, w, s.workers[w], token, attemptID, fault)
    case FinishRecordedStep(w, fault) => FinishRecordedPerformed(s, w, s.workers[w], fault)
    case ExecuteStep(w) =>
      var t := s.workers[w].tenure;
      Replaced(s, s.store, w, Holding(t, Running(s.now))).(log := s.log + [Began(w, t.token)])
    case ReturnStep(w, effect) =>
      var t := s.workers[w].tenure;
      Replaced(s, s.store, w, Holding(t, Returned(effect))).(log := s.log + [Answered(w, t.token, effect)])
    case RecordStep(w, fault) => RecordPerformed(s, w, s.workers[w].tenure, s.workers[w].phase.effect, fault)
    case ReleaseStep(w, fault) => ReleasePerformed(s, w, s.workers[w].tenure, s.workers[w].phase.recordedVersion, fault)
    case DeferStep(w, fault) => DeferPerformed(s, w, s.workers[w].tenure, fault)
    case CrashStep(w) => Replaced(s, s.store, w, Ended(Crashed))
  }

  /** A run: the actions are enabled one after the other and lead from `s` to `t`. */
  ghost predicate Leads(digest: Digest, s: System, actions: seq<Action>, t: System)
    decreases |actions|
  {
    if actions == [] then s == t
    else Enabled(digest, s, actions[0]) && Leads(digest, Perform(digest, s, actions[0]), actions[1..], t)
  }

  /** No workflow, no worker; the clock is past the zero instant. */
  predicate Initial(s: System) {
    s.store == map[] && s.workers == map[] && s.origin == map[] && s.log == [] && s.now > 0
  }

  ghost predicate Reachable(digest: Digest, t: System) {
    exists s, actions :: Initial(s) && Leads(digest, s, actions, t)
  }
}
