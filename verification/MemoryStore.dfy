/** The in-memory store: records mutated in place behind a map, proved against the operations of `WorkflowStore`. */
module MemoryStore {
  import opened Base
  import opened Types
  import opened ReservationCodec
  import opened WorkflowStore

  class MemoryRecord {
    var snapshot: WorkflowSnapshot
    var version: nat
    var execution: Option<Execution>

    constructor (snapshot: WorkflowSnapshot, version: nat, execution: Option<Execution>)
      ensures Value() == VersionedWorkflow(snapshot, version, execution)
    {
      this.snapshot, this.version, this.execution := snapshot, version, execution;
    }

    function Value(): VersionedWorkflow
      reads this
    {
      VersionedWorkflow(snapshot, version, execution)
    }
  }

  class MemoryWorkflowStore {
    var workflows: map<WorkflowKey, MemoryRecord>

    /** No record is filed under two keys. */
    ghost predicate Valid()
      reads this
    {
      forall k, l | k in workflows && l in workflows && k != l :: workflows[k] != workflows[l]
    }

    ghost function Contents(): Store
      reads this, workflows.Values
    {
      map k | k in workflows :: workflows[k].Value()
    }

    constructor ()
      ensures Valid() && Contents() == map[] && fresh(this)
    {
      workflows := map[];
    }

    method ActiveRecord(key: WorkflowKey, now: Time) returns (record: MemoryRecord?)
      requires Valid()
      modifies this
      ensures Valid() && workflows.Values <= old(workflows.Values)
      ensures Contents() == Purge(old(Contents()), key, now)
      ensures forall k | k in workflows :: k in old(workflows) && workflows[k] == old(workflows[k])
      ensures if key in workflows then record == workflows[key] else record == null
    {
      if key !in workflows { return null; }
      record := workflows[key];
      if record.execution.None? && Expired(record.snapshot, now) {
        workflows := workflows - {key};
        record := null;
      }
    }

    method RecordForVersionedMutation(key: WorkflowKey, expected: nat, now: Time) returns (record: MemoryRecord?)
      requires Valid()
      modifies this
      ensures Valid() && workflows.Values <= old(workflows.Values)
      ensures Contents() == Purge(old(Contents()), key, now)
      ensures forall k | k in workflows :: k in old(workflows) && workflows[k] == old(workflows[k])
      ensures record != null <==> AtVersion(Contents(), key, expected)
      ensures record != null ==> key in workflows && record == workflows[key]
    {
      record := ActiveRecord(key, now);
      if record != null && record.version != expected { record := null; }
    }

    method RecordForExecutionMutation(key: WorkflowKey, expected: nat, token: string, now: Time) returns (record: MemoryRecord?)
      requires Valid()
      modifies this
      ensures Valid() && workflows.Values <= old(workflows.Values)
      ensures Contents() == Purge(old(Contents()), key, now)
      ensures forall k | k in workflows :: k in old(workflows) && workflows[k] == old(workflows[k])
      ensures record != null <==> Fenced(Contents(), key, expected, token)
      ensures record != null ==> key in workflows && record == workflows[key] && record.execution.Some?
    {
      record := RecordForVersionedMutation(key, expected, now);
      if record != null {
        if record.execution.None? || Trim(token) == "" || record.execution.value.reservation.token != Trim(token) {
          record := null;
        }
      }
    }

    method Add(key: WorkflowKey, record: MemoryRecord)
      requires Valid() && key !in workflows && record !in workflows.Values
      modifies this
      ensures Valid() && workflows.Values == old(workflows.Values) + {record}
      ensures Contents() == old(Contents())[key := record.Value()]
    {
      workflows := workflows[key := record];
      assert workflows.Values == old(workflows.Values) + {record} by {
        forall r | r in old(workflows.Values) ensures r in workflows.Values {
          var k :| k in old(workflows) && old(workflows[k]) == r;
          assert workflows[k] == r;
        }
        assert workflows[key] == record;
      }
    }

    /** Mutate a filed record in place. */
    method Rewrite(key: WorkflowKey, record: MemoryRecord, snapshot: WorkflowSnapshot, execution: Option<Execution>)
      requires Valid() && key in workflows && workflows[key] == record
      modifies record
      ensures Valid() && record.version == old(record.version) + 1
      ensures Contents() == old(Contents())[key := VersionedWorkflow(snapshot, old(record.version) + 1, execution)]
    {
      record.version := record.version + 1;
      record.snapshot := snapshot;
      record.execution := execution;
    }

    method Remove(key: WorkflowKey)
      requires Valid()
      modifies this
      ensures Valid() && workflows.Values <= old(workflows.Values)
      ensures Contents() == old(Contents()) - {key}
    {
      workflows := workflows - {key};
    }

    /** Create a record for a key that has none. */
    method Insert(key: WorkflowKey, next: WorkflowSnapshot, execution: Option<Execution>, now: Time) returns (reply: Reply)
      requires Valid()
      modifies this
      ensures Valid() && fresh(workflows.Values - old(workflows.Values))
      ensures (Contents(), reply) == CreateIn(old(Contents()), key, Some(next), execution, now)
    {
      var active := ActiveRecord(key, now);
      if active != null { return Failed(Conflict); }
      var record := new MemoryRecord(Prepare(key, next, 1, None, now), 1, execution);
      Add(key, record);
      reply := Ok(Some(Seen(record.Value())));
    }

    /** Replace the snapshot of an idle record in place, and give it this execution. */
    method ReplaceIdle(key: WorkflowKey, expected: nat, next: WorkflowSnapshot, execution: Option<Execution>, now: Time)
      returns (reply: Reply)
      requires Valid()
      modifies this, workflows.Values
      ensures Valid() && workflows.Values <= old(workflows.Values)
      ensures (Contents(), reply) == ReplaceIdleIn(old(Contents()), key, expected, Some(next), execution, now)
    {
      var record := RecordForVersionedMutation(key, expected, now);
      if record == null { return Failed(Conflict); }
      if record.execution.Some? { return Failed(InProgress); }
      Rewrite(key, record, Prepare(key, next, record.version + 1, Some(record.snapshot), now), execution);
      reply := Ok(Some(Seen(record.Value())));
    }

    /** Attach a result in place to the execution this token holds. */
    method Conclude(key: WorkflowKey, expected: nat, token: string, result: ExecutionResult, now: Time)
      returns (reply: Reply)
      requires Valid()
      modifies this, workflows.Values
      ensures Valid() && workflows.Values <= old(workflows.Values)
      ensures (Contents(), reply) == ConcludeIn(old(Contents()), key, expected, token, result, now)
    {
      var record := RecordForExecutionMutation(key, expected, token, now);
      if record == null { return Failed(Conflict); }
      if record.execution.value.reservation.businessKey != result.businessKey { return Failed(Conflict); }
      var execution := record.execution.value.(status := ResultRecorded, result := Some(result));
      Rewrite(key, record, record.snapshot.(version := record.version + 1), Some(execution));
      reply := Ok(Some(Seen(record.Value())));
    }

    /** Replace an expired reservation in place, keeping a result it already has. */
    method Supersede(key: WorkflowKey, expected: nat, previousToken: string, successor: Reservation, now: Time)
      returns (reply: Reply)
      requires Valid()
      modifies this, workflows.Values
      ensures Valid() && workflows.Values <= old(workflows.Values)
      ensures (Contents(), reply) == SupersedeIn(old(Contents()), key, expected, previousToken, successor, now)
    {
      var record := RecordForExecutionMutation(key, expected, previousToken, now);
      if record == null { return Failed(Conflict); }
      var execution := record.execution.value;
      if execution.reservation.leaseExpiresAt > now { return Failed(InProgress); }
      if execution.reservation.operation != successor.operation
         || execution.reservation.businessKey != successor.businessKey { return Failed(Conflict); }
      var status := if execution.result.Some? then ResultRecorded else Executing;
      Rewrite(key, record, record.snapshot.(version := record.version + 1),
              Some(Execution(status, successor, execution.result)));
      reply := Ok(Some(Seen(record.Value())));
    }

    method Load(key: WorkflowKey, contextDone: bool, now: Time) returns (reply: Reply)
      requires Valid()
      modifies this
      ensures Valid() && workflows.Values <= old(workflows.Values)
      ensures (Contents(), reply) == Apply(old(Contents()), Call(key, Op.Load, now, contextDone))
    {
      if contextDone { return Failed(ContextDone); }
      if !CompleteKey(key) { return Failed(KeyIncomplete); }
      var record := ActiveRecord(key, now);
      reply := Ok(if record == null then None else Some(Seen(record.Value())));
    }

    method Create(key: WorkflowKey, next: Option<WorkflowSnapshot>, contextDone: bool, now: Time) returns (reply: Reply)
      requires Valid()
      modifies this
      ensures Valid() && fresh(workflows.Values - old(workflows.Values))
      ensures (Contents(), reply) == Apply(old(Contents()), Call(key, Op.Create(next), now, contextDone))
    {
      if contextDone { return Failed(ContextDone); }
      if !CompleteKey(key) { return Failed(KeyIncomplete); }
      if next.None? { return Failed(SnapshotRequired); }
      reply := Insert(key, next.value, None, now);
    }

    method CompareAndSwap(key: WorkflowKey, expected: nat, next: Option<WorkflowSnapshot>, contextDone: bool, now: Time)
      returns (reply: Reply)
      requires Valid()
      modifies this, workflows.Values
      ensures Valid() && workflows.Values <= old(workflows.Values)
      ensures (Contents(), reply) == Apply(old(Contents()), Call(key, Op.CompareAndSwap(expected, next), now, contextDone))
    {
      if contextDone { return Failed(ContextDone); }
      if !CompleteKey(key) { return Failed(KeyIncomplete); }
      if next.None? { return Failed(SnapshotRequired); }
      reply := ReplaceIdle(key, expected, next.value, None, now);
    }

    method DeleteIfVersion(key: WorkflowKey, expected: nat, contextDone: bool, now: Time) returns (reply: Reply)
      requires Valid()
      modifies this
      ensures Valid() && workflows.Values <= old(workflows.Values)
      ensures (Contents(), reply) == Apply(old(Contents()), Call(key, Op.DeleteIfVersion(expected), now, contextDone))
    {
      if contextDone { return Failed(ContextDone); }
      if !CompleteKey(key) { return Failed(KeyIncomplete); }
      var record := RecordForVersionedMutation(key, expected, now);
      if record == null { return Failed(Conflict); }
      if record.execution.Some? { return Failed(InProgress); }
      Remove(key);
      reply := Ok(None);
    }

    method CreateReservedExecution(
      key: WorkflowKey, next: Option<WorkflowSnapshot>, reservation: Reservation, contextDone: bool, now: Time)
      returns (reply: Reply)
      requires Valid()
      modifies this
      ensures Valid() && fresh(workflows.Values - old(workflows.Values))
      ensures (Contents(), reply) == Apply(old(Contents()), Call(key, CreateReserved(next, reservation), now, contextDone))
    {
      if contextDone { return Failed(ContextDone); }
      if !CompleteKey(key) { return Failed(KeyIncomplete); }
      if next.None? { return Failed(SnapshotRequired); }
      var execution := Reserved(reservation);
      if execution.None? { return Failed(ReservationRejected); }
      reply := Insert(key, next.value, execution, now);
    }

    method ReserveExecution(
      key: WorkflowKey, expected: nat, next: Option<WorkflowSnapshot>, reservation: Reservation, contextDone: bool, now: Time)
      returns (reply: Reply)
      requires Valid()
      modifies this, workflows.Values
      ensures Valid() && workflows.Values <= old(workflows.Values)
      ensures (Contents(), reply) == Apply(old(Contents()), Call(key, Reserve(expected, next, reservation), now, contextDone))
    {
      if contextDone { return Failed(ContextDone); }
      if !CompleteKey(key) { return Failed(KeyIncomplete); }
      if next.None? { return Failed(SnapshotRequired); }
      var execution := Reserved(reservation);
      if execution.None? { return Failed(ReservationRejected); }
      reply := ReplaceIdle(key, expected, next.value, execution, now);
    }

    method RecordExecutionResult(
      key: WorkflowKey, expected: nat, token: string, result: ExecutionResult, contextDone: bool, now: Time)
      returns (reply: Reply)
      requires Valid()
      modifies this, workflows.Values
      ensures Valid() && workflows.Values <= old(workflows.Values)
      ensures (Contents(), reply) == Apply(old(Contents()), Call(key, RecordResult(expected, token, result), now, contextDone))
    {
      if contextDone { return Failed(ContextDone); }
      if !CompleteKey(key) { return Failed(KeyIncomplete); }
      if !ValidResult(result) { return Failed(ResultRejected); }
      reply := Conclude(key, expected, token, result.(businessKey := Trim(result.businessKey)), now);
    }

    method FinalizeExecution(
      key: WorkflowKey, expected: nat, token: string, next: Option<WorkflowSnapshot>, contextDone: bool, now: Time)
      returns (reply: Reply)
      requires Valid()
      modifies this, workflows.Values
      ensures Valid() && workflows.Values <= old(workflows.Values)
      ensures (Contents(), reply) == Apply(old(Contents()), Call(key, Finalize(expected, token, next), now, contextDone))
    {
      if contextDone { return Failed(ContextDone); }
      if !CompleteKey(key) { return Failed(KeyIncomplete); }
      if next.None? { return Failed(SnapshotRequired); }
      var record := RecordForExecutionMutation(key, expected, token, now);
      if record == null { return Failed(Conflict); }
      if !Recorded(record.execution.value) { return Failed(InProgress); }
      Rewrite(key, record, Prepare(key, next.value, record.version + 1, Some(record.snapshot), now), None);
      reply := Ok(Some(Seen(record.Value())));
    }

    method DeleteReservedExecution(key: WorkflowKey, expected: nat, token: string, contextDone: bool, now: Time)
      returns (reply: Reply)
      requires Valid()
      modifies this
      ensures Valid() && workflows.Values <= old(workflows.Values)
      ensures (Contents(), reply) == Apply(old(Contents()), Call(key, DeleteReserved(expected, token), now, contextDone))
    {
      if contextDone { return Failed(ContextDone); }
      if !CompleteKey(key) { return Failed(KeyIncomplete); }
      var record := RecordForExecutionMutation(key, expected, token, now);
      if record == null { return Failed(Conflict); }
      if !Recorded(record.execution.value) { return Failed(InProgress); }
      Remove(key);
      reply := Ok(None);
    }

    method TakeoverExpiredExecution(
      key: WorkflowKey, expected: nat, previousToken: string, next: Reservation, contextDone: bool, now: Time)
      returns (reply: Reply)
      requires Valid()
      modifies this, workflows.Values
      ensures Valid() && workflows.Values <= old(workflows.Values)
      ensures (Contents(), reply) == Apply(old(Contents()), Call(key, Takeover(expected, previousToken, next), now, contextDone))
    {
      if contextDone { return Failed(ContextDone); }
      if !CompleteKey(key) { return Failed(KeyIncomplete); }
      var canonical := Canonical(next);
      if canonical.None? { return Failed(ReservationRejected); }
      if Trim(previousToken) == canonical.value.token { return Failed(SameToken); }
      reply := Supersede(key, expected, previousToken, canonical.value, now);
    }
  }
}
