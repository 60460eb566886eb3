/** The task service: status first, then queue; and the worker loop that decides, record by record,
    whether a message is deleted. */
module Tasks {
  import opened Int64
  import opened Domain
  import opened Backend

  /** What a process function answers: (result, error), or it never returns. */
  datatype Reply = Reply(result: TaskResult, failed: bool) | Panicked

  /** `task` is the record's task after the call: the callee may fill in its fields. */
  datatype Processed = Processed(world: World, task: Task, reply: Reply)

  type ProcessFn = (World, Record) -> Processed

  /** The answers that make the loop delete the message. */
  predicate Deletes(reply: Reply) {
    && reply.Reply?
    && !reply.failed
    && reply.result != SystemTemporarilyFailed
    && reply.result != MessageTemporarilyFailed
  }

  function FinalStatus(result: TaskResult, failed: bool): Option<StatusLabel> {
    if failed then Some(FailedWorkerProcessing)
    else match result
      case Success => None
      case SystemTemporarilyFailed => Some(RetryingWorkerSystemFailure)
      case MessageTemporarilyFailed => Some(RetryingWorkerMessageFailure)
      case MessagePermanentlyFailed => Some(FailedWorkerMessagePermanent)
      case _ => Some(FailedWorkerUnknownResult)
  }

  /** What follows the callback: delete or not, then at most one status; false if the process died. */
  function Settled(o: Oracle, rec: Record, p: Processed): (World, bool) {
    if p.reply.Panicked? then (p.world, false)
    else
      var w1 := if Deletes(p.reply) then Delete(o, p.world, rec.receipt).0 else p.world;
      var status := FinalStatus(p.reply.result, p.reply.failed);
      (if status.Some? then UpdateStatus(o, w1, p.task.id, status.value) else w1, true)
  }

  /** One record, start to finish. */
  function Attempt(o: Oracle, w: World, rec: Record, process: ProcessFn): (World, bool) {
    Settled(o, rec, process(UpdateStatus(o, w, rec.task.id, InProgressWorker), rec))
  }

  /** Left fold of Attempt over the records. */
  function Attempts(o: Oracle, w: World, records: seq<Record>, process: ProcessFn): (World, bool)
    decreases |records|
  {
    if records == [] then (w, true)
    else
      var (w1, alive) := Attempt(o, w, records[0], process);
      if alive then Attempts(o, w1, records[1..], process) else (w1, false)
  }

  datatype PickUpResult = Done | BeforeInit | ReceiveFailed | Crashed

  function PickUp(o: Oracle, w: World, process: ProcessFn): (World, PickUpResult) {
    var (w1, records) := PickTasks(o, w);
    if records.None? then (w1, ReceiveFailed)
    else
      var (w2, alive) := Attempts(o, w1, records.value, process);
      (w2, if alive then Done else Crashed)
  }

  /** The task as it is enqueued: identifier and token limit filled in. */
  function Filled(o: Oracle, w: World, task: Task, defaultMaxTokens: int64): Task {
    task.(id := if task.id == "" then o.newId(w.calls) else task.id,
          maxTokens := if task.maxTokens == 0 then defaultMaxTokens else task.maxTokens)
  }

  function InitialStatus(task: Task): TaskStatus {
    TaskStatus(task.id, PendingQueue, 1)
  }

  datatype SubmitResult = Enqueued | NotInitialised | StatusFailed | EnqueueFailed

  /** Status row first; a message only once that row was acknowledged. */
  function Submission(o: Oracle, w: World, task: Task, defaultMaxTokens: int64): (World, Task, SubmitResult) {
    var t := Filled(o, w, task, defaultMaxTokens);
    var (w1, stored) := PutStatus(o, w, InitialStatus(t));
    if !stored then (w1, t, StatusFailed)
    else
      var (w2, sent) := Send(o, w1, t);
      (w2, t, if sent then Enqueued else EnqueueFailed)
  }

  /** The first of two calls succeeds, and the second is not refused. */
  predicate Sends(o: Oracle, n: nat) {
    o.outcome(n) == Ack && o.outcome(n + 1) != Refused
  }

  /** The answer says which of the two calls was the first not to succeed; a message is sent exactly when
      the first succeeded and the second was not refused. */
  lemma SubmissionAnswers(o: Oracle, w: World, task: Task, defaultMaxTokens: int64)
    ensures var (w1, t, r) := Submission(o, w, task, defaultMaxTokens);
            var n := w.calls;
            && (r == StatusFailed <==> o.outcome(n) != Ack)
            && (r == EnqueueFailed <==> o.outcome(n) == Ack && o.outcome(n + 1) != Ack)
            && (r == Enqueued <==> o.outcome(n) == Ack && o.outcome(n + 1) == Ack)
            && w1.sent == w.sent + (if Sends(o, n) then [o.encode(t)] else [])
            && w1.queue == w.queue + (if Sends(o, n) then {|w.sent|} else {})
            && t.id == (if task.id == "" then o.newId(n) else task.id)
            && t.maxTokens == (if task.maxTokens == 0 then defaultMaxTokens else task.maxTokens)
            && t.messages == task.messages && t.estimated == task.estimated
            && (o.outcome(n) != Refused ==>
                  t.id in w1.statuses && w1.statuses[t.id] == TaskStatus(t.id, PendingQueue, 1))
            && (o.outcome(n) == Refused ==> w1.statuses == w.statuses)
  {}

  class TasksService {
    const repository: Repository
    const defaultMaxTokens: int64
    var taskQueueUrl: Option<string>

    constructor (repository: Repository, defaultMaxTokens: int64)
      ensures this.repository == repository && this.defaultMaxTokens == defaultMaxTokens
      ensures taskQueueUrl == None
    {
      this.repository := repository;
      this.defaultMaxTokens := defaultMaxTokens;
      taskQueueUrl := None;
    }

    method Init(url: string)
      modifies this
      ensures taskQueueUrl == Some(url)
    {
      taskQueueUrl := Some(url);
    }

    /** A message is sent only after a status row under the task's identifier was acknowledged. */
    method DispatchTask(task: Task) returns (t: Task, r: SubmitResult)
      modifies repository
      ensures r == NotInitialised <==> taskQueueUrl == None
      ensures r == NotInitialised ==> repository.world == old(repository.world) && t == task
      ensures var o, n := repository.oracle, old(repository.world).calls;
              r != NotInitialised ==>
                && (r == StatusFailed <==> o.outcome(n) != Ack)
                && (r == EnqueueFailed <==> o.outcome(n) == Ack && o.outcome(n + 1) != Ack)
                && (r == Enqueued <==> o.outcome(n) == Ack && o.outcome(n + 1) == Ack)
                && repository.world.sent == old(repository.world).sent +
                     (if Sends(o, n) then [o.encode(t)] else [])
                && t.id == (if task.id == "" then o.newId(n) else task.id)
      ensures r != NotInitialised ==>
                (repository.world, t, r) ==
                Submission(repository.oracle, old(repository.world), task, defaultMaxTokens)
      ensures r != NotInitialised ==> t.id != "" && (t.id == task.id || task.id == "")
      ensures r != NotInitialised ==>
                && t.maxTokens == (if task.maxTokens == 0 then defaultMaxTokens else task.maxTokens)
                && t.messages == task.messages && t.estimated == task.estimated
      ensures r == Enqueued || r == EnqueueFailed || repository.world.sent != old(repository.world.sent) ==>
                && t.id in repository.world.statuses
                && repository.world.statuses[t.id] == TaskStatus(t.id, PendingQueue, 1)
      ensures r == Enqueued ==> repository.world.sent == old(repository.world.sent) + [repository.oracle.encode(t)]
    {
      t := task;
      if taskQueueUrl == None {
        return t, NotInitialised;
      }
      if t.id == "" {
        t := t.(id := repository.oracle.newId(repository.world.calls));
      }
      if t.maxTokens == 0 {
        t := t.(maxTokens := defaultMaxTokens);
      }
      var stored := repository.PutTaskStatus(TaskStatus(t.id, PendingQueue, 1));
      if !stored {
        return t, StatusFailed;
      }
      var sent := repository.EnqueueTask(t);
      r := if sent then Enqueued else EnqueueFailed;
    }

    /** The second half of the loop's body: from the callback's answer to the last call for the record. */
    method Settle(record: Record, task: Task, reply: Reply) returns (alive: bool)
      modifies repository
      ensures (repository.world, alive) ==
              Settled(repository.oracle, record, Processed(old(repository.world), task, reply))
    {
      var finalStatus: Option<StatusLabel> := None;
      match reply {
        case Panicked =>
          return false;
        case Reply(result, failed) =>
          if failed {
            finalStatus := Some(FailedWorkerProcessing);
          } else {
            match result {
              case Success =>
                var _ := repository.DeleteTaskFromQueue(record.receipt);
              case SystemTemporarilyFailed =>
                finalStatus := Some(RetryingWorkerSystemFailure);
              case MessageTemporarilyFailed =>
                finalStatus := Some(RetryingWorkerMessageFailure);
              case MessagePermanentlyFailed =>
                finalStatus := Some(FailedWorkerMessagePermanent);
                var _ := repository.DeleteTaskFromQueue(record.receipt);
              case _ =>
                finalStatus := Some(FailedWorkerUnknownResult);
                var _ := repository.DeleteTaskFromQueue(record.receipt);
            }
          }
      }
      if finalStatus.Some? {
        repository.UpdateTaskStatus(task.id, finalStatus.value);
      }
      alive := true;
    }

    /** Every record is attempted exactly once and in order, whatever the callback answers. */
    method PickUpNextAvailableTask(process: ProcessFn) returns (r: PickUpResult)
      modifies repository
      ensures taskQueueUrl == None ==> r == BeforeInit && repository.world == old(repository.world)
      ensures taskQueueUrl != None ==>
                (repository.world, r) == PickUp(repository.oracle, old(repository.world), process)
    {
      if taskQueueUrl == None {
        return BeforeInit;
      }
      var picked := repository.PickTaskFromQueue();
      if picked.None? {
        return ReceiveFailed;
      }
      var records := picked.value;
      ghost var o, start := repository.oracle, repository.world;
      assert records[0..] == records;
      for i := 0 to |records|
        invariant Attempts(o, repository.world, records[i..], process) == Attempts(o, start, records, process)
      {
        var record := records[i];
        assert records[i..][0] == record && records[i..][1..] == records[i + 1..];
        repository.UpdateTaskStatus(record.task.id, InProgressWorker);
        var processed := process(repository.world, record);
        repository.world := processed.world;
        var alive := Settle(record, processed.task, processed.reply);
        if !alive {
          return Crashed;
        }
      }
      r := Done;
    }
  }
}
