/** The composition: one tick of the worker, and the event loop that repeats it. */
module AppContext {
  import opened Domain
  import opened Backend
  import opened Tasks
  import opened Resources

  /** The callback of Tick: an error replaces the result code, whatever it was. */
  function Process(o: Oracle, reg: set<Key>, w: World, rec: Record): Processed {
    var p := TryProcess(o, reg, w, rec);
    if p.reply.Reply? && p.reply.failed then p.(reply := Reply(SystemPermanentlyFailed, true)) else p
  }

  function ProcessWith(o: Oracle, reg: set<Key>): ProcessFn {
    (w, rec) => Process(o, reg, w, rec)
  }

  function TickOf(o: Oracle, reg: set<Key>, w: World): (World, PickUpResult) {
    PickUp(o, w, ProcessWith(o, reg))
  }

  /** Ticks until one fails, or until the context is cancelled after the given number of them. */
  function Serve(o: Oracle, reg: set<Key>, w: World, ticks: nat): (World, PickUpResult)
    decreases ticks
  {
    if ticks == 0 then (w, Done)
    else
      var (w1, r) := TickOf(o, reg, w);
      if r.Done? then Serve(o, reg, w1, ticks - 1) else (w1, r)
  }

  lemma ServeOnce(o: Oracle, reg: set<Key>, w: World, w1: World, r: PickUpResult, ticks: nat)
    requires ticks > 0 && TickOf(o, reg, w) == (w1, r)
    ensures Serve(o, reg, w, ticks) == if r.Done? then Serve(o, reg, w1, ticks - 1) else (w1, r)
  {}

  /** The rest of the loop, from here, ends as the whole does. */
  ghost predicate Continues(o: Oracle, reg: set<Key>, start: World, ticks: nat, w: World, left: nat) {
    Serve(o, reg, w, left) == Serve(o, reg, start, ticks)
  }

  lemma ContinuesOnce(o: Oracle, reg: set<Key>, start: World, ticks: nat, w: World, left: nat, w1: World, r: PickUpResult)
    requires left > 0 && Continues(o, reg, start, ticks, w, left) && TickOf(o, reg, w) == (w1, r)
    ensures if r.Done? then Continues(o, reg, start, ticks, w1, left - 1) else Serve(o, reg, start, ticks) == (w1, r)
  {
    ServeOnce(o, reg, w, w1, r, left);
  }

  class AppContext {
    const repository: Repository
    const resources: ResourcesService
    const tasks: TasksService

    constructor (resources: ResourcesService, tasks: TasksService)
      requires resources.repository == tasks.repository
      ensures this.resources == resources && this.tasks == tasks
      ensures repository == resources.repository
    {
      this.repository := tasks.repository;
      this.resources := resources;
      this.tasks := tasks;
    }

    /** The loop of PickUpNextAvailableTask with the callback of Tick in its place: the resource service
        processes each record, and an error replaces its result code. */
    method Tick() returns (r: PickUpResult)
      requires repository == resources.repository == tasks.repository
      modifies repository
      ensures tasks.taskQueueUrl == None ==> r == BeforeInit && repository.world == old(repository.world)
      ensures tasks.taskQueueUrl != None ==>
                (repository.world, r) == TickOf(repository.oracle, resources.resources.Keys, old(repository.world))
    {
      if tasks.taskQueueUrl == None {
        return BeforeInit;
      }
      var picked := repository.PickTaskFromQueue();
      if picked.None? {
        return ReceiveFailed;
      }
      var records := picked.value;
      ghost var o, start, process := repository.oracle, repository.world, ProcessWith(repository.oracle, resources.resources.Keys);
      assert records[0..] == records;
      for i := 0 to |records|
        invariant Attempts(o, repository.world, records[i..], process) == Attempts(o, start, records, process)
      {
        ghost var before := repository.world;
        var alive := TickRecord(records[i]);
        assert records[i..][0] == records[i] && records[i..][1..] == records[i + 1..];
        assert Attempt(o, before, records[i], process) == (repository.world, alive);
        if !alive {
          return Crashed;
        }
      }
      r := Done;
    }

    /** One round of that loop. */
    method TickRecord(record: Record) returns (alive: bool)
      requires repository == resources.repository == tasks.repository
      modifies repository
      ensures (repository.world, alive) ==
              Attempt(repository.oracle, old(repository.world), record,
                      ProcessWith(repository.oracle, resources.resources.Keys))
    {
      repository.UpdateTaskStatus(record.task.id, InProgressWorker);
      ghost var w0 := repository.world;
      var task, reply := resources.TryProcessTask(record);
      if reply.Reply? && reply.failed {
        reply := Reply(SystemPermanentlyFailed, true);
      }
      assert ProcessWith(repository.oracle, resources.resources.Keys)(w0, record) == Processed(repository.world, task, reply);
      alive := tasks.Settle(record, task, reply);
    }

    method EventLoop(ticks: nat) returns (r: PickUpResult)
      requires repository == resources.repository == tasks.repository
      modifies repository
      ensures tasks.taskQueueUrl == None ==>
                r == (if ticks == 0 then Done else BeforeInit) && repository.world == old(repository.world)
      ensures tasks.taskQueueUrl != None ==>
                (repository.world, r) == Serve(repository.oracle, resources.resources.Keys, old(repository.world), ticks)
    {
      ghost var o, reg, start := repository.oracle, resources.resources.Keys, repository.world;
      var left := ticks;
      while left > 0
        invariant tasks.taskQueueUrl == None ==> left == ticks && repository.world == start
        invariant tasks.taskQueueUrl != None ==> Continues(o, reg, start, ticks, repository.world, left)
      {
        ghost var before := repository.world;
        r := Tick();
        if tasks.taskQueueUrl != None {
          ContinuesOnce(o, reg, start, ticks, before, left, repository.world, r);
        }
        if r != Done {
          return;
        }
        left := left - 1;
      }
      r := Done;
    }
  }
}
