/** Everything outside the process, and the repository that talks to it: two tables, a queue with
    at-least-once delivery, and a provider.  Every call may fail, and a failed write may or may not
    have taken effect. */
module Backend {
  import opened Int64
  import opened Domain

  /** How one external call ends.  Refused: error, no effect.  Unacked: the effect happened but the
      caller sees an error. */
  datatype Outcome = Ack | Refused | Unacked

  type Body = string
  type MsgId = nat
  type Receipt = nat

  /** All the choices the code does not make, fixed in advance and then quantified over:
      how the n-th external call ends, in which order a map is ranged over, which messages a
      receive returns, which ids are generated, and what the JSON codec does. */
  datatype Oracle = Oracle(
    outcome: nat -> Outcome,
    order: (nat, set<Key>) -> seq<Key>,
    deliver: (nat, set<MsgId>) -> seq<MsgId>,
    newId: nat -> GeneratedId,
    encode: Task -> Body,
    decode: Body -> Option<Task>)

  ghost predicate FairOrder(o: Oracle) {
    forall n: nat, keys: set<Key> :: Enumerates(o.order(n, keys), keys)
  }

  /** How one dispatch on a resource ended. */
  datatype Ending = ReserveRefused | ReserveUnacked | Created | RolledBack | RollbackLost

  /** History: one dispatch that reached its first write.  No code reads it. */
  datatype Entry = Entry(key: Key, msg: MsgId, cost: int64, ending: Ending)

  /** History: one delete call and whether it took effect. */
  datatype Removal = Removal(msg: MsgId, effective: bool)

  /** History: one call of UpdateTaskStatus. */
  datatype StatusUpdate = StatusUpdate(taskId: string, status: StatusLabel)

  /** A message is named by its position in `sent`, a receipt by its position in `receipts`. */
  datatype World = World(
    calls: nat,
    states: map<Key, ResourceState>,
    statuses: map<string, TaskStatus>,
    sent: seq<Body>,
    queue: set<MsgId>,
    receipts: seq<MsgId>,
    log: seq<Entry>,
    removals: seq<Removal>,
    updates: seq<StatusUpdate>)

  /** A received task with its receipt handle; `msg` is the message the receipt stands for. */
  datatype Record = Record(task: Task, receipt: Receipt, msg: MsgId)

  /** What reading a row returns: (state, nil), (nil, nil) or (nil, error). */
  datatype Read = Found(state: ResourceState) | Missing | Unreadable

  function Called(w: World): World {
    w.(calls := w.calls + 1)
  }

  function ReadState(o: Oracle, w: World, key: Key): (World, Read) {
    (Called(w),
     if o.outcome(w.calls) != Ack then Unreadable
     else if key in w.states then Found(w.states[key]) else Missing)
  }

  /** An unconditional upsert under the row's own primary key. */
  function WriteState(o: Oracle, w: World, st: ResourceState): (World, Outcome) {
    var out := o.outcome(w.calls);
    (if out == Refused then Called(w) else Called(w).(states := w.states[st.id := st]), out)
  }

  /** The provider call; a batch counts as created when the provider says so. */
  function CreateBatch(o: Oracle, w: World): (World, bool) {
    (Called(w), o.outcome(w.calls) == Ack)
  }

  function PutStatus(o: Oracle, w: World, status: TaskStatus): (World, bool) {
    var out := o.outcome(w.calls);
    (if out == Refused then Called(w) else Called(w).(statuses := w.statuses[status.taskId := status]), out == Ack)
  }

  /** The repository's partial update touches no table; only the call itself is recorded. */
  function UpdateStatus(o: Oracle, w: World, taskId: string, status: StatusLabel): World {
    Called(w).(updates := w.updates + [StatusUpdate(taskId, status)])
  }

  function Send(o: Oracle, w: World, task: Task): (World, bool) {
    var out := o.outcome(w.calls);
    (if out == Refused then Called(w)
     else Called(w).(sent := w.sent + [o.encode(task)], queue := w.queue + {|w.sent|}),
     out == Ack)
  }

  /** Of the messages a receive might return, those that are still in the queue.  Visibility
      timeouts only decide which of these the queue offers, and when. */
  function Visible(w: World, ids: seq<MsgId>): (r: seq<MsgId>)
    ensures forall m :: m in r ==> m in w.queue && m < |w.sent| && m in ids
  {
    if ids == [] then []
    else if ids[0] in w.queue && ids[0] < |w.sent| then [ids[0]] + Visible(w, ids[1..])
    else Visible(w, ids[1..])
  }

  /** `Message` of the queue client; `msg` says which message this delivery is of. */
  datatype Message = Message(body: Body, receipt: Receipt, msg: MsgId)

  /** A receive: every returned message gets a fresh receipt, and stays in the queue. */
  function Receive(o: Oracle, w: World): (World, Option<seq<Message>>) {
    if o.outcome(w.calls) != Ack then (Called(w), None)
    else
      var ids := Visible(w, o.deliver(w.calls, w.queue));
      (Called(w).(receipts := w.receipts + ids),
       Some(seq(|ids|, i requires 0 <= i < |ids| =>
          assert ids[i] in ids; Message(w.sent[ids[i]], |w.receipts| + i, ids[i]))))
  }

  /** Pair each task with its receipt; one undecodable body spoils the lot. */
  function DecodeAll(o: Oracle, messages: seq<Message>): Option<seq<Record>> {
    if messages == [] then Some([])
    else
      var task := o.decode(messages[0].body);
      if task.None? then None
      else
        var rest := DecodeAll(o, messages[1..]);
        if rest.None? then None
        else Some([Record(task.value, messages[0].receipt, messages[0].msg)] + rest.value)
  }

  function PickTasks(o: Oracle, w: World): (World, Option<seq<Record>>) {
    var (w1, messages) := Receive(o, w);
    (w1, if messages.None? then None else DecodeAll(o, messages.value))
  }

  function Delete(o: Oracle, w: World, receipt: Receipt): (World, bool) {
    var out := o.outcome(w.calls);
    if receipt >= |w.receipts| then (Called(w), out == Ack)
    else
      var msg := w.receipts[receipt];
      var w1 := Called(w).(removals := w.removals + [Removal(msg, out != Refused)]);
      (if out == Refused then w1 else w1.(queue := w.queue - {msg}), out == Ack)
  }

  /** Bookkeeping of the model: note how a dispatch ended. */
  function Noted(w: World, e: Entry): World {
    w.(log := w.log + [e])
  }

  class Repository {
    const oracle: Oracle
    var world: World

    constructor (oracle: Oracle, world: World)
      ensures this.oracle == oracle && this.world == world
    {
      this.oracle := oracle;
      this.world := world;
    }

    /** The row, "not found" without an error, or an error; nothing changes but the call count. */
    method GetResourceInstanceState(key: Key) returns (r: Read)
      modifies this
      ensures (world, r) == ReadState(oracle, old(world), key)
      ensures world == Called(old(world))
      ensures r == Unreadable <==> oracle.outcome(old(world).calls) != Ack
      ensures r == Missing <==> oracle.outcome(old(world).calls) == Ack && key !in old(world).states
      ensures forall st :: r == Found(st) ==> key in old(world).states && st == old(world).states[key]
    {
      var out := oracle.outcome(world.calls);
      world := Called(world);
      if out != Ack {
        return Unreadable;
      }
      if key !in world.states {
        return Missing;
      }
      r := Found(world.states[key]);
    }

    /** Only the row under the state's own key can change, whatever it held before; an error does not
        say whether it did. */
    method PutResourceInstanceState(st: ResourceState) returns (out: Outcome)
      modifies this
      ensures (world, out) == WriteState(oracle, old(world), st)
      ensures out == oracle.outcome(old(world).calls)
      ensures world == Called(old(world)).(states := world.states)
      ensures out == Refused ==> world.states == old(world).states
      ensures out != Refused ==>
                && world.states.Keys == old(world).states.Keys + {st.id}
                && world.states[st.id] == st
                && forall k :: k in old(world).states && k != st.id ==> world.states[k] == old(world).states[k]
    {
      out := oracle.outcome(world.calls);
      world := Called(world);
      if out != Refused {
        world := world.(states := world.states[st.id := st]);
      }
    }

    /** Created exactly when the provider acknowledges; the call touches nothing on this side. */
    method CreateBatchWithProvider() returns (ok: bool)
      modifies this
      ensures (world, ok) == CreateBatch(oracle, old(world))
      ensures ok <==> oracle.outcome(old(world).calls) == Ack
      ensures world == Called(old(world))
    {
      ok := oracle.outcome(world.calls) == Ack;
      world := Called(world);
    }

    /** Only the status row of this task can change; a success means that it did. */
    method PutTaskStatus(status: TaskStatus) returns (ok: bool)
      modifies this
      ensures (world, ok) == PutStatus(oracle, old(world), status)
      ensures ok <==> oracle.outcome(old(world).calls) == Ack
      ensures world == Called(old(world)).(statuses := world.statuses)
      ensures ok ==> status.taskId in world.statuses && world.statuses[status.taskId] == status
      ensures oracle.outcome(old(world).calls) == Refused ==> world.statuses == old(world).statuses
      ensures old(world).statuses.Keys <= world.statuses.Keys <= old(world).statuses.Keys + {status.taskId}
      ensures forall id :: id in old(world).statuses && id != status.taskId ==>
                world.statuses[id] == old(world).statuses[id]
    {
      var out := oracle.outcome(world.calls);
      world := Called(world);
      if out != Refused {
        world := world.(statuses := world.statuses[status.taskId := status]);
      }
      ok := out == Ack;
    }

    /** Neither table nor queue changes: the partial update is not implemented. */
    method UpdateTaskStatus(taskId: string, status: StatusLabel)
      modifies this
      ensures world == UpdateStatus(oracle, old(world), taskId, status)
      ensures world.statuses == old(world).statuses && world.states == old(world).states
      ensures world.queue == old(world).queue && world.sent == old(world).sent
      ensures |world.updates| == |old(world).updates| + 1 && old(world).updates <= world.updates
    {
      world := Called(world);
      world := world.(updates := world.updates + [StatusUpdate(taskId, status)]);
    }

    /** Unless refused, one new message joins the queue: this task, encoded. */
    method EnqueueTask(task: Task) returns (ok: bool)
      modifies this
      ensures (world, ok) == Send(oracle, old(world), task)
      ensures ok <==> oracle.outcome(old(world).calls) == Ack
      ensures world == Called(old(world)).(sent := world.sent, queue := world.queue)
      ensures oracle.outcome(old(world).calls) == Refused ==>
                world.sent == old(world).sent && world.queue == old(world).queue
      ensures oracle.outcome(old(world).calls) != Refused ==>
                && |world.sent| == |old(world).sent| + 1 && old(world).sent <= world.sent
                && world.sent[|old(world).sent|] == oracle.encode(task)
                && forall m :: m in world.queue <==> m in old(world).queue || m == |old(world).sent|
    {
      var out := oracle.outcome(world.calls);
      world := Called(world);
      if out != Refused {
        world := world.(queue := world.queue + {|world.sent|}, sent := world.sent + [oracle.encode(task)]);
      }
      ok := out == Ack;
    }

    /** Unless refused, the one message the receipt stands for leaves the queue, if it was there; an
        unknown receipt removes nothing. */
    method DeleteTaskFromQueue(receipt: Receipt) returns (ok: bool)
      modifies this
      ensures (world, ok) == Delete(oracle, old(world), receipt)
      ensures ok <==> oracle.outcome(old(world).calls) == Ack
      ensures world == Called(old(world)).(queue := world.queue, removals := world.removals)
      ensures forall m :: m in world.queue <==>
                && m in old(world).queue
                && !(receipt < |old(world).receipts| && m == old(world).receipts[receipt] &&
                     oracle.outcome(old(world).calls) != Refused)
    {
      var out := oracle.outcome(world.calls);
      world := Called(world);
      if receipt < |world.receipts| {
        var msg := world.receipts[receipt];
        world := world.(removals := world.removals + [Removal(msg, out != Refused)]);
        if out != Refused {
          world := world.(queue := world.queue - {msg});
        }
      }
      ok := out == Ack;
    }

    method Note(e: Entry)
      modifies this
      ensures world == Noted(old(world), e)
    {
      world := Noted(world, e);
    }

    /** Receive, then decode into a slice with an early return on the first undecodable body. */
    method PickTaskFromQueue() returns (r: Option<seq<Record>>)
      modifies this
      ensures (world, r) == PickTasks(oracle, old(world))
    {
      var (w, received) := Receive(oracle, world);
      world := w;
      if received.None? {
        return None;
      }
      var messages := received.value;
      if |messages| == 0 {
        return Some([]);
      }
      var records: seq<Record> := [];
      ghost var all := DecodeAll(oracle, messages);
      assert messages[0..] == messages;
      assert all.Some? ==> records + all.value == all.value;
      for i := 0 to |messages|
        invariant world == w
        invariant DecodeAll(oracle, messages) ==
                  var tail := DecodeAll(oracle, messages[i..]);
                  if tail.None? then None else Some(records + tail.value)
      {
        var message := messages[i];
        assert messages[i..][0] == message && messages[i..][1..] == messages[i + 1..];
        var task := oracle.decode(message.body);
        if task.None? {
          return None;
        }
        var record := Record(task.value, message.receipt, message.msg);
        ghost var tail := DecodeAll(oracle, messages[i + 1..]);
        assert tail.Some? ==> records + ([record] + tail.value) == records + [record] + tail.value;
        records := records + [record];
      }
      assert records + [] == records;
      r := Some(records);
    }
  }
}
