/** Any number of processes sharing one backend, interleaved at every external call.  A process
    either runs the worker loop, one call at a time, or submits a task, one call at a time.  The
    scheduler is a list of actions; everything else is decided by the oracle, so a statement about
    all oracles and all lists of actions is a statement about all runs. */
module Fleet {
  import opened Int64
  import opened Domain
  import opened Backend
  import opened Tasks
  import opened Resources

  datatype Setup = Setup(o: Oracle, reg: set<Key>, defaultMaxTokens: int64)

  /** Where a process stands; `st` is the row it is about to write, or has written. */
  datatype Pc =
    | Idle
    | Halted
    | Dead
    | Sending(task: Task)
    | Loop(rest: seq<Record>)
    | Scanning(job: Record, todo: seq<Key>, rest: seq<Record>)
    | Rereading(job: Record, key: Key, rest: seq<Record>)
    | Reserving(job: Record, key: Key, st: ResourceState, rest: seq<Record>)
    | Creating(job: Record, key: Key, st: ResourceState, rest: seq<Record>)
    | Releasing(job: Record, key: Key, st: ResourceState, rest: seq<Record>)
    | Removing(job: Record, rest: seq<Record>)
    | Marking(job: Record, rest: seq<Record>)

  function Pick(f: Setup, w: World): (World, Pc) {
    var (w1, records) := PickTasks(f.o, w);
    (w1, if records.None? then Halted else Loop(records.value))
  }

  function Begin(f: Setup, w: World, record: Record, rest: seq<Record>): (World, Pc) {
    var w1 := UpdateStatus(f.o, w, record.task.id, InProgressWorker);
    (w1, Scanning(record.(task := Prepared(f.o, w1, record.task)), f.o.order(w1.calls, f.reg), rest))
  }

  function Check(f: Setup, w: World, job: Record, todo: seq<Key>, rest: seq<Record>): (World, Pc) {
    if todo == [] then (w, Marking(job, rest))
    else
      var (w1, read) := ReadState(f.o, w, todo[0]);
      (w1, if read.Found? && Admits(read.state, Cost(job.task)) then Rereading(job, todo[0], rest)
           else Scanning(job, todo[1..], rest))
  }

  function Reread(f: Setup, w: World, job: Record, key: Key, rest: seq<Record>): (World, Pc) {
    var (w1, read) := ReadState(f.o, w, key);
    (w1, match read
         case Unreadable => Marking(job, rest)
         case Missing => Dead
         case Found(st) => Reserving(job, key, Reserved(st, Cost(job.task)), rest))
  }

  function Reserve(f: Setup, w: World, job: Record, key: Key, st: ResourceState, rest: seq<Record>): (World, Pc) {
    var (w1, out) := WriteState(f.o, w, st);
    if out == Ack then (w1, Creating(job, key, st, rest))
    else
      var ending := if out == Refused then ReserveRefused else ReserveUnacked;
      (Noted(w1, Entry(key, job.msg, Cost(job.task), ending)), Marking(job, rest))
  }

  function Create(f: Setup, w: World, job: Record, key: Key, st: ResourceState, rest: seq<Record>): (World, Pc) {
    var (w1, created) := CreateBatch(f.o, w);
    if created then (Noted(w1, Entry(key, job.msg, Cost(job.task), Created)), Removing(job, rest))
    else (w1, Releasing(job, key, Released(st, Cost(job.task)), rest))
  }

  function Release(f: Setup, w: World, job: Record, key: Key, st: ResourceState, rest: seq<Record>): (World, Pc) {
    var (w1, out) := WriteState(f.o, w, st);
    var ending := if out == Refused then RollbackLost else RolledBack;
    (Noted(w1, Entry(key, job.msg, Cost(job.task), ending)), Marking(job, rest))
  }

  /** One step of one process: at most one external call. */
  function Micro(f: Setup, w: World, pc: Pc): (World, Pc) {
    match pc
    case Idle => Pick(f, w)
    case Halted => (w, pc)
    case Dead => (w, pc)
    case Sending(task) => (Send(f.o, w, task).0, Idle)
    case Loop(rest) => if rest == [] then (w, Idle) else Begin(f, w, rest[0], rest[1..])
    case Scanning(job, todo, rest) => Check(f, w, job, todo, rest)
    case Rereading(job, key, rest) => Reread(f, w, job, key, rest)
    case Reserving(job, key, st, rest) => Reserve(f, w, job, key, st, rest)
    case Creating(job, key, st, rest) => Create(f, w, job, key, st, rest)
    case Releasing(job, key, st, rest) => Release(f, w, job, key, st, rest)
    case Removing(job, rest) => (Delete(f.o, w, job.receipt).0, Loop(rest))
    case Marking(job, rest) => (UpdateStatus(f.o, w, job.task.id, FailedWorkerProcessing), Loop(rest))
  }

  datatype Sys = Sys(world: World, procs: seq<Pc>)

  datatype Action = Step(i: nat) | Submit(i: nat, task: Task)

  function Act(f: Setup, s: Sys, a: Action): Sys {
    if a.i >= |s.procs| then s
    else
      match a
      case Step(i) =>
        var (w1, pc1) := Micro(f, s.world, s.procs[i]);
        Sys(w1, s.procs[i := pc1])
      case Submit(i, task) =>
        if !s.procs[i].Idle? then s
        else
          var t := Filled(f.o, s.world, task, f.defaultMaxTokens);
          var (w1, stored) := PutStatus(f.o, s.world, InitialStatus(t));
          Sys(w1, s.procs[i := if stored then Sending(t) else Idle])
  }

  function Run(f: Setup, s: Sys, acts: seq<Action>): Sys
    decreases |acts|
  {
    if acts == [] then s else Run(f, Act(f, s, acts[0]), acts[1..])
  }

  ghost predicate AtRest(s: Sys) {
    forall i :: 0 <= i < |s.procs| ==> s.procs[i].Idle?
  }

  /** The records a process has received and not finished. */
  function Held(pc: Pc): seq<Record> {
    match pc
    case Idle => []
    case Halted => []
    case Dead => []
    case Sending(_) => []
    case Loop(rest) => rest
    case Scanning(job, _, rest) => [job] + rest
    case Rereading(job, _, rest) => [job] + rest
    case Reserving(job, _, _, rest) => [job] + rest
    case Creating(job, _, _, rest) => [job] + rest
    case Releasing(job, _, _, rest) => [job] + rest
    case Removing(job, rest) => [job] + rest
    case Marking(job, rest) => [job] + rest
  }

  // ---------- what every step keeps ----------

  /** Histories only grow, and no row is ever removed. */
  ghost predicate Later(w: World, w': World) {
    && w.sent <= w'.sent
    && w.receipts <= w'.receipts
    && w.log <= w'.log
    && w.removals <= w'.removals
    && w.statuses.Keys <= w'.statuses.Keys
    && w.states.Keys <= w'.states.Keys
  }

  /** Which step touches what. */
  lemma MicroFrame(f: Setup, w: World, pc: Pc)
    ensures var w1 := Micro(f, w, pc).0;
            && w1.statuses == w.statuses
            && (!pc.Sending? ==> w1.sent == w.sent)
            && (!pc.Idle? ==> w1.receipts == w.receipts)
            && (!pc.Removing? ==> w1.removals == w.removals)
            && (!pc.Removing? && !pc.Sending? ==> w1.queue == w.queue)
            && (!pc.Reserving? && !pc.Releasing? ==> w1.states == w.states)
            && (!pc.Reserving? && !pc.Creating? && !pc.Releasing? ==> w1.log == w.log)
  {
    match pc
    case Idle =>
    case Halted =>
    case Dead =>
    case Sending(_) =>
    case Loop(_) =>
    case Scanning(_, _, _) =>
    case Rereading(_, _, _) =>
    case Reserving(_, _, _, _) =>
    case Creating(_, _, _, _) =>
    case Releasing(_, _, _, _) =>
    case Removing(_, _) =>
    case Marking(_, _) =>
  }

  lemma MicroIsLater(f: Setup, w: World, pc: Pc)
    ensures Later(w, Micro(f, w, pc).0)
  {
    MicroFrame(f, w, pc);
    match pc
    case Idle => PickIsLater(f, w);
    case Sending(task) => SendIsLater(f.o, w, task);
    case Reserving(job, key, st, rest) => ReserveIsLater(f, w, job, key, st, rest);
    case Creating(job, key, st, rest) => CreateIsLater(f, w, job, key, st, rest);
    case Releasing(job, key, st, rest) => ReleaseIsLater(f, w, job, key, st, rest);
    case Removing(job, rest) => DeleteIsLater(f.o, w, job.receipt);
    case _ =>
  }

  lemma PickIsLater(f: Setup, w: World)
    ensures Later(w, Pick(f, w).0)
  {}

  lemma SendIsLater(o: Oracle, w: World, task: Task)
    ensures Later(w, Send(o, w, task).0)
  {}

  lemma ReserveIsLater(f: Setup, w: World, job: Record, key: Key, st: ResourceState, rest: seq<Record>)
    ensures Later(w, Reserve(f, w, job, key, st, rest).0)
  {}

  lemma CreateIsLater(f: Setup, w: World, job: Record, key: Key, st: ResourceState, rest: seq<Record>)
    ensures Later(w, Create(f, w, job, key, st, rest).0)
  {}

  lemma ReleaseIsLater(f: Setup, w: World, job: Record, key: Key, st: ResourceState, rest: seq<Record>)
    ensures Later(w, Release(f, w, job, key, st, rest).0)
  {}

  lemma DeleteIsLater(o: Oracle, w: World, receipt: Receipt)
    ensures Later(w, Delete(o, w, receipt).0)
  {}

  lemma ActIsLater(f: Setup, s: Sys, a: Action)
    ensures Later(s.world, Act(f, s, a).world)
    ensures |Act(f, s, a).procs| == |s.procs|
  {
    if a.i < |s.procs| && a.Step? {
      MicroIsLater(f, s.world, s.procs[a.i]);
    }
  }

  lemma {:induction false} RunIsLater(f: Setup, s: Sys, acts: seq<Action>)
    ensures Later(s.world, Run(f, s, acts).world)
    ensures |Run(f, s, acts).procs| == |s.procs|
    decreases |acts|
  {
    if acts != [] {
      ActIsLater(f, s, acts[0]);
      RunIsLater(f, Act(f, s, acts[0]), acts[1..]);
    }
  }

  lemma {:induction false} RunAppend(f: Setup, s: Sys, a: seq<Action>, b: seq<Action>)
    ensures Run(f, s, a + b) == Run(f, Run(f, s, a), b)
    decreases |a|
  {
    if a == [] {
      assert a + b == b;
    } else {
      assert (a + b)[1..] == a[1..] + b;
      RunAppend(f, Act(f, s, a[0]), a[1..], b);
    }
  }

  /** What a successful pick hands out: fresh receipts for queued messages, decoded. */
  ghost predicate Delivered(o: Oracle, w: World, rec: Record) {
    && rec.receipt < |w.receipts| && w.receipts[rec.receipt] == rec.msg
    && rec.msg < |w.sent| && o.decode(w.sent[rec.msg]) == Some(rec.task)
  }

  lemma {:induction false} DecodedInOrder(o: Oracle, messages: seq<Message>)
    requires DecodeAll(o, messages).Some?
    ensures var records := DecodeAll(o, messages).value;
            && |records| == |messages|
            && forall i :: 0 <= i < |records| ==>
                 && records[i].receipt == messages[i].receipt
                 && records[i].msg == messages[i].msg
                 && o.decode(messages[i].body) == Some(records[i].task)
    decreases |messages|
  {
    if messages != [] {
      DecodedInOrder(o, messages[1..]);
    }
  }

  lemma PickedAreDelivered(o: Oracle, w: World)
    requires PickTasks(o, w).1.Some?
    ensures var (w1, records) := PickTasks(o, w);
            && w1.queue == w.queue
            && |records.value| == |Visible(w, o.deliver(w.calls, w.queue))|
            && forall i :: 0 <= i < |records.value| ==>
                 && Delivered(o, w1, records.value[i])
                 && records.value[i].receipt == |w.receipts| + i
                 && records.value[i].msg in w.queue
                 && records.value[i].msg == Visible(w, o.deliver(w.calls, w.queue))[i]
  {
    var ids := Visible(w, o.deliver(w.calls, w.queue));
    var (w1, messages) := Receive(o, w);
    DecodedInOrder(o, messages.value);
    forall i | 0 <= i < |ids|
      ensures ids[i] in w.queue && messages.value[i] == Message(w.sent[ids[i]], |w.receipts| + i, ids[i])
    {
      assert ids[i] in ids;
    }
  }
}
