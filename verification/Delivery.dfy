/** What the queue protocol guarantees in every interleaving: no task is lost, and duplicates are
    accounted for. */
module Delivery {
  import opened Domain
  import opened Backend
  import opened Fleet

  ghost predicate Batched(log: seq<Entry>, m: MsgId) {
    exists i :: 0 <= i < |log| && log[i].msg == m && log[i].ending == Created
  }

  /** Every message ever accepted is still queued, or was handed to a provider. */
  ghost predicate Kept(w: World) {
    forall m: MsgId :: m < |w.sent| ==> m in w.queue || Batched(w.log, m)
  }

  ghost predicate Receipted(w: World, rec: Record) {
    rec.receipt < |w.receipts| && w.receipts[rec.receipt] == rec.msg
  }

  ghost predicate HoldsReceipts(w: World, pc: Pc) {
    && (forall rec :: rec in Held(pc) ==> Receipted(w, rec))
    && (pc.Removing? ==> Batched(w.log, pc.job.msg))
  }

  ghost predicate DeliveryInv(s: Sys) {
    Kept(s.world) && forall i :: 0 <= i < |s.procs| ==> HoldsReceipts(s.world, s.procs[i])
  }

  lemma MicroKeepsReceipts(f: Setup, w: World, pc: Pc)
    requires HoldsReceipts(w, pc)
    ensures var (w1, pc1) := Micro(f, w, pc); HoldsReceipts(w1, pc1)
  {
    var (w1, pc1) := Micro(f, w, pc);
    MicroIsLater(f, w, pc);
    match pc {
      case Idle =>
        if pc1.Loop? {
          PickedAreDelivered(f.o, w);
        }
      case Loop(rest) =>
        if rest != [] {
          assert Receipted(w, rest[0]) && forall rec :: rec in rest[1..] ==> rec in rest;
        }
      case Creating(job, key, st, rest) =>
        if pc1.Removing? {
          assert w1.log[|w.log|] == Entry(key, job.msg, Cost(job.task), Created);
        }
        assert Held(pc1) == Held(pc);
      case Removing(job, rest) =>
        assert forall rec :: rec in rest ==> rec in Held(pc);
      case Marking(job, rest) =>
        assert forall rec :: rec in rest ==> rec in Held(pc);
      case _ =>
        assert Held(pc1) == Held(pc) || Held(pc1) == [];
    }
  }

  lemma BatchedLater(log: seq<Entry>, log': seq<Entry>, m: MsgId)
    requires log <= log' && Batched(log, m)
    ensures Batched(log', m)
  {
    var i :| 0 <= i < |log| && log[i].msg == m && log[i].ending == Created;
    assert log'[i] == log[i];
  }

  lemma MicroKeepsMessages(f: Setup, w: World, pc: Pc)
    requires Kept(w) && HoldsReceipts(w, pc)
    ensures Kept(Micro(f, w, pc).0)
  {
    var w1 := Micro(f, w, pc).0;
    if pc.Removing? {
      assert pc.job in Held(pc);
    }
    forall m: MsgId | m < |w1.sent|
      ensures m in w1.queue || Batched(w1.log, m)
    {
      if m < |w.sent| && Batched(w.log, m) {
        BatchedLater(w.log, w1.log, m);
      }
    }
  }

  lemma ActKeepsDelivery(f: Setup, s: Sys, a: Action)
    requires DeliveryInv(s)
    ensures DeliveryInv(Act(f, s, a))
  {
    ActIsLater(f, s, a);
    var s1 := Act(f, s, a);
    if a.i < |s.procs| && a.Step? {
      MicroKeepsReceipts(f, s.world, s.procs[a.i]);
      MicroKeepsMessages(f, s.world, s.procs[a.i]);
    }
    forall i | 0 <= i < |s1.procs|
      ensures HoldsReceipts(s1.world, s1.procs[i])
    {
      if s1.procs[i] == s.procs[i] && s.procs[i].Removing? {
        BatchedLater(s.world.log, s1.world.log, s.procs[i].job.msg);
      }
    }
  }

  lemma {:induction false} RunKeepsDelivery(f: Setup, s: Sys, acts: seq<Action>)
    requires DeliveryInv(s)
    ensures DeliveryInv(Run(f, s, acts))
    decreases |acts|
  {
    if acts != [] {
      ActKeepsDelivery(f, s, acts[0]);
      RunKeepsDelivery(f, Act(f, s, acts[0]), acts[1..]);
    }
  }

  /** No task is lost, however processes interleave and whichever calls fail. */
  lemma NoTaskIsLost(f: Setup, s: Sys, acts: seq<Action>)
    requires AtRest(s) && Kept(s.world)
    ensures Kept(Run(f, s, acts).world)
    ensures s.world.sent <= Run(f, s, acts).world.sent
  {
    RunKeepsDelivery(f, s, acts);
    RunIsLater(f, s, acts);
  }

  // ---------- duplicates ----------

  function Batches(log: seq<Entry>, m: MsgId): nat {
    if log == [] then 0
    else
      var e := log[|log| - 1];
      Batches(log[..|log| - 1], m) + if e.msg == m && e.ending == Created then 1 else 0
  }

  /** Delete calls for a message that took effect, or that did not. */
  function Removals(removals: seq<Removal>, m: MsgId, effective: bool): nat {
    if removals == [] then 0
    else
      Removals(removals[..|removals| - 1], m, effective) +
      if removals[|removals| - 1] == Removal(m, effective) then 1 else 0
  }

  function Between(pc: Pc, m: MsgId): nat {
    if pc.Removing? && pc.job.msg == m then 1 else 0
  }

  /** Processes that have a batch for the message and have not yet called delete. */
  function InFlight(procs: seq<Pc>, m: MsgId): nat {
    if procs == [] then 0 else InFlight(procs[1..], m) + Between(procs[0], m)
  }

  lemma BatchesAppend(log: seq<Entry>, e: Entry, m: MsgId)
    ensures Batches(log + [e], m) == Batches(log, m) + if e.msg == m && e.ending == Created then 1 else 0
  {
    assert (log + [e])[..|log|] == log;
  }

  lemma RemovalsAppend(removals: seq<Removal>, r: Removal, m: MsgId, effective: bool)
    ensures Removals(removals + [r], m, effective) ==
            Removals(removals, m, effective) + if r == Removal(m, effective) then 1 else 0
  {
    assert (removals + [r])[..|removals|] == removals;
  }

  lemma {:induction false} InFlightUpdate(procs: seq<Pc>, i: nat, pc: Pc, m: MsgId)
    requires i < |procs|
    ensures InFlight(procs[i := pc], m) == InFlight(procs, m) - Between(procs[i], m) + Between(pc, m)
    decreases |procs|
  {
    if i == 0 {
      assert procs[0 := pc][1..] == procs[1..];
    } else {
      assert procs[i := pc][1..] == procs[1..][i - 1 := pc];
      InFlightUpdate(procs[1..], i - 1, pc, m);
    }
  }

  lemma {:induction false} NoneInFlight(procs: seq<Pc>, m: MsgId)
    requires forall i :: 0 <= i < |procs| ==> !procs[i].Removing?
    ensures InFlight(procs, m) == 0
    decreases |procs|
  {
    if procs != [] {
      NoneInFlight(procs[1..], m);
    }
  }

  ghost predicate Balanced(s: Sys, m: MsgId) {
    var w := s.world;
    Batches(w.log, m) == Removals(w.removals, m, true) + Removals(w.removals, m, false) + InFlight(s.procs, m)
  }

  /** A batch is logged by exactly the step that enters Removing. */
  lemma MicroBatches(f: Setup, w: World, pc: Pc, m: MsgId)
    ensures var (w1, pc1) := Micro(f, w, pc);
            Batches(w1.log, m) == Batches(w.log, m) + if pc.Removing? then 0 else Between(pc1, m)
  {
    MicroFrame(f, w, pc);
    match pc {
      case Reserving(job, key, st, rest) => ReserveBatches(f, w, job, key, st, rest, m);
      case Creating(job, key, st, rest) => CreateBatches(f, w, job, key, st, rest, m);
      case Releasing(job, key, st, rest) => ReleaseBatches(f, w, job, key, st, rest, m);
      case _ =>
    }
  }

  lemma ReserveBatches(f: Setup, w: World, job: Record, key: Key, st: ResourceState, rest: seq<Record>, m: MsgId)
    ensures Batches(Reserve(f, w, job, key, st, rest).0.log, m) == Batches(w.log, m)
  {
    var w1 := Reserve(f, w, job, key, st, rest).0;
    if w1.log != w.log {
      BatchesAppend(w.log, w1.log[|w.log|], m);
    }
  }

  lemma CreateBatches(f: Setup, w: World, job: Record, key: Key, st: ResourceState, rest: seq<Record>, m: MsgId)
    ensures var (w1, pc1) := Create(f, w, job, key, st, rest);
            Batches(w1.log, m) == Batches(w.log, m) + Between(pc1, m)
  {
    BatchesAppend(w.log, Entry(key, job.msg, Cost(job.task), Created), m);
  }

  lemma ReleaseBatches(f: Setup, w: World, job: Record, key: Key, st: ResourceState, rest: seq<Record>, m: MsgId)
    ensures Batches(Release(f, w, job, key, st, rest).0.log, m) == Batches(w.log, m)
  {
    BatchesAppend(w.log, Release(f, w, job, key, st, rest).0.log[|w.log|], m);
  }

  /** A delete call adds one removal for the receipt's message. */
  lemma DeleteRemovals(o: Oracle, w: World, receipt: Receipt, m: MsgId)
    requires receipt < |w.receipts|
    ensures var w1, hit := Delete(o, w, receipt).0, w.receipts[receipt] == m;
            && Removals(w1.removals, m, true) ==
               Removals(w.removals, m, true) + (if hit && o.outcome(w.calls) != Refused then 1 else 0)
            && Removals(w1.removals, m, false) ==
               Removals(w.removals, m, false) + (if hit && o.outcome(w.calls) == Refused then 1 else 0)
  {
    var r := Removal(w.receipts[receipt], o.outcome(w.calls) != Refused);
    RemovalsAppend(w.removals, r, m, true);
    RemovalsAppend(w.removals, r, m, false);
  }

  /** A delete is recorded by exactly the step that leaves Removing. */
  lemma MicroRemovals(f: Setup, w: World, pc: Pc, m: MsgId)
    requires HoldsReceipts(w, pc)
    ensures var w1 := Micro(f, w, pc).0;
            Removals(w1.removals, m, true) + Removals(w1.removals, m, false) ==
            Removals(w.removals, m, true) + Removals(w.removals, m, false) + Between(pc, m)
  {
    MicroFrame(f, w, pc);
    if pc.Removing? {
      assert pc.job in Held(pc);
      DeleteRemovals(f.o, w, pc.job.receipt, m);
    }
  }

  lemma {:induction false} RunBalances(f: Setup, s: Sys, acts: seq<Action>, m: MsgId)
    requires DeliveryInv(s) && Balanced(s, m)
    ensures Balanced(Run(f, s, acts), m)
    decreases |acts|
  {
    if acts != [] {
      var a := acts[0];
      var s1 := Act(f, s, a);
      ActKeepsDelivery(f, s, a);
      if a.i < |s.procs| {
        InFlightUpdate(s.procs, a.i, s1.procs[a.i], m);
        if a.Step? {
          MicroBatches(f, s.world, s.procs[a.i], m);
          MicroRemovals(f, s.world, s.procs[a.i], m);
        } else {
          assert s1.procs == s.procs[a.i := s1.procs[a.i]];
        }
      }
      RunBalances(f, s1, acts[1..], m);
    }
  }

  /** In every run, the batches of a message are its delete calls plus those about to be made. */
  lemma BatchesAreDeletes(f: Setup, s: Sys, acts: seq<Action>, m: MsgId)
    requires AtRest(s) && Kept(s.world) && s.world.log == [] && s.world.removals == []
    ensures Balanced(Run(f, s, acts), m)
  {
    NoneInFlight(s.procs, m);
    RunBalances(f, s, acts, m);
  }

  // ---------- one worker ----------

  /** Only process 0 works; the others submit. */
  ghost predicate OneWorker(f: Setup, s: Sys, acts: seq<Action>)
    decreases |acts|
  {
    acts != [] ==>
    && (acts[0].Step? && 0 < acts[0].i < |s.procs| ==> s.procs[acts[0].i].Sending?)
    && OneWorker(f, Act(f, s, acts[0]), acts[1..])
  }

  ghost predicate NoRepeats(ids: seq<MsgId>) {
    forall i, j :: 0 <= i < j < |ids| ==> ids[i] != ids[j]
  }

  /** A receive never returns one message twice. */
  ghost predicate DistinctDeliveries(o: Oracle) {
    forall n: nat, q: set<MsgId> :: NoRepeats(o.deliver(n, q))
  }

  lemma {:induction false} VisibleNoRepeats(w: World, ids: seq<MsgId>)
    requires NoRepeats(ids)
    ensures NoRepeats(Visible(w, ids))
    decreases |ids|
  {
    if ids != [] {
      VisibleNoRepeats(w, ids[1..]);
      var tail := Visible(w, ids[1..]);
      assert ids[0] !in ids[1..];
      assert ids[0] !in tail;
    }
  }

  /** What process 0 holds is queued, and held once; a queued message was never deleted. */
  ghost predicate SoleHolder(s: Sys) {
    && |s.procs| > 0
    && (forall i :: 0 < i < |s.procs| ==> s.procs[i].Idle? || s.procs[i].Sending?)
    && HeldOnce(s.world.queue, Held(s.procs[0]))
  }

  ghost predicate DeletedOnce(w: World, m: MsgId) {
    && Removals(w.removals, m, true) <= 1
    && (m in w.queue || m >= |w.sent| ==> Removals(w.removals, m, true) == 0)
  }

  ghost predicate ReceiptsInRange(w: World) {
    forall i :: 0 <= i < |w.receipts| ==> w.receipts[i] < |w.sent|
  }

  ghost predicate HeldOnce(queue: set<MsgId>, held: seq<Record>) {
    && (forall i :: 0 <= i < |held| ==> held[i].msg in queue)
    && (forall i, j :: 0 <= i < j < |held| ==> held[i].msg != held[j].msg)
  }

  lemma PickHoldsOnce(f: Setup, w: World)
    requires DistinctDeliveries(f.o)
    ensures var (w1, pc1) := Pick(f, w); HeldOnce(w1.queue, Held(pc1))
  {
    if PickTasks(f.o, w).1.Some? {
      PickedAreDelivered(f.o, w);
      VisibleNoRepeats(w, f.o.deliver(w.calls, w.queue));
    }
  }

  /** Unless it picks, a step keeps what the process holds, drops the first record, or drops all. */
  lemma MicroHeld(f: Setup, w: World, pc: Pc)
    requires !pc.Idle?
    ensures var held, held1 := Held(pc), Held(Micro(f, w, pc).1);
            || held1 == []
            || (|held1| == |held| && forall i :: 0 <= i < |held| ==> held1[i].msg == held[i].msg)
            || ((pc.Removing? || pc.Marking?) && held == [pc.job] + held1)
  {
    var pc1 := Micro(f, w, pc).1;
    if pc.Loop? && pc.rest != [] {
      assert Held(pc1) == [pc1.job] + pc.rest[1..] && pc1.job.msg == pc.rest[0].msg;
    } else if !pc.Removing? && !pc.Marking? {
      assert Held(pc1) == Held(pc) || Held(pc1) == [];
    }
  }

  lemma DropFirst(queue: set<MsgId>, first: Record, rest: seq<Record>)
    requires HeldOnce(queue, [first] + rest)
    ensures HeldOnce(queue, rest) && HeldOnce(queue - {first.msg}, rest)
  {
    var held := [first] + rest;
    forall i | 0 <= i < |rest|
      ensures rest[i].msg in queue && rest[i].msg != first.msg
    {
      assert held[0] == first && held[i + 1] == rest[i];
    }
    forall i, j | 0 <= i < j < |rest|
      ensures rest[i].msg != rest[j].msg
    {
      assert held[i + 1] == rest[i] && held[j + 1] == rest[j];
    }
  }

  lemma MicroHoldsOnce(f: Setup, w: World, pc: Pc)
    requires DistinctDeliveries(f.o) && HoldsReceipts(w, pc) && HeldOnce(w.queue, Held(pc))
    ensures var (w1, pc1) := Micro(f, w, pc); HeldOnce(w1.queue, Held(pc1))
  {
    MicroFrame(f, w, pc);
    if pc.Idle? {
      PickHoldsOnce(f, w);
    } else {
      MicroHeld(f, w, pc);
      if pc.Removing? || pc.Marking? {
        assert Held(pc)[0] == pc.job && Receipted(w, Held(pc)[0]);
        DropFirst(w.queue, pc.job, pc.rest);
      }
    }
  }

  lemma WorkerStepKeepsSole(f: Setup, s: Sys)
    requires DistinctDeliveries(f.o) && SoleHolder(s)
    requires HoldsReceipts(s.world, s.procs[0])
    ensures SoleHolder(Act(f, s, Step(0)))
  {
    MicroHoldsOnce(f, s.world, s.procs[0]);
  }

  lemma StepKeepsReceiptsInRange(f: Setup, w: World, pc: Pc)
    requires ReceiptsInRange(w)
    ensures ReceiptsInRange(Micro(f, w, pc).0)
  {
    MicroFrame(f, w, pc);
    MicroIsLater(f, w, pc);
    if pc.Idle? {
      var ids := Visible(w, f.o.deliver(w.calls, w.queue));
      assert forall i :: 0 <= i < |ids| ==> ids[i] in ids;
    }
  }

  lemma WorkerStepDeletesOnce(f: Setup, w: World, pc: Pc, m: MsgId)
    requires HoldsReceipts(w, pc) && DeletedOnce(w, m) && ReceiptsInRange(w)
    requires pc.Removing? ==> pc.job.msg in w.queue
    ensures DeletedOnce(Micro(f, w, pc).0, m)
  {
    MicroFrame(f, w, pc);
    if pc.Removing? {
      assert pc.job in Held(pc);
      DeleteRemovals(f.o, w, pc.job.receipt, m);
    }
  }

  lemma {:induction false} RunDeletesOnce(f: Setup, s: Sys, acts: seq<Action>, m: MsgId)
    requires DistinctDeliveries(f.o) && OneWorker(f, s, acts)
    requires DeliveryInv(s) && SoleHolder(s) && DeletedOnce(s.world, m) && ReceiptsInRange(s.world)
    ensures var s1 := Run(f, s, acts); DeliveryInv(s1) && SoleHolder(s1) && DeletedOnce(s1.world, m) && ReceiptsInRange(s1.world)
    decreases |acts|
  {
    if acts != [] {
      var a := acts[0];
      ActKeepsDelivery(f, s, a);
      if a.Step? && a.i < |s.procs| {
        var held := Held(s.procs[0]);
        assert s.procs[0].Removing? ==> held[0] == s.procs[0].job;
        WorkerStepDeletesOnce(f, s.world, s.procs[a.i], m);
        StepKeepsReceiptsInRange(f, s.world, s.procs[a.i]);
        if a.i == 0 {
          WorkerStepKeepsSole(f, s);
        }
      }
      RunDeletesOnce(f, Act(f, s, a), acts[1..], m);
    }
  }

  lemma {:induction false} AtMostOneInFlight(procs: seq<Pc>, m: MsgId)
    requires |procs| > 0 && forall i :: 0 < i < |procs| ==> !procs[i].Removing?
    ensures InFlight(procs, m) == Between(procs[0], m)
  {
    NoneInFlight(procs[1..], m);
  }

  /** With one worker, a message gets at most one batch more than its deletes failed, whatever the
      visibility timeouts do. */
  lemma DuplicatesAreFailedDeletes(f: Setup, s: Sys, acts: seq<Action>, m: MsgId)
    requires DistinctDeliveries(f.o) && |s.procs| > 0 && OneWorker(f, s, acts)
    requires AtRest(s) && Kept(s.world)
    requires s.world.log == [] && s.world.removals == [] && s.world.receipts == []
    ensures var w := Run(f, s, acts).world;
            Batches(w.log, m) <= 1 + Removals(w.removals, m, false)
  {
    BatchesAreDeletes(f, s, acts, m);
    RunDeletesOnce(f, s, acts, m);
    var s1 := Run(f, s, acts);
    AtMostOneInFlight(s1.procs, m);
    var pc := s1.procs[0];
    if pc.Removing? {
      assert Held(pc)[0] == pc.job;
    }
  }
}
