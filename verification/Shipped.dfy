/** The guarantees of the shipped process, one event loop beside any number of request handlers that
    submit tasks: whatever is proved of fleets, brought back to the code. */
module Shipped {
  import opened Domain
  import opened Backend
  import opened Tasks
  import opened AppContext
  import opened Fleet
  import opened Refinement
  import opened Delivery
  import opened Guards
  import opened Ledger
  import opened LoadBound
  import opened Conflicts
  import opened Exclusion

  // ---------- the loop and the request handlers ----------

  /** Process 0 is the event loop; the others only submit. */
  ghost predicate LoopAndHandlers(f: Setup, s: Sys, acts: seq<Action>) {
    Start(f, s) && |s.procs| > 0 && OneWorker(f, s, acts)
  }

  lemma {:induction false} HandlersNeverWork(f: Setup, s: Sys, acts: seq<Action>)
    requires OneWorker(f, s, acts)
    requires forall i :: 0 < i < |s.procs| ==> s.procs[i].Idle? || s.procs[i].Sending?
    ensures var s1 := Run(f, s, acts);
            |s1.procs| == |s.procs| && forall i :: 0 < i < |s1.procs| ==> s1.procs[i].Idle? || s1.procs[i].Sending?
    decreases |acts|
  {
    if acts != [] {
      HandlersNeverWork(f, Act(f, s, acts[0]), acts[1..]);
    }
  }

  /** The row as the serial history leaves it, plus the reservation the loop has open on it, if any. */
  ghost predicate RowIsSerial(serial: map<Key, ResourceState>, s: Sys, k: Key)
    requires |s.procs| > 0
  {
    && k in serial && k in s.world.states
    && s.world.states[k] ==
       if OpenOn(s.procs[0], k) then Reserved(serial[k], Cost(s.procs[0].job.task)) else serial[k]
  }

  /** At every step, under any faults and whatever is submitted meanwhile: the table is the replay of a
      legal serial history, plus at most one open reservation, and the process is alive. */
  lemma TableIsSerial(f: Setup, s: Sys, acts: seq<Action>)
    requires LoopAndHandlers(f, s, acts)
    ensures var s1, init := Run(f, s, acts), s.world.states;
            && LegalRun(init, s1.world.log)
            && s1.world.states.Keys == init.Keys
            && |s1.procs| == |s.procs|
            && (forall k :: k in init ==> RowIsSerial(Replay(init, s1.world.log), s1, k))
            && (forall i :: 0 <= i < |s1.procs| ==> !s1.procs[i].Dead?)
  {
    OneWorkerIsExclusive(f, s, acts);
    Serializable(f, s, acts);
    DereferenceIsSafe(f, s, acts);
    HandlersNeverWork(f, s, acts);
    var s1, serial := Run(f, s, acts), Replay(s.world.states, Run(f, s, acts).world.log);
    forall k | k in s.world.states
      ensures RowIsSerial(serial, s1, k)
    {
      assert SettledIn(serial, s1, k);
    }
  }

  /** At every step: rows that started within their limits are within them, and the batches of the whole
      run fit in the slots that were free at its start. */
  lemma LimitsHold(f: Setup, s: Sys, acts: seq<Action>)
    requires LoopAndHandlers(f, s, acts) && WithinLimits(s.world.states)
    ensures var w := Run(f, s, acts).world;
            WithinLimits(w.states) && AllCreated(w.log) <= Total(Free(s.world.states, f.reg))
  {
    OneWorkerIsExclusive(f, s, acts);
    CapacityUnderExclusion(f, s, acts);
    TableIsSerial(f, s, acts);
    forall k | k in s.world.states
      ensures Run(f, s, acts).world.states[k].active <= Run(f, s, acts).world.states[k].maxConcurrent
    {
      LedgerUnderExclusion(f, s, acts, k);
    }
  }

  /** At every step: every message, submitted before or meanwhile, is queued or was batched, none more
      often than one plus its failed deletes, and one that no resource admits is untouched. */
  lemma NoTaskLost(f: Setup, s: Sys, acts: seq<Action>, m: MsgId)
    requires LoopAndHandlers(f, s, acts) && DistinctDeliveries(f.o)
    requires Kept(s.world) && s.world.removals == [] && s.world.receipts == []
    ensures var w := Run(f, s, acts).world;
            && s.world.sent <= w.sent
            && Kept(w)
            && Batches(w.log, m) <= 1 + Removals(w.removals, m, false)
            && (Oversized(f, w, m) ==> Stuck(w, m))
            && (m < |s.world.sent| ==> (Oversized(f, w, m) <==> Oversized(f, s.world, m)))
  {
    NoTaskIsLost(f, s, acts);
    DuplicatesAreFailedDeletes(f, s, acts, m);
    DereferenceIsSafe(f, s, acts);
    OversizedIsNeverServed(f, s, acts);
    if m < |s.world.sent| {
      OversizedStays(f, s.world, Run(f, s, acts).world, m);
    }
  }

  // ---------- the loop as a function ----------

  lemma {:induction false} ProcessZeroIsOneWorker(f: Setup, s: Sys, acts: seq<Action>)
    requires forall a :: a in acts ==> a == Step(0)
    ensures OneWorker(f, s, acts)
    decreases |acts|
  {
    if acts != [] {
      assert acts[0] in acts && forall a :: a in acts[1..] ==> a in acts;
      ProcessZeroIsOneWorker(f, Act(f, s, acts[0]), acts[1..]);
    }
  }

  /** The event loop by itself, as a schedule. */
  lemma ServeIsLoopAndHandlers(o: Oracle, reg: set<Key>, w: World, ticks: nat) returns (acts: seq<Action>)
    requires FairOrder(o) && Keyed(w.states) && w.log == []
    ensures var f, s := Setup(o, reg, 0), Sys(w, [Idle]);
            && LoopAndHandlers(f, s, acts)
            && Run(f, s, acts) == Sys(Serve(o, reg, w, ticks).0, [After(Serve(o, reg, w, ticks).1)])
            && forall a :: a in acts ==> a.Step?
  {
    acts := ServeIsARun(Setup(o, reg, 0), w, ticks);
    ProcessZeroIsOneWorker(Setup(o, reg, 0), Sys(w, [Idle]), acts);
  }

  /** Between two ticks no reservation is open. */
  lemma ServeTable(f: Setup, s: Sys, acts: seq<Action>, r: PickUpResult)
    requires LoopAndHandlers(f, s, acts) && Run(f, s, acts).procs == [After(r)]
    ensures var w1 := Run(f, s, acts).world;
            LegalRun(s.world.states, w1.log) && w1.states == Replay(s.world.states, w1.log) && !r.Crashed?
  {
    TableIsSerial(f, s, acts);
    var s1 := Run(f, s, acts);
    var init, serial := s.world.states, Replay(s.world.states, s1.world.log);
    assert s1.procs[0] == After(r);
    ReplayKeys(init, s1.world.log);
    assert forall k :: k in init ==> RowIsSerial(serial, s1, k);
  }

  /** The shipped event loop, after any number of ticks and under any faults: the table is exactly
      the serial replay of the dispatches made, within the limits, and fits the free slots. */
  lemma ServeKeepsTheLedger(o: Oracle, reg: set<Key>, w: World, ticks: nat)
    requires FairOrder(o) && Keyed(w.states) && w.log == []
    ensures var w1 := Serve(o, reg, w, ticks).0;
            && LegalRun(w.states, w1.log)
            && w1.states == Replay(w.states, w1.log)
            && !Serve(o, reg, w, ticks).1.Crashed?
            && (WithinLimits(w.states) ==>
                  WithinLimits(w1.states) && AllCreated(w1.log) <= Total(Free(w.states, reg)))
  {
    var f, s := Setup(o, reg, 0), Sys(w, [Idle]);
    var acts := ServeIsLoopAndHandlers(o, reg, w, ticks);
    ServeTable(f, s, acts, Serve(o, reg, w, ticks).1);
    if WithinLimits(w.states) {
      LimitsHold(f, s, acts);
    }
  }

  /** After any number of ticks and under any faults: no stored load exceeds the token limit times the
      active count after any dispatch, if and only if every reservation that stayed fitted. */
  lemma ServeKeepsTheLoad(o: Oracle, reg: set<Key>, w: World, ticks: nat, key: Key)
    requires FairOrder(o) && Keyed(w.states) && w.log == [] && key in w.states && LoadWithin(w.states[key])
    ensures var w1 := Serve(o, reg, w, ticks).0;
            && (LoadThroughout(w.states, w1.log, key) <==> ReservesFit(w.states, w1.log, key))
            && (LoadThroughout(w.states, w1.log, key) ==> key in w1.states && LoadWithin(w1.states[key]))
  {
    ServeKeepsTheLedger(o, reg, w, ticks);
    LoadHoldsExactlyWhenReservesFit(w.states, Serve(o, reg, w, ticks).0.log, key);
  }

  /** After any number of ticks and under any faults, every message is still queued or was batched;
      none was batched more often than one plus its failed deletes; and one that no resource admits
      is untouched. */
  lemma ServeLosesNoTask(o: Oracle, reg: set<Key>, w: World, ticks: nat, m: MsgId)
    requires FairOrder(o) && DistinctDeliveries(o) && Keyed(w.states)
    requires Kept(w) && w.log == [] && w.removals == [] && w.receipts == []
    ensures var w1 := Serve(o, reg, w, ticks).0;
            && w1.sent == w.sent
            && Kept(w1)
            && Batches(w1.log, m) <= 1 + Removals(w1.removals, m, false)
            && (Oversized(Setup(o, reg, 0), w, m) ==> Stuck(w1, m))
  {
    var f, s := Setup(o, reg, 0), Sys(w, [Idle]);
    var acts := ServeIsLoopAndHandlers(o, reg, w, ticks);
    NoTaskLost(f, s, acts, m);
    OnlySubmissionsSend(f, s, acts);
  }

  lemma {:induction false} OnlySubmissionsSend(f: Setup, s: Sys, acts: seq<Action>)
    requires forall a :: a in acts ==> a.Step?
    requires forall i :: 0 <= i < |s.procs| ==> !s.procs[i].Sending?
    ensures Run(f, s, acts).world.sent == s.world.sent
    decreases |acts|
  {
    if acts != [] {
      var a := acts[0];
      assert a in acts && forall b :: b in acts[1..] ==> b in acts;
      if a.i < |s.procs| {
        MicroFrame(f, s.world, s.procs[a.i]);
      }
      OnlySubmissionsSend(f, Act(f, s, a), acts[1..]);
    }
  }
}
