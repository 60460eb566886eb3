/** The token ledger: the exact load of a row is at most its token limit times its active count; the
    stored one is so exactly as long as no reservation carries it below the 64-bit range. */
module LoadBound {
  import opened Int64
  import opened Domain
  import opened Backend
  import opened Tasks
  import opened Resources
  import opened AppContext
  import opened Delivery
  import opened Guards
  import opened Ledger
  import opened Calm

  /** The exact load never exceeds the token limit times the active count, negative costs included. */
  lemma {:induction false} ExactLoadBounded(init: map<Key, ResourceState>, log: seq<Entry>, key: Key)
    requires key in init && LegalRun(init, log)
    requires init[key].load <= init[key].maxTokensPerBatch * init[key].active
    ensures key in Replay(init, log)
    ensures init[key].load + HeldCost(log, key) <= init[key].maxTokensPerBatch * Replay(init, log)[key].active
    decreases |log|
  {
    ReplayKeys(init, log);
    if log != [] {
      var before, e := log[..|log| - 1], log[|log| - 1];
      ExactLoadBounded(init, before, key);
      ActiveConserved(init, before, key);
      AdmittedRow(Replay(init, before)[e.key], e);
      OneMore(init[key].maxTokensPerBatch, Replay(init, before)[key].active);
    }
  }

  // ---------- the stored load ----------

  lemma NoUpperWrap(stored: int64, exact: int, q: int, limit: int, n: int, most: int)
    requires stored == exact + q * 0x1_0000_0000_0000_0000
    requires exact <= limit * n && n <= most && 0 <= limit && limit * most <= MAX
    ensures stored == exact <==> exact >= MIN
  {
    assert limit * n <= limit * most;
  }

  /** As long as the most a row can hold fits in 64 bits, the stored load is the exact one precisely
      while the exact one is not below the 64-bit range. */
  lemma StoredLoadIsExact(init: map<Key, ResourceState>, log: seq<Entry>, key: Key)
    requires key in init && LegalRun(init, log) && WithinLimits(init)
    requires init[key].load <= init[key].maxTokensPerBatch * init[key].active
    requires 0 <= init[key].maxTokensPerBatch
    requires init[key].maxTokensPerBatch * init[key].maxConcurrent <= MAX
    ensures key in Replay(init, log)
    ensures Replay(init, log)[key].load == init[key].load + HeldCost(log, key) <==>
            init[key].load + HeldCost(log, key) >= MIN
  {
    ReplayKeys(init, log);
    ExactLoadBounded(init, log, key);
    ActiveConserved(init, log, key);
    RowWithinLimit(init, log, key);
    var q, _ := TurnsConserved(init, log, key);
    var now := Replay(init, log)[key];
    NoUpperWrap(now.load, init[key].load + HeldCost(log, key), q,
                init[key].maxTokensPerBatch, now.active, init[key].maxConcurrent);
  }

  /** The stored load is at most the token limit times the active count. */
  ghost predicate LoadWithin(st: ResourceState) {
    st.load <= st.maxTokensPerBatch * st.active
  }

  lemma TurnedDown(stored: int64, exact: int, q: int, bound: int)
    requires stored == exact + q * 0x1_0000_0000_0000_0000 && MIN <= exact <= bound
    ensures stored <= bound
  {}

  /** If the exact load is not below the 64-bit range, the stored one obeys the bound.  The converse
      fails: four costs of -2^62 wrap all the way around to zero. */
  lemma ExactInRangeIsWithin(init: map<Key, ResourceState>, log: seq<Entry>, key: Key)
    requires key in init && LegalRun(init, log) && LoadWithin(init[key])
    ensures key in Replay(init, log)
    ensures init[key].load + HeldCost(log, key) >= MIN ==> LoadWithin(Replay(init, log)[key])
  {
    ExactLoadBounded(init, log, key);
    ActiveConserved(init, log, key);
    var q, _ := TurnsConserved(init, log, key);
    var now, exact := Replay(init, log)[key], init[key].load + HeldCost(log, key);
    if exact >= MIN {
      TurnedDown(now.load, exact, q, now.maxTokensPerBatch * now.active);
    }
  }

  /** What a caller could check before it reserves: the sum does not underflow, or it comes out at or
      below the bound although it does. */
  ghost predicate LoadFits(st: ResourceState, cost: int64) {
    || st.load + cost >= MIN
    || st.load + cost + 0x1_0000_0000_0000_0000 <= st.maxTokensPerBatch * (st.active + 1)
  }

  /** An admitted reservation on a row within the bound keeps it there if and only if it fits. */
  lemma ReserveKeepsLoadExactly(st: ResourceState, cost: int64)
    requires Admits(st, cost) && LoadWithin(st)
    ensures LoadWithin(Reserved(st, cost)) <==> LoadFits(st, cost)
  {
    OneMore(st.maxTokensPerBatch, st.active);
    assert Reserved(st, cost).active == st.active + 1;
  }

  /** The same test for a dispatch that re-read the row after its check, when the count may have
      reached the largest 64-bit value and wrap as well. */
  ghost predicate ReserveFits(st: ResourceState, cost: int64) {
    if st.active < MAX then LoadFits(st, cost) else Add(st.load, cost) <= st.maxTokensPerBatch * MIN
  }

  /** A reservation under the token limit, on a row within the bound, keeps it there if and only if it
      passes that test; whether the row had a free slot does not matter. */
  lemma UncheckedReserveKeepsLoadExactly(st: ResourceState, cost: int64)
    requires cost <= st.maxTokensPerBatch && LoadWithin(st)
    ensures LoadWithin(Reserved(st, cost)) <==> ReserveFits(st, cost)
  {
    if st.active < MAX {
      OneMore(st.maxTokensPerBatch, st.active);
      assert Reserved(st, cost).active == st.active + 1;
    } else {
      assert Reserved(st, cost).active == MIN;
    }
  }

  /** The bound holds after every dispatch of a history. */
  ghost predicate LoadThroughout(init: map<Key, ResourceState>, log: seq<Entry>, key: Key) {
    && key in Replay(init, log) && LoadWithin(Replay(init, log)[key])
    && (log != [] ==> LoadThroughout(init, log[..|log| - 1], key))
  }

  /** Every reservation that stays in the table fitted when it was made. */
  ghost predicate ReservesFit(init: map<Key, ResourceState>, log: seq<Entry>, key: Key) {
    log != [] ==>
      var before, e := log[..|log| - 1], log[|log| - 1];
      && ReservesFit(init, before, key)
      && (e.key == key && Keeps(e.ending) ==> key in Replay(init, before) && LoadFits(Replay(init, before)[key], e.cost))
  }

  /** Along a legal history the stored load stays within the bound if and only if it was at the start
      and every reservation that stays fitted when it was made. */
  lemma {:induction false} LoadHoldsExactlyWhenReservesFit(init: map<Key, ResourceState>, log: seq<Entry>, key: Key)
    requires key in init && LegalRun(init, log)
    ensures LoadThroughout(init, log, key) <==> LoadWithin(init[key]) && ReservesFit(init, log, key)
    decreases |log|
  {
    ReplayKeys(init, log);
    if log != [] {
      var before, e := log[..|log| - 1], log[|log| - 1];
      LoadHoldsExactlyWhenReservesFit(init, before, key);
      var st := Replay(init, before)[e.key];
      RollbackCancels(st, e.cost);
      if e.key == key && Keeps(e.ending) && LoadWithin(st) {
        ReserveKeepsLoadExactly(st, e.cost);
      }
    }
  }

  // ---------- it does fail ----------

  const DEBT: int64 := -0x4000_0000_0000_0000

  /** Every receive hands out the first three messages. */
  function FirstThree(): (nat, set<MsgId>) -> seq<MsgId> {
    (n: nat, queue: set<MsgId>) => [0, 1, 2]
  }

  ghost function Debtors(): Oracle {
    CalmOracle(DEBT, FirstThree())
  }

  /** A fresh resource, and three queued tasks that ask for -2^62 tokens each. */
  function DebtorsQueued(): World {
    CalmWorld(Fresh("r", "echo"), ["a", "b", "c"], {0, 1, 2})
  }

  /** One row with room, and a record that asks for -2^62 tokens. */
  ghost predicate Ready(w: World, rec: Record) {
    && rec.task == CalmTask(rec.task.id, DEBT)
    && w.states.Keys == {"r"} && w.states["r"].id == "r" && Admits(w.states["r"], DEBT)
  }

  /** Such a record is dispatched, and its reservation is all that happens to the table. */
  ghost predicate Reserves(o: Oracle, process: ProcessFn) {
    forall w: World, rec: Record {:trigger Attempt(o, w, rec, process)} :: Ready(w, rec) ==>
      var (w1, alive) := Attempt(o, w, rec, process);
      alive && w1.states == w.states["r" := Reserved(w.states["r"], DEBT)]
  }

  lemma DebtorProcess(w: World, rec: Record)
    requires Ready(w, rec)
    ensures var p := Process(Debtors(), {"r"}, w, rec);
            p.reply == Reply(Success, false) && p.world.states == w.states["r" := Reserved(w.states["r"], DEBT)]
  {
    ListingOfOne("r");
    assert ["r"][1..] == [];
    assert TotalBytes([]) == 0;
  }

  lemma DebtorReserves()
    ensures Reserves(Debtors(), ProcessWith(Debtors(), {"r"}))
  {
    var o, process := Debtors(), ProcessWith(Debtors(), {"r"});
    forall w: World, rec: Record | Ready(w, rec)
      ensures var (w1, alive) := Attempt(o, w, rec, process);
              alive && w1.states == w.states["r" := Reserved(w.states["r"], DEBT)]
    {
      var w0 := UpdateStatus(o, w, rec.task.id, InProgressWorker);
      DebtorProcess(w0, rec);
      assert process(w0, rec) == Process(o, {"r"}, w0, rec);
    }
  }

  function ReservedTimes(st: ResourceState, cost: int64, n: nat): ResourceState
    decreases n
  {
    if n == 0 then st else ReservedTimes(Reserved(st, cost), cost, n - 1)
  }

  /** Such records one after the other, while there is room. */
  lemma {:induction false} AllReserve(o: Oracle, process: ProcessFn, w: World, recs: seq<Record>)
    requires Reserves(o, process)
    requires forall rec :: rec in recs ==> rec.task == CalmTask(rec.task.id, DEBT)
    requires w.states.Keys == {"r"} && w.states["r"].id == "r" && DEBT <= w.states["r"].maxTokensPerBatch
    requires w.states["r"].active + |recs| <= w.states["r"].maxConcurrent
    ensures var (w1, alive) := Attempts(o, w, recs, process);
            alive && w1.states == w.states["r" := ReservedTimes(w.states["r"], DEBT, |recs|)]
    decreases |recs|
  {
    if recs == [] {
      assert w.states["r" := w.states["r"]] == w.states;
    } else {
      assert Ready(w, recs[0]);
      AllReserve(o, process, Attempt(o, w, recs[0], process).0, recs[1..]);
    }
  }

  /** A start like any other: nothing fails, and the row obeys the bound. */
  lemma DebtorsAreAStart()
    ensures var o, w := Debtors(), DebtorsQueued();
            && FairOrder(o) && CodecKeepsId(o) && DistinctDeliveries(o)
            && (forall n: nat :: o.outcome(n) == Ack)
            && w.states == map["r" := Fresh("r", "echo")]
            && Keyed(w.states) && WithinLimits(w.states) && LoadWithin(w.states["r"])
  {
    CalmIsWellBehaved(DEBT, FirstThree());
  }

  /** One tick of the event loop from there: three batches, and a stored load of 2^62 where at most
      3000 is allowed. */
  lemma NegativeCostsWrap()
    ensures var (w1, r) := Serve(Debtors(), {"r"}, DebtorsQueued(), 1);
            && r == Done && "r" in w1.states
            && var st := w1.states["r"];
               && st.active == 3 && st.maxTokensPerBatch * st.active == 3000
               && st.load == 0x4000_0000_0000_0000 && !LoadWithin(st)
  {
    var o, w := Debtors(), DebtorsQueued();
    var recs := CalmRecords(w, [0, 1, 2], DEBT);
    CalmPick(DEBT, FirstThree(), w, [0, 1, 2]);
    var w1 := PickTasks(o, w).0;
    DebtorReserves();
    AllReserve(o, ProcessWith(o, {"r"}), w1, recs);
    OneTick(o, {"r"}, w, w1, recs);
    ThreeDebts();
  }

  lemma OneTick(o: Oracle, reg: set<Key>, w: World, w1: World, recs: seq<Record>)
    requires PickTasks(o, w) == (w1, Some(recs)) && Attempts(o, w1, recs, ProcessWith(o, reg)).1
    ensures Serve(o, reg, w, 1) == (Attempts(o, w1, recs, ProcessWith(o, reg)).0, Done)
  {
    var w2 := Attempts(o, w1, recs, ProcessWith(o, reg)).0;
    assert TickOf(o, reg, w) == (w2, Done);
    assert Serve(o, reg, w2, 0) == (w2, Done);
  }

  lemma ThreeDebts()
    ensures var st := ReservedTimes(Fresh("r", "echo"), DEBT, 3);
            st.active == 3 && st.maxTokensPerBatch == 1000 && st.load == 0x4000_0000_0000_0000
  {
    var st := Fresh("r", "echo");
    var st1 := Reserved(st, DEBT);
    var st2 := Reserved(st1, DEBT);
    assert ReservedTimes(st2, DEBT, 1) == ReservedTimes(Reserved(st2, DEBT), DEBT, 0);
    assert ReservedTimes(st, DEBT, 3) == Reserved(st2, DEBT);
  }
}
