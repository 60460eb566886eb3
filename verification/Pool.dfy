/** Many equal resources behave as one counter. */
module Pool {
  import opened Int64
  import opened Domain
  import opened Backend
  import opened Tasks
  import opened Resources
  import opened Guards
  import opened Ledger
  import opened Selection

  ghost predicate NoFaults(o: Oracle) {
    forall n: nat :: o.outcome(n) == Ack
  }

  /** Every registered resource has a row, and all rows share one pair of limits. */
  ghost predicate InPool(w: World, reg: set<Key>, slots: int64, limit: int64) {
    forall k :: k in reg ==>
      && k in w.states && w.states[k].id == k
      && w.states[k].maxConcurrent == slots && w.states[k].maxTokensPerBatch == limit
      && w.states[k].active <= slots
  }

  ghost function Active(w: World, reg: set<Key>): map<Key, int>
    requires forall k :: k in reg ==> k in w.states
  {
    map k | k in reg :: w.states[k].active
  }

  ghost function Used(w: World, reg: set<Key>): int
    requires forall k :: k in reg ==> k in w.states
  {
    Total(Active(w, reg))
  }

  lemma {:induction false} TotalBelow(m: map<Key, int>, bound: int)
    requires forall k :: k in m ==> m[k] <= bound
    ensures Total(m) <= bound * |m|
    ensures Total(m) == bound * |m| <==> forall k :: k in m ==> m[k] == bound
    decreases |m|
  {
    if m.Keys != {} {
      var k :| k in m.Keys;
      var rest := m - {k};
      TotalTake(m, k);
      TotalBelow(rest, bound);
      assert rest.Keys == m.Keys - {k} && |rest| == |m| - 1;
      OneMore(bound, |rest|);
      assert forall j :: j in rest ==> rest[j] == m[j];
    }
  }

  predicate Admitted(p: Processed) {
    p.reply == Reply(Success, false)
  }

  lemma CalmDispatch(o: Oracle, w: World, key: Key, msg: MsgId, cost: int64)
    requires NoFaults(o) && key in w.states && w.states[key].id == key
    ensures var (w1, verdict) := Dispatch(o, w, key, msg, cost);
            verdict == BatchCreated && w1.states == w.states[key := Reserved(w.states[key], cost)]
  {}

  /** There is room somewhere exactly when the slots are not all used. */
  lemma RoomIsUnusedSlots(w: World, reg: set<Key>, cost: int64, slots: int64, limit: int64)
    requires InPool(w, reg, slots, limit)
    ensures Available(w, reg, {}, cost) <==> cost <= limit && Used(w, reg) < slots * |reg|
  {
    var active := Active(w, reg);
    assert active.Keys == reg && |active| == |reg|;
    TotalBelow(active, slots);
    if cost <= limit && !Available(w, reg, {}, cost) {
      forall k | k in reg
        ensures active[k] == slots
      {
        assert k !in {} && !Admits(w.states[k], cost);
      }
    }
    if Available(w, reg, {}, cost) {
      var k :| k in reg && Admits(w.states[k], cost);
      assert active[k] < slots;
    }
  }

  /** What a calm attempt does: it dispatches on some key with room, or changes no row. */
  lemma CalmAttempt(o: Oracle, reg: set<Key>, w: World, rec: Record) returns (k: Key)
    requires NoFaults(o) && FairOrder(o)
    requires forall k :: k in reg && k in w.states ==> w.states[k].id == k
    ensures var p, cost := TryProcess(o, reg, w, rec), Weight(rec.task);
            && (Admitted(p) <==> Available(w, reg, {}, cost))
            && (Admitted(p) ==> k in reg && k in w.states && Admits(w.states[k], cost) &&
                                p.world.states == w.states[k := Reserved(w.states[k], cost)])
            && (!Admitted(p) ==> p.world.states == w.states)
  {
    var cost, order := Weight(rec.task), o.order(w.calls, reg);
    assert Enumerates(order, reg);
    PreparingKeepsWeight(o, w, rec.task);
    SelectionIgnoresOrder(o, w, cost, reg, {});
    SelectIsFirstFit(o, w, cost, order);
    var (w1, key) := Select(o, w, cost, order);
    k := "";
    if key.Some? {
      k := key.value;
      assert k in order;
      CalmDispatch(o, w1, k, rec.msg, cost);
    }
  }

  /** One task against the pool. */
  lemma PoolAttempt(o: Oracle, reg: set<Key>, w: World, rec: Record, slots: int64, limit: int64)
    requires NoFaults(o) && FairOrder(o) && InPool(w, reg, slots, limit)
    ensures var p := TryProcess(o, reg, w, rec);
            && InPool(p.world, reg, slots, limit)
            && (Admitted(p) <==> Weight(rec.task) <= limit && Used(w, reg) < slots * |reg|)
            && Used(p.world, reg) == Used(w, reg) + if Admitted(p) then 1 else 0
  {
    RoomIsUnusedSlots(w, reg, Weight(rec.task), slots, limit);
    var k := CalmAttempt(o, reg, w, rec);
    var w1, admitted := TryProcess(o, reg, w, rec).world, Admitted(TryProcess(o, reg, w, rec));
    PoolUpdate(w, w1, reg, k, Weight(rec.task), slots, limit, admitted);
  }

  lemma PoolUpdate(w: World, w1: World, reg: set<Key>, k: Key, cost: int64, slots: int64, limit: int64, admitted: bool)
    requires InPool(w, reg, slots, limit)
    requires admitted ==> k in reg && Admits(w.states[k], cost) && w1.states == w.states[k := Reserved(w.states[k], cost)]
    requires !admitted ==> w1.states == w.states
    ensures InPool(w1, reg, slots, limit) && Used(w1, reg) == Used(w, reg) + if admitted then 1 else 0
  {
    if admitted {
      assert Active(w1, reg) == Active(w, reg)[k := w.states[k].active + 1];
      TotalUpdate(Active(w, reg), k, w.states[k].active + 1);
    } else {
      assert Active(w1, reg) == Active(w, reg);
    }
  }

  /** Which of a sequence of tasks the allocator dispatches. */
  function Admissions(o: Oracle, reg: set<Key>, w: World, recs: seq<Record>): (r: seq<bool>)
    ensures |r| == |recs|
    decreases |recs|
  {
    if recs == [] then []
    else
      var p := TryProcess(o, reg, w, recs[0]);
      [Admitted(p)] + Admissions(o, reg, p.world, recs[1..])
  }

  function Trues(bs: seq<bool>): nat {
    if bs == [] then 0 else (if bs[0] then 1 else 0) + Trues(bs[1..])
  }

  /** Which of the tasks fit the token limit. */
  function Fits(recs: seq<Record>, limit: int64): (r: seq<bool>)
    ensures |r| == |recs| && forall i :: 0 <= i < |recs| ==> r[i] == (Weight(recs[i].task) <= limit)
  {
    seq(|recs|, i requires 0 <= i < |recs| => Weight(recs[i].task) <= limit)
  }

  /** Each is admitted exactly when it fits and the counter has not reached the bound. */
  ghost predicate Counted(fits: seq<bool>, admitted: seq<bool>, used: int, bound: int) {
    |admitted| == |fits| &&
    forall i :: 0 <= i < |fits| ==> (admitted[i] <==> fits[i] && used + Trues(admitted[..i]) < bound)
  }

  lemma TruesOfCons(first: bool, rest: seq<bool>, i: nat)
    requires i <= |rest|
    ensures Trues(([first] + rest)[..i + 1]) == (if first then 1 else 0) + Trues(rest[..i])
  {
    assert ([first] + rest)[..i + 1][1..] == rest[..i];
  }

  lemma CountedStep(first: bool, fits: seq<bool>, admitted: seq<bool>, used: int, bound: int)
    requires Counted(fits, admitted, used + (if first && used < bound then 1 else 0), bound)
    ensures Counted([first] + fits, [first && used < bound] + admitted, used, bound)
  {
    var now := first && used < bound;
    var all := [now] + admitted;
    forall i | 0 <= i < |all|
      ensures all[i] <==> ([first] + fits)[i] && used + Trues(all[..i]) < bound
    {
      if i > 0 {
        TruesOfCons(now, admitted, i - 1);
        assert all[i] == admitted[i - 1] && ([first] + fits)[i] == fits[i - 1];
      }
    }
  }

  lemma AdmissionsOnce(o: Oracle, reg: set<Key>, w: World, recs: seq<Record>, w1: World, admitted: bool)
    requires recs != [] && var p := TryProcess(o, reg, w, recs[0]); p.world == w1 && Admitted(p) == admitted
    ensures Admissions(o, reg, w, recs) == [admitted] + Admissions(o, reg, w1, recs[1..])
  {}

  /** From the law for the rest, and what the first task did, the law for the whole. */
  lemma CountedOnce(o: Oracle, reg: set<Key>, w: World, recs: seq<Record>, w1: World, used: int, bound: int, limit: int64)
    requires recs != [] && TryProcess(o, reg, w, recs[0]).world == w1
    requires var fits := Weight(recs[0].task) <= limit;
             && Admitted(TryProcess(o, reg, w, recs[0])) == (fits && used < bound)
             && Counted(Fits(recs[1..], limit), Admissions(o, reg, w1, recs[1..]),
                        used + (if fits && used < bound then 1 else 0), bound)
    ensures Counted(Fits(recs, limit), Admissions(o, reg, w, recs), used, bound)
  {
    var fits := Weight(recs[0].task) <= limit;
    AdmissionsOnce(o, reg, w, recs, w1, fits && used < bound);
    CountedStep(fits, Fits(recs[1..], limit), Admissions(o, reg, w1, recs[1..]), used, bound);
    assert Fits(recs, limit) == [fits] + Fits(recs[1..], limit);
  }

  lemma {:induction false} PoolCounts(o: Oracle, reg: set<Key>, w: World, recs: seq<Record>, slots: int64, limit: int64)
    requires NoFaults(o) && FairOrder(o) && InPool(w, reg, slots, limit)
    ensures Counted(Fits(recs, limit), Admissions(o, reg, w, recs), Used(w, reg), slots * |reg|)
    decreases |recs|
  {
    if recs != [] {
      var w1 := TryProcess(o, reg, w, recs[0]).world;
      PoolAttempt(o, reg, w, recs[0], slots, limit);
      PoolCounts(o, reg, w1, recs[1..], slots, limit);
      CountedOnce(o, reg, w, recs, w1, Used(w, reg), slots * |reg|, limit);
    }
  }

  /** Without faults, a pool of equal resources admits a task if and only if the task fits the token
      limit and the slots of all resources together are not used up, whatever orders the map yields. */
  lemma PoolIsOneCounter(o: Oracle, reg: set<Key>, w: World, recs: seq<Record>, slots: int64, limit: int64)
    requires NoFaults(o) && FairOrder(o) && InPool(w, reg, slots, limit)
    ensures var admitted := Admissions(o, reg, w, recs);
            forall i :: 0 <= i < |recs| ==>
              (admitted[i] <==> Weight(recs[i].task) <= limit &&
                                Used(w, reg) + Trues(admitted[..i]) < slots * |reg|)
  {
    PoolCounts(o, reg, w, recs, slots, limit);
  }

  lemma {:induction false} TotalZero(m: map<Key, int>)
    requires forall k :: k in m ==> m[k] == 0
    ensures Total(m) == 0
  {
    TotalBelow(m, 0);
  }

  /** K freshly initialised resources admit the first 8 * K tasks of cost at most 1000, and no other. */
  lemma FreshPoolIsOneCounter(o: Oracle, reg: set<Key>, w: World, recs: seq<Record>)
    requires NoFaults(o) && FairOrder(o)
    requires forall k :: k in reg ==> k in w.states && w.states[k] == Fresh(k, w.states[k].provider)
    ensures var admitted := Admissions(o, reg, w, recs);
            forall i :: 0 <= i < |recs| ==>
              (admitted[i] <==> Weight(recs[i].task) <= 1000 && Trues(admitted[..i]) < 8 * |reg|)
  {
    PoolIsOneCounter(o, reg, w, recs, DEFAULT_CONCURRENCY, DEFAULT_TOKENS);
    TotalZero(Active(w, reg));
  }
}
