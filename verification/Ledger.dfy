/** The resource table under serial dispatches: what one dispatch does to one row, and what any
    legal sequence of them conserves. */
module Ledger {
  import opened Int64
  import opened Domain
  import opened Backend
  import opened Resources
  import opened Guards

  /** Endings after which the reservation stays in the table. */
  predicate Keeps(ending: Ending) {
    ending == Created || ending == RollbackLost || ending == ReserveUnacked
  }

  function RowAfter(st: ResourceState, e: Entry): ResourceState {
    if Keeps(e.ending) then Reserved(st, e.cost)
    else if e.ending == RolledBack then Released(Reserved(st, e.cost), e.cost)
    else st
  }

  /** One whole dispatch, uninterrupted. */
  function Apply(states: map<Key, ResourceState>, e: Entry): map<Key, ResourceState> {
    if e.key in states then states[e.key := RowAfter(states[e.key], e)] else states
  }

  function Replay(init: map<Key, ResourceState>, log: seq<Entry>): map<Key, ResourceState> {
    if log == [] then init else Apply(Replay(init, log[..|log| - 1]), log[|log| - 1])
  }

  /** Each dispatch in turn passes the admission check on the table it finds. */
  predicate LegalRun(init: map<Key, ResourceState>, log: seq<Entry>) {
    log == [] ||
    var before, e := log[..|log| - 1], log[|log| - 1];
    LegalRun(init, before) &&
    var states := Replay(init, before);
    e.key in states && Admits(states[e.key], e.cost)
  }

  lemma {:induction false} ReplayKeys(init: map<Key, ResourceState>, log: seq<Entry>)
    ensures Replay(init, log).Keys == init.Keys
    decreases |log|
  {
    if log != [] {
      ReplayKeys(init, log[..|log| - 1]);
    }
  }

  /** A rollback that reached the table cancels the reservation exactly, wrap-around included;
      only the version has moved, by two. */
  lemma RollbackCancels(st: ResourceState, cost: int64)
    ensures Released(Reserved(st, cost), cost) == st.(version := Add(Add(st.version, 1), 1))
  {}

  /** A dispatch that runs alone either touches neither table nor history, or logs one entry and
      changes the table as that entry says. */
  lemma DispatchIsApply(o: Oracle, w: World, key: Key, msg: MsgId, cost: int64)
    requires Keyed(w.states)
    ensures var w1 := Dispatch(o, w, key, msg, cost).0;
            || (w1.log == w.log && w1.states == w.states)
            || (key in w.states && exists ending ::
                  w1.log == w.log + [Entry(key, msg, cost, ending)] &&
                  w1.states == Apply(w.states, Entry(key, msg, cost, ending)))
  {
    var w1 := Dispatch(o, w, key, msg, cost).0;
    if w1.log != w.log {
      var e := w1.log[|w.log|];
      assert w1.log == w.log + [Entry(key, msg, cost, e.ending)];
      assert w1.states == Apply(w.states, Entry(key, msg, cost, e.ending));
    }
  }

  /** After a refused batch and a rollback that reached the table, every row is what it was, but
      for the version of the one row dispatched on. */
  lemma FailedDispatchRestores(o: Oracle, w: World, key: Key, msg: MsgId, cost: int64)
    requires Keyed(w.states) && key in w.states
    ensures var w1 := Dispatch(o, w, key, msg, cost).0;
            w1.log == w.log + [Entry(key, msg, cost, RolledBack)] ==>
              var row := w.states[key];
              w1.states == w.states[key := row.(version := Add(Add(row.version, 1), 1))]
  {
    RollbackCancels(w.states[key], cost);
    DispatchIsApply(o, w, key, msg, cost);
    var w1 := Dispatch(o, w, key, msg, cost).0;
    if w1.log == w.log + [Entry(key, msg, cost, RolledBack)] {
      assert w1.log[|w.log|].ending == RolledBack && w1.log != w.log;
    }
  }

  // ---------- conservation ----------

  function Count(log: seq<Entry>, key: Key, ending: Ending): nat {
    if log == [] then 0
    else
      var e := log[|log| - 1];
      Count(log[..|log| - 1], key, ending) + if e.key == key && e.ending == ending then 1 else 0
  }

  /** Reservations that no acknowledged batch backs: the rollback, or the news of the write, was lost. */
  function Leaked(log: seq<Entry>, key: Key): nat {
    Count(log, key, RollbackLost) + Count(log, key, ReserveUnacked)
  }

  /** The exact, unwrapped sum of the costs still reserved on a key. */
  function HeldCost(log: seq<Entry>, key: Key): int {
    if log == [] then 0
    else
      var e := log[|log| - 1];
      HeldCost(log[..|log| - 1], key) + if e.key == key && Keeps(e.ending) then e.cost else 0
  }

  /** Row writes that took effect. */
  function Writes(log: seq<Entry>, key: Key): nat {
    Count(log, key, Created) + Leaked(log, key) + 2 * Count(log, key, RolledBack)
  }

  lemma AdmittedRow(st: ResourceState, e: Entry)
    requires Admits(st, e.cost)
    ensures var st1 := RowAfter(st, e);
            && SameLimits(st, st1)
            && st1.active == st.active + (if Keeps(e.ending) then 1 else 0)
            && st1.load == (if Keeps(e.ending) then Add(st.load, e.cost) else st.load)
            && st1.version == (if Keeps(e.ending) then Add(st.version, 1)
                               else if e.ending == RolledBack then Add(Add(st.version, 1), 1)
                               else st.version)
  {
    RollbackCancels(st, e.cost);
  }

  /** The active count is the initial one plus the batches plus the leaked reservations, with no
      wrap-around, and limits never change. */
  lemma {:induction false} ActiveConserved(init: map<Key, ResourceState>, log: seq<Entry>, key: Key)
    requires key in init && LegalRun(init, log)
    ensures key in Replay(init, log)
    ensures var was, now := init[key], Replay(init, log)[key];
            now.active == was.active + Count(log, key, Created) + Leaked(log, key) && SameLimits(was, now)
    decreases |log|
  {
    ReplayKeys(init, log);
    if log != [] {
      var before, e := log[..|log| - 1], log[|log| - 1];
      ActiveConserved(init, before, key);
      AdmittedRow(Replay(init, before)[e.key], e);
    }
  }

  /** Load and version equal the exact totals up to q and r turns of 2^64. */
  lemma {:induction false} TurnsConserved(init: map<Key, ResourceState>, log: seq<Entry>, key: Key)
    returns (q: int, r: int)
    requires key in init && LegalRun(init, log)
    ensures key in Replay(init, log)
    ensures var was, now := init[key], Replay(init, log)[key];
            && now.load == was.load + HeldCost(log, key) + q * 0x1_0000_0000_0000_0000
            && now.version == was.version + Writes(log, key) + r * 0x1_0000_0000_0000_0000
    decreases |log|
  {
    ReplayKeys(init, log);
    q, r := 0, 0;
    if log != [] {
      var before, e := log[..|log| - 1], log[|log| - 1];
      q, r := TurnsConserved(init, before, key);
      if e.key == key {
        var st := Replay(init, before)[key];
        AdmittedRow(st, e);
        if Keeps(e.ending) {
          q := q + Turn(st.load, e.cost);
          r := r + Turn(st.version, 1);
        } else if e.ending == RolledBack {
          r := r + Turn(st.version, 1) + Turn(Add(st.version, 1), 1);
        }
      }
    }
  }

  /** The load is the initial one plus the exact costs of the batches and the leaked reservations,
      modulo 2^64. */
  lemma LoadConserved(init: map<Key, ResourceState>, log: seq<Entry>, key: Key)
    requires key in init && LegalRun(init, log)
    ensures key in Replay(init, log)
    ensures Replay(init, log)[key].load == Wrap(init[key].load + HeldCost(log, key))
  {
    var q, _ := TurnsConserved(init, log, key);
    WrapOfTurns(init[key].load + HeldCost(log, key), Replay(init, log)[key].load, q);
  }

  /** The version counts the row writes that took effect, modulo 2^64. */
  lemma VersionConserved(init: map<Key, ResourceState>, log: seq<Entry>, key: Key)
    requires key in init && LegalRun(init, log)
    ensures key in Replay(init, log)
    ensures Replay(init, log)[key].version == Wrap(init[key].version + Writes(log, key))
  {
    var _, r := TurnsConserved(init, log, key);
    WrapOfTurns(init[key].version + Writes(log, key), Replay(init, log)[key].version, r);
  }

  // ---------- capacity ----------

  ghost predicate WithinLimits(states: map<Key, ResourceState>) {
    forall k :: k in states ==> states[k].active <= states[k].maxConcurrent
  }

  lemma {:induction false} RowWithinLimit(init: map<Key, ResourceState>, log: seq<Entry>, key: Key)
    requires LegalRun(init, log) && key in init && init[key].active <= init[key].maxConcurrent
    ensures key in Replay(init, log) && Replay(init, log)[key].active <= Replay(init, log)[key].maxConcurrent
    decreases |log|
  {
    if log != [] {
      RowWithinLimit(init, log[..|log| - 1], key);
    }
  }

  lemma CapacityKept(init: map<Key, ResourceState>, log: seq<Entry>)
    requires LegalRun(init, log) && WithinLimits(init)
    ensures WithinLimits(Replay(init, log))
  {
    ReplayKeys(init, log);
    forall k | k in init
      ensures Replay(init, log)[k].active <= Replay(init, log)[k].maxConcurrent
    {
      RowWithinLimit(init, log, k);
    }
  }

  lemma OneMore(limit: int, n: int)
    ensures limit * (n + 1) == limit * n + limit
  {}

  /** Between dispatches the active count of a row never goes down. */
  lemma {:induction false} ActiveNeverDrops(init: map<Key, ResourceState>, log: seq<Entry>, n: nat, key: Key)
    requires key in init && LegalRun(init, log) && n <= |log|
    ensures LegalRun(init, log[..n])
    ensures key in Replay(init, log[..n]) && key in Replay(init, log)
    ensures Replay(init, log[..n])[key].active <= Replay(init, log)[key].active
    decreases |log|
  {
    ReplayKeys(init, log);
    if n == |log| {
      assert log[..n] == log;
    } else {
      var before, e := log[..|log| - 1], log[|log| - 1];
      ActiveNeverDrops(init, before, n, key);
      assert before[..n] == log[..n];
      ReplayKeys(init, before);
      AdmittedRow(Replay(init, before)[e.key], e);
    }
  }

  // ---------- the pool as a whole ----------

  ghost function Total(m: map<Key, int>): int {
    if m.Keys == {} then 0
    else
      var k :| k in m.Keys;
      m[k] + Total(m - {k})
  }

  lemma {:induction false} TotalTake(m: map<Key, int>, k: Key)
    requires k in m
    ensures Total(m) == m[k] + Total(m - {k})
    decreases |m|
  {
    var c :| c in m.Keys && Total(m) == m[c] + Total(m - {c});
    if c != k {
      TotalTake(m - {c}, k);
      TotalTake(m - {k}, c);
      assert m - {c} - {k} == m - {k} - {c};
    }
  }

  lemma TotalUpdate(m: map<Key, int>, k: Key, v: int)
    requires k in m
    ensures Total(m[k := v]) == Total(m) - m[k] + v
  {
    TotalTake(m, k);
    TotalTake(m[k := v], k);
    assert m[k := v] - {k} == m - {k};
  }

  lemma {:induction false} TotalNonNegative(m: map<Key, int>)
    requires forall k :: k in m ==> m[k] >= 0
    ensures Total(m) >= 0
    decreases |m|
  {
    if m.Keys != {} {
      var k :| k in m.Keys;
      TotalTake(m, k);
      TotalNonNegative(m - {k});
    }
  }

  /** Free slots of the registered rows. */
  ghost function Free(states: map<Key, ResourceState>, reg: set<Key>): map<Key, int> {
    map k | k in states && k in reg :: states[k].maxConcurrent - states[k].active
  }

  function AllKept(log: seq<Entry>): nat {
    if log == [] then 0 else AllKept(log[..|log| - 1]) + if Keeps(log[|log| - 1].ending) then 1 else 0
  }

  function AllCreated(log: seq<Entry>): nat {
    if log == [] then 0 else AllCreated(log[..|log| - 1]) + if log[|log| - 1].ending == Created then 1 else 0
  }

  /** An admitted dispatch takes one free slot of the pool if its reservation stays, and none if not. */
  lemma SlotsStep(states: map<Key, ResourceState>, e: Entry, reg: set<Key>)
    requires e.key in reg && e.key in states && Admits(states[e.key], e.cost)
    ensures Total(Free(Apply(states, e), reg)) == Total(Free(states, reg)) - if Keeps(e.ending) then 1 else 0
  {
    AdmittedRow(states[e.key], e);
    var free, row := Free(states, reg), RowAfter(states[e.key], e);
    assert Free(Apply(states, e), reg) == free[e.key := row.maxConcurrent - row.active];
    TotalUpdate(free, e.key, row.maxConcurrent - row.active);
  }

  lemma {:induction false} SlotsConserved(init: map<Key, ResourceState>, log: seq<Entry>, reg: set<Key>)
    requires LegalRun(init, log) && forall i :: 0 <= i < |log| ==> log[i].key in reg
    ensures AllKept(log) + Total(Free(Replay(init, log), reg)) == Total(Free(init, reg))
    ensures AllCreated(log) <= AllKept(log)
    decreases |log|
  {
    if log != [] {
      var before, e := log[..|log| - 1], log[|log| - 1];
      SlotsConserved(init, before, reg);
      assert log[|log| - 1].key in reg;
      SlotsStep(Replay(init, before), e, reg);
    }
  }

  /** Over a whole run, no more batches are created than the registered rows had free slots. */
  lemma BatchesFitFreeSlots(init: map<Key, ResourceState>, log: seq<Entry>, reg: set<Key>)
    requires LegalRun(init, log) && WithinLimits(init)
    requires forall i :: 0 <= i < |log| ==> log[i].key in reg
    ensures AllCreated(log) <= Total(Free(init, reg))
  {
    SlotsConserved(init, log, reg);
    CapacityKept(init, log);
    TotalNonNegative(Free(Replay(init, log), reg));
  }
}
