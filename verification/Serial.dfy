/** Legal histories are exactly the histories of tasks processed one after the other. */
module Serial {
  import opened Domain
  import opened Backend
  import opened Resources
  import opened Guards
  import opened Ledger
  import opened Selection
  import opened Locality
  import Exclusion
  import Fleet

  /** The records, processed one after the other by one service. */
  function ProcessAll(o: Oracle, reg: set<Key>, w: World, recs: seq<Record>): World
    decreases |recs|
  {
    if recs == [] then w
    else TryProcess(o, reg, ProcessAll(o, reg, w, recs[..|recs| - 1]), recs[|recs| - 1]).world
  }

  /** The table is the legal replay of the history. */
  ghost predicate Replayed(init: map<Key, ResourceState>, reg: set<Key>, w: World) {
    && LegalRun(init, w.log) && w.states == Replay(init, w.log)
    && forall i :: 0 <= i < |w.log| ==> w.log[i].key in reg
  }

  /** The entry is added, and the table changes as it says. */
  ghost predicate Adds(reg: set<Key>, w: World, e: Entry, w1: World) {
    && e.key in reg && e.key in w.states && Admits(w.states[e.key], e.cost)
    && w1.log == w.log + [e] && w1.states == Apply(w.states, e)
  }

  /** Processing one record changes neither table nor history, or adds one entry that the table as it
      was admits. */
  lemma TryProcessIsApply(o: Oracle, reg: set<Key>, w: World, rec: Record)
    requires FairOrder(o) && Keyed(w.states)
    ensures var w1 := TryProcess(o, reg, w, rec).world;
            || (w1.log == w.log && w1.states == w.states)
            || exists e :: Adds(reg, w, e, w1)
  {
    var cost, order := Cost(Prepared(o, w, rec.task)), o.order(w.calls, reg);
    assert Enumerates(order, reg);
    SelectIsFirstFit(o, w, cost, order);
    var (w1, key) := Select(o, w, cost, order);
    if key.Some? {
      assert key.value in order;
      DispatchIsApply(o, w1, key.value, rec.msg, cost);
      var w2 := Dispatch(o, w1, key.value, rec.msg, cost).0;
      if !(w2.log == w.log && w2.states == w.states) {
        var ending :| w2.log == w.log + [Entry(key.value, rec.msg, cost, ending)] &&
                      w2.states == Apply(w.states, Entry(key.value, rec.msg, cost, ending));
        assert Adds(reg, w, Entry(key.value, rec.msg, cost, ending), w2);
      }
    }
  }

  lemma AppendedIsReplayed(init: map<Key, ResourceState>, reg: set<Key>, w: World, e: Entry, w1: World)
    requires Replayed(init, reg, w) && Adds(reg, w, e, w1)
    ensures Replayed(init, reg, w1)
  {
    assert w1.log[..|w.log|] == w.log;
  }

  /** Processing tasks serially, under any faults, leaves a legal history and its replay. */
  lemma {:induction false} SerialIsLegal(o: Oracle, reg: set<Key>, w: World, recs: seq<Record>)
    requires FairOrder(o) && Keyed(w.states) && w.log == []
    ensures Replayed(w.states, reg, ProcessAll(o, reg, w, recs)) && Keyed(ProcessAll(o, reg, w, recs).states)
    decreases |recs|
  {
    if recs != [] {
      var before, rec := ProcessAll(o, reg, w, recs[..|recs| - 1]), recs[|recs| - 1];
      SerialIsLegal(o, reg, w, recs[..|recs| - 1]);
      TryProcessIsApply(o, reg, before, rec);
      var after := TryProcess(o, reg, before, rec).world;
      if !(after.log == before.log && after.states == before.states) {
        var e :| Adds(reg, before, e, after);
        AppendedIsReplayed(w.states, reg, before, e, after);
      }
    }
  }

  // ---------- every legal history is one of them ----------

  /** How the calls end that produce an entry: a first read, a re-read, then what the entry says. */
  function Script(ending: Ending): seq<Outcome> {
    match ending
    case ReserveRefused => [Ack, Ack, Refused]
    case ReserveUnacked => [Ack, Ack, Unacked]
    case Created => [Ack, Ack, Ack, Ack]
    case RolledBack => [Ack, Ack, Ack, Refused, Ack]
    case RollbackLost => [Ack, Ack, Ack, Refused, Refused]
  }

  /** From call n on the backend answers as the script says, and offers the key first. */
  function Directed(o: Oracle, n: nat, key: Key, script: seq<Outcome>): Oracle {
    o.(outcome := (m: nat) => if n <= m < n + |script| then script[m - n] else o.outcome(m),
       order := (m: nat, keys: set<Key>) =>
         if m == n && key in keys then First(key, o.order(m, keys)) else o.order(m, keys))
  }

  function First(key: Key, order: seq<Key>): seq<Key> {
    [key] + Without(key, order)
  }

  function Without(key: Key, order: seq<Key>): (r: seq<Key>)
    ensures forall k :: k in r <==> k in order && k != key
    ensures |r| <= |order|
  {
    if order == [] then []
    else (if order[0] == key then [] else [order[0]]) + Without(key, order[1..])
  }

  lemma {:induction false} WithoutRepeats(key: Key, order: seq<Key>)
    requires forall i, j :: 0 <= i < j < |order| ==> order[i] != order[j]
    ensures forall i, j :: 0 <= i < j < |Without(key, order)| ==> Without(key, order)[i] != Without(key, order)[j]
    decreases |order|
  {
    if order != [] {
      WithoutRepeats(key, order[1..]);
      assert order[0] !in order[1..];
      assert order[0] !in Without(key, order[1..]);
    }
  }

  lemma FirstEnumerates(key: Key, order: seq<Key>, keys: set<Key>)
    requires Enumerates(order, keys) && key in keys
    ensures Enumerates(First(key, order), keys)
  {
    WithoutRepeats(key, order);
    var first, tail := First(key, order), Without(key, order);
    assert key !in tail;
    forall i, j | 0 <= i < j < |first|
      ensures first[i] != first[j]
    {
      assert first[j] == tail[j - 1] && tail[j - 1] in tail;
      assert i > 0 ==> first[i] == tail[i - 1];
    }
    assert forall k :: k in first <==> k == key || k in tail;
  }

  lemma DirectedIsFair(o: Oracle, n: nat, key: Key, script: seq<Outcome>)
    requires FairOrder(o)
    ensures FairOrder(Directed(o, n, key, script))
  {
    forall m: nat, keys: set<Key>
      ensures Enumerates(Directed(o, n, key, script).order(m, keys), keys)
    {
      var order := o.order(m, keys);
      assert Enumerates(order, keys);
      if m == n && key in keys {
        FirstEnumerates(key, order, keys);
        assert Directed(o, n, key, script).order(m, keys) == First(key, order);
      } else {
        assert Directed(o, n, key, script).order(m, keys) == order;
      }
    }
  }

  /** A task that costs the given amount. */
  function Costing(e: Entry): Record {
    Record(Task("t", [], e.cost, 0), 0, e.msg)
  }

  /** An entry that the table admits is what the scripted calls produce. */
  lemma ScriptProduces(o: Oracle, reg: set<Key>, w: World, e: Entry)
    requires Keyed(w.states) && e.key in reg && e.key in w.states && Admits(w.states[e.key], e.cost)
    ensures var w1 := TryProcess(Directed(o, w.calls, e.key, Script(e.ending)), reg, w, Costing(e)).world;
            w1.log == w.log + [e] && w1.states == Apply(w.states, e)
  {
    var d := Directed(o, w.calls, e.key, Script(e.ending));
    var order := d.order(w.calls, reg);
    assert order == First(e.key, o.order(w.calls, reg));
    assert order[0] == e.key;
    assert TotalBytes([]) == 0;
    assert Cost(Prepared(d, w, Costing(e).task)) == e.cost;
    assert d.outcome(w.calls) == Script(e.ending)[0] == Ack;
    assert Select(d, w, e.cost, order) == (Called(w), Some(e.key));
    ScriptDispatches(d, Called(w), e);
  }

  lemma ScriptDispatches(o: Oracle, w: World, e: Entry)
    requires Keyed(w.states) && e.key in w.states && w.calls > 0
    requires forall m: nat :: w.calls - 1 <= m < w.calls - 1 + |Script(e.ending)| ==>
               o.outcome(m) == Script(e.ending)[m - (w.calls - 1)]
    ensures var w1 := Dispatch(o, w, e.key, e.msg, e.cost).0;
            w1.log == w.log + [e] && w1.states == Apply(w.states, e)
  {
    var n := w.calls;
    assert o.outcome(n) == Ack;
    assert o.outcome(n + 1) == Script(e.ending)[2];
    if |Script(e.ending)| > 3 {
      assert o.outcome(n + 2) == Script(e.ending)[3];
    }
    if |Script(e.ending)| > 4 {
      assert o.outcome(n + 3) == Script(e.ending)[4];
    }
  }

  /** Directing the backend from call n on does not disturb what was processed before it. */
  lemma {:induction false} DirectedLater(o: Oracle, reg: set<Key>, w: World, recs: seq<Record>,
                                         n: nat, key: Key, script: seq<Outcome>)
    requires FairOrder(o) && key in reg && ProcessAll(o, reg, w, recs).calls <= n
    ensures ProcessAll(Directed(o, n, key, script), reg, w, recs) == ProcessAll(o, reg, w, recs)
    decreases |recs|
  {
    if recs != [] {
      var before, rec := ProcessAll(o, reg, w, recs[..|recs| - 1]), recs[|recs| - 1];
      assert Enumerates(o.order(before.calls, reg), reg);
      TryProcessCounts(o, reg, before, rec);
      DirectedLater(o, reg, w, recs[..|recs| - 1], n, key, script);
      TryProcessIsLocal(o, Directed(o, n, key, script), reg, before, rec);
    }
  }

  lemma TryProcessCounts(o: Oracle, reg: set<Key>, w: World, rec: Record)
    requires o.order(w.calls, reg) != []
    ensures TryProcess(o, reg, w, rec).world.calls > w.calls
  {
    var cost, todo := Cost(Prepared(o, w, rec.task)), o.order(w.calls, reg);
    SelectCounts(o, w, cost, todo);
    var (w1, key) := Select(o, w, cost, todo);
    if key.Some? {
      DispatchCounts(o, w1, key.value, rec.msg, cost);
    }
  }

  /** One entry more: direct the backend from where the last record ended, and process one task more. */
  lemma OneMoreEntry(o: Oracle, reg: set<Key>, w: World, recs: seq<Record>, e: Entry) returns (o': Oracle)
    requires var w1 := ProcessAll(o, reg, w, recs);
             && FairOrder(o) && Keyed(w1.states)
             && e.key in reg && e.key in w1.states && Admits(w1.states[e.key], e.cost)
    ensures FairOrder(o')
    ensures Adds(reg, ProcessAll(o, reg, w, recs), e, ProcessAll(o', reg, w, recs + [Costing(e)]))
  {
    var w1, script := ProcessAll(o, reg, w, recs), Script(e.ending);
    o' := Directed(o, w1.calls, e.key, script);
    ScriptProduces(o, reg, w1, e);
    DirectedLater(o, reg, w, recs, w1.calls, e.key, script);
    DirectedIsFair(o, w1.calls, e.key, script);
    assert (recs + [Costing(e)])[..|recs|] == recs;
  }

  /** Some backend makes serial processing of some tasks write exactly this history. */
  lemma {:induction false} LegalIsSerial(o0: Oracle, reg: set<Key>, w: World, log: seq<Entry>)
    returns (o: Oracle, recs: seq<Record>)
    requires FairOrder(o0) && Keyed(w.states) && w.log == [] && LegalRun(w.states, log)
    requires forall i :: 0 <= i < |log| ==> log[i].key in reg
    ensures FairOrder(o)
    ensures ProcessAll(o, reg, w, recs).log == log
    ensures ProcessAll(o, reg, w, recs).states == Replay(w.states, log)
    decreases |log|
  {
    o, recs := o0, [];
    if log != [] {
      var before, e := log[..|log| - 1], log[|log| - 1];
      o, recs := LegalIsSerial(o0, reg, w, before);
      SerialIsLegal(o, reg, w, recs);
      o := OneMoreEntry(o, reg, w, recs, e);
      recs := recs + [Costing(e)];
      assert before + [e] == log;
    }
  }

  /** Interleaved processes whose sections on one key do not overlap: processing some tasks one after
      the other writes the same history, and the same row wherever no reservation is open. */
  lemma ExclusiveIsSerial(f: Fleet.Setup, s: Fleet.Sys, acts: seq<Fleet.Action>) returns (o: Oracle, recs: seq<Record>)
    requires Exclusion.Start(f, s) && Exclusion.ExclusiveRun(f, s, acts)
    ensures FairOrder(o)
    ensures var s1, serial := Fleet.Run(f, s, acts), ProcessAll(o, f.reg, s.world, recs);
            && serial.log == s1.world.log
            && serial.states.Keys == s1.world.states.Keys
            && forall k :: k in s1.world.states ==> Exclusion.SettledIn(serial.states, s1, k)
  {
    Exclusion.Serializable(f, s, acts);
    o, recs := LegalIsSerial(f.o, f.reg, s.world, Fleet.Run(f, s, acts).world.log);
  }
}
