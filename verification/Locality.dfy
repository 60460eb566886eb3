/** What a call does depends on the outcomes of the calls it makes, and of no others. */
module Locality {
  import opened Int64
  import opened Domain
  import opened Backend
  import opened Resources

  /** Two backends answer the calls from `first` up to `end` alike. */
  ghost predicate AgreeOn(o: Oracle, o': Oracle, first: nat, end: nat) {
    forall n: nat :: first <= n < end ==> o'.outcome(n) == o.outcome(n)
  }

  lemma {:induction false} SelectCounts(o: Oracle, w: World, cost: int64, todo: seq<Key>)
    ensures Select(o, w, cost, todo).0.calls >= w.calls + if todo == [] then 0 else 1
    decreases |todo|
  {
    if todo != [] {
      SelectCounts(o, Called(w), cost, todo[1..]);
    }
  }

  lemma {:induction false} SelectIsLocal(o: Oracle, o': Oracle, w: World, cost: int64, todo: seq<Key>)
    requires AgreeOn(o, o', w.calls, Select(o, w, cost, todo).0.calls)
    ensures Select(o', w, cost, todo) == Select(o, w, cost, todo)
    decreases |todo|
  {
    if todo != [] {
      SelectCounts(o, w, cost, todo);
      assert o'.outcome(w.calls) == o.outcome(w.calls);
      var read := ReadState(o, w, todo[0]).1;
      if !(read.Found? && Admits(read.state, cost)) {
        SelectIsLocal(o, o', Called(w), cost, todo[1..]);
      }
    }
  }

  lemma DispatchCounts(o: Oracle, w: World, key: Key, msg: MsgId, cost: int64)
    ensures var (w1, verdict) := Dispatch(o, w, key, msg, cost);
            && w1.calls > w.calls
            && (w1.log != w.log ==> w1.calls > w.calls + 1)
            && (verdict == BatchCreated || (w1.log != w.log && w1.log[|w1.log| - 1].ending in {RolledBack, RollbackLost}) ==>
                  w1.calls > w.calls + 2)
  {}

  lemma DispatchIsLocal(o: Oracle, o': Oracle, w: World, key: Key, msg: MsgId, cost: int64)
    requires AgreeOn(o, o', w.calls, Dispatch(o, w, key, msg, cost).0.calls)
    ensures Dispatch(o', w, key, msg, cost) == Dispatch(o, w, key, msg, cost)
  {
    var n, end := w.calls, Dispatch(o, w, key, msg, cost).0.calls;
    assert o'.outcome(n) == o.outcome(n);
    if n + 1 < end {
      assert o'.outcome(n + 1) == o.outcome(n + 1);
    }
    if n + 2 < end {
      assert o'.outcome(n + 2) == o.outcome(n + 2);
    }
    if n + 3 < end {
      assert o'.outcome(n + 3) == o.outcome(n + 3);
    }
  }

  /** Processing a record depends on the order and the identifier offered to it, and on how its own
      calls end. */
  lemma TryProcessIsLocal(o: Oracle, o': Oracle, reg: set<Key>, w: World, rec: Record)
    requires o'.newId(w.calls) == o.newId(w.calls) && o'.order(w.calls, reg) == o.order(w.calls, reg)
    requires AgreeOn(o, o', w.calls, TryProcess(o, reg, w, rec).world.calls)
    ensures TryProcess(o', reg, w, rec) == TryProcess(o, reg, w, rec)
  {
    var cost, todo := Cost(Prepared(o, w, rec.task)), o.order(w.calls, reg);
    var (w1, key) := Select(o, w, cost, todo);
    SelectCounts(o, w, cost, todo);
    if key.Some? {
      DispatchCounts(o, w1, key.value, rec.msg, cost);
    }
    SelectIsLocal(o, o', w, cost, todo);
    if key.Some? {
      DispatchIsLocal(o, o', w1, key.value, rec.msg, cost);
    }
  }
}
