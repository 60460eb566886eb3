/** Which resource a task gets, and what its token estimate is worth. */
module Selection {
  import opened Int64
  import opened Domain
  import opened Backend
  import opened Tasks
  import opened Resources
  import opened Guards

  /** The i-th read of the loop would succeed and find a row that admits the cost. */
  predicate Passes(o: Oracle, w: World, cost: int64, order: seq<Key>, i: nat)
    requires i < |order|
  {
    o.outcome(w.calls + i) == Ack && order[i] in w.states && Admits(w.states[order[i]], cost)
  }

  /** Sound and complete: the answer is the first key that passes, and there is none exactly when no
      key passes.  Nothing but the call counter moves. */
  lemma {:induction false} SelectIsFirstFit(o: Oracle, w: World, cost: int64, order: seq<Key>)
    ensures var (w1, key) := Select(o, w, cost, order);
            && w1 == w.(calls := w1.calls)
            && (key.None? <==> forall i :: 0 <= i < |order| ==> !Passes(o, w, cost, order, i))
            && (key.Some? ==> exists i :: 0 <= i < |order| && order[i] == key.value && Passes(o, w, cost, order, i) &&
                                forall j :: 0 <= j < i ==> !Passes(o, w, cost, order, j))
    decreases |order|
  {
    if order != [] {
      var w0, tail := Called(w), order[1..];
      SelectIsFirstFit(o, w0, cost, tail);
      assert forall i :: 0 <= i < |tail| ==> (Passes(o, w0, cost, tail, i) <==> Passes(o, w, cost, order, i + 1));
      assert forall i :: 0 < i < |order| ==> (Passes(o, w, cost, order, i) <==> Passes(o, w0, cost, tail, i - 1));
      if !Passes(o, w, cost, order, 0) {
        var key := Select(o, w0, cost, tail).1;
        if key.Some? {
          var i :| 0 <= i < |tail| && tail[i] == key.value && Passes(o, w0, cost, tail, i) &&
                   forall j :: 0 <= j < i ==> !Passes(o, w0, cost, tail, j);
          assert order[i + 1] == key.value && Passes(o, w, cost, order, i + 1);
          assert forall j :: 0 <= j < i + 1 ==> !Passes(o, w, cost, order, j);
        }
      } else {
        assert order[0] == Select(o, w, cost, order).1.value;
      }
    }
  }

  /** During one selection, reads fail for exactly these keys. */
  ghost predicate ReadsFailOn(o: Oracle, w: World, order: seq<Key>, down: set<Key>) {
    forall i :: 0 <= i < |order| ==> (o.outcome(w.calls + i) != Ack <==> order[i] in down)
  }

  ghost predicate Available(w: World, keys: set<Key>, down: set<Key>, cost: int64) {
    exists k :: k in keys && k !in down && k in w.states && Admits(w.states[k], cost)
  }

  lemma AvailableIsSelected(o: Oracle, w: World, cost: int64, order: seq<Key>, keys: set<Key>, down: set<Key>)
    requires Enumerates(order, keys) && ReadsFailOn(o, w, order, down) && Available(w, keys, down, cost)
    ensures Select(o, w, cost, order).1.Some?
  {
    SelectIsFirstFit(o, w, cost, order);
    var k :| k in keys && k !in down && k in w.states && Admits(w.states[k], cost);
    var i :| 0 <= i < |order| && order[i] == k;
    assert Passes(o, w, cost, order, i);
  }

  lemma SelectedIsAvailable(o: Oracle, w: World, cost: int64, order: seq<Key>, keys: set<Key>, down: set<Key>)
    requires Enumerates(order, keys) && ReadsFailOn(o, w, order, down) && Select(o, w, cost, order).1.Some?
    ensures Available(w, keys, down, cost)
  {
    SelectIsFirstFit(o, w, cost, order);
    var i :| 0 <= i < |order| && order[i] == Select(o, w, cost, order).1.value && Passes(o, w, cost, order, i);
    assert order[i] in keys && order[i] !in down;
  }

  /** Whether a selection succeeds depends on which rows are readable and have room, not on the
      order in which the map is ranged over. */
  lemma SelectionIgnoresOrder(o: Oracle, w: World, cost: int64, keys: set<Key>, down: set<Key>)
    requires FairOrder(o) && ReadsFailOn(o, w, o.order(w.calls, keys), down)
    ensures Select(o, w, cost, o.order(w.calls, keys)).1.Some? <==> Available(w, keys, down, cost)
  {
    var order := o.order(w.calls, keys);
    assert Enumerates(order, keys);
    if Available(w, keys, down, cost) {
      AvailableIsSelected(o, w, cost, order, keys, down);
    }
    if Select(o, w, cost, order).1.Some? {
      SelectedIsAvailable(o, w, cost, order, keys, down);
    }
  }

  // ---------- the token estimate ----------

  lemma {:induction false} TotalBytesConcat(a: seq<TaskMessage>, b: seq<TaskMessage>)
    ensures TotalBytes(a + b) == TotalBytes(a) + TotalBytes(b)
    decreases |b|
  {
    if b == [] {
      assert a + b == a;
    } else {
      var n := |b| - 1;
      assert (a + b)[..|a + b| - 1] == a + b[..n];
      TotalBytesConcat(a, b[..n]);
    }
  }

  /** One message counts the bytes of its content. */
  lemma OneMessage(m: TaskMessage)
    ensures TotalBytes([m]) == |m.content| && TotalBytes([]) == 0
  {
    assert [m][..0] == [];
  }

  /** The estimate does not see roles: contents of equal lengths, one by one, have equal estimates. */
  lemma {:induction false} EstimateIgnoresRoles(a: seq<TaskMessage>, b: seq<TaskMessage>)
    requires |a| == |b| && forall i :: 0 <= i < |a| ==> |a[i].content| == |b[i].content|
    ensures TotalBytes(a) == TotalBytes(b) && Estimate(a) == Estimate(b)
    decreases |a|
  {
    if a != [] {
      EstimateIgnoresRoles(a[..|a| - 1], b[..|b| - 1]);
    }
  }

  /** The estimate is the byte count divided by four, rounded down, exactly as long as the byte count
      itself fits in 64 bits. */
  lemma EstimateIsAQuarter(messages: seq<TaskMessage>)
    ensures var est, bytes := Estimate(messages), TotalBytes(messages);
            4 * est <= bytes < 4 * est + 4 <==> bytes <= MAX
  {}

  /** Estimating two lists separately loses at most one token. */
  lemma EstimateConcat(a: seq<TaskMessage>, b: seq<TaskMessage>)
    requires TotalBytes(a + b) <= MAX
    ensures Estimate(a) + Estimate(b) <= Estimate(a + b) <= Estimate(a) + Estimate(b) + 1
  {
    TotalBytesConcat(a, b);
    EstimateIsAQuarter(a);
    EstimateIsAQuarter(b);
    EstimateIsAQuarter(a + b);
  }

  /** The token check lets an over-limit task through exactly when the sum of its estimate and its
      token limit overflows to at most the limit; for a limit of zero or more, whenever it overflows. */
  lemma GuardMissesExactlyOnOverflow(task: Task, limit: int64)
    ensures var sum := task.estimated + task.maxTokens;
            && (Cost(task) <= limit < sum <==> MAX < sum <= limit + 0x1_0000_0000_0000_0000)
            && (limit >= 0 ==> (Cost(task) <= limit < sum <==> MAX < sum))
  {}

  /** It turns away a task under the limit exactly when the sum underflows to more than the limit. */
  lemma GuardRejectsExactlyOnUnderflow(task: Task, limit: int64)
    ensures var sum := task.estimated + task.maxTokens;
            sum <= limit < Cost(task) <==> sum < MIN && limit < sum + 0x1_0000_0000_0000_0000
  {}

  lemma AppendingRaisesEstimate(a: seq<TaskMessage>, b: seq<TaskMessage>)
    requires TotalBytes(a + b) <= MAX
    ensures 0 <= Estimate(a) <= Estimate(a + b) <= MAX / 4
  {
    TotalBytesConcat(a, b);
    EstimateIsAQuarter(a);
    EstimateIsAQuarter(a + b);
  }

  /** Appending messages to a task lowers its cost exactly when the longer one's sum overflows and the
      shorter one's does not. */
  lemma AppendingLowersCostExactlyOnOverflow(task: Task, more: seq<TaskMessage>)
    requires task.estimated == 0 && TotalBytes(task.messages + more) <= MAX
    ensures var longer := task.(messages := task.messages + more);
            Weight(longer) < Weight(task) <==>
            Estimate(task.messages) + task.maxTokens <= MAX < Estimate(longer.messages) + task.maxTokens
  {
    AppendingRaisesEstimate(task.messages, more);
  }

  /** Appending messages makes an inadmissible task admissible exactly when the shorter one's sum is
      over the limit but in range, and the longer one's overflows to at most the limit; for a limit of
      zero or more, whenever it overflows. */
  lemma GrowingAdmitsExactlyOnOverflow(task: Task, more: seq<TaskMessage>, limit: int64)
    requires task.estimated == 0 && TotalBytes(task.messages + more) <= MAX
    ensures var longer := task.(messages := task.messages + more);
            var sum, sum' := Estimate(task.messages) + task.maxTokens, Estimate(longer.messages) + task.maxTokens;
            && (Weight(longer) <= limit < Weight(task) <==>
                  limit < sum <= MAX < sum' <= limit + 0x1_0000_0000_0000_0000)
            && (limit >= 0 ==> (Weight(longer) <= limit < Weight(task) <==> limit < sum <= MAX < sum'))
  {
    AppendingRaisesEstimate(task.messages, more);
  }

  /** Such a task: four bytes of text and the largest token limit are admitted by a fresh resource,
      which the same task without the text is not. */
  lemma OverflowIsAdmitted()
    ensures var text := TaskMessage("user", [0, 0, 0, 0]);
            var empty := Task("t", [], MAX, 0);
            && !Admits(Fresh("r", "echo"), Weight(empty))
            && Admits(Fresh("r", "echo"), Weight(empty.(messages := [text])))
  {
    var text := TaskMessage("user", [0, 0, 0, 0]);
    assert [text][..0] == [];
    assert TotalBytes([text]) == TotalBytes([]) + 4;
    assert TotalBytes([]) == 0;
  }

  /** Filling in the estimate does not change what a task weighs, so a redelivery weighs the same. */
  lemma PreparingKeepsWeight(o: Oracle, w: World, task: Task)
    ensures Cost(Prepared(o, w, task)) == Weight(task) == Weight(Prepared(o, w, task))
  {}

  /** Without a registered readable row that admits its cost, a task is answered with a temporary system
      failure and an error, and nothing changes. */
  lemma NoRoomIsTemporaryFailure(o: Oracle, reg: set<Key>, w: World, rec: Record, down: set<Key>)
    requires FairOrder(o) && ReadsFailOn(o, w, o.order(w.calls, reg), down)
    requires !Available(w, reg, down, Weight(rec.task))
    ensures var p := TryProcess(o, reg, w, rec);
            p.reply == Reply(SystemTemporarilyFailed, true) && p.world == w.(calls := p.world.calls)
  {
    PreparingKeepsWeight(o, w, rec.task);
    SelectionIgnoresOrder(o, w, Weight(rec.task), reg, down);
    SelectedIsThere(o, w, Weight(rec.task), o.order(w.calls, reg));
  }
}
