/** A backend on which nothing fails, for runs that are shown step by step: it meets every assumption
    made of backends elsewhere. */
module Calm {
  import opened Int64
  import opened Domain
  import opened Backend
  import opened Delivery
  import opened Guards
  import Fleet

  /** Some order of a set of keys. */
  ghost function Listing(keys: set<Key>): (order: seq<Key>)
    ensures forall k :: k in order <==> k in keys
  {
    if keys == {} then []
    else
      var k :| k in keys;
      [k] + Listing(keys - {k})
  }

  lemma {:induction false} ListingEnumerates(keys: set<Key>)
    ensures Enumerates(Listing(keys), keys)
    decreases keys
  {
    if keys != {} {
      var k :| k in keys && Listing(keys) == [k] + Listing(keys - {k});
      ListingEnumerates(keys - {k});
      assert k !in Listing(keys - {k});
    }
  }

  lemma ListingOfOne(key: Key)
    ensures Listing({key}) == [key]
  {
    var k :| k in {key} && Listing({key}) == [k] + Listing({key} - {k});
    assert {key} - {k} == {};
  }

  /** No call fails; a body is a task's identifier, and every task asks for the same token limit. */
  ghost function CalmOracle(maxTokens: int64, deliver: (nat, set<MsgId>) -> seq<MsgId>): Oracle {
    Oracle((n: nat) => Ack, (n: nat, keys: set<Key>) => Listing(keys), deliver, (n: nat) => "new",
           (t: Task) => t.id, (b: Body) => Some(CalmTask(b, maxTokens)))
  }

  function CalmTask(id: string, maxTokens: int64): Task {
    Task(id, [], maxTokens, 0)
  }

  lemma CalmIsWellBehaved(maxTokens: int64, deliver: (nat, set<MsgId>) -> seq<MsgId>)
    requires forall n: nat, q: set<MsgId> :: NoRepeats(deliver(n, q))
    ensures var o := CalmOracle(maxTokens, deliver);
            && FairOrder(o) && CodecKeepsId(o) && DistinctDeliveries(o)
            && forall n: nat :: o.outcome(n) == Ack
  {
    var o := CalmOracle(maxTokens, deliver);
    forall n: nat, keys: set<Key>
      ensures Enumerates(o.order(n, keys), keys)
    {
      ListingEnumerates(keys);
    }
  }

  /** A backend with one row and the given messages queued. */
  function CalmWorld(row: ResourceState, sent: seq<Body>, queue: set<MsgId>): World {
    World(0, map[row.id := row], map[], sent, queue, [], [], [], [])
  }

  function CalmRecords(w: World, ids: seq<MsgId>, maxTokens: int64): seq<Record>
    requires forall m :: m in ids ==> m < |w.sent|
  {
    seq(|ids|, i requires 0 <= i < |ids| =>
      assert ids[i] in ids; Record(CalmTask(w.sent[ids[i]], maxTokens), |w.receipts| + i, ids[i]))
  }

  lemma {:induction false} VisibleAll(w: World, ids: seq<MsgId>)
    requires forall m :: m in ids ==> m in w.queue && m < |w.sent|
    ensures Visible(w, ids) == ids
    decreases |ids|
  {
    if ids != [] {
      VisibleAll(w, ids[1..]);
    }
  }

  lemma {:induction false} DecodesAll(o: Oracle, messages: seq<Message>)
    requires forall b: Body :: o.decode(b).Some?
    ensures DecodeAll(o, messages).Some?
    decreases |messages|
  {
    if messages != [] {
      DecodesAll(o, messages[1..]);
    }
  }

  /** A pick hands out exactly what the backend delivers. */
  lemma CalmPick(maxTokens: int64, deliver: (nat, set<MsgId>) -> seq<MsgId>, w: World, ids: seq<MsgId>)
    requires deliver(w.calls, w.queue) == ids
    requires forall m :: m in ids ==> m in w.queue && m < |w.sent|
    ensures PickTasks(CalmOracle(maxTokens, deliver), w) ==
            (Called(w).(receipts := w.receipts + ids), Some(CalmRecords(w, ids, maxTokens)))
  {
    var o := CalmOracle(maxTokens, deliver);
    VisibleAll(w, ids);
    var messages := Receive(o, w).1.value;
    DecodesAll(o, messages);
    Fleet.DecodedInOrder(o, messages);
    var records := DecodeAll(o, messages).value;
    assert |records| == |ids|;
    forall i | 0 <= i < |ids|
      ensures records[i] == CalmRecords(w, ids, maxTokens)[i]
    {
      assert ids[i] in ids;
    }
    assert records == CalmRecords(w, ids, maxTokens);
  }
}
