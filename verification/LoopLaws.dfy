/** Laws of the record loop, for an arbitrary callback and for the one Tick passes. */
module LoopLaws {
  import opened Int64
  import opened Domain
  import opened Backend
  import opened Tasks
  import opened Resources
  import opened AppContext
  import opened Fleet
  import opened Delivery
  import opened Locality

  // ---------- which records are picked ----------

  lemma {:induction false} DecodeFailsExactlyWhen(o: Oracle, messages: seq<Message>)
    ensures DecodeAll(o, messages).None? <==> exists i :: 0 <= i < |messages| && o.decode(messages[i].body).None?
    decreases |messages|
  {
    if messages != [] {
      DecodeFailsExactlyWhen(o, messages[1..]);
      if i :| 0 <= i < |messages| && o.decode(messages[i].body).None? {
        assert i > 0 ==> messages[1..][i - 1] == messages[i];
      }
      if i :| 0 <= i < |messages[1..]| && o.decode(messages[1..][i].body).None? {
        assert messages[i + 1] == messages[1..][i];
      }
    }
  }

  /** Some message of the next receive has a body that does not decode. */
  ghost predicate BadBodyAhead(o: Oracle, w: World) {
    exists m :: m in Visible(w, o.deliver(w.calls, w.queue)) && o.decode(w.sent[m]).None?
  }

  /** A pick fails exactly when the receive fails or one received body does not decode. */
  lemma PickFailsExactlyWhen(o: Oracle, w: World)
    ensures PickTasks(o, w).1.None? <==> o.outcome(w.calls) != Ack || BadBodyAhead(o, w)
  {
    var ids := Visible(w, o.deliver(w.calls, w.queue));
    if o.outcome(w.calls) == Ack {
      var messages := Receive(o, w).1.value;
      DecodeFailsExactlyWhen(o, messages);
      assert |messages| == |ids| && forall i :: 0 <= i < |ids| ==> ids[i] in ids && messages[i].body == w.sent[ids[i]];
      if BadBodyAhead(o, w) {
        var m :| m in ids && o.decode(w.sent[m]).None?;
        var i :| 0 <= i < |ids| && ids[i] == m;
        assert o.decode(messages[i].body).None?;
      }
      if i :| 0 <= i < |messages| && o.decode(messages[i].body).None? {
        assert ids[i] in ids && o.decode(w.sent[ids[i]]).None?;
      }
    }
  }

  /** A tick fails before its first record exactly when the receive fails or one received body does
      not decode; then nothing is attempted, nothing is lost, and the event loop stops. */
  lemma OneBadBodyStopsTheLoop(o: Oracle, reg: set<Key>, w: World, ticks: nat)
    requires ticks > 0
    ensures var (w1, r) := Serve(o, reg, w, ticks);
            var fails := o.outcome(w.calls) != Ack || BadBodyAhead(o, w);
            && (TickOf(o, reg, w).1 == ReceiveFailed <==> fails)
            && (fails ==> r == ReceiveFailed && w1 == w.(calls := w.calls + 1, receipts := w1.receipts))
  {
    PickFailsExactlyWhen(o, w);
  }

  // ---------- an arbitrary callback ----------

  /** One record's turn: what the callback was given, and what it answered. */
  datatype Round = Round(record: Record, given: World, answer: Processed)

  function RoundOf(o: Oracle, w: World, rec: Record, process: ProcessFn): Round {
    var w0 := UpdateStatus(o, w, rec.task.id, InProgressWorker);
    Round(rec, w0, process(w0, rec))
  }

  /** The rounds in order, up to the first whose callback killed the process. */
  function Rounds(o: Oracle, w: World, records: seq<Record>, process: ProcessFn): (r: seq<Round>)
    ensures |r| <= |records|
    decreases |records|
  {
    if records == [] then []
    else
      var (w1, alive) := Attempt(o, w, records[0], process);
      [RoundOf(o, w, records[0], process)] + if alive then Rounds(o, w1, records[1..], process) else []
  }

  /** The callback may update statuses, receive and delete messages itself; no call is ever undone. */
  ghost predicate OnlyAppends(process: ProcessFn) {
    forall w: World, rec: Record ::
      var w1 := process(w, rec).world;
      w.removals <= w1.removals && w.updates <= w1.updates && w.receipts <= w1.receipts
  }

  /** What was added to a history. */
  function Since<T>(before: seq<T>, after: seq<T>): seq<T> {
    if |before| <= |after| then after[|before|..] else []
  }

  /** At most one outcome, which is missing exactly for success. */
  function Outcomes(p: Processed): seq<StatusUpdate> {
    if p.reply.Panicked? || p.reply == Reply(Success, false) then []
    else [StatusUpdate(p.task.id,
            if p.reply.failed then FailedWorkerProcessing
            else if p.reply.result == SystemTemporarilyFailed then RetryingWorkerSystemFailure
            else if p.reply.result == MessageTemporarilyFailed then RetryingWorkerMessageFailure
            else if p.reply.result == MessagePermanentlyFailed then FailedWorkerMessagePermanent
            else FailedWorkerUnknownResult)]
  }

  /** In progress, then the callback's own updates, then the outcome. */
  function Trace(r: Round): seq<StatusUpdate> {
    [StatusUpdate(r.record.task.id, InProgressWorker)] + Since(r.given.updates, r.answer.world.updates) + Outcomes(r.answer)
  }

  function Traces(rounds: seq<Round>): seq<StatusUpdate> {
    if rounds == [] then [] else Trace(rounds[0]) + Traces(rounds[1..])
  }

  /** The message the loop itself deletes, if any: the one the record's receipt stands for.  It is kept
      if the callback failed, or answered one of the two temporary failures. */
  function DeletedNow(r: Round): seq<MsgId> {
    var receipts := r.answer.world.receipts;
    if r.record.receipt >= |receipts| then []
    else match r.answer.reply
      case Panicked => []
      case Reply(result, failed) =>
        if failed then []
        else match result
          case SystemTemporarilyFailed => []
          case MessageTemporarilyFailed => []
          case Success => [receipts[r.record.receipt]]
          case MessagePermanentlyFailed => [receipts[r.record.receipt]]
          case SystemPermanentlyFailed => [receipts[r.record.receipt]]
          case Unlisted(_) => [receipts[r.record.receipt]]
  }

  /** The callback's own deletes, then the loop's. */
  function Deleted(r: Round): seq<MsgId> {
    Since(Targets(r.given.removals), Targets(r.answer.world.removals)) + DeletedNow(r)
  }

  function AllDeleted(rounds: seq<Round>): seq<MsgId> {
    if rounds == [] then [] else Deleted(rounds[0]) + AllDeleted(rounds[1..])
  }

  function Targets(removals: seq<Removal>): (r: seq<MsgId>)
    ensures |r| == |removals|
  {
    seq(|removals|, i requires 0 <= i < |removals| => removals[i].msg)
  }

  lemma SinceExtends<T>(before: seq<T>, after: seq<T>)
    requires before <= after
    ensures after == before + Since(before, after)
  {}

  lemma TargetsExtend(before: seq<Removal>, after: seq<Removal>)
    requires before <= after
    ensures Targets(after) == Targets(before) + Since(Targets(before), Targets(after))
  {
    assert Targets(before) <= Targets(after);
  }

  lemma AttemptUpdates(o: Oracle, w: World, rec: Record, process: ProcessFn)
    requires OnlyAppends(process)
    ensures Attempt(o, w, rec, process).0.updates == w.updates + Trace(RoundOf(o, w, rec, process))
  {
    var r := RoundOf(o, w, rec, process);
    var p := process(r.given, rec);
    assert r.answer == p && r.given.updates <= p.world.updates;
    SinceExtends(r.given.updates, p.world.updates);
    assert Attempt(o, w, rec, process).0.updates == p.world.updates + Outcomes(p);
  }

  lemma AttemptDeletes(o: Oracle, w: World, rec: Record, process: ProcessFn)
    requires OnlyAppends(process)
    ensures var w1, r := Attempt(o, w, rec, process).0, RoundOf(o, w, rec, process);
            && w.receipts <= w1.receipts == r.answer.world.receipts
            && Targets(w1.removals) == Targets(w.removals) + Deleted(r)
  {
    var r := RoundOf(o, w, rec, process);
    var p := process(r.given, rec);
    assert r.answer == p && r.given.removals == w.removals && w.removals <= p.world.removals;
    TargetsExtend(w.removals, p.world.removals);
    assert Targets(Attempt(o, w, rec, process).0.removals) == Targets(p.world.removals) + DeletedNow(r);
  }

  /** One round, unrolled. */
  lemma Unrolled(o: Oracle, w: World, records: seq<Record>, process: ProcessFn)
    requires records != []
    ensures var r := RoundOf(o, w, records[0], process);
            var (w0, alive) := Attempt(o, w, records[0], process);
            var tail: seq<Round> := if alive then Rounds(o, w0, records[1..], process) else [];
            && Rounds(o, w, records, process) == [r] + tail
            && Attempts(o, w, records, process) ==
               (if alive then Attempts(o, w0, records[1..], process) else (w0, false))
            && alive == !r.answer.reply.Panicked?
            && Traces([r] + tail) == Trace(r) + Traces(tail)
            && AllDeleted([r] + tail) == Deleted(r) + AllDeleted(tail)
  {
    var r := RoundOf(o, w, records[0], process);
    var (w0, alive) := Attempt(o, w, records[0], process);
    var tail: seq<Round> := if alive then Rounds(o, w0, records[1..], process) else [];
    assert ([r] + tail)[1..] == tail;
  }

  lemma {:induction false} LoopEnds(o: Oracle, w: World, records: seq<Record>, process: ProcessFn)
    ensures var rounds := Rounds(o, w, records, process);
            && (forall i :: 0 <= i < |rounds| ==> rounds[i].record == records[i])
            && (Attempts(o, w, records, process).1 <==>
                |rounds| == |records| && forall i :: 0 <= i < |rounds| ==> rounds[i].answer.reply.Reply?)
    decreases |records|
  {
    if records != [] {
      Unrolled(o, w, records, process);
      var r := RoundOf(o, w, records[0], process);
      var (w0, alive) := Attempt(o, w, records[0], process);
      var tail: seq<Round> := if alive then Rounds(o, w0, records[1..], process) else [];
      if alive {
        LoopEnds(o, w0, records[1..], process);
      }
      OneRoundMore(r, tail, records);
    }
  }

  lemma OneRoundMore(r: Round, tail: seq<Round>, records: seq<Record>)
    requires |tail| < |records| && r.record == records[0]
    requires forall i :: 0 <= i < |tail| ==> tail[i].record == records[1..][i]
    ensures forall i :: 0 <= i < |[r] + tail| ==> ([r] + tail)[i].record == records[i]
    ensures (forall i :: 0 <= i < |[r] + tail| ==> ([r] + tail)[i].answer.reply.Reply?) <==>
            r.answer.reply.Reply? && forall i :: 0 <= i < |tail| ==> tail[i].answer.reply.Reply?
  {
    var all := [r] + tail;
    assert all[0] == r && forall i :: 0 <= i < |tail| ==> all[i + 1] == tail[i];
    assert forall i :: 0 < i < |all| ==> all[i] == tail[i - 1] && records[i] == records[1..][i - 1];
  }

  lemma Regrouped<T>(all: seq<T>, start: seq<T>, one: seq<T>, rest: seq<T>)
    requires all == start + one + rest
    ensures all == start + (one + rest)
  {}

  lemma {:induction false} LoopTraces(o: Oracle, w: World, records: seq<Record>, process: ProcessFn)
    requires OnlyAppends(process)
    ensures Attempts(o, w, records, process).0.updates == w.updates + Traces(Rounds(o, w, records, process))
    decreases |records|
  {
    if records != [] {
      Unrolled(o, w, records, process);
      AttemptUpdates(o, w, records[0], process);
      var r := RoundOf(o, w, records[0], process);
      var attempt := Attempt(o, w, records[0], process);
      var tail: seq<Round> := if attempt.1 then Rounds(o, attempt.0, records[1..], process) else [];
      if attempt.1 {
        LoopTraces(o, attempt.0, records[1..], process);
      }
      Regrouped(Attempts(o, w, records, process).0.updates, w.updates, Trace(r), Traces(tail));
    }
  }

  lemma {:induction false} LoopDeletes(o: Oracle, w: World, records: seq<Record>, process: ProcessFn)
    requires OnlyAppends(process)
    ensures Targets(Attempts(o, w, records, process).0.removals) ==
            Targets(w.removals) + AllDeleted(Rounds(o, w, records, process))
    decreases |records|
  {
    if records != [] {
      Unrolled(o, w, records, process);
      AttemptDeletes(o, w, records[0], process);
      var r := RoundOf(o, w, records[0], process);
      var attempt := Attempt(o, w, records[0], process);
      var tail: seq<Round> := if attempt.1 then Rounds(o, attempt.0, records[1..], process) else [];
      if attempt.1 {
        LoopDeletes(o, attempt.0, records[1..], process);
      }
      Regrouped(Targets(Attempts(o, w, records, process).0.removals), Targets(w.removals), Deleted(r), AllDeleted(tail));
    }
  }

  /** A receipt issued before the loop stands for the same message in every round. */
  lemma {:induction false} ReceiptsStay(o: Oracle, w: World, records: seq<Record>, process: ProcessFn)
    requires OnlyAppends(process)
    ensures var rounds := Rounds(o, w, records, process);
            forall i :: 0 <= i < |rounds| ==> w.receipts <= rounds[i].answer.world.receipts
    decreases |records|
  {
    if records != [] {
      Unrolled(o, w, records, process);
      AttemptDeletes(o, w, records[0], process);
      var attempt := Attempt(o, w, records[0], process);
      if attempt.1 {
        ReceiptsStay(o, attempt.0, records[1..], process);
      }
    }
  }

  /** Whatever the callback does, and whatever calls it makes itself: the loop attempts deletes for
      exactly the records answered without an error and with a result other than the two temporary
      failures, each after the callback's own; the status calls of each record are its own trace; and
      records follow one another in order, each attempted once. */
  lemma LoopLaw(o: Oracle, w: World, records: seq<Record>, process: ProcessFn)
    requires OnlyAppends(process)
    ensures var (w1, alive) := Attempts(o, w, records, process);
            var rounds := Rounds(o, w, records, process);
            && (forall i :: 0 <= i < |rounds| ==>
                  rounds[i].record == records[i] && w.receipts <= rounds[i].answer.world.receipts)
            && (alive <==> |rounds| == |records| && forall i :: 0 <= i < |rounds| ==> rounds[i].answer.reply.Reply?)
            && w1.updates == w.updates + Traces(rounds)
            && Targets(w1.removals) == Targets(w.removals) + AllDeleted(rounds)
  {
    LoopEnds(o, w, records, process);
    LoopTraces(o, w, records, process);
    LoopDeletes(o, w, records, process);
    ReceiptsStay(o, w, records, process);
  }

  // ---------- faults of the loop's own calls ----------

  /** Two worlds that differ at most in the queue and in what is known of deletes. */
  ghost predicate Alike(a: World, b: World) {
    b == a.(queue := b.queue, removals := b.removals) && |a.removals| == |b.removals|
  }

  /** The callback cannot tell such worlds apart. */
  ghost predicate Blind(process: ProcessFn) {
    forall a: World, b: World, rec: Record {:trigger process(a, rec), process(b, rec)} :: Alike(a, b) ==>
      var p, q := process(a, rec), process(b, rec);
      Alike(p.world, q.world) && p.task == q.task && p.reply == q.reply
  }

  /** The loop's own calls may end in any two different ways: the table, the history of dispatches and
      every answer are the same; only the queue can differ.  Of these calls only the deletes have an
      outcome to differ in, since the repository's status update reports success without a call that
      could fail. */
  lemma {:induction false} LoopFaultsStayLocal(o: Oracle, o': Oracle, a: World, b: World, records: seq<Record>, process: ProcessFn)
    requires Blind(process) && Alike(a, b)
    ensures var (a1, x) := Attempts(o, a, records, process);
            var (b1, y) := Attempts(o', b, records, process);
            Alike(a1, b1) && x == y
    decreases |records|
  {
    if records != [] {
      AttemptIsBlind(o, o', a, b, records[0], process);
      var (a1, x) := Attempt(o, a, records[0], process);
      var (b1, y) := Attempt(o', b, records[0], process);
      if x {
        LoopFaultsStayLocal(o, o', a1, b1, records[1..], process);
      }
    }
  }

  lemma AttemptIsBlind(o: Oracle, o': Oracle, a: World, b: World, rec: Record, process: ProcessFn)
    requires Blind(process) && Alike(a, b)
    ensures var (a1, x) := Attempt(o, a, rec, process);
            var (b1, y) := Attempt(o', b, rec, process);
            Alike(a1, b1) && x == y
  {
    var a0 := UpdateStatus(o, a, rec.task.id, InProgressWorker);
    var b0 := UpdateStatus(o', b, rec.task.id, InProgressWorker);
    assert Alike(a0, b0);
    var p, q := process(a0, rec), process(b0, rec);
    DeleteIsBlind(o, o', p.world, q.world, rec.receipt);
  }

  lemma DeleteIsBlind(o: Oracle, o': Oracle, a: World, b: World, receipt: Receipt)
    requires Alike(a, b)
    ensures Alike(Delete(o, a, receipt).0, Delete(o', b, receipt).0)
  {}

  lemma {:induction false} SelectIsBlind(o: Oracle, a: World, b: World, cost: int64, todo: seq<Key>)
    requires Alike(a, b)
    ensures var (a1, x) := Select(o, a, cost, todo);
            var (b1, y) := Select(o, b, cost, todo);
            Alike(a1, b1) && x == y
    decreases |todo|
  {
    if todo != [] {
      SelectIsBlind(o, Called(a), Called(b), cost, todo[1..]);
    }
  }

  /** Where a dispatch goes does not depend on the queue, and it leaves the queue alone. */
  lemma DispatchSkipsQueue(o: Oracle, a: World, queue: set<MsgId>, removals: seq<Removal>, key: Key, msg: MsgId, cost: int64)
    ensures var next := Dispatch(o, a, key, msg, cost);
            && next.0.queue == a.queue && next.0.removals == a.removals
            && Dispatch(o, a.(queue := queue, removals := removals), key, msg, cost) ==
               (next.0.(queue := queue, removals := removals), next.1)
  {}

  lemma DispatchIsBlind(o: Oracle, a: World, b: World, key: Key, msg: MsgId, cost: int64)
    requires Alike(a, b)
    ensures var (a1, x) := Dispatch(o, a, key, msg, cost);
            var (b1, y) := Dispatch(o, b, key, msg, cost);
            Alike(a1, b1) && x == y
  {
    DispatchSkipsQueue(o, a, b.queue, b.removals, key, msg, cost);
    DispatchSkipsQueue(o, b, b.queue, b.removals, key, msg, cost);
  }

  lemma ProcessIsBlind(o: Oracle, reg: set<Key>)
    ensures Blind(ProcessWith(o, reg))
  {
    forall a: World, b: World, rec: Record | Alike(a, b)
      ensures var p, q := Process(o, reg, a, rec), Process(o, reg, b, rec);
              Alike(p.world, q.world) && p.task == q.task && p.reply == q.reply
    {
      var cost, todo := Cost(Prepared(o, a, rec.task)), o.order(a.calls, reg);
      SelectIsBlind(o, a, b, cost, todo);
      var (a1, key) := Select(o, a, cost, todo);
      var (b1, _) := Select(o, b, cost, todo);
      if key.Some? {
        DispatchIsBlind(o, a1, b1, key.value, rec.msg, cost);
      }
    }
  }

  /** Both backends answer alike whatever the callback asks while the records are worked off; how the
      calls in between end, those of the loop itself, is left open. */
  ghost predicate AnswerAlike(o: Oracle, o': Oracle, reg: set<Key>, w: World, records: seq<Record>)
    decreases |records|
  {
    records != [] ==>
      var w0 := UpdateStatus(o, w, records[0].task.id, InProgressWorker);
      var (w1, alive) := Attempt(o, w, records[0], ProcessWith(o, reg));
      && AgreeOn(o, o', w0.calls, Process(o, reg, w0, records[0]).world.calls)
      && (alive ==> AnswerAlike(o, o', reg, w1, records[1..]))
  }

  lemma ProcessIsLocal(o: Oracle, o': Oracle, reg: set<Key>, a: World, b: World, rec: Record)
    requires o' == o.(outcome := o'.outcome) && Alike(a, b)
    requires AgreeOn(o, o', a.calls, Process(o, reg, a, rec).world.calls)
    ensures ProcessWith(o', reg)(b, rec) == ProcessWith(o, reg)(b, rec)
  {
    ProcessIsBlind(o, reg);
    assert ProcessWith(o, reg)(a, rec) == Process(o, reg, a, rec);
    assert ProcessWith(o, reg)(b, rec) == Process(o, reg, b, rec);
    TryProcessIsLocal(o, o', reg, b, rec);
  }

  /** An attempt sees its callback at one world only. */
  lemma AttemptAsks(o: Oracle, w: World, rec: Record, p: ProcessFn, q: ProcessFn)
    requires var w0 := UpdateStatus(o, w, rec.task.id, InProgressWorker); p(w0, rec) == q(w0, rec)
    ensures Attempt(o, w, rec, p) == Attempt(o, w, rec, q)
  {}

  lemma RoundIsLocal(o: Oracle, o': Oracle, reg: set<Key>, a: World, b: World, rec: Record)
    requires o' == o.(outcome := o'.outcome) && Alike(a, b)
    requires var a0 := UpdateStatus(o, a, rec.task.id, InProgressWorker);
             AgreeOn(o, o', a0.calls, Process(o, reg, a0, rec).world.calls)
    ensures var (a1, x) := Attempt(o, a, rec, ProcessWith(o, reg));
            var (b1, y) := Attempt(o', b, rec, ProcessWith(o', reg));
            Alike(a1, b1) && x == y
  {
    var a0 := UpdateStatus(o, a, rec.task.id, InProgressWorker);
    var b0 := UpdateStatus(o', b, rec.task.id, InProgressWorker);
    ProcessIsLocal(o, o', reg, a0, b0, rec);
    AttemptAsks(o', b, rec, ProcessWith(o', reg), ProcessWith(o, reg));
    ProcessIsBlind(o, reg);
    AttemptIsBlind(o, o', a, b, rec, ProcessWith(o, reg));
  }

  lemma {:induction false} RoundsAreLocal(o: Oracle, o': Oracle, reg: set<Key>, a: World, b: World, records: seq<Record>)
    requires o' == o.(outcome := o'.outcome) && Alike(a, b) && AnswerAlike(o, o', reg, a, records)
    ensures var (a1, x) := Attempts(o, a, records, ProcessWith(o, reg));
            var (b1, y) := Attempts(o', b, records, ProcessWith(o', reg));
            Alike(a1, b1) && x == y
    decreases |records|
  {
    if records != [] {
      RoundIsLocal(o, o', reg, a, b, records[0]);
      var (a1, alive) := Attempt(o, a, records[0], ProcessWith(o, reg));
      var (b1, _) := Attempt(o', b, records[0], ProcessWith(o', reg));
      if alive {
        RoundsAreLocal(o, o', reg, a1, b1, records[1..]);
      }
    }
  }

  /** One tick under two backends that differ only in how the loop's own calls end: the same table, the
      same history, the same answers and the same result of the tick; only the queue can differ. */
  lemma TickFaultsStayLocal(o: Oracle, o': Oracle, reg: set<Key>, w: World)
    requires o' == o.(outcome := o'.outcome) && o'.outcome(w.calls) == o.outcome(w.calls)
    requires var (w1, records) := PickTasks(o, w); records.Some? ==> AnswerAlike(o, o', reg, w1, records.value)
    ensures var (a1, x) := TickOf(o, reg, w);
            var (b1, y) := TickOf(o', reg, w);
            Alike(a1, b1) && x == y
  {
    var (w1, records) := PickTasks(o, w);
    if records.Some? {
      RoundsAreLocal(o, o', reg, w1, w1, records.value);
    }
    PickIsLocal(o, o', w);
  }

  lemma {:induction false} DecodeIsLocal(o: Oracle, o': Oracle, messages: seq<Message>)
    requires o' == o.(outcome := o'.outcome)
    ensures DecodeAll(o', messages) == DecodeAll(o, messages)
    decreases |messages|
  {
    if messages != [] {
      DecodeIsLocal(o, o', messages[1..]);
    }
  }

  lemma PickIsLocal(o: Oracle, o': Oracle, w: World)
    requires o' == o.(outcome := o'.outcome) && o'.outcome(w.calls) == o.outcome(w.calls)
    ensures PickTasks(o', w) == PickTasks(o, w)
  {
    if o.outcome(w.calls) == Ack {
      DecodeIsLocal(o, o', Receive(o, w).1.value);
    }
  }

  // ---------- the callback of Tick ----------

  function CreatedMsgs(log: seq<Entry>): seq<MsgId> {
    if log == [] then []
    else
      var e := log[|log| - 1];
      CreatedMsgs(log[..|log| - 1]) + if e.ending == Created then [e.msg] else []
  }

  lemma CreatedAppend(log: seq<Entry>, e: Entry)
    ensures CreatedMsgs(log + [e]) == CreatedMsgs(log) + if e.ending == Created then [e.msg] else []
  {
    assert (log + [e])[..|log|] == log;
  }

  lemma DispatchLogsOnce(o: Oracle, w: World, key: Key, msg: MsgId, cost: int64)
    ensures var (w1, verdict) := Dispatch(o, w, key, msg, cost);
            && w1.removals == w.removals && w1.receipts == w.receipts && w1.updates == w.updates
            && CreatedMsgs(w1.log) == CreatedMsgs(w.log) + if verdict == BatchCreated then [msg] else []
  {
    var w1 := Dispatch(o, w, key, msg, cost).0;
    if w1.log == w.log {
    } else {
      CreatedAppend(w.log, w1.log[|w.log|]);
      assert w1.log == w.log + [w1.log[|w.log|]];
    }
  }

  /** The callback answers success or, whatever failed, a permanent failure with an error; and it
      answers so as to be deleted exactly when it created a batch for that record. */
  lemma ProcessDeletesWhatItBatches(o: Oracle, reg: set<Key>, w: World, rec: Record)
    ensures var p := Process(o, reg, w, rec);
            && p.world.removals == w.removals && p.world.receipts == w.receipts && p.world.updates == w.updates
            && (p.reply == Reply(Success, false) || p.reply == Reply(SystemPermanentlyFailed, true) || p.reply == Panicked)
            && CreatedMsgs(p.world.log) == CreatedMsgs(w.log) + if Deletes(p.reply) then [rec.msg] else []
  {
    var cost, todo := Cost(Prepared(o, w, rec.task)), o.order(w.calls, reg);
    SelectedIsThere(o, w, cost, todo);
    var (w1, key) := Select(o, w, cost, todo);
    if key.Some? {
      DispatchLogsOnce(o, w1, key.value, rec.msg, cost);
    }
  }

  /** Delete calls and batches name the same messages in the same order. */
  ghost predicate Mirrored(w: World) {
    Targets(w.removals) == CreatedMsgs(w.log)
  }

  lemma {:induction false} AttemptsMirror(o: Oracle, reg: set<Key>, w: World, records: seq<Record>)
    requires Mirrored(w) && forall i :: 0 <= i < |records| ==> Receipted(w, records[i])
    ensures Mirrored(Attempts(o, w, records, ProcessWith(o, reg)).0)
    decreases |records|
  {
    if records != [] {
      var process, rec := ProcessWith(o, reg), records[0];
      var w0 := UpdateStatus(o, w, rec.task.id, InProgressWorker);
      ProcessDeletesWhatItBatches(o, reg, w0, rec);
      TickCallbackAppends(o, reg);
      AttemptDeletes(o, w, rec, process);
      var (w1, alive) := Attempt(o, w, rec, process);
      var p := process(w0, rec);
      assert w1.log == p.world.log;
      assert Since(Targets(w0.removals), Targets(p.world.removals)) == [];
      if alive {
        AttemptsMirror(o, reg, w1, records[1..]);
      }
    }
  }

  lemma TickCallbackAppends(o: Oracle, reg: set<Key>)
    ensures OnlyAppends(ProcessWith(o, reg))
  {
    forall w: World, rec: Record
      ensures var w1 := ProcessWith(o, reg)(w, rec).world;
              w.removals <= w1.removals && w.updates <= w1.updates && w.receipts <= w1.receipts
    {
      ProcessDeletesWhatItBatches(o, reg, w, rec);
    }
  }

  lemma TickDeletesWhatItBatches(o: Oracle, reg: set<Key>, w: World)
    requires Mirrored(w)
    ensures Mirrored(TickOf(o, reg, w).0)
  {
    var (w1, records) := PickTasks(o, w);
    if records.Some? {
      PickedAreDelivered(o, w);
      AttemptsMirror(o, reg, w1, records.value);
    }
  }

  ghost predicate TickKeeps(o: Oracle, reg: set<Key>, inv: World -> bool) {
    forall w: World {:trigger TickOf(o, reg, w)} :: inv(w) ==> inv(TickOf(o, reg, w).0)
  }

  /** What every tick keeps, the event loop keeps. */
  lemma {:induction false} ServeKeeps(o: Oracle, reg: set<Key>, w: World, ticks: nat, inv: World -> bool)
    requires inv(w) && TickKeeps(o, reg, inv)
    ensures inv(Serve(o, reg, w, ticks).0)
    decreases ticks
  {
    if ticks > 0 {
      var tick := TickOf(o, reg, w);
      if tick.1.Done? {
        ServeKeeps(o, reg, tick.0, ticks - 1, inv);
      }
      ServeOnceKeeps(o, reg, w, tick, ticks, inv);
    }
  }

  lemma ServeOnceKeeps(o: Oracle, reg: set<Key>, w: World, tick: (World, PickUpResult), ticks: nat, inv: World -> bool)
    requires ticks > 0 && TickOf(o, reg, w) == tick && inv(tick.0)
    requires tick.1.Done? ==> inv(Serve(o, reg, tick.0, ticks - 1).0)
    ensures inv(Serve(o, reg, w, ticks).0)
  {
    ServeOnce(o, reg, w, tick.0, tick.1, ticks);
  }

  /** Over any number of ticks, under any faults: a delete is attempted for a message exactly when, and
      as often as, a batch was created for it, in the same order. */
  lemma ServeDeletesWhatItBatches(o: Oracle, reg: set<Key>, w: World, ticks: nat)
    requires Mirrored(w)
    ensures Mirrored(Serve(o, reg, w, ticks).0)
  {
    var inv := (v: World) => Mirrored(v);
    forall v: World | inv(v)
      ensures inv(TickOf(o, reg, v).0)
    {
      TickDeletesWhatItBatches(o, reg, v);
    }
    ServeKeeps(o, reg, w, ticks, inv);
  }
}
