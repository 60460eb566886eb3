/** The two ways overlapping workers go wrong, each reached from rest on a backend where no call
    fails. */
module Overlap {
  import opened Int64
  import opened Domain
  import opened Backend
  import opened Delivery
  import opened Fleet
  import opened Guards
  import opened Ledger
  import opened Conflicts
  import opened Calm

  lemma RunOne(f: Setup, s: Sys, a: Action, rest: seq<Action>)
    ensures Run(f, s, [a] + rest) == Run(f, Act(f, s, a), rest)
  {
    assert ([a] + rest)[1..] == rest;
  }

  /** Processes i and j take n steps each, in turn. */
  function Both(i: nat, j: nat, n: nat): seq<Action> {
    if n == 0 then [] else [Step(i)] + ([Step(j)] + Both(i, j, n - 1))
  }

  function Twice(f: Setup, s: Sys, i: nat, j: nat): Sys {
    Act(f, Act(f, s, Step(i)), Step(j))
  }

  lemma Pair(f: Setup, s: Sys, i: nat, j: nat, n: nat)
    requires n > 0
    ensures Run(f, s, Both(i, j, n)) == Run(f, Twice(f, s, i, j), Both(i, j, n - 1))
  {
    RunOne(f, s, Step(i), [Step(j)] + Both(i, j, n - 1));
    RunOne(f, Act(f, s, Step(i)), Step(j), Both(i, j, n - 1));
  }

  lemma CalmReread(f: Setup, s: Sys, i: nat)
    requires f.o.outcome(s.world.calls) == Ack
    requires i < |s.procs| && s.procs[i].Rereading? && s.procs[i].key in s.world.states
    ensures var s1, pc := Act(f, s, Step(i)), s.procs[i];
            && s1.procs == s.procs[i := Reserving(pc.job, pc.key, Reserved(s.world.states[pc.key], Cost(pc.job.task)), pc.rest)]
            && s1.world.states == s.world.states && s1.world.log == s.world.log
  {}

  lemma CalmReserve(f: Setup, s: Sys, i: nat)
    requires f.o.outcome(s.world.calls) == Ack
    requires i < |s.procs| && s.procs[i].Reserving? && s.procs[i].st.id == s.procs[i].key
    ensures var s1, pc := Act(f, s, Step(i)), s.procs[i];
            && s1.procs == s.procs[i := Creating(pc.job, pc.key, pc.st, pc.rest)]
            && s1.world.states == s.world.states[pc.key := pc.st] && s1.world.log == s.world.log
  {}

  lemma CalmCreate(f: Setup, s: Sys, i: nat)
    requires f.o.outcome(s.world.calls) == Ack
    requires i < |s.procs| && s.procs[i].Creating?
    ensures var s1, pc := Act(f, s, Step(i)), s.procs[i];
            && s1.procs == s.procs[i := Removing(pc.job, pc.rest)]
            && s1.world.states == s.world.states
            && s1.world.log == s.world.log + [Entry(pc.key, pc.job.msg, Cost(pc.job.task), Created)]
  {}

  /** Two of the processes, wherever the others stand and whatever else these two hold, passed the
      check on a key and are about to re-read its row. */
  ghost predicate BothPassed(s: Sys, i: nat, j: nat, key: Key) {
    && i < |s.procs| && j < |s.procs| && i != j
    && s.procs[i].Rereading? && s.procs[j].Rereading?
    && s.procs[i].key == s.procs[j].key == key
    && key in s.world.states && s.world.states[key].id == key
  }

  /** Both of them re-read the same row. */
  lemma TogetherReread(f: Setup, s: Sys, i: nat, j: nat, key: Key, n: nat) returns (s1: Sys)
    requires (forall n: nat :: f.o.outcome(n) == Ack) && BothPassed(s, i, j, key)
    ensures Run(f, s, Both(i, j, n + 1)) == Run(f, s1, Both(i, j, n))
    ensures var row, a, b := s.world.states[key], s.procs[i], s.procs[j];
            && |s1.procs| == |s.procs|
            && s1.procs[i] == Reserving(a.job, key, Reserved(row, Cost(a.job.task)), a.rest)
            && s1.procs[j] == Reserving(b.job, key, Reserved(row, Cost(b.job.task)), b.rest)
    ensures s1.world.states == s.world.states && s1.world.log == s.world.log
  {
    Pair(f, s, i, j, n + 1);
    CalmReread(f, s, i);
    CalmReread(f, Act(f, s, Step(i)), j);
    s1 := Twice(f, s, i, j);
  }

  /** Both write their reservations; the second write is what stays. */
  lemma TogetherReserve(f: Setup, s: Sys, i: nat, j: nat, key: Key, n: nat) returns (s1: Sys)
    requires forall n: nat :: f.o.outcome(n) == Ack
    requires i < |s.procs| && j < |s.procs| && i != j && s.procs[i].Reserving? && s.procs[j].Reserving?
    requires s.procs[i].key == s.procs[i].st.id == key == s.procs[j].key == s.procs[j].st.id
    ensures Run(f, s, Both(i, j, n + 1)) == Run(f, s1, Both(i, j, n))
    ensures |s1.procs| == |s.procs|
    ensures s1.procs[i].Creating? && s1.procs[j].Creating? && s1.procs[i].key == key == s1.procs[j].key
    ensures s1.world.states == s.world.states[key := s.procs[j].st] && s1.world.log == s.world.log
  {
    Pair(f, s, i, j, n + 1);
    CalmReserve(f, s, i);
    CalmReserve(f, Act(f, s, Step(i)), j);
    s1 := Twice(f, s, i, j);
  }

  /** Both create their batches. */
  lemma TogetherCreate(f: Setup, s: Sys, i: nat, j: nat, key: Key, n: nat) returns (s1: Sys)
    requires forall n: nat :: f.o.outcome(n) == Ack
    requires i < |s.procs| && j < |s.procs| && i != j && s.procs[i].Creating? && s.procs[j].Creating?
    requires s.procs[i].key == s.procs[j].key == key
    ensures Run(f, s, Both(i, j, n + 1)) == Run(f, s1, Both(i, j, n))
    ensures s1.world.states == s.world.states
    ensures Count(s1.world.log, key, Created) == Count(s.world.log, key, Created) + 2
  {
    Pair(f, s, i, j, n + 1);
    CalmCreate(f, s, i);
    CalmCreate(f, Act(f, s, Step(i)), j);
    var a, b := s.procs[i], s.procs[j];
    CountAppend(s.world.log, Entry(key, a.job.msg, Cost(a.job.task), Created), key);
    CountAppend(Act(f, s, Step(i)).world.log, Entry(key, b.job.msg, Cost(b.job.task), Created), key);
    s1 := Twice(f, s, i, j);
  }

  /** Two workers that both passed the check on a key and now run in step: two batches are created
      and the active count rises by one, because the second reserve write is stale. */
  lemma OverlapLosesAReservation(f: Setup, s: Sys, i: nat, j: nat, key: Key)
    requires (forall n: nat :: f.o.outcome(n) == Ack) && BothPassed(s, i, j, key)
    ensures var s1 := Run(f, s, Both(i, j, 3));
            && Count(s1.world.log, key, Created) == Count(s.world.log, key, Created) + 2
            && s1.world.states == s.world.states[key := Reserved(s.world.states[key], Cost(s.procs[j].job.task))]
  {
    var s1 := TogetherReread(f, s, i, j, key, 2);
    var s2 := TogetherReserve(f, s1, i, j, key, 1);
    var s3 := TogetherCreate(f, s2, i, j, key, 0);
  }

  lemma CountAppend(log: seq<Entry>, e: Entry, key: Key)
    ensures Count(log + [e], key, Created) ==
            Count(log, key, Created) + if e.key == key && e.ending == Created then 1 else 0
  {
    assert (log + [e])[..|log|] == log;
  }

  /** One worker re-reads and reserves, then the other, already past its check, does the same. */
  function InTurn(i: nat, j: nat): seq<Action> {
    [Step(i)] + ([Step(i)] + ([Step(j)] + ([Step(j)] + [])))
  }

  /** From the same situation, one after the other: no write is stale, but the row ends two higher,
      because the second worker does not check again; with one slot left, that is past the limit. */
  lemma LateReserveExceedsLimit(f: Setup, s: Sys, i: nat, j: nat, key: Key)
    requires (forall n: nat :: f.o.outcome(n) == Ack) && BothPassed(s, i, j, key)
    requires s.world.states[key].active < s.world.states[key].maxConcurrent < MAX
    ensures var s1, row := Run(f, s, InTurn(i, j)), s.world.states[key];
            && WritesFresh(f, s, InTurn(i, j), key)
            && s1.world.states ==
               s.world.states[key := Reserved(Reserved(row, Cost(s.procs[i].job.task)), Cost(s.procs[j].job.task))]
            && (s1.world.states[key].active > s1.world.states[key].maxConcurrent <==> row.active + 1 == row.maxConcurrent)
  {
    var s1 := OneTurn(f, s, i, key, [Step(j)] + ([Step(j)] + []));
    var s2 := OneTurn(f, s1, j, key, []);
  }

  /** One worker's re-read and reserve, with nobody in between. */
  lemma OneTurn(f: Setup, s: Sys, i: nat, key: Key, rest: seq<Action>) returns (s1: Sys)
    requires forall n: nat :: f.o.outcome(n) == Ack
    requires i < |s.procs| && s.procs[i].Rereading? && s.procs[i].key == key
    requires key in s.world.states && s.world.states[key].id == key && s.world.states[key].active < MAX
    ensures Run(f, s, [Step(i)] + ([Step(i)] + rest)) == Run(f, s1, rest)
    ensures WritesFresh(f, s, [Step(i)] + ([Step(i)] + rest), key) <==> WritesFresh(f, s1, rest, key)
    ensures |s1.procs| == |s.procs| && forall k :: 0 <= k < |s.procs| && k != i ==> s1.procs[k] == s.procs[k]
    ensures s1.world.states == s.world.states[key := Reserved(s.world.states[key], Cost(s.procs[i].job.task))]
  {
    var s0 := NextReread(f, s, i, key, [Step(i)] + rest);
    s1 := NextReserve(f, s0, i, key, rest);
  }

  /** A re-read as the next action of a run; it writes no row, so no stale one. */
  lemma NextReread(f: Setup, s: Sys, i: nat, key: Key, rest: seq<Action>) returns (s1: Sys)
    requires f.o.outcome(s.world.calls) == Ack
    requires i < |s.procs| && s.procs[i].Rereading? && s.procs[i].key == key && key in s.world.states
    ensures Run(f, s, [Step(i)] + rest) == Run(f, s1, rest)
    ensures WritesFresh(f, s, [Step(i)] + rest, key) <==> WritesFresh(f, s1, rest, key)
    ensures var pc := s.procs[i];
            s1.procs == s.procs[i := Reserving(pc.job, key, Reserved(s.world.states[key], Cost(pc.job.task)), pc.rest)]
    ensures s1.world.states == s.world.states
  {
    assert ([Step(i)] + rest)[0] == Step(i) && ([Step(i)] + rest)[1..] == rest;
    CalmReread(f, s, i);
    s1 := Act(f, s, Step(i));
  }

  /** A reserve write as the next action of a run. */
  lemma NextReserve(f: Setup, s: Sys, i: nat, key: Key, rest: seq<Action>) returns (s1: Sys)
    requires f.o.outcome(s.world.calls) == Ack
    requires i < |s.procs| && s.procs[i].Reserving? && s.procs[i].key == key == s.procs[i].st.id
    requires key in s.world.states && FindsAsSeen(s, i, key)
    ensures Run(f, s, [Step(i)] + rest) == Run(f, s1, rest)
    ensures WritesFresh(f, s, [Step(i)] + rest, key) <==> WritesFresh(f, s1, rest, key)
    ensures var pc := s.procs[i]; s1.procs == s.procs[i := Creating(pc.job, key, pc.st, pc.rest)]
    ensures s1.world.states == s.world.states[key := s.procs[i].st]
  {
    assert ([Step(i)] + rest)[0] == Step(i) && ([Step(i)] + rest)[1..] == rest;
    CalmReserve(f, s, i);
    s1 := Act(f, s, Step(i));
  }

  // ---------- both do happen ----------

  const ROW := ResourceState("r", "echo", 0, 0, 1, 1000, 1000, 1)

  /** Each receive hands out the message of its own number. */
  function ByNumber(): (nat, set<MsgId>) -> seq<MsgId> {
    (n: nat, queue: set<MsgId>) => [n]
  }

  ghost function Setting(): Setup {
    Setup(CalmOracle(2, ByNumber()), {"r"}, 1000)
  }

  ghost function Rest(): Sys {
    Sys(CalmWorld(ROW, ["a", "b"], {0, 1}), [Idle, Idle])
  }

  /** A start with one free slot, on a backend that is fair, keeps ids and repeats nothing. */
  lemma RestIsAStart()
    ensures var f, s := Setting(), Rest();
            && FairOrder(f.o) && CodecKeepsId(f.o) && DistinctDeliveries(f.o)
            && (forall n: nat :: f.o.outcome(n) == Ack)
            && AtRest(s) && Keyed(s.world.states) && s.world.log == []
            && "r" in s.world.states && s.world.states["r"].active + 1 == s.world.states["r"].maxConcurrent
  {
    CalmIsWellBehaved(2, ByNumber());
  }

  ghost function BothChecked(): Sys {
    Run(Setting(), Rest(), Both(0, 1, 3))
  }

  /** Six steps on, both workers have passed the check on the one free slot. */
  lemma BothPassTheCheck()
    ensures var s := BothChecked();
            && s.procs == [Rereading(Record(CalmTask("a", 2), 0, 0), "r", []),
                           Rereading(Record(CalmTask("b", 2), 1, 1), "r", [])]
            && s.world.states == map["r" := ROW] && s.world.log == []
  {
    var f := Setting();
    var j0, j1 := Record(CalmTask("a", 2), 0, 0), Record(CalmTask("b", 2), 1, 1);
    var s1 := TogetherPick(2);
    var s2 := TogetherBegin(f, s1, j0, j1, 1);
    var s3 := TogetherCheck(f, s2, j0, j1, 0);
  }

  lemma TogetherBegin(f: Setup, s: Sys, j0: Record, j1: Record, n: nat) returns (s1: Sys)
    requires f == Setting() && s.procs == [Loop([j0]), Loop([j1])]
    requires j0.task == CalmTask(j0.task.id, 2) && j0.task.id != ""
    requires j1.task == CalmTask(j1.task.id, 2) && j1.task.id != ""
    ensures Run(f, s, Both(0, 1, n + 1)) == Run(f, s1, Both(0, 1, n))
    ensures s1.procs == [Scanning(j0, ["r"], []), Scanning(j1, ["r"], [])]
    ensures s1.world.states == s.world.states && s1.world.log == s.world.log
  {
    Pair(f, s, 0, 1, n + 1);
    CalmBegin(f, s, 0, j0);
    CalmBegin(f, Act(f, s, Step(0)), 1, j1);
    s1 := Twice(f, s, 0, 1);
  }

  lemma TogetherCheck(f: Setup, s: Sys, j0: Record, j1: Record, n: nat) returns (s1: Sys)
    requires f == Setting() && s.procs == [Scanning(j0, ["r"], []), Scanning(j1, ["r"], [])]
    requires Cost(j0.task) == Cost(j1.task) == 2 && s.world.states == map["r" := ROW]
    ensures Run(f, s, Both(0, 1, n + 1)) == Run(f, s1, Both(0, 1, n))
    ensures s1.procs == [Rereading(j0, "r", []), Rereading(j1, "r", [])]
    ensures s1.world.states == s.world.states && s1.world.log == s.world.log
  {
    Pair(f, s, 0, 1, n + 1);
    CalmCheck(f, s, 0, j0);
    CalmCheck(f, Act(f, s, Step(0)), 1, j1);
    s1 := Twice(f, s, 0, 1);
  }

  lemma CalmBegin(f: Setup, s: Sys, i: nat, job: Record)
    requires f == Setting() && i < |s.procs| && s.procs[i] == Loop([job])
    requires job.task == CalmTask(job.task.id, 2) && job.task.id != ""
    ensures var s1 := Act(f, s, Step(i));
            && s1.procs == s.procs[i := Scanning(job, ["r"], [])]
            && s1.world.states == s.world.states && s1.world.log == s.world.log
  {
    ListingOfOne("r");
    assert [job][1..] == [];
  }

  lemma CalmCheck(f: Setup, s: Sys, i: nat, job: Record)
    requires f == Setting() && i < |s.procs| && s.procs[i] == Scanning(job, ["r"], [])
    requires Cost(job.task) == 2 && s.world.states == map["r" := ROW]
    ensures var s1 := Act(f, s, Step(i));
            && s1.procs == s.procs[i := Rereading(job, "r", [])]
            && s1.world.states == s.world.states && s1.world.log == s.world.log
  {
    RestIsAStart();
  }

  lemma TogetherPick(n: nat) returns (s1: Sys)
    ensures Run(Setting(), Rest(), Both(0, 1, n + 1)) == Run(Setting(), s1, Both(0, 1, n))
    ensures s1.procs == [Loop([Record(CalmTask("a", 2), 0, 0)]), Loop([Record(CalmTask("b", 2), 1, 1)])]
    ensures s1.world.states == map["r" := ROW] && s1.world.log == []
  {
    var w := Rest().world;
    CalmPick(2, ByNumber(), w, [0]);
    var w1 := Called(w).(receipts := w.receipts + [0]);
    assert CalmRecords(w, [0], 2) == [Record(CalmTask("a", 2), 0, 0)];
    CalmPick(2, ByNumber(), w1, [1]);
    assert CalmRecords(w1, [1], 2) == [Record(CalmTask("b", 2), 1, 1)];
    Pair(Setting(), Rest(), 0, 1, n + 1);
    s1 := Twice(Setting(), Rest(), 0, 1);
  }

  /** In step: two batches on an active count of one, so the ledger equation does not hold. */
  lemma LostReservationIsReachable()
    ensures var s := Run(Setting(), BothChecked(), Both(0, 1, 3));
            && Count(s.world.log, "r", Created) == 2
            && "r" in s.world.states && s.world.states["r"].active == 1
  {
    RestIsAStart();
    BothPassTheCheck();
    LosesFromScratch(Setting(), BothChecked(), 0, 1, "r");
  }

  lemma LosesFromScratch(f: Setup, s: Sys, i: nat, j: nat, key: Key)
    requires (forall n: nat :: f.o.outcome(n) == Ack) && BothPassed(s, i, j, key)
    requires s.world.states[key].active == 0 && s.world.log == []
    ensures var s1 := Run(f, s, Both(i, j, 3));
            && Count(s1.world.log, key, Created) == 2
            && key in s1.world.states && s1.world.states[key].active == 1
  {
    OverlapLosesAReservation(f, s, i, j, key);
  }

  /** In turn: an active count of two on a limit of one. */
  lemma ExceededLimitIsReachable()
    ensures var s := Run(Setting(), BothChecked(), InTurn(0, 1));
            "r" in s.world.states && s.world.states["r"].active == 2 == s.world.states["r"].maxConcurrent + 1
  {
    RestIsAStart();
    BothPassTheCheck();
    LateReserveExceedsLimit(Setting(), BothChecked(), 0, 1, "r");
  }
}
