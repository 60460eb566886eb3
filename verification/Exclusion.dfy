/** Interleaved workers whose sections on one key do not overlap: the table is, at every step, what
    some legal serial run leaves, plus the reservations still open.  Without the exclusion a
    reservation can be lost. */
module Exclusion {
  import opened Domain
  import opened Backend
  import opened Fleet
  import opened Delivery
  import opened Guards
  import opened Ledger
  import opened Conflicts

  /** No two processes are in a section on the same key. */
  ghost predicate Exclusive(procs: seq<Pc>) {
    forall i, j :: 0 <= i < j < |procs| && InSection(procs[i]) && InSection(procs[j]) ==>
      procs[i].key != procs[j].key
  }

  ghost predicate ExclusiveRun(f: Setup, s: Sys, acts: seq<Action>)
    decreases |acts|
  {
    Exclusive(s.procs) && (acts != [] ==> ExclusiveRun(f, Act(f, s, acts[0]), acts[1..]))
  }

  /** A process in a section sees the serial table at its key, plus its own reservation. */
  ghost predicate SeesSerial(serial: map<Key, ResourceState>, states: map<Key, ResourceState>, pc: Pc) {
    InSection(pc) ==>
      var key, cost := pc.key, Cost(pc.job.task);
      && key in serial && key in states && Admits(serial[key], cost)
      && (pc.Rereading? || pc.Reserving? ==> states[key] == serial[key])
      && (pc.Reserving? || pc.Creating? ==> pc.st == Reserved(serial[key], cost))
      && (pc.Creating? || pc.Releasing? ==> states[key] == Reserved(serial[key], cost))
      && (pc.Releasing? ==> pc.st == Released(Reserved(serial[key], cost), cost))
  }

  ghost predicate SettledIn(serial: map<Key, ResourceState>, s: Sys, k: Key)
    requires k in s.world.states && k in serial
  {
    (forall i :: 0 <= i < |s.procs| ==> !OpenOn(s.procs[i], k)) ==> s.world.states[k] == serial[k]
  }

  ghost predicate SerialInv(f: Setup, init: map<Key, ResourceState>, s: Sys) {
    var serial := Replay(init, s.world.log);
    && LegalRun(init, s.world.log)
    && (forall i :: 0 <= i < |s.world.log| ==> s.world.log[i].key in f.reg)
    && serial.Keys == s.world.states.Keys
    && (forall i :: 0 <= i < |s.procs| ==> SeesSerial(serial, s.world.states, s.procs[i]))
    && (forall k :: k in s.world.states ==> SettledIn(serial, s, k))
  }

  lemma ReplayAppend(init: map<Key, ResourceState>, log: seq<Entry>, e: Entry)
    ensures Replay(init, log + [e]) == Apply(Replay(init, log), e)
    ensures LegalRun(init, log + [e]) <==>
            LegalRun(init, log) && e.key in Replay(init, log) && Admits(Replay(init, log)[e.key], e.cost)
  {
    assert (log + [e])[..|log|] == log;
  }

  /** The serial table once the history has grown by at most one dispatch. */
  function SerialAfter(serial: map<Key, ResourceState>, log: seq<Entry>, log1: seq<Entry>): map<Key, ResourceState> {
    if |log1| > |log| then Apply(serial, log1[|log|]) else serial
  }

  /** What a step inside a section may do to the table, the history and the serial table. */
  ghost predicate SectionEffect(serial: map<Key, ResourceState>, w: World, pc: Pc, w1: World, pc1: Pc)
    requires InSection(pc) && pc.key in serial && pc.key in w.states
  {
    var serial1 := SerialAfter(serial, w.log, w1.log);
    && (w1.log == w.log ||
        exists e: Entry :: w1.log == w.log + [e] && e.key == pc.key && e.cost == Cost(pc.job.task))
    && w1.states.Keys == w.states.Keys && serial1.Keys == serial.Keys
    && SeesSerial(serial1, w1.states, pc1)
    && (forall k :: k in w.states && k != pc.key ==> w1.states[k] == w.states[k])
    && (forall k :: k in serial && k != pc.key ==> serial1[k] == serial[k])
    && (!OpenOn(pc1, pc.key) ==> w1.states[pc.key] == serial1[pc.key])
    && (InSection(pc1) ==> pc1.key == pc.key)
  }

  lemma RereadEffect(f: Setup, serial: map<Key, ResourceState>, w: World, pc: Pc)
    requires pc.Rereading? && Vetted(f, w, pc) && SeesSerial(serial, w.states, pc)
    ensures var (w1, pc1) := Reread(f, w, pc.job, pc.key, pc.rest); SectionEffect(serial, w, pc, w1, pc1)
  {}

  lemma ReserveEffect(f: Setup, serial: map<Key, ResourceState>, w: World, pc: Pc)
    requires pc.Reserving? && Vetted(f, w, pc) && SeesSerial(serial, w.states, pc)
    ensures var (w1, pc1) := Reserve(f, w, pc.job, pc.key, pc.st, pc.rest); SectionEffect(serial, w, pc, w1, pc1)
  {}

  lemma CreateEffect(f: Setup, serial: map<Key, ResourceState>, w: World, pc: Pc)
    requires pc.Creating? && Vetted(f, w, pc) && SeesSerial(serial, w.states, pc)
    ensures var (w1, pc1) := Create(f, w, pc.job, pc.key, pc.st, pc.rest); SectionEffect(serial, w, pc, w1, pc1)
  {}

  lemma ReleaseEffect(f: Setup, serial: map<Key, ResourceState>, w: World, pc: Pc)
    requires pc.Releasing? && Vetted(f, w, pc) && SeesSerial(serial, w.states, pc)
    ensures var (w1, pc1) := Release(f, w, pc.job, pc.key, pc.st, pc.rest); SectionEffect(serial, w, pc, w1, pc1)
  {}

  lemma SectionStep(f: Setup, serial: map<Key, ResourceState>, w: World, pc: Pc)
    requires InSection(pc) && Vetted(f, w, pc) && SeesSerial(serial, w.states, pc)
    ensures var (w1, pc1) := Micro(f, w, pc); SectionEffect(serial, w, pc, w1, pc1)
  {
    match pc {
      case Rereading(_, _, _) => RereadEffect(f, serial, w, pc);
      case Reserving(_, _, _, _) => ReserveEffect(f, serial, w, pc);
      case Creating(_, _, _, _) => CreateEffect(f, serial, w, pc);
      case Releasing(_, _, _, _) => ReleaseEffect(f, serial, w, pc);
    }
  }

  /** What an action of a process outside any section may do. */
  ghost predicate OutsideEffect(s: Sys, i: nat, s1: Sys)
    requires i < |s.procs|
  {
    && s1.world.states == s.world.states && s1.world.log == s.world.log
    && |s1.procs| == |s.procs|
    && (forall j :: 0 <= j < |s.procs| && j != i ==> s1.procs[j] == s.procs[j])
    && var pc1 := s1.procs[i];
       InSection(pc1) ==>
         pc1.Rereading? && pc1.key in s.world.states && Admits(s.world.states[pc1.key], Cost(pc1.job.task))
  }

  lemma OutsideStep(f: Setup, s: Sys, a: Action)
    requires a.i < |s.procs| && !InSection(s.procs[a.i])
    ensures OutsideEffect(s, a.i, Act(f, s, a))
  {}

  lemma OutsideKeepsSerial(f: Setup, init: map<Key, ResourceState>, s: Sys, i: nat, s1: Sys)
    requires SerialInv(f, init, s) && Exclusive(s1.procs)
    requires i < |s.procs| && !InSection(s.procs[i]) && OutsideEffect(s, i, s1)
    ensures SerialInv(f, init, s1)
  {
    var serial := Replay(init, s.world.log);
    forall k | k in s1.world.states
      ensures SettledIn(serial, s1, k)
    {
      assert SettledIn(serial, s, k);
      assert forall j :: 0 <= j < |s.procs| && OpenOn(s.procs[j], k) ==> OpenOn(s1.procs[j], k);
    }
    if InSection(s1.procs[i]) {
      var k := s1.procs[i].key;
      assert forall j :: 0 <= j < |s1.procs| ==> !OpenOn(s1.procs[j], k);
      assert SettledIn(serial, s1, k);
    }
  }

  lemma OthersStillSee(serial: map<Key, ResourceState>, serial1: map<Key, ResourceState>, s: Sys, i: nat, s1: Sys)
    requires i < |s.procs| == |s1.procs| && InSection(s.procs[i]) && Exclusive(s.procs)
    requires forall j :: 0 <= j < |s.procs| && j != i ==> s1.procs[j] == s.procs[j]
    requires forall j :: 0 <= j < |s.procs| ==> SeesSerial(serial, s.world.states, s.procs[j])
    requires serial1.Keys == serial.Keys && s1.world.states.Keys == s.world.states.Keys
    requires forall k :: k in serial && k != s.procs[i].key ==> serial1[k] == serial[k]
    requires forall k :: k in s.world.states && k != s.procs[i].key ==> s1.world.states[k] == s.world.states[k]
    ensures forall j :: 0 <= j < |s1.procs| && j != i ==> SeesSerial(serial1, s1.world.states, s1.procs[j])
  {
    forall j | 0 <= j < |s1.procs| && j != i
      ensures SeesSerial(serial1, s1.world.states, s1.procs[j])
    {
      assert SeesSerial(serial, s.world.states, s.procs[j]);
      assert InSection(s.procs[j]) ==> s.procs[j].key != s.procs[i].key;
    }
  }

  lemma OthersStaySettled(serial: map<Key, ResourceState>, serial1: map<Key, ResourceState>, s: Sys, i: nat, s1: Sys, key: Key)
    requires i < |s.procs| == |s1.procs|
    requires forall j :: 0 <= j < |s.procs| && j != i ==> s1.procs[j] == s.procs[j]
    requires serial1.Keys == serial.Keys == s1.world.states.Keys == s.world.states.Keys
    requires key in serial && !OpenOn(s.procs[i], key) && !OpenOn(s1.procs[i], key)
    requires serial1[key] == serial[key] && s1.world.states[key] == s.world.states[key]
    requires SettledIn(serial, s, key)
    ensures SettledIn(serial1, s1, key)
  {
    assert forall j :: 0 <= j < |s.procs| && OpenOn(s.procs[j], key) ==> OpenOn(s1.procs[j], key);
  }

  /** One legal entry more, or none, and the serial table follows. */
  lemma HistoryGrows(init: map<Key, ResourceState>, w: World, pc: Pc, w1: World, pc1: Pc)
    requires LegalRun(init, w.log) && InSection(pc)
    requires SeesSerial(Replay(init, w.log), w.states, pc)
    requires SectionEffect(Replay(init, w.log), w, pc, w1, pc1)
    ensures LegalRun(init, w1.log)
    ensures Replay(init, w1.log) == SerialAfter(Replay(init, w.log), w.log, w1.log)
    ensures forall i :: 0 <= i < |w1.log| ==> (i < |w.log| && w1.log[i] == w.log[i]) || w1.log[i].key == pc.key
  {
    if w1.log != w.log {
      ReplayAppend(init, w.log, w1.log[|w.log|]);
    }
  }

  lemma InsideKeepsSerial(f: Setup, init: map<Key, ResourceState>, s: Sys, i: nat, s1: Sys)
    requires SerialInv(f, init, s) && Exclusive(s.procs)
    requires i < |s.procs| == |s1.procs| && InSection(s.procs[i])
    requires forall j :: 0 <= j < |s.procs| && j != i ==> s1.procs[j] == s.procs[j]
    requires s.procs[i].key in f.reg && s.procs[i].key in s.world.states
    requires SectionEffect(Replay(init, s.world.log), s.world, s.procs[i], s1.world, s1.procs[i])
    ensures SerialInv(f, init, s1)
  {
    var pc := s.procs[i];
    assert SeesSerial(Replay(init, s.world.log), s.world.states, pc);
    HistoryGrows(init, s.world, pc, s1.world, s1.procs[i]);
    OthersStayGood(Replay(init, s.world.log), Replay(init, s1.world.log), s, i, s1);
  }

  lemma OthersStayGood(serial: map<Key, ResourceState>, serial1: map<Key, ResourceState>, s: Sys, i: nat, s1: Sys)
    requires i < |s.procs| == |s1.procs| && InSection(s.procs[i]) && Exclusive(s.procs)
    requires forall j :: 0 <= j < |s.procs| && j != i ==> s1.procs[j] == s.procs[j]
    requires forall j :: 0 <= j < |s.procs| ==> SeesSerial(serial, s.world.states, s.procs[j])
    requires s.procs[i].key in serial && serial.Keys == s.world.states.Keys
    requires forall k :: k in serial ==> SettledIn(serial, s, k)
    requires SectionEffect(serial, s.world, s.procs[i], s1.world, s1.procs[i])
    requires serial1 == SerialAfter(serial, s.world.log, s1.world.log)
    ensures serial1.Keys == s1.world.states.Keys
    ensures forall j :: 0 <= j < |s1.procs| ==> SeesSerial(serial1, s1.world.states, s1.procs[j])
    ensures forall k :: k in s1.world.states ==> SettledIn(serial1, s1, k)
  {
    OthersStillSee(serial, serial1, s, i, s1);
    forall k | k in s1.world.states
      ensures SettledIn(serial1, s1, k)
    {
      if k != s.procs[i].key {
        OthersStaySettled(serial, serial1, s, i, s1, k);
      }
    }
  }

  lemma ActKeepsSerial(f: Setup, init: map<Key, ResourceState>, s: Sys, a: Action)
    requires GuardInv(f, s) && SerialInv(f, init, s) && Exclusive(s.procs) && Exclusive(Act(f, s, a).procs)
    ensures SerialInv(f, init, Act(f, s, a))
  {
    if a.i < |s.procs| {
      if InSection(s.procs[a.i]) {
        if a.Step? {
          SectionStep(f, Replay(init, s.world.log), s.world, s.procs[a.i]);
          InsideKeepsSerial(f, init, s, a.i, Act(f, s, a));
        }
      } else {
        OutsideStep(f, s, a);
        OutsideKeepsSerial(f, init, s, a.i, Act(f, s, a));
      }
    }
  }

  lemma {:induction false} RunKeepsSerial(f: Setup, init: map<Key, ResourceState>, s: Sys, acts: seq<Action>)
    requires FairOrder(f.o) && GuardInv(f, s) && SerialInv(f, init, s) && ExclusiveRun(f, s, acts)
    ensures SerialInv(f, init, Run(f, s, acts)) && Exclusive(Run(f, s, acts).procs)
    decreases |acts|
  {
    if acts != [] {
      ActKeepsGuards(f, s, acts[0]);
      ActKeepsSerial(f, init, s, acts[0]);
      RunKeepsSerial(f, init, Act(f, s, acts[0]), acts[1..]);
    }
  }

  ghost predicate Start(f: Setup, s: Sys) {
    FairOrder(f.o) && AtRest(s) && Keyed(s.world.states) && s.world.log == []
  }

  /** Serializability: the history is a legal serial run, and the table is what that run leaves,
      save that a key with an open reservation carries that one reservation on top. */
  lemma Serializable(f: Setup, s: Sys, acts: seq<Action>)
    requires Start(f, s) && ExclusiveRun(f, s, acts)
    ensures var s1, init := Run(f, s, acts), s.world.states;
            var serial := Replay(init, s1.world.log);
            && LegalRun(init, s1.world.log)
            && (forall i :: 0 <= i < |s1.world.log| ==> s1.world.log[i].key in f.reg)
            && serial.Keys == s1.world.states.Keys == init.Keys
            && (forall k :: k in init ==> SettledIn(serial, s1, k))
            && (forall i :: 0 <= i < |s1.procs| && (s1.procs[i].Creating? || s1.procs[i].Releasing?) ==>
                  var k := s1.procs[i].key;
                  && k in init
                  && Admits(serial[k], Cost(s1.procs[i].job.task))
                  && s1.world.states[k] == Reserved(serial[k], Cost(s1.procs[i].job.task)))
  {
    RunKeepsSerial(f, s.world.states, s, acts);
    var s1 := Run(f, s, acts);
    ReplayKeys(s.world.states, s1.world.log);
    assert forall i :: 0 <= i < |s1.procs| ==>
        SeesSerial(Replay(s.world.states, s1.world.log), s1.world.states, s1.procs[i]);
  }

  ghost predicate IsOpen(procs: seq<Pc>, key: Key) {
    exists i :: 0 <= i < |procs| && OpenOn(procs[i], key)
  }

  /** An exclusive run has only fresh writes, from re-reads that had room. */
  lemma {:induction false} ExclusiveWritesAreFresh(f: Setup, init: map<Key, ResourceState>, s: Sys, acts: seq<Action>, key: Key)
    requires FairOrder(f.o) && GuardInv(f, s) && SerialInv(f, init, s) && ExclusiveRun(f, s, acts)
    ensures WritesFresh(f, s, acts, key) && WritesHadRoom(f, s, acts, key)
    decreases |acts|
  {
    if acts != [] {
      var a := acts[0];
      ActKeepsGuards(f, s, a);
      ActKeepsSerial(f, init, s, a);
      if WritesRow(f, s, a, key) {
        SerialWriteIsFresh(Replay(init, s.world.log), s, a.i, key);
      }
      ExclusiveWritesAreFresh(f, init, Act(f, s, a), acts[1..], key);
    }
  }

  lemma SerialWriteIsFresh(serial: map<Key, ResourceState>, s: Sys, i: nat, key: Key)
    requires i < |s.procs| && SeesSerial(serial, s.world.states, s.procs[i])
    requires (s.procs[i].Reserving? || s.procs[i].Releasing?) && s.procs[i].key == key
    ensures FindsAsSeen(s, i, key)
    ensures s.procs[i].Reserving? ==> HadRoom(s.procs[i], s.world.states[key].maxConcurrent)
  {
    RollbackCancels(serial[key], Cost(s.procs[i].job.task));
  }

  lemma {:induction false} ExclusiveOpenCount(procs: seq<Pc>, key: Key)
    requires Exclusive(procs)
    ensures OpenCount(procs, key) == if IsOpen(procs, key) then 1 else 0
    decreases |procs|
  {
    if procs != [] {
      var tail := procs[1..];
      assert forall i :: 0 <= i < |tail| ==> tail[i] == procs[i + 1];
      ExclusiveOpenCount(tail, key);
      if IsOpen(tail, key) {
        var i :| 0 <= i < |tail| && OpenOn(tail[i], key);
        assert OpenOn(procs[i + 1], key);
      }
      if IsOpen(procs, key) {
        var i :| 0 <= i < |procs| && OpenOn(procs[i], key);
        assert i > 0 ==> OpenOn(tail[i - 1], key);
      }
    }
  }

  /** At every step of every exclusive run: stored active count = initial + batches + leaked
      reservations + 1 if a reservation is open; and it never exceeds the limit. */
  lemma LedgerUnderExclusion(f: Setup, s: Sys, acts: seq<Action>, key: Key)
    requires Start(f, s) && ExclusiveRun(f, s, acts) && key in s.world.states
    ensures var was, s1 := s.world.states[key], Run(f, s, acts);
            && key in s1.world.states
            && var now := s1.world.states[key];
               && now.active == was.active + Count(s1.world.log, key, Created) + Leaked(s1.world.log, key) +
                                (if IsOpen(s1.procs, key) then 1 else 0)
               && (was.active <= was.maxConcurrent ==> now.active <= now.maxConcurrent == was.maxConcurrent)
  {
    var initial := s.world.states[key].active;
    NoneOpen(s.procs, key);
    ExclusiveWritesAreFresh(f, s.world.states, s, acts, key);
    LedgerHoldsExactlyWhenWritesAreFresh(f, s, acts, key, initial);
    LedgerAtTheEnd(f, s, acts, key, initial);
    RunKeepsSerial(f, s.world.states, s, acts);
    ExclusiveOpenCount(Run(f, s, acts).procs, key);
    DereferenceIsSafe(f, s, acts);
    if RowWithin(s, key) {
      LimitHoldsExactlyWhenWritesHadRoom(f, s, acts, key);
      LimitAtTheEnd(f, s, acts, key);
    }
  }

  /** Batches created in any exclusive run fit in the slots that were free at its start. */
  lemma CapacityUnderExclusion(f: Setup, s: Sys, acts: seq<Action>)
    requires Start(f, s) && ExclusiveRun(f, s, acts) && WithinLimits(s.world.states)
    ensures AllCreated(Run(f, s, acts).world.log) <= Total(Free(s.world.states, f.reg))
  {
    Serializable(f, s, acts);
    BatchesFitFreeSlots(s.world.states, Run(f, s, acts).world.log, f.reg);
  }

  // ---------- serial runs ----------

  lemma {:induction false} OneWorkerIsExclusive(f: Setup, s: Sys, acts: seq<Action>)
    requires OneWorker(f, s, acts)
    requires forall i :: 0 < i < |s.procs| ==> s.procs[i].Idle? || s.procs[i].Sending?
    ensures ExclusiveRun(f, s, acts)
    decreases |acts|
  {
    if acts != [] {
      OneWorkerIsExclusive(f, Act(f, s, acts[0]), acts[1..]);
    }
  }
}
