/** Any number of workers, any interleaving, no exclusion: exactly which row writes keep the ledger,
    and exactly which keep a row within its concurrency limit and its token load within bounds. */
module Conflicts {
  import opened Int64
  import opened Domain
  import opened Backend
  import opened Fleet
  import opened Guards
  import opened Ledger
  import opened LoadBound

  /** The process's reservation is written and its outcome is not yet in the history. */
  predicate OpenOn(pc: Pc, key: Key) {
    (pc.Creating? || pc.Releasing?) && pc.key == key
  }

  function Open(pc: Pc, key: Key): nat {
    if OpenOn(pc, key) then 1 else 0
  }

  function OpenCount(procs: seq<Pc>, key: Key): nat {
    if procs == [] then 0 else OpenCount(procs[1..], key) + Open(procs[0], key)
  }

  lemma {:induction false} OpenCountUpdate(procs: seq<Pc>, i: nat, pc: Pc, key: Key)
    requires i < |procs|
    ensures OpenCount(procs[i := pc], key) == OpenCount(procs, key) - Open(procs[i], key) + Open(pc, key)
    decreases |procs|
  {
    if i == 0 {
      assert procs[0 := pc][1..] == procs[1..];
    } else {
      assert procs[i := pc][1..] == procs[1..][i - 1 := pc];
      OpenCountUpdate(procs[1..], i - 1, pc, key);
    }
  }

  lemma {:induction false} NoneOpen(procs: seq<Pc>, key: Key)
    requires forall i :: 0 <= i < |procs| ==> !OpenOn(procs[i], key)
    ensures OpenCount(procs, key) == 0
    decreases |procs|
  {
    if procs != [] {
      NoneOpen(procs[1..], key);
    }
  }

  /** Reservations in the history that are still in the table: batches and leaks. */
  function Booked(log: seq<Entry>, key: Key): nat {
    Count(log, key, Created) + Leaked(log, key)
  }

  lemma BookedAppend(log: seq<Entry>, e: Entry, key: Key)
    ensures Booked(log + [e], key) == Booked(log, key) + if e.key == key && Keeps(e.ending) then 1 else 0
  {
    assert (log + [e])[..|log|] == log;
  }

  // ---------- the ledger ----------

  /** The stored active count is the initial one, plus batches, plus leaks, plus open reservations. */
  ghost predicate LedgerHolds(s: Sys, key: Key, initial: int) {
    key in s.world.states &&
    s.world.states[key].active == initial + Booked(s.world.log, key) + OpenCount(s.procs, key)
  }

  ghost predicate LedgerThroughout(f: Setup, s: Sys, acts: seq<Action>, key: Key, initial: int)
    decreases |acts|
  {
    LedgerHolds(s, key, initial) &&
    (acts != [] ==> LedgerThroughout(f, Act(f, s, acts[0]), acts[1..], key, initial))
  }

  /** The action is a write of this row that takes effect. */
  predicate WritesRow(f: Setup, s: Sys, a: Action, key: Key) {
    && a.Step? && a.i < |s.procs|
    && (s.procs[a.i].Reserving? || s.procs[a.i].Releasing?)
    && s.procs[a.i].key == key
    && f.o.outcome(s.world.calls) != Refused
  }

  /** The write finds the active count as its writer last saw it: what a put conditional on that count
      would test.  One conditional on the version would refuse more, since a rollback restores the
      restores the count and not the version (RollbackCancels). */
  predicate FindsAsSeen(s: Sys, i: nat, key: Key)
    requires i < |s.procs| && HasRow(s.procs[i]) && key in s.world.states
  {
    s.procs[i].st.active == s.world.states[key].active + if s.procs[i].Releasing? then -1 else 1
  }

  ghost predicate WritesFresh(f: Setup, s: Sys, acts: seq<Action>, key: Key)
    decreases |acts|
  {
    acts != [] ==>
      && (WritesRow(f, s, acts[0], key) && key in s.world.states ==> FindsAsSeen(s, acts[0].i, key))
      && WritesFresh(f, Act(f, s, acts[0]), acts[1..], key)
  }

  /** What one step does to one row and to the books on it. */
  ghost predicate RowEffect(w: World, pc: Pc, w1: World, pc1: Pc, key: Key, writes: bool)
    requires key in w.states
  {
    var booked := Booked(w1.log, key) - Booked(w.log, key) + Open(pc1, key) - Open(pc, key);
    && key in w1.states
    && w1.states[key].maxConcurrent == w.states[key].maxConcurrent
    && (writes ==> HasRow(pc) && w1.states[key].active == pc.st.active && booked == if pc.Releasing? then -1 else 1)
    && (!writes ==> w1.states[key].active == w.states[key].active && booked == 0)
  }

  lemma ReserveRow(f: Setup, w: World, pc: Pc, key: Key)
    requires pc.Reserving? && Vetted(f, w, pc) && key in w.states
    ensures var (w1, pc1) := Reserve(f, w, pc.job, pc.key, pc.st, pc.rest);
            RowEffect(w, pc, w1, pc1, key, pc.key == key && f.o.outcome(w.calls) != Refused)
  {
    var w1 := Reserve(f, w, pc.job, pc.key, pc.st, pc.rest).0;
    if w1.log != w.log {
      BookedAppend(w.log, w1.log[|w.log|], key);
    }
  }

  lemma CreateRow(f: Setup, w: World, pc: Pc, key: Key)
    requires pc.Creating? && Vetted(f, w, pc) && key in w.states
    ensures var (w1, pc1) := Create(f, w, pc.job, pc.key, pc.st, pc.rest);
            RowEffect(w, pc, w1, pc1, key, false)
  {
    var next := Create(f, w, pc.job, pc.key, pc.st, pc.rest);
    CreateOpens(f, w, pc, key);
    CreateBooks(f, w, pc, key);
    assert next.0.states == w.states;
  }

  lemma CreateOpens(f: Setup, w: World, pc: Pc, key: Key)
    requires pc.Creating?
    ensures var pc1 := Create(f, w, pc.job, pc.key, pc.st, pc.rest).1;
            Open(pc1, key) == Open(pc, key) - if f.o.outcome(w.calls) == Ack && pc.key == key then 1 else 0
  {}

  lemma CreateBooks(f: Setup, w: World, pc: Pc, key: Key)
    requires pc.Creating?
    ensures var w1 := Create(f, w, pc.job, pc.key, pc.st, pc.rest).0;
            Booked(w1.log, key) == Booked(w.log, key) + if f.o.outcome(w.calls) == Ack && pc.key == key then 1 else 0
  {
    var e := Entry(pc.key, pc.job.msg, Cost(pc.job.task), Created);
    BookedAppend(w.log, e, key);
    var log1 := Create(f, w, pc.job, pc.key, pc.st, pc.rest).0.log;
    assert log1 == if f.o.outcome(w.calls) == Ack then w.log + [e] else w.log;
  }

  lemma ReleaseRow(f: Setup, w: World, pc: Pc, key: Key)
    requires pc.Releasing? && Vetted(f, w, pc) && key in w.states
    ensures var (w1, pc1) := Release(f, w, pc.job, pc.key, pc.st, pc.rest);
            RowEffect(w, pc, w1, pc1, key, pc.key == key && f.o.outcome(w.calls) != Refused)
  {
    var w1 := Release(f, w, pc.job, pc.key, pc.st, pc.rest).0;
    BookedAppend(w.log, w1.log[|w.log|], key);
  }

  lemma MicroRow(f: Setup, w: World, pc: Pc, key: Key)
    requires Vetted(f, w, pc) && key in w.states
    ensures var (w1, pc1) := Micro(f, w, pc);
            RowEffect(w, pc, w1, pc1, key,
                      (pc.Reserving? || pc.Releasing?) && pc.key == key && f.o.outcome(w.calls) != Refused)
  {
    match pc
    case Reserving(_, _, _, _) => ReserveRow(f, w, pc, key);
    case Creating(_, _, _, _) => CreateRow(f, w, pc, key);
    case Releasing(_, _, _, _) => ReleaseRow(f, w, pc, key);
    case _ => MicroFrame(f, w, pc);
  }

  /** What one action does to the ledger equation. */
  lemma ActRow(f: Setup, s: Sys, a: Action, key: Key)
    requires GuardInv(f, s) && key in s.world.states
    ensures var s1, writes := Act(f, s, a), WritesRow(f, s, a, key);
            var booked := Booked(s1.world.log, key) - Booked(s.world.log, key) +
                          OpenCount(s1.procs, key) - OpenCount(s.procs, key);
            && key in s1.world.states
            && s1.world.states[key].maxConcurrent == s.world.states[key].maxConcurrent
            && (writes ==> s1.world.states[key].active == s.procs[a.i].st.active &&
                           booked == if s.procs[a.i].Releasing? then -1 else 1)
            && (!writes ==> s1.world.states[key].active == s.world.states[key].active && booked == 0)
  {
    if a.i < |s.procs| {
      if a.Step? {
        MicroRow(f, s.world, s.procs[a.i], key);
        OpenCountUpdate(s.procs, a.i, Micro(f, s.world, s.procs[a.i]).1, key);
      } else if s.procs[a.i].Idle? {
        OpenCountUpdate(s.procs, a.i, Act(f, s, a).procs[a.i], key);
      }
    }
  }

  /** The ledger equation holds after every action of a run if and only if it held at the start and
      every row write that takes effect finds the active count as its writer last saw it. */
  lemma {:induction false} LedgerHoldsExactlyWhenWritesAreFresh(f: Setup, s: Sys, acts: seq<Action>, key: Key, initial: int)
    requires FairOrder(f.o) && GuardInv(f, s) && key in s.world.states
    ensures LedgerThroughout(f, s, acts, key, initial) <==>
            LedgerHolds(s, key, initial) && WritesFresh(f, s, acts, key)
    decreases |acts|
  {
    if acts != [] {
      ActRow(f, s, acts[0], key);
      ActKeepsGuards(f, s, acts[0]);
      LedgerHoldsExactlyWhenWritesAreFresh(f, Act(f, s, acts[0]), acts[1..], key, initial);
    }
  }

  lemma {:induction false} LedgerAtTheEnd(f: Setup, s: Sys, acts: seq<Action>, key: Key, initial: int)
    requires LedgerThroughout(f, s, acts, key, initial)
    ensures LedgerHolds(Run(f, s, acts), key, initial)
    decreases |acts|
  {
    if acts != [] {
      LedgerAtTheEnd(f, Act(f, s, acts[0]), acts[1..], key, initial);
    }
  }

  // ---------- the limit ----------

  ghost predicate RowWithin(s: Sys, key: Key) {
    key in s.world.states && s.world.states[key].active <= s.world.states[key].maxConcurrent
  }

  ghost predicate LimitThroughout(f: Setup, s: Sys, acts: seq<Action>, key: Key)
    decreases |acts|
  {
    RowWithin(s, key) && (acts != [] ==> LimitThroughout(f, Act(f, s, acts[0]), acts[1..], key))
  }

  /** The active count a dispatch found when it re-read the row. */
  function CountSeen(pc: Pc): int64
    requires HasRow(pc)
  {
    if pc.Releasing? then pc.st.active else Sub(pc.st.active, 1)
  }

  /** The re-read row still had room; the largest 64-bit count has none but wraps when raised. */
  predicate HadRoom(pc: Pc, limit: int64)
    requires HasRow(pc)
  {
    CountSeen(pc) < limit || CountSeen(pc) == MAX
  }

  ghost predicate WritesHadRoom(f: Setup, s: Sys, acts: seq<Action>, key: Key)
    decreases |acts|
  {
    acts != [] ==>
      && (WritesRow(f, s, acts[0], key) && key in s.world.states && s.procs[acts[0].i].Reserving? ==>
            HadRoom(s.procs[acts[0].i], s.world.states[key].maxConcurrent))
      && WritesHadRoom(f, Act(f, s, acts[0]), acts[1..], key)
  }

  /** Every dispatch under way on the row found it within its limit when it re-read it. */
  ghost predicate RereadWithin(s: Sys, key: Key)
    requires key in s.world.states
  {
    forall i :: 0 <= i < |s.procs| && HasRow(s.procs[i]) && s.procs[i].key == key ==>
      CountSeen(s.procs[i]) <= s.world.states[key].maxConcurrent
  }

  /** The row a dispatch holds remembers the count it re-read, until it is written back. */
  lemma RereadIsRemembered(f: Setup, w: World, pc: Pc)
    ensures var pc1 := Micro(f, w, pc).1;
            HasRow(pc1) ==>
              && (pc.Rereading? || HasRow(pc)) && pc1.key == pc.key
              && (pc.Rereading? ==> pc.key in w.states && CountSeen(pc1) == w.states[pc.key].active)
              && (HasRow(pc) ==> CountSeen(pc1) == CountSeen(pc))
  {}

  /** A reserve write that takes effect keeps the row within its limit if and only if the row its
      dispatch re-read still had room. */
  lemma ReserveKeepsLimitExactly(f: Setup, s: Sys, i: nat)
    requires GuardInv(f, s) && i < |s.procs| && s.procs[i].Reserving?
    requires f.o.outcome(s.world.calls) != Refused
    requires CountSeen(s.procs[i]) <= s.world.states[s.procs[i].key].maxConcurrent
    ensures RowWithin(Act(f, s, Step(i)), s.procs[i].key) <==>
            HadRoom(s.procs[i], s.world.states[s.procs[i].key].maxConcurrent)
  {
    ActRow(f, s, Step(i), s.procs[i].key);
  }

  lemma ActKeepsRereadWithin(f: Setup, s: Sys, a: Action, key: Key)
    requires GuardInv(f, s) && RowWithin(s, key) && RereadWithin(s, key)
    ensures key in Act(f, s, a).world.states && RereadWithin(Act(f, s, a), key)
  {
    ActRow(f, s, a, key);
    if a.i < |s.procs| && a.Step? {
      RereadIsRemembered(f, s.world, s.procs[a.i]);
    }
  }

  /** A row stays within its limit after every action of a run if and only if it was at the start and
      every reserve write that takes effect comes from a re-read that still had room. */
  lemma {:induction false} LimitHoldsExactlyWhenWritesHadRoom(f: Setup, s: Sys, acts: seq<Action>, key: Key)
    requires FairOrder(f.o) && GuardInv(f, s) && key in s.world.states && RereadWithin(s, key)
    ensures LimitThroughout(f, s, acts, key) <==> RowWithin(s, key) && WritesHadRoom(f, s, acts, key)
    decreases |acts|
  {
    if acts != [] && RowWithin(s, key) {
      var a := acts[0];
      ActRow(f, s, a, key);
      ActKeepsGuards(f, s, a);
      ActKeepsRereadWithin(f, s, a, key);
      LimitHoldsExactlyWhenWritesHadRoom(f, Act(f, s, a), acts[1..], key);
    }
  }

  lemma {:induction false} LimitAtTheEnd(f: Setup, s: Sys, acts: seq<Action>, key: Key)
    requires LimitThroughout(f, s, acts, key)
    ensures RowWithin(Run(f, s, acts), key)
    decreases |acts|
  {
    if acts != [] {
      LimitAtTheEnd(f, Act(f, s, acts[0]), acts[1..], key);
    }
  }

  // ---------- the token load ----------

  ghost predicate LoadHolds(s: Sys, key: Key) {
    key in s.world.states && LoadWithin(s.world.states[key])
  }

  ghost predicate LoadHoldsThroughout(f: Setup, s: Sys, acts: seq<Action>, key: Key)
    decreases |acts|
  {
    LoadHolds(s, key) && (acts != [] ==> LoadHoldsThroughout(f, Act(f, s, acts[0]), acts[1..], key))
  }

  /** The row as its dispatch re-read it, but for the version. */
  function RowSeen(pc: Pc): ResourceState
    requires HasRow(pc)
  {
    pc.st.(active := CountSeen(pc),
           load := if pc.Releasing? then pc.st.load else Sub(pc.st.load, Cost(pc.job.task)))
  }

  ghost predicate WritesFit(f: Setup, s: Sys, acts: seq<Action>, key: Key)
    decreases |acts|
  {
    acts != [] ==>
      && (WritesRow(f, s, acts[0], key) && s.procs[acts[0].i].Reserving? ==>
            ReserveFits(RowSeen(s.procs[acts[0].i]), Cost(s.procs[acts[0].i].job.task)))
      && WritesFit(f, Act(f, s, acts[0]), acts[1..], key)
  }

  /** Every dispatch under way on the row found its load within the bound when it re-read it. */
  ghost predicate LoadsSeenWithin(s: Sys, key: Key) {
    forall i :: 0 <= i < |s.procs| && HasRow(s.procs[i]) && s.procs[i].key == key ==> LoadWithin(RowSeen(s.procs[i]))
  }

  /** A write that takes effect stores the writer's row; no other action changes the row. */
  lemma ActStores(f: Setup, s: Sys, a: Action, key: Key)
    requires GuardInv(f, s) && key in s.world.states
    ensures key in Act(f, s, a).world.states
    ensures Act(f, s, a).world.states[key] ==
            if WritesRow(f, s, a, key) then s.procs[a.i].st else s.world.states[key]
  {
    if a.i < |s.procs| && a.Step? {
      MicroFrame(f, s.world, s.procs[a.i]);
    }
  }

  /** A dispatch keeps in mind the load it re-read, until it is written back. */
  lemma LoadIsRemembered(f: Setup, w: World, pc: Pc)
    requires Vetted(f, w, pc)
    ensures var pc1 := Micro(f, w, pc).1;
            HasRow(pc1) ==>
              && (pc.Rereading? || HasRow(pc)) && pc1.key == pc.key
              && (pc.Rereading? ==> (LoadWithin(RowSeen(pc1)) <==> LoadWithin(w.states[pc.key])))
              && (HasRow(pc) ==> (LoadWithin(RowSeen(pc1)) <==> LoadWithin(RowSeen(pc))))
  {
    RereadIsRemembered(f, w, pc);
    var pc1 := Micro(f, w, pc).1;
    if HasRow(pc1) {
      assert pc.Rereading? ==> RowSeen(pc1) == w.states[pc.key].(version := pc1.st.version);
      assert HasRow(pc) ==> RowSeen(pc1) == RowSeen(pc).(version := pc1.st.version);
    }
  }

  lemma ActKeepsLoadsSeen(f: Setup, s: Sys, a: Action, key: Key)
    requires GuardInv(f, s) && LoadHolds(s, key) && LoadsSeenWithin(s, key)
    ensures LoadsSeenWithin(Act(f, s, a), key)
  {
    if a.i < |s.procs| && a.Step? {
      LoadIsRemembered(f, s.world, s.procs[a.i]);
    }
  }

  /** What a write that takes effect does to the bound: a rollback keeps it, a reservation keeps it if
      and only if it fits on the row as re-read. */
  lemma WriteKeepsLoadExactly(f: Setup, s: Sys, a: Action, key: Key)
    requires GuardInv(f, s) && LoadHolds(s, key) && LoadsSeenWithin(s, key) && WritesRow(f, s, a, key)
    ensures var pc := s.procs[a.i];
            LoadWithin(pc.st) <==> pc.Releasing? || ReserveFits(RowSeen(pc), Cost(pc.job.task))
  {
    var pc := s.procs[a.i];
    assert LoadWithin(RowSeen(pc));
    if pc.Reserving? {
      assert Vetted(f, s.world, pc);
      UncheckedReserveKeepsLoadExactly(RowSeen(pc), Cost(pc.job.task));
      assert Reserved(RowSeen(pc), Cost(pc.job.task)) == pc.st.(version := Add(pc.st.version, 1));
    } else {
      assert RowSeen(pc) == pc.st;
    }
  }

  /** The stored load of a row stays within token limit times active count after every action of a run
      if and only if it was at the start and every reserve write that takes effect fits on the row as
      its dispatch re-read it. */
  lemma {:induction false} LoadHoldsExactlyWhenWritesFit(f: Setup, s: Sys, acts: seq<Action>, key: Key)
    requires FairOrder(f.o) && GuardInv(f, s) && key in s.world.states && LoadsSeenWithin(s, key)
    ensures LoadHoldsThroughout(f, s, acts, key) <==> LoadHolds(s, key) && WritesFit(f, s, acts, key)
    decreases |acts|
  {
    if acts != [] && LoadHolds(s, key) {
      var a := acts[0];
      ActStores(f, s, a, key);
      ActKeepsGuards(f, s, a);
      ActKeepsLoadsSeen(f, s, a, key);
      if WritesRow(f, s, a, key) {
        WriteKeepsLoadExactly(f, s, a, key);
      }
      LoadHoldsExactlyWhenWritesFit(f, Act(f, s, a), acts[1..], key);
    }
  }
}
