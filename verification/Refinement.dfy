/** The code, run by itself, is a run of the fleet: a tick is what one process does from Idle when
    nobody else is scheduled. */
module Refinement {
  import opened Domain
  import opened Backend
  import opened Tasks
  import opened Resources
  import opened AppContext
  import opened Fleet

  /** n steps of one process with no interference. */
  function Solo(f: Setup, w: World, pc: Pc, n: nat): (World, Pc)
    decreases n
  {
    if n == 0 then (w, pc)
    else
      var (w1, pc1) := Micro(f, w, pc);
      Solo(f, w1, pc1, n - 1)
  }

  ghost predicate Reaches(f: Setup, from: (World, Pc), to: (World, Pc)) {
    exists n: nat :: Solo(f, from.0, from.1, n) == to
  }

  lemma {:induction false} SoloAppend(f: Setup, w: World, pc: Pc, m: nat, n: nat)
    ensures Solo(f, w, pc, m + n) == Solo(f, Solo(f, w, pc, m).0, Solo(f, w, pc, m).1, n)
    decreases m
  {
    if m > 0 {
      var (w1, pc1) := Micro(f, w, pc);
      SoloAppend(f, w1, pc1, m - 1, n);
    }
  }

  lemma ReachesOnce(f: Setup, a: (World, Pc))
    ensures Reaches(f, a, Micro(f, a.0, a.1))
  {
    assert Solo(f, a.0, a.1, 1) == Micro(f, a.0, a.1) by {
      var b := Micro(f, a.0, a.1);
      assert Solo(f, b.0, b.1, 0) == b;
    }
  }

  lemma ReachesThrough(f: Setup, a: (World, Pc), b: (World, Pc), c: (World, Pc))
    requires Reaches(f, a, b) && Reaches(f, b, c)
    ensures Reaches(f, a, c)
  {
    var m: nat :| Solo(f, a.0, a.1, m) == b;
    var n: nat :| Solo(f, b.0, b.1, n) == c;
    SoloAppend(f, a.0, a.1, m, n);
  }

  lemma StepThen(f: Setup, a: (World, Pc), c: (World, Pc))
    requires Reaches(f, Micro(f, a.0, a.1), c)
    ensures Reaches(f, a, c)
  {
    ReachesOnce(f, a);
    ReachesThrough(f, a, Micro(f, a.0, a.1), c);
  }

  lemma {:induction false} SelectIsScanning(f: Setup, w: World, job: Record, todo: seq<Key>, rest: seq<Record>)
    ensures var (w1, key) := Select(f.o, w, Cost(job.task), todo);
            Reaches(f, (w, Scanning(job, todo, rest)),
                       (w1, if key.None? then Marking(job, rest) else Rereading(job, key.value, rest)))
    decreases |todo|
  {
    var here := (w, Scanning(job, todo, rest));
    ReachesOnce(f, here);
    if todo != [] {
      var (w1, read) := ReadState(f.o, w, todo[0]);
      if !(read.Found? && Admits(read.state, Cost(job.task))) {
        SelectIsScanning(f, w1, job, todo[1..], rest);
        var (w2, key) := Select(f.o, w1, Cost(job.task), todo[1..]);
        StepThen(f, here, (w2, if key.None? then Marking(job, rest) else Rereading(job, key.value, rest)));
      }
    }
  }

  /** Where a process stands after a dispatch. */
  function AfterDispatch(verdict: Verdict, job: Record, rest: seq<Record>): Pc {
    match verdict
    case BatchCreated => Removing(job, rest)
    case DispatchFailed => Marking(job, rest)
    case NilDereference => Dead
  }

  lemma DispatchIsSection(f: Setup, w: World, job: Record, key: Key, rest: seq<Record>)
    ensures var (w1, verdict) := Dispatch(f.o, w, key, job.msg, Cost(job.task));
            Reaches(f, (w, Rereading(job, key, rest)),
                       (w1, AfterDispatch(verdict, job, rest)))
  {
    var a := (w, Rereading(job, key, rest));
    var b := Micro(f, a.0, a.1);
    ReachesOnce(f, a);
    if b.1.Reserving? {
      var c := Micro(f, b.0, b.1);
      ReachesOnce(f, b);
      ReachesThrough(f, a, b, c);
      if c.1.Creating? {
        var d := Micro(f, c.0, c.1);
        ReachesOnce(f, c);
        ReachesThrough(f, a, c, d);
        if d.1.Releasing? {
          ReachesOnce(f, d);
          ReachesThrough(f, a, d, Micro(f, d.0, d.1));
        }
      }
    }
  }

  lemma FoundThenDone(f: Setup, w: World, job: Record, key: Key, rest: seq<Record>)
    ensures var (w1, verdict) := Dispatch(f.o, w, key, job.msg, Cost(job.task));
            Reaches(f, (w, Rereading(job, key, rest)),
                       if verdict.NilDereference? then (w1, Dead)
                       else Micro(f, w1, AfterDispatch(verdict, job, rest)))
  {
    DispatchIsSection(f, w, job, key, rest);
    var (w1, verdict) := Dispatch(f.o, w, key, job.msg, Cost(job.task));
    var d := (w1, AfterDispatch(verdict, job, rest));
    if !verdict.NilDereference? {
      ReachesOnce(f, d);
      ReachesThrough(f, (w, Rereading(job, key, rest)), d, Micro(f, d.0, d.1));
    }
  }

  lemma AttemptIsLoopRound(f: Setup, w: World, records: seq<Record>)
    requires records != []
    ensures var (w1, alive) := Attempt(f.o, w, records[0], ProcessWith(f.o, f.reg));
            Reaches(f, (w, Loop(records)), (w1, if alive then Loop(records[1..]) else Dead))
  {
    var rest := records[1..];
    var a := (w, Loop(records));
    var b := Begin(f, w, records[0], rest);
    var job := b.1.job;
    assert Micro(f, a.0, a.1) == b;
    SelectIsScanning(f, b.0, job, b.1.todo, rest);
    var (w1, key) := Select(f.o, b.0, Cost(job.task), b.1.todo);
    if key.None? {
      var c := (w1, Marking(job, rest));
      StepThen(f, a, c);
      ReachesOnce(f, c);
      ReachesThrough(f, a, c, Micro(f, c.0, c.1));
    } else {
      var c := (w1, Rereading(job, key.value, rest));
      StepThen(f, a, c);
      FoundThenDone(f, w1, job, key.value, rest);
      var (w2, verdict) := Dispatch(f.o, w1, key.value, job.msg, Cost(job.task));
      ReachesThrough(f, a, c, if verdict.NilDereference? then (w2, Dead)
                              else Micro(f, w2, AfterDispatch(verdict, job, rest)));
    }
  }

  lemma {:induction false} AttemptsAreLoop(f: Setup, w: World, records: seq<Record>)
    ensures var (w1, alive) := Attempts(f.o, w, records, ProcessWith(f.o, f.reg));
            Reaches(f, (w, Loop(records)), (w1, if alive then Idle else Dead))
    decreases |records|
  {
    var a := (w, Loop(records));
    if records == [] {
      ReachesOnce(f, a);
    } else {
      AttemptIsLoopRound(f, w, records);
      var (w1, alive) := Attempt(f.o, w, records[0], ProcessWith(f.o, f.reg));
      if alive {
        AttemptsAreLoop(f, w1, records[1..]);
        var (w2, alive2) := Attempts(f.o, w1, records[1..], ProcessWith(f.o, f.reg));
        ReachesThrough(f, a, (w1, Loop(records[1..])), (w2, if alive2 then Idle else Dead));
      }
    }
  }

  function After(r: PickUpResult): Pc {
    match r
    case Done => Idle
    case Crashed => Dead
    case _ => Halted
  }

  lemma TickIsSolo(f: Setup, w: World)
    ensures var (w1, r) := TickOf(f.o, f.reg, w);
            Reaches(f, (w, Idle), (w1, After(r)))
  {
    var (w1, records) := PickTasks(f.o, w);
    ReachesOnce(f, (w, Idle));
    if records.Some? {
      AttemptsAreLoop(f, w1, records.value);
      var (w2, alive) := Attempts(f.o, w1, records.value, ProcessWith(f.o, f.reg));
      ReachesThrough(f, (w, Idle), (w1, Loop(records.value)), (w2, if alive then Idle else Dead));
    }
  }

  lemma {:induction false} ServeIsSolo(f: Setup, w: World, ticks: nat)
    ensures var (w1, r) := Serve(f.o, f.reg, w, ticks);
            Reaches(f, (w, Idle), (w1, After(r)))
    decreases ticks
  {
    if ticks == 0 {
      assert Solo(f, w, Idle, 0) == (w, Idle);
    } else {
      TickIsSolo(f, w);
      var (w1, r) := TickOf(f.o, f.reg, w);
      if r.Done? {
        ServeIsSolo(f, w1, ticks - 1);
        var (w2, r2) := Serve(f.o, f.reg, w1, ticks - 1);
        ReachesThrough(f, (w, Idle), (w1, Idle), (w2, After(r2)));
      }
    }
  }

  function Steps(i: nat, n: nat): (r: seq<Action>)
    ensures |r| == n && forall k :: 0 <= k < n ==> r[k] == Step(i)
  {
    if n == 0 then [] else [Step(i)] + Steps(i, n - 1)
  }

  lemma {:induction false} SoloIsRun(f: Setup, s: Sys, i: nat, n: nat)
    requires i < |s.procs|
    ensures var (w, pc) := Solo(f, s.world, s.procs[i], n);
            Run(f, s, Steps(i, n)) == Sys(w, s.procs[i := pc])
    decreases n
  {
    if n > 0 {
      var (w1, pc1) := Micro(f, s.world, s.procs[i]);
      var s1 := Sys(w1, s.procs[i := pc1]);
      assert Steps(i, n)[0] == Step(i) && Steps(i, n)[1..] == Steps(i, n - 1);
      SoloIsRun(f, s1, i, n - 1);
      assert s1.procs[i := Solo(f, w1, pc1, n - 1).1] == s.procs[i := Solo(f, w1, pc1, n - 1).1];
    } else {
      assert s.procs[i := s.procs[i]] == s.procs;
    }
  }

  /** Whatever the event loop does, some schedule of a fleet with one process does too. */
  lemma ServeIsARun(f: Setup, w: World, ticks: nat) returns (acts: seq<Action>)
    ensures var (w1, r) := Serve(f.o, f.reg, w, ticks);
            Run(f, Sys(w, [Idle]), acts) == Sys(w1, [After(r)])
    ensures forall a :: a in acts ==> a == Step(0)
  {
    ServeIsSolo(f, w, ticks);
    var (w1, r) := Serve(f.o, f.reg, w, ticks);
    var n: nat :| Solo(f, w, Idle, n) == (w1, After(r));
    SoloIsRun(f, Sys(w, [Idle]), 0, n);
    acts := Steps(0, n);
  }

  /** Submitting a task is the fleet's Submit action, followed by one step if the row was stored. */
  lemma SubmissionIsARun(f: Setup, w: World, task: Task) returns (acts: seq<Action>)
    ensures var (w1, _, _) := Submission(f.o, w, task, f.defaultMaxTokens);
            Run(f, Sys(w, [Idle]), acts) == Sys(w1, [Idle])
  {
    var t := Filled(f.o, w, task, f.defaultMaxTokens);
    var (w1, stored) := PutStatus(f.o, w, InitialStatus(t));
    var s1 := Act(f, Sys(w, [Idle]), Submit(0, task));
    if stored {
      acts := [Submit(0, task), Step(0)];
      assert s1 == Sys(w1, [Sending(t)]);
      assert acts[1..] == [Step(0)] && acts[1..][1..] == [];
      assert Act(f, s1, Step(0)) == Sys(Send(f.o, w1, t).0, [Idle]);
      assert Run(f, s1, acts[1..]) == Run(f, Act(f, s1, Step(0)), []);
    } else {
      acts := [Submit(0, task)];
      assert s1 == Sys(w1, [Idle]);
      assert acts[1..] == [];
    }
  }
}
