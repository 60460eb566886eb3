/** What holds in every interleaving, with no exclusion assumed: rows are never removed and limits
    never change, so the unchecked dereference is safe, an oversized task is never dispatched, a
    saturated or empty pool stays inert, and no message precedes its status row. */
module Guards {
  import opened Int64
  import opened Domain
  import opened Backend
  import opened Resources
  import opened Fleet
  import opened Delivery

  ghost predicate SameLimits(a: ResourceState, b: ResourceState) {
    && a.id == b.id && a.provider == b.provider
    && a.maxConcurrent == b.maxConcurrent
    && a.tokensPerMinute == b.tokensPerMinute
    && a.maxTokensPerBatch == b.maxTokensPerBatch
  }

  /** The table's primary key is the row's own identifier. */
  ghost predicate Keyed(states: map<Key, ResourceState>) {
    forall k :: k in states ==> states[k].id == k
  }

  ghost predicate LimitsKept(a: map<Key, ResourceState>, b: map<Key, ResourceState>) {
    a.Keys == b.Keys && forall k :: k in a ==> SameLimits(a[k], b[k])
  }

  /** What a task costs once its estimate is filled in. */
  function Weight(task: Task): int64 {
    Add(if task.estimated == 0 then Estimate(task.messages) else task.estimated, task.maxTokens)
  }

  /** What a queued message costs, at every delivery. */
  function Price(o: Oracle, body: Body): Option<int64> {
    if o.decode(body).None? then None else Some(Weight(o.decode(body).value))
  }

  ghost predicate Priced(o: Oracle, w: World, rec: Record) {
    rec.msg < |w.sent| && Price(o, w.sent[rec.msg]) == Some(Weight(rec.task))
  }

  /** A process between its successful check of a key and its last write there. */
  predicate InSection(pc: Pc) {
    pc.Rereading? || pc.Reserving? || pc.Creating? || pc.Releasing?
  }

  predicate HasRow(pc: Pc) {
    pc.Reserving? || pc.Creating? || pc.Releasing?
  }

  ghost predicate AllPriced(f: Setup, w: World, pc: Pc) {
    && (forall rec :: rec in Held(pc) ==> Priced(f.o, w, rec))
    && (pc.Scanning? || InSection(pc) ==> Cost(pc.job.task) == Weight(pc.job.task))
  }

  ghost predicate Vetted(f: Setup, w: World, pc: Pc) {
    && !pc.Dead?
    && (pc.Scanning? ==> forall k :: k in pc.todo ==> k in f.reg)
    && (InSection(pc) ==>
          pc.key in f.reg && pc.key in w.states && Cost(pc.job.task) <= w.states[pc.key].maxTokensPerBatch)
    && (HasRow(pc) ==> pc.st.id == pc.key && SameLimits(pc.st, w.states[pc.key]))
  }

  ghost predicate GuardInv(f: Setup, s: Sys) {
    Keyed(s.world.states) && forall i :: 0 <= i < |s.procs| ==> Vetted(f, s.world, s.procs[i]) && AllPriced(f, s.world, s.procs[i])
  }

  lemma MicroKeepsLimits(f: Setup, w: World, pc: Pc)
    requires Keyed(w.states) && Vetted(f, w, pc)
    ensures Keyed(Micro(f, w, pc).0.states) && LimitsKept(w.states, Micro(f, w, pc).0.states)
  {
    MicroFrame(f, w, pc);
  }

  lemma HeldShrinks(f: Setup, w: World, pc: Pc)
    ensures !pc.Idle? && !pc.Loop? ==> forall rec :: rec in Held(Micro(f, w, pc).1) ==> rec in Held(pc)
  {
    var pc1 := Micro(f, w, pc).1;
    match pc
    case Removing(job, rest) =>
      assert Held(pc) == [job] + rest;
    case Marking(job, rest) =>
      assert Held(pc) == [job] + rest;
    case Idle =>
    case Loop(_) =>
    case _ =>
      assert Held(pc1) == Held(pc) || Held(pc1) == [];
  }

  lemma MicroKeepsVetted(f: Setup, w: World, pc: Pc)
    requires FairOrder(f.o) && Keyed(w.states) && Vetted(f, w, pc)
    ensures var (w1, pc1) := Micro(f, w, pc); Vetted(f, w1, pc1)
  {
    var (w1, pc1) := Micro(f, w, pc);
    match pc
    case Idle =>
    case Loop(rest) =>
      assert rest != [] ==> Enumerates(f.o.order(w1.calls, f.reg), f.reg);
    case Scanning(_, todo, _) =>
      assert todo != [] ==> todo[0] in todo && forall k :: k in todo[1..] ==> k in todo;
    case _ =>
  }

  lemma PickPrices(f: Setup, w: World)
    ensures var (w1, pc1) := Pick(f, w); AllPriced(f, w1, pc1)
  {
    if PickTasks(f.o, w).1.Some? {
      PickedAreDelivered(f.o, w);
    }
  }

  lemma BeginPrices(f: Setup, w: World, record: Record, rest: seq<Record>)
    requires Priced(f.o, w, record) && forall rec :: rec in rest ==> Priced(f.o, w, rec)
    ensures var (w1, pc1) := Begin(f, w, record, rest); AllPriced(f, w1, pc1)
  {
    var pc1 := Begin(f, w, record, rest).1;
    assert Held(pc1) == [pc1.job] + rest;
  }

  lemma MicroKeepsPrices(f: Setup, w: World, pc: Pc)
    requires AllPriced(f, w, pc)
    ensures var (w1, pc1) := Micro(f, w, pc); AllPriced(f, w1, pc1)
  {
    match pc
    case Idle => PickPrices(f, w);
    case Loop(rest) =>
      if rest != [] {
        assert rest[0] in Held(pc) && forall rec :: rec in rest[1..] ==> rec in Held(pc);
        BeginPrices(f, w, rest[0], rest[1..]);
      }
    case _ =>
      MicroFrame(f, w, pc);
      HeldShrinks(f, w, pc);
  }

  lemma ActKeepsGuards(f: Setup, s: Sys, a: Action)
    requires FairOrder(f.o) && GuardInv(f, s)
    ensures GuardInv(f, Act(f, s, a))
    ensures LimitsKept(s.world.states, Act(f, s, a).world.states)
  {
    ActIsLater(f, s, a);
    if a.i < |s.procs| && a.Step? {
      MicroKeepsLimits(f, s.world, s.procs[a.i]);
      MicroKeepsVetted(f, s.world, s.procs[a.i]);
      MicroKeepsPrices(f, s.world, s.procs[a.i]);
    }
  }

  lemma {:induction false} RunKeepsGuards(f: Setup, s: Sys, acts: seq<Action>)
    requires FairOrder(f.o) && GuardInv(f, s)
    ensures var s1 := Run(f, s, acts); GuardInv(f, s1) && LimitsKept(s.world.states, s1.world.states)
    decreases |acts|
  {
    if acts != [] {
      ActKeepsGuards(f, s, acts[0]);
      RunKeepsGuards(f, Act(f, s, acts[0]), acts[1..]);
    }
  }

  /** In every run the table keeps its rows and their limits, so the re-read of a selected row never
      finds it missing and no process dies of the unchecked dereference. */
  lemma DereferenceIsSafe(f: Setup, s: Sys, acts: seq<Action>)
    requires FairOrder(f.o) && AtRest(s) && Keyed(s.world.states)
    ensures var s1 := Run(f, s, acts);
            && Keyed(s1.world.states)
            && LimitsKept(s.world.states, s1.world.states)
            && forall i :: 0 <= i < |s1.procs| ==> !s1.procs[i].Dead?
  {
    RunKeepsGuards(f, s, acts);
  }

  // ---------- permanent rejection ----------

  /** No registered resource admits the message's price, or it cannot be decoded at all. */
  ghost predicate Oversized(f: Setup, w: World, m: MsgId) {
    && m < |w.sent|
    && (Price(f.o, w.sent[m]).Some? ==>
          forall k :: k in f.reg && k in w.states ==> Price(f.o, w.sent[m]).value > w.states[k].maxTokensPerBatch)
  }

  ghost predicate Stuck(w: World, m: MsgId) {
    m in w.queue && !Batched(w.log, m)
  }

  lemma MicroKeepsStuck(f: Setup, w: World, pc: Pc, m: MsgId)
    requires Vetted(f, w, pc) && AllPriced(f, w, pc) && HoldsReceipts(w, pc)
    requires Oversized(f, w, m) && Stuck(w, m)
    ensures Stuck(Micro(f, w, pc).0, m)
  {
    if pc.Removing? || InSection(pc) {
      assert Held(pc)[0] == pc.job;
      assert pc.job in Held(pc);
    }
    MicroFrame(f, w, pc);
    assert pc.Reserving? || pc.Creating? || pc.Releasing? ==> pc.job.msg != m;
  }

  lemma {:induction false} RunKeepsStuck(f: Setup, s: Sys, acts: seq<Action>, m: MsgId)
    requires FairOrder(f.o) && GuardInv(f, s) && DeliveryInv(s)
    requires Oversized(f, s.world, m) && Stuck(s.world, m)
    ensures Stuck(Run(f, s, acts).world, m)
    decreases |acts|
  {
    if acts != [] {
      var a := acts[0];
      var s1 := Act(f, s, a);
      ActIsLater(f, s, a);
      if a.i < |s.procs| && a.Step? {
        MicroKeepsStuck(f, s.world, s.procs[a.i], m);
      }
      ActKeepsGuards(f, s, a);
      ActKeepsDelivery(f, s, a);
      assert s1.world.sent[m] == s.world.sent[m];
      RunKeepsStuck(f, s1, acts[1..], m);
    }
  }

  /** The history speaks of messages that were sent. */
  ghost predicate LoggedAreSent(w: World) {
    forall i :: 0 <= i < |w.log| ==> w.log[i].msg < |w.sent|
  }

  /** From message n on, every oversized one is queued and has no batch. */
  ghost predicate StuckFrom(f: Setup, w: World, n: nat) {
    forall m: MsgId :: m >= n && Oversized(f, w, m) ==> Stuck(w, m)
  }

  /** Limits stay, so a message that was sent is oversized later if and only if it is now. */
  lemma OversizedStays(f: Setup, w: World, w1: World, m: MsgId)
    requires m < |w.sent| && w.sent <= w1.sent && LimitsKept(w.states, w1.states)
    ensures Oversized(f, w1, m) <==> Oversized(f, w, m)
  {
    assert w1.sent[m] == w.sent[m];
  }

  lemma MicroLogsSent(f: Setup, w: World, pc: Pc)
    requires AllPriced(f, w, pc) && LoggedAreSent(w)
    ensures LoggedAreSent(Micro(f, w, pc).0)
  {
    MicroFrame(f, w, pc);
    if InSection(pc) {
      assert Held(pc)[0] == pc.job;
      assert Priced(f.o, w, pc.job);
    }
  }

  /** What an action sends is queued, and no history speaks of it yet. */
  lemma SentIsStuck(f: Setup, s: Sys, a: Action, m: MsgId)
    requires LoggedAreSent(s.world) && |s.world.sent| <= m < |Act(f, s, a).world.sent|
    ensures Stuck(Act(f, s, a).world, m)
  {
    MicroFrame(f, s.world, s.procs[a.i]);
  }

  lemma ActKeepsStuckFrom(f: Setup, s: Sys, a: Action, n: nat)
    requires FairOrder(f.o) && GuardInv(f, s) && DeliveryInv(s)
    requires LoggedAreSent(s.world) && StuckFrom(f, s.world, n)
    ensures LoggedAreSent(Act(f, s, a).world) && StuckFrom(f, Act(f, s, a).world, n)
  {
    var s1 := Act(f, s, a);
    ActIsLater(f, s, a);
    ActKeepsGuards(f, s, a);
    if a.i < |s.procs| && a.Step? {
      MicroLogsSent(f, s.world, s.procs[a.i]);
    }
    forall m: MsgId | m >= n && Oversized(f, s1.world, m)
      ensures Stuck(s1.world, m)
    {
      if m >= |s.world.sent| {
        SentIsStuck(f, s, a, m);
      } else {
        OversizedStays(f, s.world, s1.world, m);
        if a.i < |s.procs| && a.Step? {
          MicroKeepsStuck(f, s.world, s.procs[a.i], m);
        }
      }
    }
  }

  lemma {:induction false} RunKeepsStuckFrom(f: Setup, s: Sys, acts: seq<Action>, n: nat)
    requires FairOrder(f.o) && GuardInv(f, s) && DeliveryInv(s)
    requires LoggedAreSent(s.world) && StuckFrom(f, s.world, n)
    ensures StuckFrom(f, Run(f, s, acts).world, n)
    decreases |acts|
  {
    if acts != [] {
      ActKeepsStuckFrom(f, s, acts[0], n);
      ActKeepsGuards(f, s, acts[0]);
      ActKeepsDelivery(f, s, acts[0]);
      RunKeepsStuckFrom(f, Act(f, s, acts[0]), acts[1..], n);
    }
  }

  /** A message whose price exceeds every registered limit is never batched and never removed, whether
      it was sent before the run, and had no batch then, or is submitted in its course. */
  lemma OversizedIsNeverServed(f: Setup, s: Sys, acts: seq<Action>)
    requires FairOrder(f.o) && AtRest(s) && Keyed(s.world.states) && Kept(s.world)
    ensures var w, w1 := s.world, Run(f, s, acts).world;
            forall m: MsgId :: m < |w.sent| && Oversized(f, w1, m) && Stuck(w, m) ==> Stuck(w1, m)
    ensures var w, w1 := s.world, Run(f, s, acts).world;
            LoggedAreSent(w) ==> StuckFrom(f, w1, |w.sent|)
  {
    var w, w1 := s.world, Run(f, s, acts).world;
    RunIsLater(f, s, acts);
    RunKeepsGuards(f, s, acts);
    forall m: MsgId | m < |w.sent| && Oversized(f, w1, m) && Stuck(w, m)
      ensures Stuck(w1, m)
    {
      OversizedStays(f, w, w1, m);
      RunKeepsStuck(f, s, acts, m);
    }
    if LoggedAreSent(w) {
      RunKeepsStuckFrom(f, s, acts, |w.sent|);
    }
  }

  // ---------- saturation ----------

  /** Every registered resource that has a row is at its concurrency limit. */
  ghost predicate Saturated(f: Setup, w: World) {
    forall k :: k in f.reg && k in w.states ==> w.states[k].active >= w.states[k].maxConcurrent
  }

  ghost predicate Outside(f: Setup, pc: Pc) {
    && !InSection(pc) && !pc.Removing?
    && (pc.Scanning? ==> forall k :: k in pc.todo ==> k in f.reg)
  }

  ghost predicate AllOutside(f: Setup, s: Sys) {
    forall i :: 0 <= i < |s.procs| ==> Outside(f, s.procs[i])
  }

  lemma SaturatedStep(f: Setup, w: World, pc: Pc)
    requires FairOrder(f.o) && Saturated(f, w) && Outside(f, pc)
    ensures var (w1, pc1) := Micro(f, w, pc);
            && w1.states == w.states && w1.log == w.log && w1.removals == w.removals && w.queue <= w1.queue
            && Outside(f, pc1)
  {
    if pc.Loop? && pc.rest != [] {
      var (w1, pc1) := Micro(f, w, pc);
      assert Enumerates(f.o.order(w1.calls, f.reg), f.reg);
    }
  }

  /** Saturation is absorbing: from then on no batch, no row write, no delete, in any run. */
  lemma {:induction false} SaturationIsAbsorbing(f: Setup, s: Sys, acts: seq<Action>)
    requires FairOrder(f.o) && Saturated(f, s.world) && AllOutside(f, s)
    ensures var w, w1 := s.world, Run(f, s, acts).world;
            && w1.states == w.states && w1.log == w.log && w1.removals == w.removals && w.queue <= w1.queue
    decreases |acts|
  {
    if acts != [] {
      var a := acts[0];
      if a.i < |s.procs| && a.Step? {
        SaturatedStep(f, s.world, s.procs[a.i]);
      }
      SaturationIsAbsorbing(f, Act(f, s, a), acts[1..]);
    }
  }

  // ---------- status before message ----------

  ghost predicate AnnouncedBody(o: Oracle, statuses: map<string, TaskStatus>, body: Body) {
    exists t: Task :: o.encode(t) == body && t.id != "" && t.id in statuses
  }

  ghost predicate Announced(o: Oracle, w: World) {
    forall m :: 0 <= m < |w.sent| ==> AnnouncedBody(o, w.statuses, w.sent[m])
  }

  ghost predicate Announces(w: World, pc: Pc) {
    pc.Sending? ==> pc.task.id != "" && pc.task.id in w.statuses
  }

  ghost predicate StatusInv(f: Setup, s: Sys) {
    Announced(f.o, s.world) && forall i :: 0 <= i < |s.procs| ==> Announces(s.world, s.procs[i])
  }

  lemma ActKeepsStatus(f: Setup, s: Sys, a: Action)
    requires StatusInv(f, s)
    ensures StatusInv(f, Act(f, s, a))
  {
    ActIsLater(f, s, a);
    var s1 := Act(f, s, a);
    forall m | 0 <= m < |s1.world.sent|
      ensures AnnouncedBody(f.o, s1.world.statuses, s1.world.sent[m])
    {
      if m < |s.world.sent| {
        assert AnnouncedBody(f.o, s.world.statuses, s.world.sent[m]);
      } else {
        assert s1.world.sent != s.world.sent;
        assert f.o.encode(s.procs[a.i].task) == s1.world.sent[m];
      }
    }
  }

  lemma {:induction false} RunKeepsStatus(f: Setup, s: Sys, acts: seq<Action>)
    requires StatusInv(f, s)
    ensures StatusInv(f, Run(f, s, acts))
    decreases |acts|
  {
    if acts != [] {
      ActKeepsStatus(f, s, acts[0]);
      RunKeepsStatus(f, Act(f, s, acts[0]), acts[1..]);
    }
  }

  /** Decoding an encoded task gives back its identifier. */
  ghost predicate CodecKeepsId(o: Oracle) {
    forall t: Task :: var d := o.decode(o.encode(t)); d.Some? && d.value.id == t.id
  }

  /** In every run, every message decodes to a task with a non-empty id that has a status row. */
  lemma StatusBeforeMessage(f: Setup, s: Sys, acts: seq<Action>)
    requires CodecKeepsId(f.o) && AtRest(s) && Announced(f.o, s.world)
    ensures var w := Run(f, s, acts).world;
            forall m :: 0 <= m < |w.sent| ==>
              var d := f.o.decode(w.sent[m]);
              d.Some? && d.value.id != "" && d.value.id in w.statuses
  {
    RunKeepsStatus(f, s, acts);
    var w := Run(f, s, acts).world;
    forall m | 0 <= m < |w.sent|
      ensures var d := f.o.decode(w.sent[m]); d.Some? && d.value.id != "" && d.value.id in w.statuses
    {
      assert AnnouncedBody(f.o, w.statuses, w.sent[m]);
    }
  }
}
