/** What a successful initialisation leaves behind, and what it does not. */
module Startup {
  import opened Domain
  import opened Backend
  import opened Resources
  import opened Fleet
  import opened Guards
  import opened Ledger

  /** The enabled keys whose row could not be read during this initialisation. */
  function Errored(o: Oracle, w: World, g: Registry, config: map<Key, ConfigResource>, todo: seq<Key>): set<Key>
    requires forall k :: k in todo ==> k in config
    decreases |todo|
  {
    if todo == [] then {}
    else
      var k := todo[0];
      var (w1, g1, _) := Register(o, w, g, k, config[k]);
      (if !config[k].disabled && o.outcome(w.calls) != Ack then {k} else {}) +
      Errored(o, w1, g1, config, todo[1..])
  }

  function Enabled(config: map<Key, ConfigResource>): set<Key> {
    set k | k in config && !config[k].disabled
  }

  function Picked(config: map<Key, ConfigResource>, todo: seq<Key>): set<Key> {
    set k | k in todo && k in config && !config[k].disabled
  }

  /** The rows: those that could not be read are fresh, all others are as before. */
  ghost predicate Reset(states: map<Key, ResourceState>, config: map<Key, ConfigResource>, down: set<Key>,
                        states1: map<Key, ResourceState>)
  {
    && states1.Keys == states.Keys + down
    && (forall k :: k in states && k !in down ==> states1[k] == states[k])
    && (forall k :: k in down ==> k in config && states1[k] == Fresh(k, config[k].provider))
  }

  /** The service's maps: the picked keys are set from the configuration, all others are as before. */
  ghost predicate Registered(g: Registry, config: map<Key, ConfigResource>, picked: set<Key>, g1: Registry) {
    && g1.providers == g.providers
    && g1.resources.Keys == g.resources.Keys + picked
    && g1.resourceConfigs.Keys == g.resourceConfigs.Keys + picked
    && (forall k :: k in g.resources && k !in picked ==> g1.resources[k] == g.resources[k])
    && (forall k :: k in g.resourceConfigs && k !in picked ==> g1.resourceConfigs[k] == g.resourceConfigs[k])
    && (forall k :: k in picked ==>
          && k in config && g1.resourceConfigs[k] == config[k]
          && g1.resources[k] == config[k].provider && config[k].provider in g.providers)
  }

  lemma {:induction false} RegisterAllRows(o: Oracle, w: World, g: Registry, config: map<Key, ConfigResource>, todo: seq<Key>)
    requires forall k :: k in todo ==> k in config
    requires RegisterAll(o, w, g, config, todo).2
    ensures var w1, down := RegisterAll(o, w, g, config, todo).0, Errored(o, w, g, config, todo);
            w1 == w.(calls := w1.calls, states := w1.states) && Reset(w.states, config, down, w1.states)
    ensures Errored(o, w, g, config, todo) <= Picked(config, todo)
    decreases |todo|
  {
    if todo != [] {
      var (w1, g1, _) := Register(o, w, g, todo[0], config[todo[0]]);
      RegisterAllRows(o, w1, g1, config, todo[1..]);
    }
  }

  lemma {:induction false} RegisterAllMaps(o: Oracle, w: World, g: Registry, config: map<Key, ConfigResource>, todo: seq<Key>)
    requires forall k :: k in todo ==> k in config
    requires RegisterAll(o, w, g, config, todo).2
    ensures Registered(g, config, Picked(config, todo), RegisterAll(o, w, g, config, todo).1)
    decreases |todo|
  {
    if todo != [] {
      var k := todo[0];
      var (w1, g1, _) := Register(o, w, g, k, config[k]);
      RegisterAllMaps(o, w1, g1, config, todo[1..]);
      var one: set<Key> := if config[k].disabled then {} else {k};
      RegisterMaps(o, w, g, config, k);
      assert Picked(config, todo) == one + Picked(config, todo[1..]);
      RegisteredThen(g, config, one, g1, Picked(config, todo[1..]), RegisterAll(o, w1, g1, config, todo[1..]).1);
    }
  }

  lemma RegisterMaps(o: Oracle, w: World, g: Registry, config: map<Key, ConfigResource>, k: Key)
    requires k in config && Register(o, w, g, k, config[k]).2
    ensures Registered(g, config, if config[k].disabled then {} else {k}, Register(o, w, g, k, config[k]).1)
  {}

  lemma RegisteredThen(g: Registry, config: map<Key, ConfigResource>, a: set<Key>, g1: Registry, b: set<Key>, g2: Registry)
    requires Registered(g, config, a, g1) && Registered(g1, config, b, g2)
    ensures Registered(g, config, a + b, g2)
  {}

  /** A successful initialisation, in any order, registers exactly the enabled keys and resets
      exactly the rows whose read failed; every other row, present or absent, is as before. */
  lemma InitEndState(o: Oracle, w: World, config: map<Key, ConfigResource>, providers: set<string>, order: seq<Key>)
    requires Enumerates(order, config.Keys)
    requires RegisterAll(o, w, Registry(providers, map[], map[]), config, order).2
    ensures var g := Registry(providers, map[], map[]);
            var (w1, g1, _) := RegisterAll(o, w, g, config, order);
            var down := Errored(o, w, g, config, order);
            && down <= Enabled(config)
            && g1.resources.Keys == g1.resourceConfigs.Keys == Enabled(config)
            && Registered(g, config, Enabled(config), g1)
            && w1 == w.(calls := w1.calls, states := w1.states)
            && Reset(w.states, config, down, w1.states)
  {
    var g := Registry(providers, map[], map[]);
    assert Picked(config, order) == Enabled(config);
    RegisterAllRows(o, w, g, config, order);
    RegisterAllMaps(o, w, g, config, order);
  }

  /** A row exists after a successful initialisation if and only if it existed before, or its key is
      enabled and its read failed; a key that is merely missing gets none. */
  lemma RowAppearsExactlyOnFailedRead(o: Oracle, w: World, config: map<Key, ConfigResource>, providers: set<string>,
                                      order: seq<Key>, k: Key)
    requires Enumerates(order, config.Keys)
    requires RegisterAll(o, w, Registry(providers, map[], map[]), config, order).2
    ensures var g := Registry(providers, map[], map[]);
            var states1 := RegisterAll(o, w, g, config, order).0.states;
            && (k in states1 <==> k in w.states || k in Errored(o, w, g, config, order))
            && (k in states1 && k !in w.states ==>
                  k in Enabled(config) && states1[k] == Fresh(k, config[k].provider))
  {
    InitEndState(o, w, config, providers, order);
  }

  // ---------- when it succeeds ----------

  /** The keys whose fresh row would be written and the write not acknowledged, the calls being made in
      order from number n: one for a row that can be read, two for one that cannot. */
  function Unwritten(o: Oracle, n: nat, config: map<Key, ConfigResource>, todo: seq<Key>): set<Key>
    requires forall k :: k in todo ==> k in config
    decreases |todo|
  {
    if todo == [] then {}
    else if config[todo[0]].disabled then Unwritten(o, n, config, todo[1..])
    else if o.outcome(n) == Ack then Unwritten(o, n + 1, config, todo[1..])
    else (if o.outcome(n + 1) == Ack then {} else {todo[0]}) + Unwritten(o, n + 2, config, todo[1..])
  }

  ghost predicate ProvidersKnown(config: map<Key, ConfigResource>, keys: seq<Key>, providers: set<string>) {
    forall k :: k in keys && k in config && !config[k].disabled ==> config[k].provider in providers
  }

  lemma {:induction false} RegisterAllSucceedsExactlyWhen(o: Oracle, w: World, g: Registry,
                                                          config: map<Key, ConfigResource>, todo: seq<Key>)
    requires forall k :: k in todo ==> k in config
    ensures RegisterAll(o, w, g, config, todo).2 <==>
            ProvidersKnown(config, todo, g.providers) && Unwritten(o, w.calls, config, todo) == {}
    decreases |todo|
  {
    if todo != [] {
      var k := todo[0];
      RegisterAnswers(o, w, g, k, config[k]);
      var next := Register(o, w, g, k, config[k]);
      if next.2 {
        RegisterAllSucceedsExactlyWhen(o, next.0, next.1, config, todo[1..]);
      }
      assert forall j :: j in todo <==> j == k || j in todo[1..];
    }
  }

  /** Initialisation succeeds if and only if every enabled key has a known provider and every fresh row
      it has to write is acknowledged; rows that are there, or just missing, are no obstacle. */
  lemma InitSucceedsExactlyWhen(o: Oracle, w: World, config: map<Key, ConfigResource>, providers: set<string>,
                                order: seq<Key>)
    requires Enumerates(order, config.Keys)
    ensures RegisterAll(o, w, Registry(providers, map[], map[]), config, order).2 <==>
            (forall k :: k in Enabled(config) ==> config[k].provider in providers) &&
            Unwritten(o, w.calls, config, order) == {}
  {
    RegisterAllSucceedsExactlyWhen(o, w, Registry(providers, map[], map[]), config, order);
  }

  lemma {:induction false} NothingUnwritten(o: Oracle, n: nat, config: map<Key, ConfigResource>, todo: seq<Key>)
    requires (forall k :: k in todo ==> k in config) && forall m: nat :: o.outcome(m) == Ack
    ensures Unwritten(o, n, config, todo) == {}
    decreases |todo|
  {
    if todo != [] {
      NothingUnwritten(o, if config[todo[0]].disabled then n else n + 1, config, todo[1..]);
    }
  }

  /** When no call fails and all providers are known, initialisation succeeds and leaves every row, and
      the absence of every row, as it was. */
  lemma InitSucceedsWithoutFaults(o: Oracle, w: World, config: map<Key, ConfigResource>, providers: set<string>,
                                  order: seq<Key>)
    requires Enumerates(order, config.Keys) && forall n: nat :: o.outcome(n) == Ack
    requires forall k :: k in Enabled(config) ==> config[k].provider in providers
    ensures var (w1, g1, ok) := RegisterAll(o, w, Registry(providers, map[], map[]), config, order);
            ok && w1.states == w.states && g1.resources.Keys == Enabled(config)
  {
    var g := Registry(providers, map[], map[]);
    NothingUnwritten(o, w.calls, config, order);
    InitSucceedsExactlyWhen(o, w, config, providers, order);
    InitEndState(o, w, config, providers, order);
    NothingErrored(o, w, g, config, order);
  }

  lemma {:induction false} NothingErrored(o: Oracle, w: World, g: Registry, config: map<Key, ConfigResource>, todo: seq<Key>)
    requires (forall k :: k in todo ==> k in config) && forall m: nat :: o.outcome(m) == Ack
    ensures Errored(o, w, g, config, todo) == {}
    decreases |todo|
  {
    if todo != [] {
      var next := Register(o, w, g, todo[0], config[todo[0]]);
      NothingErrored(o, next.0, next.1, config, todo[1..]);
    }
  }

  lemma ResetIsUnique(states: map<Key, ResourceState>, config: map<Key, ConfigResource>, down: set<Key>,
                      a: map<Key, ResourceState>, b: map<Key, ResourceState>)
    requires Reset(states, config, down, a) && Reset(states, config, down, b)
    ensures a == b
  {}

  lemma RegisteredIsUnique(g: Registry, config: map<Key, ConfigResource>, picked: set<Key>, a: Registry, b: Registry)
    requires Registered(g, config, picked, a) && Registered(g, config, picked, b)
    ensures a == b
  {
    assert a.resources == b.resources && a.resourceConfigs == b.resourceConfigs;
  }

  /** Two initialisations that fail to read the same rows end alike, whatever their orders. */
  lemma InitIgnoresOrder(o: Oracle, o': Oracle, w: World, config: map<Key, ConfigResource>, providers: set<string>,
                         order: seq<Key>, order': seq<Key>)
    requires Enumerates(order, config.Keys) && Enumerates(order', config.Keys)
    requires var g := Registry(providers, map[], map[]);
             && RegisterAll(o, w, g, config, order).2 && RegisterAll(o', w, g, config, order').2
             && Errored(o, w, g, config, order) == Errored(o', w, g, config, order')
    ensures var g := Registry(providers, map[], map[]);
            var (w1, g1, _) := RegisterAll(o, w, g, config, order);
            var (w2, g2, _) := RegisterAll(o', w, g, config, order');
            g1 == g2 && w2 == w1.(calls := w2.calls)
  {
    var g := Registry(providers, map[], map[]);
    InitEndState(o, w, config, providers, order);
    InitEndState(o', w, config, providers, order');
    var (w1, g1, _) := RegisterAll(o, w, g, config, order);
    var (w2, g2, _) := RegisterAll(o', w, g, config, order');
    ResetIsUnique(w.states, config, Errored(o, w, g, config, order), w1.states, w2.states);
    RegisteredIsUnique(g, config, Enabled(config), g1, g2);
  }

  /** If the rows that could be read were within their limits, all rows are afterwards. */
  lemma InitEstablishesLimits(o: Oracle, w: World, config: map<Key, ConfigResource>, providers: set<string>, order: seq<Key>)
    requires Enumerates(order, config.Keys) && Keyed(w.states)
    requires var g := Registry(providers, map[], map[]);
             && RegisterAll(o, w, g, config, order).2
             && forall k :: k in w.states && k !in Errored(o, w, g, config, order) ==>
                  w.states[k].active <= w.states[k].maxConcurrent
    ensures var w1 := RegisterAll(o, w, Registry(providers, map[], map[]), config, order).0;
            WithinLimits(w1.states) && Keyed(w1.states)
  {
    InitEndState(o, w, config, providers, order);
  }

  /** A read that fails at start-up erases the row's ledger: batches in flight are forgotten, and the
      slots they hold are offered again, unless the row was a fresh one. */
  lemma FailedReadErasesLedger(o: Oracle, w: World, config: map<Key, ConfigResource>, providers: set<string>,
                               order: seq<Key>, k: Key)
    requires Enumerates(order, config.Keys) && k in Enabled(config) && k in w.states
    requires RegisterAll(o, w, Registry(providers, map[], map[]), config, order).2
    ensures var g := Registry(providers, map[], map[]);
            var w1 := RegisterAll(o, w, g, config, order).0;
            k in w1.states &&
            (w1.states[k] == w.states[k] <==>
               k !in Errored(o, w, g, config, order) || w.states[k] == Fresh(k, config[k].provider))
  {
    InitEndState(o, w, config, providers, order);
  }

  /** A healthy store with no rows stays without rows: the repository answers "not found" without an
      error, so initialisation succeeds and creates nothing, and no run ever dispatches a task. */
  lemma EmptyTableNeverDispatches(f: Setup, w: World, config: map<Key, ConfigResource>, providers: set<string>,
                                  order: seq<Key>, n: nat, acts: seq<Action>)
    requires FairOrder(f.o) && Enumerates(order, config.Keys) && f.reg == Enabled(config)
    requires var g := Registry(providers, map[], map[]);
             RegisterAll(f.o, w, g, config, order).2 && Errored(f.o, w, g, config, order) == {}
    requires forall k :: k in Enabled(config) ==> k !in w.states
    ensures var w1 := RegisterAll(f.o, w, Registry(providers, map[], map[]), config, order).0;
            var s := Run(f, Sys(w1, seq(n, _ => Idle)), acts);
            && s.world.states == w.states && s.world.log == w.log
            && s.world.removals == w.removals && w.queue <= s.world.queue
  {
    InitEndState(f.o, w, config, providers, order);
    var w1 := RegisterAll(f.o, w, Registry(providers, map[], map[]), config, order).0;
    assert w1.states == w.states;
    SaturationIsAbsorbing(f, Sys(w1, seq(n, _ => Idle)), acts);
  }
}
