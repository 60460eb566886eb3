/** The resource service: registration, selection of a resource for a task, and the
    reserve / call / compensate sequence of a dispatch. */
module Resources {
  import opened Int64
  import opened Domain
  import opened Backend
  import opened Tasks

  function TotalBytes(messages: seq<TaskMessage>): nat {
    if messages == [] then 0
    else TotalBytes(messages[..|messages| - 1]) + |messages[|messages| - 1].content|
  }

  /** The text of all messages, one after the other. */
  function Joined(messages: seq<TaskMessage>): seq<byte> {
    if messages == [] then [] else messages[0].content + Joined(messages[1..])
  }

  lemma {:induction false} JoinedLast(messages: seq<TaskMessage>)
    requires messages != []
    ensures Joined(messages) == Joined(messages[..|messages| - 1]) + messages[|messages| - 1].content
    decreases |messages|
  {
    var init, rest := messages[..|messages| - 1], messages[1..];
    if init == [] {
      assert Joined(rest) == [];
    } else {
      assert init[1..] == rest[..|rest| - 1];
      JoinedLast(rest);
    }
  }

  /** What is counted is the text, and nothing but the text. */
  lemma {:induction false} BytesAreText(messages: seq<TaskMessage>)
    ensures TotalBytes(messages) == |Joined(messages)|
    decreases |messages|
  {
    if messages != [] {
      JoinedLast(messages);
      BytesAreText(messages[..|messages| - 1]);
    }
  }

  /** A quarter of the byte count, computed on 64-bit integers. */
  function Estimate(messages: seq<TaskMessage>): int64 {
    Quarter(Wrap(TotalBytes(messages)))
  }

  /** The task after the service filled in what was missing. */
  function Prepared(o: Oracle, w: World, task: Task): Task {
    task.(id := if task.id == "" then o.newId(w.calls) else task.id,
          estimated := if task.estimated == 0 then Estimate(task.messages) else task.estimated)
  }

  /** The first key, in the given order, whose row is readable and admits the cost. */
  function Select(o: Oracle, w: World, cost: int64, todo: seq<Key>): (World, Option<Key>)
    decreases |todo|
  {
    if todo == [] then (w, None)
    else
      var (w1, read) := ReadState(o, w, todo[0]);
      if read.Found? && Admits(read.state, cost) then (w1, Some(todo[0]))
      else Select(o, w1, cost, todo[1..])
  }

  datatype Verdict = BatchCreated | DispatchFailed | NilDereference

  function Dispatch(o: Oracle, w: World, key: Key, msg: MsgId, cost: int64): (World, Verdict) {
    var (w1, read) := ReadState(o, w, key);
    match read
    case Unreadable => (w1, DispatchFailed)
    case Missing => (w1, NilDereference)
    case Found(st) =>
      var reserved := Reserved(st, cost);
      var (w2, out) := WriteState(o, w1, reserved);
      if out != Ack then
        (Noted(w2, Entry(key, msg, cost, if out == Refused then ReserveRefused else ReserveUnacked)), DispatchFailed)
      else
        var (w3, created) := CreateBatch(o, w2);
        if created then (Noted(w3, Entry(key, msg, cost, Created)), BatchCreated)
        else
          var (w4, back) := WriteState(o, w3, Released(reserved, cost));
          (Noted(w4, Entry(key, msg, cost, if back == Refused then RollbackLost else RolledBack)), DispatchFailed)
  }

  function TryProcess(o: Oracle, reg: set<Key>, w: World, rec: Record): Processed {
    var task := Prepared(o, w, rec.task);
    var (w1, key) := Select(o, w, Cost(task), o.order(w.calls, reg));
    if key.None? then Processed(w1, task, Reply(SystemTemporarilyFailed, true))
    else
      var (w2, verdict) := Dispatch(o, w1, key.value, rec.msg, Cost(task));
      Processed(w2, task, match verdict
                          case BatchCreated => Reply(Success, false)
                          case DispatchFailed => Reply(SystemTemporarilyFailed, true)
                          case NilDereference => Panicked)
  }

  /** A selection changes nothing, and the row it found is there to be read again. */
  lemma {:induction false} SelectedIsThere(o: Oracle, w: World, cost: int64, todo: seq<Key>)
    ensures var (w1, key) := Select(o, w, cost, todo);
            w1 == w.(calls := w1.calls) && (key.Some? ==> key.value in w.states)
    decreases |todo|
  {
    if todo != [] {
      SelectedIsThere(o, Called(w), cost, todo[1..]);
    }
  }

  /** The history has grown by a batch for the message. */
  ghost predicate BatchAdded(w: World, w1: World, msg: MsgId, cost: int64) {
    && |w1.log| == |w.log| + 1 && w.log <= w1.log
    && var e := w1.log[|w.log|]; e.msg == msg && e.cost == cost && e.ending == Created
  }

  /** A dispatch on a row that is there creates a batch exactly when its first three calls succeed. */
  lemma DispatchAnswers(o: Oracle, w: World, key: Key, msg: MsgId, cost: int64)
    requires key in w.states
    ensures var (w1, verdict) := Dispatch(o, w, key, msg, cost);
            var n := w.calls;
            && verdict == (if BatchAdded(w, w1, msg, cost) then BatchCreated else DispatchFailed)
            && (BatchAdded(w, w1, msg, cost) <==>
                  o.outcome(n) == Ack && o.outcome(n + 1) == Ack && o.outcome(n + 2) == Ack)
  {
    var w1 := Dispatch(o, w, key, msg, cost).0;
    if |w1.log| > |w.log| {
      assert w1.log == w.log + [w1.log[|w.log|]];
    }
  }

  /** There are two answers: success, exactly when a batch was created for the message, which takes
      three calls that succeed after the selection; otherwise a temporary system failure with an error. */
  lemma TryProcessAnswers(o: Oracle, reg: set<Key>, w: World, rec: Record)
    ensures var p := TryProcess(o, reg, w, rec);
            var (w1, key) := Select(o, w, Cost(p.task), o.order(w.calls, reg));
            && p.reply == (if BatchAdded(w, p.world, rec.msg, Cost(p.task)) then Reply(Success, false)
                           else Reply(SystemTemporarilyFailed, true))
            && (BatchAdded(w, p.world, rec.msg, Cost(p.task)) <==>
                  && key.Some? && o.outcome(w1.calls) == Ack
                  && o.outcome(w1.calls + 1) == Ack && o.outcome(w1.calls + 2) == Ack)
            && p.task.messages == rec.task.messages && p.task.maxTokens == rec.task.maxTokens
            && p.task.id == (if rec.task.id == "" then o.newId(w.calls) else rec.task.id)
            && p.task.estimated == (if rec.task.estimated == 0 then Estimate(rec.task.messages) else rec.task.estimated)
  {
    var cost, todo := Cost(Prepared(o, w, rec.task)), o.order(w.calls, reg);
    SelectedIsThere(o, w, cost, todo);
    var (w1, key) := Select(o, w, cost, todo);
    if key.Some? {
      DispatchAnswers(o, w1, key.value, rec.msg, cost);
    }
  }

  /** The service's three maps; a provider is known by its name. */
  datatype Registry = Registry(
    providers: set<string>,
    resources: map<Key, string>,
    resourceConfigs: map<Key, ConfigResource>)

  function Register(o: Oracle, w: World, g: Registry, key: Key, config: ConfigResource): (World, Registry, bool) {
    if config.disabled then (w, g, true)
    else if config.provider !in g.providers then (w, g, false)
    else
      var g1 := g.(resources := g.resources[key := config.provider],
                   resourceConfigs := g.resourceConfigs[key := config]);
      var (w1, read) := ReadState(o, w, key);
      if read.Unreadable? then
        var (w2, out) := WriteState(o, w1, Fresh(key, config.provider));
        (w2, g1, out == Ack)
      else (w1, g1, true)
  }

  /** A row is written only if the read failed, and unless that write was refused it is then this one,
      field by field; nothing else changes but the call count. */
  ghost predicate RowOnlyIfUnread(o: Oracle, w: World, key: Key, provider: string, w1: World) {
    var n := w.calls;
    && w1 == w.(calls := w1.calls, states := w1.states)
    && w1.calls == (if o.outcome(n) == Ack then n + 1 else n + 2)
    && (o.outcome(n) == Ack || o.outcome(n + 1) == Refused ==> w1.states == w.states)
    && (o.outcome(n) != Ack && o.outcome(n + 1) != Refused ==>
          && w1.states.Keys == w.states.Keys + {key}
          && (forall k :: k in w.states && k != key ==> w1.states[k] == w.states[k])
          && var row := w1.states[key];
             && row.id == key && row.provider == provider
             && row.load == 0 && row.active == 0 && row.maxConcurrent == 8
             && row.tokensPerMinute == 1000 && row.maxTokensPerBatch == 1000 && row.version == 1)
  }

  /** One resource: it is skipped if disabled, turned away if its provider is unknown, and otherwise
      registered, which fails exactly when both its read and the write of its row do. */
  lemma RegisterAnswers(o: Oracle, w: World, g: Registry, key: Key, config: ConfigResource)
    ensures var (w1, g1, ok) := Register(o, w, g, key, config);
            && (ok <==> config.disabled ||
                        (config.provider in g.providers && (o.outcome(w.calls) == Ack || o.outcome(w.calls + 1) == Ack)))
            && (config.disabled || config.provider !in g.providers ==> w1 == w && g1 == g)
            && (!config.disabled && config.provider in g.providers ==>
                  && g1 == Registry(g.providers, g.resources[key := config.provider], g.resourceConfigs[key := config])
                  && RowOnlyIfUnread(o, w, key, config.provider, w1))
  {}

  function RegisterAll(o: Oracle, w: World, g: Registry, config: map<Key, ConfigResource>, todo: seq<Key>):
    (World, Registry, bool)
    requires forall k :: k in todo ==> k in config
    decreases |todo|
  {
    if todo == [] then (w, g, true)
    else
      var (w1, g1, ok) := Register(o, w, g, todo[0], config[todo[0]]);
      if ok then RegisterAll(o, w1, g1, config, todo[1..]) else (w1, g1, false)
  }

  class ResourcesService {
    const config: map<Key, ConfigResource>
    const repository: Repository
    var providers: set<string>
    var resources: map<Key, string>
    var resourceConfigs: map<Key, ConfigResource>

    constructor (config: map<Key, ConfigResource>, repository: Repository)
      ensures this.config == config && this.repository == repository
      ensures View() == Registry({}, map[], map[])
    {
      this.config := config;
      this.repository := repository;
      providers, resources, resourceConfigs := {}, map[], map[];
    }

    ghost function View(): Registry
      reads this
    {
      Registry(providers, resources, resourceConfigs)
    }

    method AddProvider(key: string)
      modifies this
      ensures View() == old(View()).(providers := old(providers) + {key})
    {
      providers := providers + {key};
    }

    method AddResource(key: Key, config: ConfigResource) returns (ok: bool)
      modifies this, repository
      ensures (repository.world, View(), ok) ==
              Register(repository.oracle, old(repository.world), old(View()), key, config)
      ensures var o, n := repository.oracle, old(repository.world).calls;
              ok <==> config.disabled ||
                      (config.provider in old(providers) && (o.outcome(n) == Ack || o.outcome(n + 1) == Ack))
      ensures providers == old(providers)
      ensures config.disabled || config.provider !in old(providers) ==>
                repository.world == old(repository.world) &&
                resources == old(resources) && resourceConfigs == old(resourceConfigs)
      ensures !config.disabled && config.provider in old(providers) ==>
                && resources == old(resources)[key := config.provider]
                && resourceConfigs == old(resourceConfigs)[key := config]
                && RowOnlyIfUnread(repository.oracle, old(repository.world), key, config.provider, repository.world)
    {
      if config.disabled {
        return true;
      }
      if config.provider !in providers {
        return false;
      }
      resources := resources[key := config.provider];
      resourceConfigs := resourceConfigs[key := config];
      var read := repository.GetResourceInstanceState(key);
      if read.Unreadable? {
        var out := repository.PutResourceInstanceState(Fresh(key, config.provider));
        return out == Ack;
      }
      ok := true;
    }

    /** Ranges over the configuration in whatever order the map yields. */
    method Init() returns (ok: bool)
      requires FairOrder(repository.oracle)
      modifies this, repository
      ensures var o, w := repository.oracle, old(repository.world);
              var order := o.order(w.calls, config.Keys);
              && Enumerates(order, config.Keys)
              && (repository.world, View(), ok) == RegisterAll(o, w, old(View()), config, order)
    {
      var order := repository.oracle.order(repository.world.calls, config.Keys);
      assert Enumerates(order, config.Keys);
      assert order[0..] == order;
      for i := 0 to |order|
        invariant RegisterAll(repository.oracle, old(repository.world), old(View()), config, order) ==
                  RegisterAll(repository.oracle, repository.world, View(), config, order[i..])
      {
        assert order[i..][0] == order[i] && order[i..][1..] == order[i + 1..];
        ok := AddResource(order[i], config[order[i]]);
        if !ok {
          return false;
        }
      }
      ok := true;
    }

    method EstimateTokens(task: Task) returns (estimated: int64)
      ensures estimated == Estimate(task.messages)
      ensures estimated == Quarter(Wrap(|Joined(task.messages)|))
    {
      var charCount: int64 := 0;
      for i := 0 to |task.messages|
        invariant charCount == Wrap(TotalBytes(task.messages[..i]))
      {
        assert task.messages[..i + 1][..i] == task.messages[..i];
        charCount := Wrap(charCount + |task.messages[i].content|);
      }
      assert task.messages[..|task.messages|] == task.messages;
      BytesAreText(task.messages);
      estimated := Quarter(charCount);
    }

    method FindBestAvailableResource(task: Task) returns (t: Task, key: Option<Key>)
      modifies repository
      ensures t == task.(estimated := if task.estimated == 0 then Estimate(task.messages) else task.estimated)
      ensures var o, w := repository.oracle, old(repository.world);
              (repository.world, key) == Select(o, w, Cost(t), o.order(w.calls, resources.Keys))
    {
      t := task;
      var estimated := EstimateTokens(task);
      if t.estimated == 0 {
        t := t.(estimated := estimated);
      }
      var order := repository.oracle.order(repository.world.calls, resources.Keys);
      assert order[0..] == order;
      for i := 0 to |order|
        invariant Select(repository.oracle, repository.world, Cost(t), order[i..]) ==
                  Select(repository.oracle, old(repository.world), Cost(t), order)
      {
        assert order[i..][0] == order[i] && order[i..][1..] == order[i + 1..];
        var read := repository.GetResourceInstanceState(order[i]);
        if read.Unreadable? || read.Missing? {
          continue;
        }
        if Add(t.estimated, t.maxTokens) > read.state.maxTokensPerBatch {
          continue;
        }
        if read.state.active >= read.state.maxConcurrent {
          continue;
        }
        return t, Some(order[i]);
      }
      key := None;
    }

    method DispatchTask(key: Key, task: Task, msg: MsgId) returns (verdict: Verdict)
      modifies repository
      ensures (repository.world, verdict) ==
              Dispatch(repository.oracle, old(repository.world), key, msg, Cost(task))
    {
      var read := repository.GetResourceInstanceState(key);
      if read.Unreadable? {
        return DispatchFailed;
      }
      if read.Missing? {
        return NilDereference;
      }
      var currentState := read.state;
      var newVersion := Add(currentState.version, 1);
      currentState := currentState.(active := Add(currentState.active, 1));
      currentState := currentState.(load := Add(currentState.load, Add(task.estimated, task.maxTokens)));
      currentState := currentState.(version := newVersion);
      var out := repository.PutResourceInstanceState(currentState);
      if out != Ack {
        repository.Note(Entry(key, msg, Cost(task), if out == Refused then ReserveRefused else ReserveUnacked));
        return DispatchFailed;
      }
      var created := repository.CreateBatchWithProvider();
      if !created {
        currentState := currentState.(active := Sub(currentState.active, 1));
        currentState := currentState.(load := Sub(currentState.load, Add(task.estimated, task.maxTokens)));
        currentState := currentState.(version := Add(currentState.version, 1));
        out := repository.PutResourceInstanceState(currentState);
        repository.Note(Entry(key, msg, Cost(task), if out == Refused then RollbackLost else RolledBack));
        return DispatchFailed;
      }
      repository.Note(Entry(key, msg, Cost(task), Created));
      verdict := BatchCreated;
    }

    method TryProcessTask(rec: Record) returns (task: Task, reply: Reply)
      modifies repository
      ensures Processed(repository.world, task, reply) ==
              TryProcess(repository.oracle, resources.Keys, old(repository.world), rec)
      ensures reply == if BatchAdded(old(repository.world), repository.world, rec.msg, Cost(task))
                       then Reply(Success, false) else Reply(SystemTemporarilyFailed, true)
      ensures task.messages == rec.task.messages && task.maxTokens == rec.task.maxTokens
    {
      TryProcessAnswers(repository.oracle, resources.Keys, repository.world, rec);
      task := rec.task;
      if task.id == "" {
        task := task.(id := repository.oracle.newId(repository.world.calls));
      }
      var key;
      task, key := FindBestAvailableResource(task);
      if key.None? {
        return task, Reply(SystemTemporarilyFailed, true);
      }
      var verdict := DispatchTask(key.value, task, rec.msg);
      match verdict {
        case BatchCreated => reply := Reply(Success, false);
        case DispatchFailed => reply := Reply(SystemTemporarilyFailed, true);
        case NilDereference => reply := Panicked;
      }
    }
  }
}
