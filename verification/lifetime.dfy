/** The three accessor lifetimes over one service provider.

    - `IOptions<T>.Value` (singleton): computed on first successful read and
      kept forever.
    - `IOptionsSnapshot<T>.Get(name)` (scoped): a fresh cache per scope, so
      every scope recomputes and sees raw configuration writes.
    - `IOptionsMonitor<T>.Get(name)` / `CurrentValue` (singleton): one cache
      keyed by the normalised name; a raw configuration write leaves it stale,
      only a configuration reload evicts, recomputes and notifies listeners.

    Object identity is modelled by the number of the pipeline run that built
    an instance: every run builds a new object. `runs` counts pipeline runs,
    which is what the tests observe through a counting validator. */
module Lifetime {
  import opened OptionTypes
  import opened Configuration
  import opened Steps
  import opened Factory

  datatype Instance = Instance(id: nat, options: TestOptions)

  /** A read either yields an instance or throws with the validation failures. */
  datatype Read = Value(instance: Instance) | Failed(failures: seq<string>)

  /** One `OnChange` callback invocation: listener number, instance, name. */
  datatype Notification = Notification(listener: nat, instance: Instance, name: string)

  datatype World = World(
    config: Config,
    collab: Collaborators,
    services: seq<Service>,
    singleton: Option<Instance>,
    monitor: map<string, Instance>,
    listeners: nat,
    notifications: seq<Notification>,
    runs: nat,
    subscribed: bool)

  /** A scope's snapshot cache. */
  type Scope = map<string, Instance>

  datatype Materialized = Materialized(world: World, read: Read)

  datatype ScopedRead = ScopedRead(world: World, scope: Scope, read: Read)

  /** A freshly built provider: the fixture configuration, nothing cached,
      no listener, no run yet, and no monitor resolved, so nothing is
      subscribed to configuration changes. */
  function Start(collab: Collaborators, services: seq<Service>): (w: World)
    ensures w.config == Fixture() && w.runs == 0
    ensures w.singleton.None? && w.monitor == map[] && w.listeners == 0 && w.notifications == []
    ensures w.services == services && w.collab == collab && !w.subscribed
  {
    World(Fixture(), collab, services, None, map[], 0, [], 0, false)
  }

  /** Everything but the store, the caches and the run count is as it was:
      the registrations, the collaborators, the listeners and the
      notifications delivered so far. */
  ghost predicate SameWiring(w: World, w': World)
  {
    w'.services == w.services && w'.collab == w.collab
    && w'.listeners == w.listeners && w'.notifications == w.notifications
  }

  /** A `null` name and the empty name are the same identity. */
  function NormalizeName(name: Option<string>): (r: string)
    ensures name.Some? ==> r == name.value
    ensures name.None? ==> r == DefaultName
  {
    match name
    case None => DefaultName
    case Some(n) => n
  }

  function EnvOf(w: World): Env
  {
    Env(w.config, w.collab)
  }

  /** One pipeline run against the store as it is now; a success is a new object. */
  function Materialize(w: World, name: string): (m: Materialized)
    ensures m.world == w.(runs := w.runs + 1)
    ensures m.read.Value? <==> Create(EnvOf(w), w.services, name).Ok?
    ensures m.read.Value? ==> m.read.instance.id == w.runs
                              && m.read.instance.options == Create(EnvOf(w), w.services, name).options
    ensures m.read.Failed? ==> m.read.failures == Create(EnvOf(w), w.services, name).failures
  {
    var w' := w.(runs := w.runs + 1);
    match Create(EnvOf(w), w.services, name)
    case Ok(o) => Materialized(w', Value(Instance(w.runs, o)))
    case Fail(f) => Materialized(w', Failed(f))
  }

  /** `IOptions<TestOptions>.Value`: the default name, cached on success;
      a failure is rethrown on every read and never cached. */
  function SingletonValue(w: World): (m: Materialized)
    ensures w.singleton.Some? ==> m == Materialized(w, Value(w.singleton.value))
    ensures w.singleton.None? ==> m.world.runs == w.runs + 1
    ensures w.singleton.None? ==> m.read == Materialize(w, DefaultName).read
    ensures w.singleton.None? && m.read.Value? ==> m.world.singleton == Some(m.read.instance)
    ensures SameWiring(w, m.world) && m.world.subscribed == w.subscribed
    ensures m.read.Failed? ==> m.world.singleton.None?
    ensures m.world.config == w.config && m.world.monitor == w.monitor
  {
    if w.singleton.Some? then Materialized(w, Value(w.singleton.value))
    else
      var m := Materialize(w, DefaultName);
      if m.read.Value? then Materialized(m.world.(singleton := Some(m.read.instance)), m.read)
      else m
  }

  /** `IOptionsSnapshot<TestOptions>.Get(name)` within one scope. */
  function SnapshotGet(w: World, scope: Scope, name: Option<string>): (s: ScopedRead)
    ensures NormalizeName(name) in scope ==>
              s == ScopedRead(w, scope, Value(scope[NormalizeName(name)]))
    ensures NormalizeName(name) !in scope ==> s.world.runs == w.runs + 1
    ensures NormalizeName(name) !in scope ==> s.read == Materialize(w, NormalizeName(name)).read
    ensures NormalizeName(name) !in scope && s.read.Value? ==>
              s.scope == scope[NormalizeName(name) := s.read.instance]
    ensures s.read.Failed? ==> s.scope == scope
    ensures s.world.singleton == w.singleton && s.world.monitor == w.monitor
    ensures s.world.config == w.config && SameWiring(w, s.world) && s.world.subscribed == w.subscribed
  {
    var key := NormalizeName(name);
    if key in scope then ScopedRead(w, scope, Value(scope[key]))
    else
      var m := Materialize(w, key);
      if m.read.Value? then ScopedRead(m.world, scope[key := m.read.instance], m.read)
      else ScopedRead(m.world, scope, m.read)
  }

  /** `IOptionsMonitor<TestOptions>.Get(name)`. Using the monitor resolves
      it, and resolving it subscribes it to every change source. */
  function MonitorGet(w: World, name: Option<string>): (m: Materialized)
    ensures NormalizeName(name) in w.monitor ==>
              m == Materialized(w.(subscribed := true), Value(w.monitor[NormalizeName(name)]))
    ensures NormalizeName(name) !in w.monitor ==> m.world.runs == w.runs + 1
    ensures NormalizeName(name) !in w.monitor ==> m.read == Materialize(w, NormalizeName(name)).read
    ensures NormalizeName(name) !in w.monitor && m.read.Value? ==>
              m.world.monitor == w.monitor[NormalizeName(name) := m.read.instance]
    ensures m.read.Failed? ==> m.world.monitor == w.monitor
    ensures m.world.config == w.config && m.world.singleton == w.singleton
    ensures SameWiring(w, m.world) && m.world.subscribed
  {
    var key := NormalizeName(name);
    var w0 := w.(subscribed := true);
    if key in w.monitor then Materialized(w0, Value(w.monitor[key]))
    else
      var m := Materialize(w0, key);
      if m.read.Value? then Materialized(m.world.(monitor := w.monitor[key := m.read.instance]), m.read)
      else m
  }

  /** `IOptionsMonitor<TestOptions>.CurrentValue`. */
  function CurrentValue(w: World): (m: Materialized)
    ensures m == MonitorGet(w, Some(DefaultName))
  {
    MonitorGet(w, None)
  }

  /** A raw `configuration[key] = value`: the next pipeline run sees it, but
      nothing is signalled, evicted or recomputed. */
  function RawSet(w: World, key: string, v: Value): (w': World)
    ensures w'.config == Set(w.config, key, v)
    ensures w' == w.(config := w'.config)
  {
    w.(config := Set(w.config, key, v))
  }

  /** `IOptionsMonitor<TestOptions>.OnChange(listener)`: the new listener's
      number is the count of earlier ones. */
  function OnChange(w: World): (w': World)
    ensures w'.listeners == w.listeners + 1 && w'.subscribed
    ensures w' == w.(listeners := w'.listeners, subscribed := true)
  {
    w.(listeners := w.listeners + 1, subscribed := true)
  }

  /** The names whose monitor entries a configuration reload refreshes: each
      `Bind` registration subscribes the name it is registered for, in
      registration order. */
  function ChangeSources(services: seq<Service>): (r: seq<string>)
    ensures |r| <= |services|
    ensures forall n :: n in r <==> exists i :: 0 <= i < |services| && IsBindFor(services[i], n)
    decreases |services|
  {
    if services == [] then []
    else
      var rest := ChangeSources(services[1..]);
      assert forall i :: 1 <= i < |services| ==> services[i] == services[1..][i - 1];
      match services[0]
      case ConfigureService(ForName(n), BindSection(_)) => [n] + rest
      case _ => rest
  }

  /** A `Bind` of some section registered for `n` through the configure
      service type. */
  predicate IsBindFor(s: Service, n: string)
  {
    s.ConfigureService? && s.target == ForName(n) && s.action.BindSection?
  }

  /** The change sources of concatenated registrations fire in registration
      order: those of the first part, then those of the second. */
  lemma {:induction false} ChangeSourcesAppend(a: seq<Service>, b: seq<Service>)
    ensures ChangeSources(a + b) == ChangeSources(a) + ChangeSources(b)
    decreases |a|
  {
    if a == [] {
      assert a + b == b;
    } else {
      assert (a + b)[0] == a[0];
      assert (a + b)[1..] == a[1..] + b;
      ChangeSourcesAppend(a[1..], b);
    }
  }

  /** One notification per registered listener, in registration order. */
  function NotifyAll(listeners: nat, instance: Instance, name: string): (r: seq<Notification>)
    ensures |r| == listeners
    ensures forall i :: 0 <= i < listeners ==> r[i] == Notification(i, instance, name)
  {
    seq(listeners, (i: nat) => Notification(i, instance, name))
  }

  /** The reaction to one change source firing: evict the name, recompute it
      at once, and hand the new instance to every listener. */
  function Refresh(w: World, name: string): (w': World)
    ensures w'.config == w.config && w'.singleton == w.singleton && w'.listeners == w.listeners
    ensures w'.services == w.services && w'.collab == w.collab && w'.subscribed
    ensures w'.runs == w.runs + 1
    ensures w'.monitor - {name} == w.monitor - {name}
    ensures Create(EnvOf(w), w.services, name).Ok? ==>
              && name in w'.monitor
              && w'.monitor[name] == Instance(w.runs, Create(EnvOf(w), w.services, name).options)
              && w'.notifications == w.notifications + NotifyAll(w.listeners, w'.monitor[name], name)
    ensures Create(EnvOf(w), w.services, name).Fail? ==>
              name !in w'.monitor && w'.notifications == w.notifications
    ensures w'.notifications
         == w.notifications + SourceNotices(Create(EnvOf(w), w.services, name), w.listeners, w.runs, name)
  {
    var m := MonitorGet(w.(monitor := w.monitor - {name}), Some(name));
    if m.read.Value? then
      m.world.(notifications := m.world.notifications + NotifyAll(m.world.listeners, m.read.instance, name))
    else m.world
  }

  function RefreshAll(w: World, names: seq<string>): (w': World)
    ensures w'.config == w.config && w'.singleton == w.singleton && w'.listeners == w.listeners
    ensures w'.services == w.services && w'.collab == w.collab
    ensures w.subscribed ==> w'.subscribed
    ensures w'.runs == w.runs + |names|
    ensures w'.notifications
         == w.notifications + ReloadNotices(EnvOf(w), w.services, w.listeners, w.runs, names)
    decreases |names|
  {
    if names == [] then
      assert w.notifications + [] == w.notifications;
      w
    else
      var w1 := Refresh(w, names[0]);
      var w2 := RefreshAll(w1, names[1..]);
      assert EnvOf(w1) == EnvOf(w);
      NoticesStep(EnvOf(w), w.services, w.listeners, w.runs, names, w.notifications, w1.notifications, w2.notifications);
      w2
  }

  /** The fired names whose pipeline succeeds, in firing order. */
  function Succeeding(env: Env, services: seq<Service>, names: seq<string>): (r: seq<string>)
    ensures |r| <= |names|
    ensures forall n :: n in r <==> n in names && Create(env, services, n).Ok?
    decreases |names|
  {
    if names == [] then []
    else
      var rest := Succeeding(env, services, names[1..]);
      assert forall n :: n in names <==> n == names[0] || n in names[1..];
      if Create(env, services, names[0]).Ok? then [names[0]] + rest else rest
  }

  /** The notifications one change source hands out when its pipeline ran
      as run number `runs`: one per listener on success, none on failure. */
  function SourceNotices(c: Outcome, listeners: nat, runs: nat, name: string): seq<Notification>
  {
    match c
    case Ok(o) => NotifyAll(listeners, Instance(runs, o), name)
    case Fail(_) => []
  }

  /** Reference definition of what firing `names` hands to the listeners:
      for each name in turn whose pipeline succeeds, one notification per
      listener, in listener order, carrying the object that name's run
      built; a failing name hands out nothing. */
  function ReloadNotices(env: Env, services: seq<Service>, listeners: nat, runs: nat, names: seq<string>)
    : seq<Notification>
    decreases |names|
  {
    if names == [] then []
    else SourceNotices(Create(env, services, names[0]), listeners, runs, names[0])
         + ReloadNotices(env, services, listeners, runs + 1, names[1..])
  }

  /** A reload hands out one notification per listener for every fired name
      whose pipeline succeeds, and no other. */
  lemma {:induction false} ReloadNoticesCount(env: Env, services: seq<Service>, listeners: nat, runs: nat, names: seq<string>)
    ensures |ReloadNotices(env, services, listeners, runs, names)| == listeners * |Succeeding(env, services, names)|
    decreases |names|
  {
    if names != [] {
      ReloadNoticesCount(env, services, listeners, runs + 1, names[1..]);
      var c := Create(env, services, names[0]);
      var k := |Succeeding(env, services, names[1..])|;
      if c.Ok? {
        assert |SourceNotices(c, listeners, runs, names[0])| == listeners;
        assert |Succeeding(env, services, names)| == 1 + k;
        MulSucc(listeners, k);
      } else {
        assert SourceNotices(c, listeners, runs, names[0]) == [];
        assert |Succeeding(env, services, names)| == k;
      }
    }
  }

  /** `x` is a notification for a fired name whose pipeline succeeded,
      carrying an object one of the reload's runs built from exactly that
      pipeline's options. */
  ghost predicate FromReload(env: Env, services: seq<Service>, listeners: nat, runs: nat, names: seq<string>, x: Notification)
  {
    && x.listener < listeners
    && x.name in names
    && Create(env, services, x.name).Ok?
    && x.instance.options == Create(env, services, x.name).options
    && runs <= x.instance.id < runs + |names|
  }

  lemma MulSucc(a: nat, k: nat)
    ensures a * (1 + k) == a + a * k
  {
  }

  /** Every notification a reload hands out is for a fired name whose
      pipeline succeeded, and carries an object built by one of the
      reload's runs from exactly that pipeline's options. */
  lemma {:induction false} ReloadNoticesCarry(env: Env, services: seq<Service>, listeners: nat, runs: nat, names: seq<string>)
    ensures forall x :: x in ReloadNotices(env, services, listeners, runs, names) ==>
              FromReload(env, services, listeners, runs, names, x)
    decreases |names|
  {
    if names != [] {
      var rest := ReloadNotices(env, services, listeners, runs + 1, names[1..]);
      ReloadNoticesCarry(env, services, listeners, runs + 1, names[1..]);
      var c := Create(env, services, names[0]);
      var here := SourceNotices(c, listeners, runs, names[0]);
      assert ReloadNotices(env, services, listeners, runs, names) == here + rest;
      assert forall n :: n in names[1..] ==> n in names;
      forall x | x in here + rest
        ensures FromReload(env, services, listeners, runs, names, x)
      {
        if x in here {
          var k :| 0 <= k < |here| && here[k] == x;
          assert c.Ok? && x == Notification(k, Instance(runs, c.options), names[0]);
        } else {
          assert FromReload(env, services, listeners, runs + 1, names[1..], x);
        }
      }
    }
  }

  /** One step of firing a list: the first source's notifications, then
      those of the rest fired with the next run number. */
  lemma NoticesStep(env: Env, services: seq<Service>, listeners: nat, runs: nat, names: seq<string>,
                    n0: seq<Notification>, n1: seq<Notification>, n2: seq<Notification>)
    requires names != []
    requires n1 == n0 + SourceNotices(Create(env, services, names[0]), listeners, runs, names[0])
    requires n2 == n1 + ReloadNotices(env, services, listeners, runs + 1, names[1..])
    ensures n2 == n0 + ReloadNotices(env, services, listeners, runs, names)
  {
    var here := SourceNotices(Create(env, services, names[0]), listeners, runs, names[0]);
    var rest := ReloadNotices(env, services, listeners, runs + 1, names[1..]);
    var all := ReloadNotices(env, services, listeners, runs, names);
    assert all == here + rest by {
      ReloadNoticesUnfold(env, services, listeners, runs, names);
    }
    Chain(n0, n1, n2, here, rest, all);
  }

  /** `n2` extends `n1` by `rest`, which extends `n0` by `here`. */
  lemma Chain<T>(n0: seq<T>, n1: seq<T>, n2: seq<T>, here: seq<T>, rest: seq<T>, all: seq<T>)
    requires n1 == n0 + here && n2 == n1 + rest && all == here + rest
    ensures n2 == n0 + all
  {
  }

  /** The reference definition, unfolded once. */
  lemma ReloadNoticesUnfold(env: Env, services: seq<Service>, listeners: nat, runs: nat, names: seq<string>)
    requires names != []
    ensures ReloadNotices(env, services, listeners, runs, names)
         == SourceNotices(Create(env, services, names[0]), listeners, runs, names[0])
            + ReloadNotices(env, services, listeners, runs + 1, names[1..])
  {
  }

  /** Firing a list of change sources keeps every notification delivered
      so far, and the names outside the list keep their monitor entry (or
      its absence). */
  lemma {:induction false} RefreshAllKeepsOthers(w: World, names: seq<string>)
    ensures w.notifications <= RefreshAll(w, names).notifications
    ensures forall n :: n !in names ==>
              && (n in RefreshAll(w, names).monitor <==> n in w.monitor)
              && (n in w.monitor ==> RefreshAll(w, names).monitor[n] == w.monitor[n])
    decreases |names|
  {
    if names != [] {
      var w1 := Refresh(w, names[0]);
      RefreshAllKeepsOthers(w1, names[1..]);
      assert forall n :: n !in names ==> n != names[0] && n !in names[1..];
    }
  }

  /** Firing a list of change sources leaves every listed name whose
      pipeline fails evicted. */
  lemma {:induction false} RefreshAllEvictsFailures(w: World, names: seq<string>)
    ensures forall n :: n in names && Create(EnvOf(w), w.services, n).Fail? ==>
              n !in RefreshAll(w, names).monitor
    decreases |names|
  {
    if names != [] {
      var w1 := Refresh(w, names[0]);
      var rest := names[1..];
      assert EnvOf(w1) == EnvOf(w);
      RefreshAllEvictsFailures(w1, rest);
      RefreshAllKeepsOthers(w1, rest);
      assert forall n :: n in names ==> n == names[0] || n in rest;
    }
  }

  /** Firing a list of change sources gives every listed name whose
      pipeline succeeds a new object with the pipeline's options, and
      every listener was handed that object. */
  lemma {:induction false} RefreshAllRebuilds(w: World, names: seq<string>)
    ensures var w' := RefreshAll(w, names);
      forall n :: n in names && Create(EnvOf(w), w.services, n).Ok? ==>
        && n in w'.monitor
        && w'.monitor[n].options == Create(EnvOf(w), w.services, n).options
        && w.runs <= w'.monitor[n].id < w'.runs
        && (forall i :: 0 <= i < w.listeners ==> Notification(i, w'.monitor[n], n) in w'.notifications)
    decreases |names|
  {
    if names != [] {
      var w1 := Refresh(w, names[0]);
      var rest := names[1..];
      var w' := RefreshAll(w1, rest);
      assert w' == RefreshAll(w, names);
      assert EnvOf(w1) == EnvOf(w);
      RefreshAllRebuilds(w1, rest);
      RefreshAllKeepsOthers(w1, rest);
      var first := names[0];
      if first !in rest && Create(EnvOf(w), w.services, first).Ok? {
        var inst := w1.monitor[first];
        forall i | 0 <= i < w.listeners
          ensures Notification(i, inst, first) in w'.notifications
        {
          var ns := NotifyAll(w.listeners, inst, first);
          assert w1.notifications[|w.notifications| + i] == ns[i];
          assert w'.notifications[|w.notifications| + i] == w1.notifications[|w.notifications| + i];
        }
      }
      assert forall n :: n in names ==> n == first || n in rest;
    }
  }

  /** `IConfigurationRoot.Reload()`: the in-memory data stays as it is; every
      change source fires. The change sources are subscribed only once the
      monitor has been resolved; before that a reload reaches nobody. */
  function Reload(w: World): (w': World)
    ensures w'.config == w.config && w'.singleton == w.singleton && w'.listeners == w.listeners
    ensures w'.services == w.services && w'.collab == w.collab && w'.subscribed == w.subscribed
    ensures !w.subscribed ==> w' == w
    ensures w.subscribed ==> w'.runs == w.runs + |ChangeSources(w.services)|
    ensures w.notifications <= w'.notifications
    ensures w.subscribed ==>
              w'.notifications == w.notifications
                + ReloadNotices(EnvOf(w), w.services, w.listeners, w.runs, ChangeSources(w.services))
    ensures w.subscribed ==>
              |w'.notifications| == |w.notifications|
                + w.listeners * |Succeeding(EnvOf(w), w.services, ChangeSources(w.services))|
    ensures w.subscribed ==>
              forall x :: x in w'.notifications[|w.notifications|..] ==>
                FromReload(EnvOf(w), w.services, w.listeners, w.runs, ChangeSources(w.services), x)
    ensures forall n :: n !in ChangeSources(w.services) ==>
              (n in w'.monitor <==> n in w.monitor) && (n in w.monitor ==> w'.monitor[n] == w.monitor[n])
    ensures w.subscribed ==>
              forall n :: n in ChangeSources(w.services) && Create(EnvOf(w), w.services, n).Ok? ==>
                && n in w'.monitor
                && w'.monitor[n].options == Create(EnvOf(w), w.services, n).options
                && w.runs <= w'.monitor[n].id < w'.runs
                && (forall i :: 0 <= i < w.listeners ==> Notification(i, w'.monitor[n], n) in w'.notifications)
    ensures w.subscribed ==>
              forall n :: n in ChangeSources(w.services) && Create(EnvOf(w), w.services, n).Fail? ==>
                n !in w'.monitor
  {
    if w.subscribed then
      RefreshAllKeepsOthers(w, ChangeSources(w.services));
      RefreshAllEvictsFailures(w, ChangeSources(w.services));
      RefreshAllRebuilds(w, ChangeSources(w.services));
      ReloadNoticesCount(EnvOf(w), w.services, w.listeners, w.runs, ChangeSources(w.services));
      ReloadNoticesCarry(EnvOf(w), w.services, w.listeners, w.runs, ChangeSources(w.services));
      RefreshAll(w, ChangeSources(w.services))
    else w
  }

  // ---------------------------------------------------------------------------
  // Invariants over sequences of operations
  // ---------------------------------------------------------------------------

  datatype Event =
    | ReadSingleton
    | ReadSnapshot(name: Option<string>)   // in a fresh scope
    | ReadMonitor(name: Option<string>)
    | Write(key: string, value: Value)
    | ReloadConfig
    | Subscribe

  function Perform(w: World, e: Event): World
  {
    match e
    case ReadSingleton => SingletonValue(w).world
    case ReadSnapshot(n) => SnapshotGet(w, map[], n).world
    case ReadMonitor(n) => MonitorGet(w, n).world
    case Write(k, v) => RawSet(w, k, v)
    case ReloadConfig => Reload(w)
    case Subscribe => OnChange(w)
  }

  function Replay(w: World, events: seq<Event>): World
    decreases |events|
  {
    if events == [] then w else Replay(Perform(w, events[0]), events[1..])
  }

  /** Every object any accessor holds was built by an earlier run, so the
      next run's object is new. */
  ghost predicate Valid(w: World)
  {
    && (w.singleton.Some? ==> w.singleton.value.id < w.runs)
    && (forall k :: k in w.monitor ==> w.monitor[k].id < w.runs)
    && (forall i :: 0 <= i < |w.notifications| ==> w.notifications[i].instance.id < w.runs)
  }

  lemma StartValid(collab: Collaborators, services: seq<Service>)
    ensures Valid(Start(collab, services))
  {
  }

  lemma {:induction false} RefreshValid(w: World, name: string)
    requires Valid(w)
    ensures Valid(Refresh(w, name))
  {
    var w0 := w.(monitor := w.monitor - {name});
    var m := MonitorGet(w0, Some(name));
    if m.read.Value? {
      var ns := NotifyAll(m.world.listeners, m.read.instance, name);
      var w' := m.world.(notifications := m.world.notifications + ns);
      forall i | 0 <= i < |w'.notifications|
        ensures w'.notifications[i].instance.id < w'.runs
      {
        if i >= |m.world.notifications| {
          assert w'.notifications[i] == ns[i - |m.world.notifications|];
        }
      }
    }
  }

  lemma {:induction false} RefreshAllValid(w: World, names: seq<string>)
    requires Valid(w)
    ensures Valid(RefreshAll(w, names))
    decreases |names|
  {
    if names != [] {
      RefreshValid(w, names[0]);
      RefreshAllValid(Refresh(w, names[0]), names[1..]);
    }
  }

  lemma {:induction false} PerformValid(w: World, e: Event)
    requires Valid(w)
    ensures Valid(Perform(w, e))
  {
    match e
    case ReloadConfig => if w.subscribed { RefreshAllValid(w, ChangeSources(w.services)); }
    case _ =>
  }

  lemma {:induction false} ReplayValid(w: World, events: seq<Event>)
    requires Valid(w)
    ensures Valid(Replay(w, events))
    decreases |events|
  {
    if events != [] {
      PerformValid(w, events[0]);
      ReplayValid(Perform(w, events[0]), events[1..]);
    }
  }

  /** Once `IOptions<T>.Value` has been read successfully, it is the same
      object forever: raw writes, reloads and other reads never replace it. */
  lemma {:induction false} SingletonStable(w: World, events: seq<Event>)
    requires w.singleton.Some?
    ensures Replay(w, events).singleton == w.singleton
    decreases |events|
  {
    if events != [] {
      SingletonStable(Perform(w, events[0]), events[1..]);
    }
  }

  /** The count of pipeline runs never decreases. */
  lemma {:induction false} RunsGrow(w: World, events: seq<Event>)
    ensures Replay(w, events).runs >= w.runs
    decreases |events|
  {
    if events != [] {
      RunsGrow(Perform(w, events[0]), events[1..]);
    }
  }

  /** Without a reload, a monitor entry is never evicted or replaced: reads
      hit it and raw writes leave it stale. */
  lemma {:induction false} MonitorEntryKeptWithoutReload(w: World, events: seq<Event>, key: string)
    requires key in w.monitor
    requires forall i :: 0 <= i < |events| ==> !events[i].ReloadConfig?
    ensures key in Replay(w, events).monitor
    ensures Replay(w, events).monitor[key] == w.monitor[key]
    decreases |events|
  {
    if events != [] {
      var w' := Perform(w, events[0]);
      assert key in w'.monitor && w'.monitor[key] == w.monitor[key];
      assert forall i :: 0 <= i < |events[1..]| ==> !events[1..][i].ReloadConfig? by {
        forall i | 0 <= i < |events[1..]| ensures !events[1..][i].ReloadConfig? {
          assert events[1..][i] == events[i + 1];
        }
      }
      MonitorEntryKeptWithoutReload(w', events[1..], key);
    }
  }

  /** Writes that are not followed by a reload change nothing but the store:
      every cache, listener, notification and the run count stay put. */
  lemma {:induction false} RawWritesAreSilent(w: World, events: seq<Event>)
    requires forall i :: 0 <= i < |events| ==> events[i].Write?
    ensures Replay(w, events) == w.(config := Replay(w, events).config)
    decreases |events|
  {
    if events != [] {
      var rest := events[1..];
      assert forall i :: 0 <= i < |rest| ==> rest[i].Write? by {
        forall i | 0 <= i < |rest| ensures rest[i].Write? {
          assert rest[i] == events[i + 1];
        }
      }
      RawWritesAreSilent(Perform(w, events[0]), rest);
    }
  }

  /** `Get(null)` and `Get("")` are one and the same read. */
  lemma NullNameIsDefaultName(w: World)
    ensures MonitorGet(w, None) == MonitorGet(w, Some(""))
  {
  }

  /** A reload of a world whose monitor has been resolved and whose only
      change source is the default name:
      the default entry is rebuilt by a new run from the current store, and
      every listener receives that new object. */
  lemma {:induction false} ReloadRefreshesDefault(w: World)
    requires Valid(w) && w.subscribed
    requires ChangeSources(w.services) == [DefaultName]
    requires Create(EnvOf(w), w.services, DefaultName).Ok?
    ensures var w' := Reload(w);
            && DefaultName in w'.monitor
            && w'.monitor[DefaultName].id == w.runs
            && (DefaultName in w.monitor ==> w'.monitor[DefaultName] != w.monitor[DefaultName])
            && w'.monitor[DefaultName].options == Create(EnvOf(w), w.services, DefaultName).options
            && w'.notifications == w.notifications
                 + NotifyAll(w.listeners, w'.monitor[DefaultName], DefaultName)
  {
    assert Reload(w) == RefreshAll(Refresh(w, DefaultName), []);
  }
}
