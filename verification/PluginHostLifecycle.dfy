/** The host as an object. */
module PluginHostLifecycle {
  import opened Common
  import opened Ordering
  import opened LoadOrder
  import opened PluginGraph
  import opened PluginHostGraph
  import opened PluginHost

  class Host {
    var state: HostState
    var loaded: seq<string>
    var registry: Registry
    var log: seq<Call>

    /** Outside a call: running with the mandatory plugin loaded first, or with nothing loaded. */
    predicate Valid()
      reads this
    {
      && (state == New || state == Running || state == Stopped)
      && (state == Running ==> loaded != [] && loaded[0] == "core")
      && (state != Running ==> loaded == [] && registry == map[])
    }

    constructor ()
      ensures Valid() && state == New && log == []
    {
      state, loaded, registry, log := New, [], map[], [];
    }

    /** Stops plugins, the last one first. */
    method StopAll(names: seq<string>)
      modifies this`log
      ensures log == old(log) + StopCalls(Reverse(names))
    {
      var i := |names|;
      assert names[..i] == names;
      while i > 0
        invariant 0 <= i <= |names|
        invariant log + StopCalls(Reverse(names[..i])) == old(log) + StopCalls(Reverse(names))
        modifies this`log
      {
        i := i - 1;
        assert names[..i + 1][..i] == names[..i];
        assert StopCalls(Reverse(names[..i + 1])) == [Stop(names[i])] + StopCalls(Reverse(names[..i]));
        log := log + [Stop(names[i])];
      }
    }

    method AbortAll(names: seq<string>)
      modifies this`log
      ensures log == old(log) + AbortCalls(Reverse(names))
    {
      var i := |names|;
      assert names[..i] == names;
      while i > 0
        invariant 0 <= i <= |names|
        invariant log + AbortCalls(Reverse(names[..i])) == old(log) + AbortCalls(Reverse(names))
        modifies this`log
      {
        i := i - 1;
        assert names[..i + 1][..i] == names[..i];
        assert AbortCalls(Reverse(names[..i + 1])) == [Abort(names[i])] + AbortCalls(Reverse(names[..i]));
        log := log + [Abort(names[i])];
      }
    }

    /** A load gone wrong: back to a new host. */
    method RollBack(entered: seq<string>, preflighted: seq<string>)
      modifies this
      ensures Valid() && state == New
      ensures log == old(log) + StopCalls(Reverse(entered)) + AbortCalls(Reverse(preflighted))
    {
      StopAll(entered);
      AbortAll(preflighted);
      loaded, registry, state := [], map[], New;
    }

    /** One plugin: Init, then its services. `entered` says whether Init was called. */
    method InitOne(name: string, c: Conduct, m: Metadata, staging: Registry) returns (ok: bool, entered: bool, updated: Registry)
      requires forall p | p in m.publishes :: !Blank(p) && p !in staging
      modifies this`log
      ensures log == if entered then old(log) + [Init(name, Visible(staging, m.needs))] else old(log)
      ensures ok <==> Behaves(c, m)
      ensures entered <==> !Unentered(c)
      ensures ok ==> updated == staging + Own(m.publishes, m.name)
    {
      updated := staging;
      if c.cancelledBefore || !c.migrates {
        return false, false, staging;
      }
      log := log + [Init(name, Visible(staging, m.needs))];
      if !c.initialises || c.cancelledAfter {
        return false, true, staging;
      }
      ok, updated := PublishDeclared(staging, m, c.offers);
      entered := true;
    }

    /** The plugin at a place of the load order, after those before it. */
    method InitAt(config: Config, ms: seq<Metadata>, order: seq<string>, k: nat, staging: Registry, ghost before: seq<Call>)
      returns (ok: bool, called: bool, updated: Registry)
      requires Sound(ms) && Distinct(order) && k < |order|
      requires forall n | n in order :: n in config && Find(ms, n) == Some(config[n].meta)
      requires log == before + Inits(ms, order[..k]) && staging == Services(ms, order[..k])
      modifies this`log
      ensures log == before + Inits(ms, order[..if called then k + 1 else k])
      ensures ok <==> Behaves(config[order[k]].conduct, config[order[k]].meta)
      ensures called <==> !Unentered(config[order[k]].conduct)
      ensures ok ==> updated == Services(ms, order[..k + 1])
    {
      var name := order[k];
      NextInit(ms, order, k, config[name].meta);
      ok, called, updated := InitOne(name, config[name].conduct, config[name].meta, staging);
      assert called ==> log == before + Inits(ms, order[..k + 1]);
    }

    /** Init in load order, into a registry of their own; `entered` counts the Init calls. */
    method InitAll(config: Config, ms: seq<Metadata>, order: seq<string>)
      returns (ok: bool, entered: nat, staging: Registry)
      requires Sound(ms) && Distinct(order)
      requires forall n | n in order :: n in config && Find(ms, n) == Some(config[n].meta)
      modifies this`log
      ensures entered <= |order| && log == old(log) + Inits(ms, order[..entered])
      ensures ok <==> AllBehave(config, order)
      ensures EntersUpTo(config, order, entered)
      ensures ok ==> staging == Services(ms, order)
    {
      staging := map[];
      for k := 0 to |order|
        invariant log == old(log) + Inits(ms, order[..k]) && staging == Services(ms, order[..k])
        invariant AllBehave(config, order[..k])
      {
        BehaveGrows(config, order, k);
        var called;
        ok, called, staging := InitAt(config, ms, order, k, staging, old(log));
        if !ok {
          entered := if called then k + 1 else k;
          return;
        }
      }
      assert order[..|order|] == order;
      ok, entered := true, |order|;
    }

    /** The Init calls, then the start of all plugins or the way back. */
    method Launch(config: Config, ms: seq<Metadata>, order: seq<string>, preflighted: seq<string>, cancelled: bool)
      returns (ok: bool, entered: nat)
      requires Sound(ms) && Distinct(order) && order != [] && order[0] == "core"
      requires forall n | n in order :: n in config && Find(ms, n) == Some(config[n].meta)
      modifies this
      ensures Valid() && entered <= |order| && (ok <==> !cancelled && AllBehave(config, order))
      ensures EntersUpTo(config, order, entered)
      ensures !ok ==> state == New && log == Undone(old(log), ms, order[..entered], preflighted)
      ensures ok ==> entered == |order| && state == Running && loaded == order && registry == Services(ms, order)
      ensures ok ==> log == old(log) + Inits(ms, order) + StartCalls(order)
    {
      var initialised, count, staging := InitAll(config, ms, order);
      entered := count;
      if !initialised || cancelled {
        RollBack(order[..entered], preflighted);
        return false, entered;
      }
      assert order[..|order|] == order;
      registry, loaded, state := staging, order, Running;
      log := log + StartCalls(order);
      return true, entered;
    }

    /**
     * Loads the enabled plugins. Init is called up to the first plugin that does not do its part. A
     * failed load of a new host leaves it new: every plugin whose Init was entered is stopped, once
     * and in reverse order, then every preflighted one aborted.
     */
    method Load(config: Config, cancelledFirst: bool, cancelledLast: bool) returns (ok: bool, ghost a: Attempt)
      requires Valid()
      modifies this
      ensures Valid()
      ensures old(state) != New ==> !ok && state == old(state) && loaded == old(loaded) && registry == old(registry) && log == old(log)
      ensures old(state) == New ==> Prepared(config, cancelledFirst, a)
      ensures old(state) == New ==> (ok <==> !cancelledFirst && !cancelledLast && Orderable(config, a.ms) && AllBehave(config, a.order))
      ensures a.entered <= |a.order| && (a.order != [] ==> EntersUpTo(config, a.order, a.entered))
      ensures old(state) == New && !ok ==> state == New && log == Undone(old(log), a.ms, a.order[..a.entered], a.preflighted)
      ensures ok ==> state == Running && loaded == a.order && registry == Services(a.ms, a.order)
      ensures ok ==> log == old(log) + Inits(a.ms, a.order) + StartCalls(a.order)
    {
      if state != New {
        return false, Attempt([], [], [], [], 0);
      }
      state := Loading;
      var names, preflighted, ms, order;
      names, preflighted, ms, order, a := Prepare(config, cancelledFirst);
      if order == [] {
        GiveUp(a.ms, preflighted);
        return false, a;
      }
      var entered;
      ok, entered := Launch(config, ms, order, preflighted, cancelledLast);
      a := a.(entered := entered);
    }

    /** Nothing was initialised yet. */
    method GiveUp(ghost ms: seq<Metadata>, preflighted: seq<string>)
      modifies this
      ensures Valid() && state == New && log == Undone(old(log), ms, [], preflighted)
    {
      RollBack([], preflighted);
      assert StopCalls(Reverse([])) == [] && Inits(ms, []) == [];
    }

    /** Stops every plugin, the mandatory one last. */
    method Shutdown()
      requires Valid()
      modifies this
      ensures Valid()
      ensures old(state) == Running ==> state == Stopped && log == old(log) + StopCalls(Reverse(old(loaded)))
      ensures old(state) == Running ==> log != [] && log[|log| - 1] == Stop("core")
      ensures old(state) != Running ==> state == old(state) && log == old(log)
    {
      if state != Running {
        return;
      }
      state := Stopping;
      ReverseEnds(loaded);
      StopAll(loaded);
      loaded, registry, state := [], map[], Stopped;
    }
  }

  lemma InitsGrow(ms: seq<Metadata>, order: seq<string>, i: nat)
    requires i < |order|
    ensures var last := order[i];
            && Inits(ms, order[..i + 1]) == Inits(ms, order[..i]) + [Init(last, Visible(Services(ms, order[..i]), NeedsFor(ms, last)))]
            && Services(ms, order[..i + 1]) == Services(ms, order[..i]) + Own(PublishedBy(ms, last), last)
  {
    assert order[..i + 1][..i] == order[..i];
  }

  /** What the next plugin in load order sees and adds. */
  lemma NextInit(ms: seq<Metadata>, order: seq<string>, k: nat, m: Metadata)
    requires Sound(ms) && Distinct(order) && k < |order| && (forall n | n in order :: Find(ms, n).Some?) && Find(ms, order[k]) == Some(m)
    ensures forall p | p in m.publishes :: !Blank(p) && p !in Services(ms, order[..k])
    ensures Inits(ms, order[..k + 1]) == Inits(ms, order[..k]) + [Init(order[k], Visible(Services(ms, order[..k]), m.needs))]
    ensures Services(ms, order[..k + 1]) == Services(ms, order[..k]) + Own(m.publishes, m.name)
  {
    InitsGrow(ms, order, k);
    NotYetPublished(ms, order, k);
    FindNeeds(ms, order[k]);
  }

  lemma BehaveGrows(config: Config, order: seq<string>, i: nat)
    requires i < |order| && order[i] in config
    ensures AllBehave(config, order[..i + 1]) <==>
            AllBehave(config, order[..i]) && Behaves(config[order[i]].conduct, config[order[i]].meta)
    ensures AllBehave(config, order) ==> AllBehave(config, order[..i + 1])
  {
    assert order[..i + 1] == order[..i] + [order[i]];
  }

  lemma {:induction false} FindNeeds(ms: seq<Metadata>, name: string)
    requires Find(ms, name).Some?
    ensures NeedsFor(ms, name) == Find(ms, name).value.needs
    ensures Find(ms, name).value in ms && Find(ms, name).value.name == name
  {
    if ms[|ms| - 1].name != name { FindNeeds(ms[..|ms| - 1], name); }
  }

  /** A plugin's services are not those of plugins loaded before it. */
  lemma NotYetPublished(ms: seq<Metadata>, order: seq<string>, i: nat)
    requires Sound(ms) && Distinct(order) && i < |order| && forall n | n in order :: Find(ms, n).Some?
    ensures forall p | p in PublishedBy(ms, order[i]) :: !Blank(p) && p !in Services(ms, order[..i])
  {
    forall n | n in order ensures n in Names(ms) { FindNeeds(ms, n); }
    assert order[i] in order;
    FindNeeds(ms, order[i]);
    var m := Find(ms, order[i]).value;
    forall p | p in m.publishes ensures !Blank(p) && p !in Services(ms, order[..i]) {
      ServicesMean(ms, order[..i], p);
      PublisherIs(ms, p, m);
      if PublishedAmong(ms, order[..i], p) { assert false; }
    }
  }

  lemma OwnOneMore(services: seq<string>, i: nat, name: string)
    requires i < |services|
    ensures Own(services[..i + 1], name) == Own(services[..i], name)[services[i] := name]
  {
    assert services[..i + 1] == services[..i] + [services[i]];
  }

  /** Publishes exactly what is declared, all at once, or nothing. */
  method PublishDeclared(registry: Registry, m: Metadata, offers: Option<map<string, bool>>)
    returns (ok: bool, updated: Registry)
    requires forall p | p in m.publishes :: !Blank(p) && p !in registry
    ensures ok <==> ProvidesDeclared(m, offers)
    ensures updated == if ok then registry + Own(m.publishes, m.name) else registry
  {
    updated := registry;
    if offers.None? {
      return m.publishes == [], registry;
    }
    var declared: Registry := map[];
    for i := 0 to |m.publishes|
      invariant declared == Own(m.publishes[..i], m.name)
      invariant forall p | p in m.publishes[..i] :: Get(offers.value, p) == Some(true)
    {
      var p := m.publishes[i];
      assert p in m.publishes;
      if Get(offers.value, p) != Some(true) {
        return false, registry;
      }
      OwnOneMore(m.publishes, i, m.name);
      declared := declared[p := m.name];
    }
    assert m.publishes[..|m.publishes|] == m.publishes;
    if exists s | s in offers.value :: s !in declared {
      return false, registry;
    }
    return true, registry + declared;
  }

  /** The configured names, sorted. */
  method SortedNames(config: Config) returns (names: seq<string>)
    ensures Distinct(names) && Elements(names) == config.Keys && Sorted(names, Itself)
  {
    var todo, unsorted := config.Keys, [];
    while todo != {}
      invariant todo <= config.Keys && Distinct(unsorted) && Elements(unsorted) == config.Keys - todo
    {
      var n :| n in todo;
      assert n !in Elements(unsorted);
      assert Elements(unsorted + [n]) == Elements(unsorted) + {n};
      unsorted, todo := unsorted + [n], todo - {n};
    }
    names := Sort(unsorted, Itself);
    SamePlugins(unsorted, names);
    assert Elements(names) == Elements(unsorted);
  }

  /** The checks before anything is made. */
  method Screen(config: Config, names: seq<string>) returns (ok: bool)
    requires Elements(names) == config.Keys
    ensures ok <==> forall n | n in config && config[n].enabled :: Obtainable(n, config[n])
  {
    for i := 0 to |names|
      invariant forall n | n in names[..i] && n in config && config[n].enabled :: Obtainable(n, config[n])
    {
      assert names[i] in Elements(names);
      if config[names[i]].enabled && !Obtainable(names[i], config[names[i]]) {
        return false;
      }
    }
    assert forall n | n in config :: n in Elements(names) && n in names[..|names|];
    return true;
  }

  /** Makes the plugins, preflights the external ones and reads their metadata. */
  method Probe(config: Config, names: seq<string>) returns (ok: bool, ms: seq<Metadata>, preflighted: seq<string>)
    requires Elements(names) == config.Keys
    ensures ok <==> forall n | n in config && config[n].enabled :: Presentable(n, config[n])
    ensures ok ==> ms == EnabledMetas(config, names)
    ensures PreflightsUpTo(config, names, preflighted)
  {
    ms, preflighted := [], [];
    for i := 0 to |names|
      invariant AllPresentable(config, names[..i])
      invariant ms == EnabledMetas(config, names[..i]) && preflighted == Externals(config, names[..i])
    {
      var name := names[i];
      assert name in Elements(names) && names[..i + 1][..i] == names[..i] && names[..i + 1] == names[..i] + [name];
      var e := config[name];
      if e.enabled {
        if !e.external && !e.instance {
          return false, ms, preflighted;
        }
        if e.external {
          if !e.preflights {
            return false, ms, preflighted;
          }
          preflighted := preflighted + [name];
        }
        if !Presentable(name, e) {
          return false, ms, preflighted;
        }
        ms := ms + [e.meta];
      }
    }
    assert names[..|names|] == names;
    assert forall n | n in config :: n in Elements(names) && n in names[..|names|];
    return true, ms, preflighted;
  }

  /** Everything before the first Init call. There is no order when it fails. */
  method Prepare(config: Config, cancelled: bool)
    returns (names: seq<string>, preflighted: seq<string>, ms: seq<Metadata>, order: seq<string>, ghost a: Attempt)
    ensures Prepared(config, cancelled, a)
    ensures a == Attempt(names, preflighted, EnabledMetas(config, names), order, 0)
    ensures order != [] ==> ms == EnabledMetas(config, names)
  {
    names := SortedNames(config);
    preflighted, ms, order := [], [], [];
    a := Attempt(names, [], EnabledMetas(config, names), [], 0);
    if cancelled || ("core" in config && !config["core"].enabled) {
      return;
    }
    var screened := Screen(config, names);
    if !screened {
      return;
    }
    var ok;
    ok, ms, preflighted := Probe(config, names);
    if ok { ok, order := OrderEnabled(config, names, ms); }
    a := a.(preflighted := preflighted, order := order);
  }

  /** All of these plugins are enabled. */
  method OrderAll(ms: seq<Metadata>) returns (result: Result<seq<string>>)
    ensures result.Ok? <==> Sound(ms) && !exists cycle :: Cycle(Dependencies(ms), cycle)
    ensures result.Ok? ==> Ordered(ms, result.value)
  {
    SelectEverything(ms);
    result := PluginHostGraph.Graph(ms, AllEnabled(ms));
  }

  lemma SelectEverything(ms: seq<Metadata>)
    ensures Selected(ms, AllEnabled(ms)) == ms
  {
    forall m | m in ms ensures Get(AllEnabled(ms), m.name) == Some(true) { assert m.name in Names(ms); }
    SelectedAll(ms, AllEnabled(ms));
  }

  /** The load order of plugins whose metadata are in hand. */
  method OrderEnabled(config: Config, ghost names: seq<string>, ms: seq<Metadata>) returns (ok: bool, order: seq<string>)
    requires Configured(config) && Elements(names) == config.Keys && ms == EnabledMetas(config, names)
    ensures ok <==> Orderable(config, ms)
    ensures ok ==> Ordered(ms, order) && Covers(config, ms, order) && order != [] && order[0] == "core"
    ensures !ok ==> order == []
  {
    CoreIsMandatory(config, names);
    if !(exists m | m in ms :: m.mandatory) {
      return false, [];
    }
    var result := OrderAll(ms);
    if result.Err? {
      return false, [];
    }
    order := result.value;
    CoreFirst(config, names, ms, order);
    CoversAll(config, names, ms, order);
    return true, order;
  }

  lemma CoversAll(config: Config, names: seq<string>, ms: seq<Metadata>, order: seq<string>)
    requires Configured(config) && Elements(names) == config.Keys && ms == EnabledMetas(config, names)
    requires Sound(ms) && Elements(order) == Names(ms)
    ensures Covers(config, ms, order)
  {
    forall n
      ensures n in order <==> n in config && config[n].enabled
      ensures n in order ==> Find(ms, n) == Some(config[n].meta)
    {
      OrderIsEnabled(config, names, order, n);
    }
  }

  lemma CoreFirst(config: Config, names: seq<string>, ms: seq<Metadata>, order: seq<string>)
    requires Configured(config) && Elements(names) == config.Keys && ms == EnabledMetas(config, names)
    requires NamesOk(ms) && MandatoryOk(ms) && Starts(Mandatory(ms), order) && exists m | m in ms :: m.mandatory
    ensures order != [] && order[0] == "core"
  {
    CoreIsMandatory(config, names);
    MandatoryMeans(ms);
    var m :| m in ms && m.mandatory;
    assert Mandatory(ms) == Some(m.name);
  }

  lemma {:induction false} ReverseEnds<T>(s: seq<T>)
    requires s != []
    ensures Reverse(s) != [] && Reverse(s)[|Reverse(s)| - 1] == s[0]
  {
    if |s| > 1 { ReverseEnds(s[..|s| - 1]); } else { assert Reverse(s[..0]) == []; }
  }
}
