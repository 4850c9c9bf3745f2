/**
 * The host's Load and Shutdown: which plugin calls they make, in which order, what a plugin can
 * resolve during its Init, and what is left behind when a load fails.
 */
module PluginHost {
  import opened Common
  import opened Ordering
  import opened LoadOrder
  import opened PluginGraph
  import opened PluginHostGraph

  /** How a plugin behaves when loaded; `offers` maps each provided service to whether it is non-nil. */
  datatype Conduct = Conduct(
    cancelledBefore: bool,
    migrates: bool,
    initialises: bool,
    cancelledAfter: bool,
    offers: Option<map<string, bool>>
  )

  /**
   * A configured plugin: an external one, or one that the program builds in if it is `registered`. Only
   * calling its factory shows whether there is an `instance` of a built-in one.
   */
  datatype Entry = Entry(
    enabled: bool,
    external: bool,
    registered: bool,
    instance: bool,
    preflights: bool,
    meta: Metadata,
    kind: string,
    apiSupported: bool,
    conduct: Conduct
  )

  type Config = map<string, Entry>

  /** A service is known by its name and stands for the plugin that provides it. */
  type Registry = map<string, string>

  /** Calls into plugins. An Init call comes with all it can resolve. */
  datatype Call =
    | Init(name: string, visible: Registry)
    | Start(name: string)
    | Stop(name: string)
    | Abort(name: string)

  datatype HostState = New | Loading | Running | Stopping | Stopped

  // ---------------------------------------------------------------- what a load should do

  function Reverse<T>(s: seq<T>): seq<T> {
    if s == [] then [] else [s[|s| - 1]] + Reverse(s[..|s| - 1])
  }

  function StopCalls(names: seq<string>): seq<Call> {
    seq(|names|, i requires 0 <= i < |names| => Stop(names[i]))
  }

  function AbortCalls(names: seq<string>): seq<Call> {
    seq(|names|, i requires 0 <= i < |names| => Abort(names[i]))
  }

  function StartCalls(names: seq<string>): seq<Call> {
    seq(|names|, i requires 0 <= i < |names| => Start(names[i]))
  }

  function Find(ms: seq<Metadata>, name: string): Option<Metadata> {
    if ms == [] then None else if ms[|ms| - 1].name == name then Some(ms[|ms| - 1]) else Find(ms[..|ms| - 1], name)
  }

  function PublishedBy(ms: seq<Metadata>, name: string): seq<string> {
    var m := Find(ms, name);
    if m.None? then [] else m.value.publishes
  }

  function Own(services: seq<string>, name: string): Registry {
    map s | s in services :: name
  }

  /** All services of these plugins. */
  function Services(ms: seq<Metadata>, names: seq<string>): Registry {
    if names == [] then map[]
    else
      var last := names[|names| - 1];
      Services(ms, names[..|names| - 1]) + Own(PublishedBy(ms, last), last)
  }

  /** What a plugin with these requirements can resolve. */
  function Visible(registry: Registry, needs: seq<Requirement>): Registry {
    map s | s in registry && (exists r | r in needs :: r.name == s) :: registry[s]
  }

  /** The Init calls for plugins loaded in this order. */
  function Inits(ms: seq<Metadata>, order: seq<string>): seq<Call> {
    if order == [] then []
    else
      var before, last := order[..|order| - 1], order[|order| - 1];
      Inits(ms, before) + [Init(last, Visible(Services(ms, before), NeedsFor(ms, last)))]
  }

  /** The calls of a load that failed: what was entered is stopped, what was preflighted aborted, both in reverse. */
  function Undone(before: seq<Call>, ms: seq<Metadata>, entered: seq<string>, preflighted: seq<string>): seq<Call> {
    before + Inits(ms, entered) + StopCalls(Reverse(entered)) + AbortCalls(Reverse(preflighted))
  }

  /** Exactly the declared services, all of them non-nil. */
  predicate ProvidesDeclared(m: Metadata, offers: Option<map<string, bool>>) {
    if offers.None? then m.publishes == []
    else
      && (forall p | p in m.publishes :: Get(offers.value, p) == Some(true))
      && (forall s | s in offers.value :: s in m.publishes)
  }

  predicate Behaves(c: Conduct, m: Metadata) {
    !c.cancelledBefore && c.migrates && c.initialises && !c.cancelledAfter && ProvidesDeclared(m, c.offers)
  }

  // ---------------------------------------------------------------- resolution during Init

  lemma {:induction false} FindIs(ms: seq<Metadata>, m: Metadata)
    requires NamesOk(ms) && m in ms
    ensures Find(ms, m.name) == Some(m)
  {
    var init, last := ms[..|ms| - 1], ms[|ms| - 1];
    if last.name == m.name {
      var i :| 0 <= i < |ms| && ms[i] == m;
    } else {
      assert ms == init + [last];
      FindIs(init, m);
    }
  }

  /** Some of these plugins publishes the service. */
  predicate PublishedAmong(ms: seq<Metadata>, names: seq<string>, s: string) {
    exists m | m in ms :: m.name in names && s in m.publishes
  }

  lemma AmongOneMore(ms: seq<Metadata>, names: seq<string>, p: Metadata, s: string)
    requires NamesOk(ms) && p in ms
    ensures PublishedAmong(ms, names + [p.name], s) <==> PublishedAmong(ms, names, s) || s in p.publishes
  {
    if PublishedAmong(ms, names + [p.name], s) {
      var m :| m in ms && m.name in names + [p.name] && s in m.publishes;
      FindIs(ms, m);
      FindIs(ms, p);
    }
    if PublishedAmong(ms, names, s) {
      var m :| m in ms && m.name in names && s in m.publishes;
      assert m.name in names + [p.name];
    }
    if s in p.publishes { assert p.name in names + [p.name]; }
  }

  /** The services of a set of plugins: those that one of them publishes, each standing for its publisher. */
  lemma {:induction false} ServicesMean(ms: seq<Metadata>, names: seq<string>, s: string)
    requires Sound(ms) && forall n | n in names :: n in Names(ms)
    ensures s in Services(ms, names) <==> PublishedAmong(ms, names, s)
    ensures s in Services(ms, names) ==> PublisherOf(ms, s) == Some(Services(ms, names)[s])
  {
    if names != [] {
      var init, last := names[..|names| - 1], names[|names| - 1];
      assert names == init + [last];
      ServicesMean(ms, init, s);
      assert last in names && last in Names(ms);
      var p :| p in ms && p.name == last;
      FindIs(ms, p);
      AmongOneMore(ms, init, p, s);
      if s in p.publishes { PublisherIs(ms, s, p); }
    }
  }

  /**
   * When a plugin's Init runs, a service resolves exactly when the plugin declared it and some
   * enabled plugin publishes it, and it resolves to that publisher's; a service declared as
   * not optional always resolves.
   */
  lemma ResolvesDuringInit(ms: seq<Metadata>, order: seq<string>, i: nat, m: Metadata, s: string)
    requires Sound(ms) && Topological(Dependencies(ms), order) && i < |order| && m in ms && m.name == order[i]
    ensures var visible := Visible(Services(ms, order[..i]), NeedsFor(ms, order[i]));
            && (s in visible <==> (exists r | r in m.needs :: r.name == s) && Published(ms, s))
            && (s in visible ==> PublisherOf(ms, s) == Some(visible[s]))
            && (forall r | r in m.needs && !r.optional :: r.name in visible)
  {
    NeedsForIs(ms, m);
    assert m.name in Names(ms);
    forall n | n in order[..i] ensures n in Names(ms) { assert n in Elements(order); }
    forall r | r in m.needs && Published(ms, r.name) ensures r.name in Services(ms, order[..i]) {
      var p :| p in ms && r.name in p.publishes;
      EdgeMeans(ms, m, p.name);
      assert p.name in Dependencies(ms)[order[i]];
      ServicesMean(ms, order[..i], r.name);
    }
    ServicesMean(ms, order[..i], s);
  }

  lemma {:induction false} InitCallAt(ms: seq<Metadata>, order: seq<string>, i: nat)
    requires i < |order|
    ensures |Inits(ms, order)| == |order|
    ensures Inits(ms, order)[i] == Init(order[i], Visible(Services(ms, order[..i]), NeedsFor(ms, order[i])))
  {
    var init := order[..|order| - 1];
    if i < |init| {
      InitCallAt(ms, init, i);
      assert init[..i] == order[..i];
    } else {
      assert order[..i] == init;
      if init != [] { InitCallAt(ms, init, 0); }
    }
  }

  /** What each Init call of a load, complete or not, lets its plugin resolve. */
  lemma InitCallSees(ms: seq<Metadata>, order: seq<string>, entered: nat, i: nat, m: Metadata, s: string)
    requires Sound(ms) && Topological(Dependencies(ms), order) && i < entered <= |order| && m in ms && m.name == order[i]
    ensures |Inits(ms, order[..entered])| == entered
    ensures var call := Inits(ms, order[..entered])[i];
            && call.Init? && call.name == m.name
            && (s in call.visible <==> (exists r | r in m.needs :: r.name == s) && Published(ms, s))
            && (s in call.visible ==> PublisherOf(ms, s) == Some(call.visible[s]))
            && (forall r | r in m.needs && !r.optional :: r.name in call.visible)
  {
    InitCallAt(ms, order[..entered], i);
    assert order[..entered][..i] == order[..i];
    ResolvesDuringInit(ms, order, i, m, s);
  }

  // ---------------------------------------------------------------- which configurations load

  /** There is something to make the plugin with. */
  predicate Obtainable(name: string, e: Entry) {
    !Blank(name) && if e.external then name != "core" else e.registered
  }

  /** It can be made, and its metadata are fit for the graph; only "core" is mandatory, and it is. */
  predicate Presentable(name: string, e: Entry) {
    && (if e.external then e.preflights else e.instance)
    && e.meta.name == name
    && !Blank(e.kind)
    && (e.meta.mandatory <==> name == "core")
    && e.apiSupported
  }

  predicate Configured(config: Config) {
    && ("core" in config ==> config["core"].enabled)
    && forall n | n in config && config[n].enabled :: Obtainable(n, config[n]) && Presentable(n, config[n])
  }

  /**
   * Which enabled plugins keep a configuration from loading: one without a name, one whose kind is blank, one
   * that the program does not have or gets no instance of, an external one that fails its
   * preflight, one with another name than configured, one with an unsupported API version, an
   * external "core", and one that is mandatory without being "core" or the other way round.
   */
  predicate Unfit(name: string, e: Entry) {
    || !Shows(name) || !Shows(e.kind)
    || (!e.external && !e.registered) || (!e.external && !e.instance) || (e.external && !e.preflights)
    || e.meta.name != name || !e.apiSupported
    || (name == "core" && (e.external || !e.meta.mandatory)) || (name != "core" && e.meta.mandatory)
  }

  /** A configuration comes to an order only without such a plugin and with "core" enabled; without one, it is not refused here. */
  lemma UnfitNeverLoads(config: Config, ms: seq<Metadata>)
    ensures Orderable(config, ms) ==>
              "core" in config && config["core"].enabled && forall n | n in config && config[n].enabled :: !Unfit(n, config[n])
    ensures ("core" in config ==> config["core"].enabled) && (forall n | n in config && config[n].enabled :: !Unfit(n, config[n])) ==>
              Configured(config)
  {
    forall n | n in config && config[n].enabled
      ensures Unfit(n, config[n]) <==> !(Obtainable(n, config[n]) && Presentable(n, config[n]))
    {
      ShowsSomething(n);
      ShowsSomething(config[n].kind);
    }
  }

  /** A plugin that is loaded was not cancelled, migrated, initialised, and offered exactly what it declares, no service nil. */
  lemma LoadedDidItsPart(config: Config, order: seq<string>, n: string)
    requires AllBehave(config, order) && n in order && n in config
    ensures var c, m := config[n].conduct, config[n].meta;
            && c.migrates && c.initialises && !c.cancelledBefore && !c.cancelledAfter
            && (forall s :: s in m.publishes <==> c.offers.Some? && s in c.offers.value)
            && (forall s | s in m.publishes :: c.offers.value[s])
  {
    var c, m := config[n].conduct, config[n].meta;
    assert Behaves(c, m);
    if c.offers.Some? {
      forall s | s in m.publishes ensures s in c.offers.value && c.offers.value[s] { assert Get(c.offers.value, s) == Some(true); }
    }
  }

  /** The metadata of the enabled plugins among these, in this order. */
  function EnabledMetas(config: Config, names: seq<string>): seq<Metadata> {
    if names == [] then []
    else
      var before, last := EnabledMetas(config, names[..|names| - 1]), names[|names| - 1];
      if last in config && config[last].enabled then before + [config[last].meta] else before
  }

  lemma {:induction false} EnabledMetasMean(config: Config, names: seq<string>, m: Metadata)
    ensures m in EnabledMetas(config, names) <==> exists n | n in names :: n in config && config[n].enabled && config[n].meta == m
  {
    if names != [] {
      var init, last := names[..|names| - 1], names[|names| - 1];
      assert names == init + [last];
      EnabledMetasMean(config, init, m);
      if m in EnabledMetas(config, init) {
        var n :| n in init && n in config && config[n].enabled && config[n].meta == m;
        assert n in names;
      }
      if m in EnabledMetas(config, names) && m !in EnabledMetas(config, init) { assert last in names; }
    }
  }

  /**
   * What a load comes down to: the configured names in order, the external plugins preflighted, the
   * metadata of the enabled plugins, their load order, and how many Init calls were made.
   */
  datatype Attempt = Attempt(names: seq<string>, preflighted: seq<string>, ms: seq<Metadata>, order: seq<string>, entered: nat)

  ghost predicate Ordered(ms: seq<Metadata>, order: seq<string>) {
    && Sound(ms) && Topological(Dependencies(ms), order)
    && Starts(Mandatory(ms), order) && Greedy(Dependencies(ms), Mandatory(ms), order)
  }

  /** The enabled plugins can be made and put in order. */
  ghost predicate Orderable(config: Config, ms: seq<Metadata>) {
    && Configured(config) && "core" in config
    && Sound(ms) && !exists cycle :: Cycle(Dependencies(ms), cycle)
  }

  /** Each of these plugins does its part. */
  predicate AllBehave(config: Config, names: seq<string>) {
    forall n | n in names && n in config :: Behaves(config[n].conduct, config[n].meta)
  }

  /** The plugin fails before its Init is called. */
  predicate Unentered(c: Conduct) {
    c.cancelledBefore || !c.migrates
  }

  /**
   * How many plugins have their Init called: all of them, or those before the first that does not
   * do its part, and that one unless it fails before its Init.
   */
  predicate EntersUpTo(config: Config, order: seq<string>, entered: nat) {
    if AllBehave(config, order) then entered == |order|
    else
      exists k | 0 <= k < |order| ::
        && AllBehave(config, order[..k])
        && order[k] in config && !Behaves(config[order[k]].conduct, config[order[k]].meta)
        && entered == if Unentered(config[order[k]].conduct) then k else k + 1
  }

  /** Init is called only on plugins that were migrated and not cancelled before. */
  lemma EnteredWereMigrated(config: Config, order: seq<string>, entered: nat, i: nat)
    requires EntersUpTo(config, order, entered) && i < entered <= |order| && forall n | n in order :: n in config
    ensures config[order[i]].conduct.migrates && !config[order[i]].conduct.cancelledBefore
  {
    if AllBehave(config, order) {
      assert order[i] in order;
    } else {
      var k :| 0 <= k < |order| && AllBehave(config, order[..k])
               && order[k] in config && !Behaves(config[order[k]].conduct, config[order[k]].meta)
               && entered == if Unentered(config[order[k]].conduct) then k else k + 1;
      if i < k { assert order[..k][i] in order[..k]; }
    }
  }

  /** The enabled external plugins, in order. */
  function Externals(config: Config, names: seq<string>): seq<string> {
    if names == [] then []
    else
      var before, last := Externals(config, names[..|names| - 1]), names[|names| - 1];
      if last in config && config[last].enabled && config[last].external then before + [last] else before
  }

  predicate AllPresentable(config: Config, names: seq<string>) {
    forall n | n in names && n in config && config[n].enabled :: Presentable(n, config[n])
  }

  /**
   * Which plugins are preflighted: all external ones, or those before the first plugin that is not
   * presentable, and that one if it is external and its preflight succeeds.
   */
  predicate PreflightsUpTo(config: Config, names: seq<string>, preflighted: seq<string>) {
    if AllPresentable(config, names) then preflighted == Externals(config, names)
    else
      exists k | 0 <= k < |names| ::
        && AllPresentable(config, names[..k])
        && names[k] in config && config[names[k]].enabled && !Presentable(names[k], config[names[k]])
        && preflighted == Externals(config, names[..k])
                          + if config[names[k]].external && config[names[k]].preflights then [names[k]] else []
  }

  /** Nothing stops the load before a plugin is made. */
  predicate Screened(config: Config) {
    && ("core" in config ==> config["core"].enabled)
    && forall n | n in config && config[n].enabled :: Obtainable(n, config[n])
  }

  predicate PreflightsOf(config: Config, names: seq<string>, cancelled: bool, preflighted: seq<string>) {
    if cancelled || !Screened(config) then preflighted == [] else PreflightsUpTo(config, names, preflighted)
  }

  /** These are the enabled plugins, and these their metadata. */
  ghost predicate Covers(config: Config, ms: seq<Metadata>, order: seq<string>) {
    forall n ::
      && (n in order <==> n in config && config[n].enabled)
      && (n in order ==> Find(ms, n) == Some(config[n].meta))
  }

  /**
   * What an attempt amounts to before the first Init call: the configured names in order, the
   * metadata of the enabled plugins, who was preflighted, and a load order exactly when there is one.
   */
  ghost predicate Prepared(config: Config, cancelled: bool, a: Attempt) {
    && Distinct(a.names) && Elements(a.names) == config.Keys && Sorted(a.names, Itself)
    && a.ms == EnabledMetas(config, a.names)
    && PreflightsOf(config, a.names, cancelled, a.preflighted)
    && (a.order != [] <==> !cancelled && Orderable(config, a.ms))
    && (a.order != [] ==> Ordered(a.ms, a.order) && Covers(config, a.ms, a.order) && a.order[0] == "core")
  }

  function AllEnabled(ms: seq<Metadata>): map<string, bool> {
    map n | n in Names(ms) :: true
  }

  lemma {:induction false} SelectedAll(ms: seq<Metadata>, enabled: map<string, bool>)
    requires forall m | m in ms :: Get(enabled, m.name) == Some(true)
    ensures Selected(ms, enabled) == ms
  {
    if ms != [] {
      SelectedAll(ms[..|ms| - 1], enabled);
      assert ms == ms[..|ms| - 1] + [ms[|ms| - 1]];
    }
  }

  /** The plugins to load are the enabled ones. */
  lemma OrderIsEnabled(config: Config, names: seq<string>, order: seq<string>, n: string)
    requires Configured(config) && Elements(names) == config.Keys
    requires Sound(EnabledMetas(config, names)) && Elements(order) == Names(EnabledMetas(config, names))
    ensures n in order <==> n in config && config[n].enabled
    ensures n in order ==> Find(EnabledMetas(config, names), n) == Some(config[n].meta)
  {
    var ms := EnabledMetas(config, names);
    assert n in order <==> n in Elements(order);
    if n in order {
      var m :| m in ms && m.name == n;
      EnabledMetasMean(config, names, m);
      var k :| k in names && k in config && config[k].enabled && config[k].meta == m;
      FindIs(ms, m);
    }
    if n in config && config[n].enabled {
      assert n in Elements(names);
      EnabledMetasMean(config, names, config[n].meta);
      assert config[n].meta in ms;
    }
  }

  /** The mandatory plugin is "core". */
  lemma CoreIsMandatory(config: Config, names: seq<string>)
    requires Configured(config) && Elements(names) == config.Keys
    ensures (exists m | m in EnabledMetas(config, names) :: m.mandatory) <==> "core" in config
    ensures forall m | m in EnabledMetas(config, names) && m.mandatory :: m.name == "core"
  {
    var ms := EnabledMetas(config, names);
    forall m | m in ms && m.mandatory ensures m.name == "core" && "core" in config {
      EnabledMetasMean(config, names, m);
    }
    if "core" in config {
      assert "core" in Elements(names);
      EnabledMetasMean(config, names, config["core"].meta);
      assert config["core"].meta in ms;
    }
  }
}
