/** Plugin metadata, its validation, and the load order of the enabled plugins. */
module PluginGraph {
  import opened Common
  import opened Strings
  import opened Ordering
  import opened LoadOrder

  datatype Requirement = Requirement(name: string, optional: bool)

  datatype Metadata = Metadata(name: string, mandatory: bool, publishes: seq<string>, needs: seq<Requirement>)

  predicate Blank(s: string) {
    TrimSpace(s) == ""
  }

  /** The enabled plugins, in declaration order. */
  function Selected(plugins: seq<Metadata>, enabled: map<string, bool>): seq<Metadata> {
    if plugins == [] then []
    else
      var before, last := Selected(plugins[..|plugins| - 1], enabled), plugins[|plugins| - 1];
      if Get(enabled, last.name) == Some(true) then before + [last] else before
  }

  // ---------------------------------------------------------------- when a set of plugins is sound

  predicate NamesOk(ms: seq<Metadata>) {
    && (forall m | m in ms :: !Blank(m.name))
    && (forall i, j | 0 <= i < j < |ms| :: ms[i].name != ms[j].name)
  }

  predicate MandatoryOk(ms: seq<Metadata>) {
    && (forall i, j | 0 <= i < |ms| && 0 <= j < |ms| && ms[i].mandatory && ms[j].mandatory :: i == j)
    && (forall m | m in ms && m.mandatory :: m.needs == [])
  }

  /** Every service has at most one publisher, which declares it once. */
  predicate PublishesOk(ms: seq<Metadata>) {
    && (forall m, p | m in ms && p in m.publishes :: !Blank(p))
    && (forall m | m in ms :: Distinct(m.publishes))
    && (forall i, j, p | 0 <= i < |ms| && 0 <= j < |ms| && p in ms[i].publishes && p in ms[j].publishes :: i == j)
  }

  predicate Published(ms: seq<Metadata>, service: string) {
    exists m | m in ms :: service in m.publishes
  }

  predicate NeedsOk(ms: seq<Metadata>, m: Metadata) {
    && (forall i, j | 0 <= i < j < |m.needs| :: m.needs[i].name != m.needs[j].name)
    && forall r | r in m.needs ::
         && !Blank(r.name)
         && r.name !in m.publishes
         && (Published(ms, r.name) || r.optional)
  }

  predicate Sound(ms: seq<Metadata>) {
    NamesOk(ms) && MandatoryOk(ms) && PublishesOk(ms) && forall m | m in ms :: NeedsOk(ms, m)
  }

  /** The string shows something. */
  predicate Shows(s: string) {
    exists i | 0 <= i < |s| :: !IsSpace(s[i])
  }

  lemma ShowsSomething(s: string)
    ensures Shows(s) <==> !Blank(s)
  {
    BlankMeans(s);
  }

  /** In sound metadata every plugin, every service published and every service required has a name to be seen. */
  lemma NothingBlank(ms: seq<Metadata>, m: Metadata)
    requires Sound(ms) && m in ms
    ensures Shows(m.name)
    ensures forall p | p in m.publishes :: Shows(p)
    ensures forall r | r in m.needs :: Shows(r.name)
  {
    ShowsSomething(m.name);
    forall p | p in m.publishes ensures Shows(p) { ShowsSomething(p); }
    forall r | r in m.needs ensures Shows(r.name) { assert NeedsOk(ms, m); ShowsSomething(r.name); }
  }

  // ---------------------------------------------------------------- the dependency graph

  /** The publisher of a service among the plugins; the last one where there are several. */
  function PublisherOf(ms: seq<Metadata>, service: string): Option<string> {
    if ms == [] then None
    else if service in ms[|ms| - 1].publishes then Some(ms[|ms| - 1].name)
    else PublisherOf(ms[..|ms| - 1], service)
  }

  /** Who is waited for, once per requirement that somebody meets. */
  function Waits(ms: seq<Metadata>, needs: seq<Requirement>): seq<string> {
    if needs == [] then []
    else
      var before, who := Waits(ms, needs[..|needs| - 1]), PublisherOf(ms, needs[|needs| - 1].name);
      if who.None? then before else before + [who.value]
  }

  function NeedsFor(ms: seq<Metadata>, name: string): seq<Requirement> {
    if ms == [] then [] else if ms[|ms| - 1].name == name then ms[|ms| - 1].needs else NeedsFor(ms[..|ms| - 1], name)
  }

  function Names(ms: seq<Metadata>): set<string> {
    set m | m in ms :: m.name
  }

  function Dependencies(ms: seq<Metadata>): Graph {
    map n | n in Names(ms) :: Waits(ms, NeedsFor(ms, n))
  }

  function Mandatory(ms: seq<Metadata>): Option<string> {
    if ms == [] then None else if ms[|ms| - 1].mandatory then Some(ms[|ms| - 1].name) else Mandatory(ms[..|ms| - 1])
  }

  lemma {:induction false} PublisherMeans(ms: seq<Metadata>, service: string)
    ensures PublisherOf(ms, service).Some? <==> Published(ms, service)
    ensures PublisherOf(ms, service).Some? ==>
              exists m | m in ms :: service in m.publishes && m.name == PublisherOf(ms, service).value
  {
    if ms != [] {
      var init, last := ms[..|ms| - 1], ms[|ms| - 1];
      PublisherMeans(init, service);
      assert ms == init + [last];
      assert last in ms;
      if PublisherOf(init, service).Some? && service !in last.publishes {
        var m :| m in init && service in m.publishes && m.name == PublisherOf(init, service).value;
        assert m in ms;
      }
    }
  }

  /** With sound publications a publisher is the publisher, whatever the order of the plugins. */
  lemma PublisherIs(ms: seq<Metadata>, service: string, m: Metadata)
    requires PublishesOk(ms) && m in ms && service in m.publishes
    ensures PublisherOf(ms, service) == Some(m.name)
  {
    PublisherMeans(ms, service);
    var other :| other in ms && service in other.publishes && other.name == PublisherOf(ms, service).value;
    var i :| 0 <= i < |ms| && ms[i] == m;
    var j :| 0 <= j < |ms| && ms[j] == other;
  }

  lemma {:induction false} NeedsForIs(ms: seq<Metadata>, m: Metadata)
    requires NamesOk(ms) && m in ms
    ensures NeedsFor(ms, m.name) == m.needs
  {
    var init, last := ms[..|ms| - 1], ms[|ms| - 1];
    if last.name == m.name {
      var i :| 0 <= i < |ms| && ms[i] == m;
    } else {
      assert ms == init + [last];
      NeedsForIs(init, m);
    }
  }

  lemma {:induction false} MandatoryMeans(ms: seq<Metadata>)
    requires NamesOk(ms) && MandatoryOk(ms)
    ensures forall m | m in ms && m.mandatory :: Mandatory(ms) == Some(m.name) && Dependencies(ms)[m.name] == []
    ensures Mandatory(ms).Some? ==> exists m | m in ms :: m.mandatory && m.name == Mandatory(ms).value
  {
    MandatoryFound(ms);
    forall m | m in ms && m.mandatory
      ensures Mandatory(ms) == Some(m.name) && Dependencies(ms)[m.name] == []
    {
      NeedsForIs(ms, m);
      assert m.name in Names(ms);
      var i :| 0 <= i < |ms| && ms[i] == m;
      var other :| other in ms && other.mandatory && Mandatory(ms) == Some(other.name);
      var j :| 0 <= j < |ms| && ms[j] == other;
    }
  }

  lemma {:induction false} MandatoryFound(ms: seq<Metadata>)
    ensures Mandatory(ms).Some? <==> exists m | m in ms :: m.mandatory
    ensures Mandatory(ms).Some? ==> exists m | m in ms :: m.mandatory && m.name == Mandatory(ms).value
  {
    if ms != [] {
      var init, last := ms[..|ms| - 1], ms[|ms| - 1];
      MandatoryFound(init);
      assert ms == init + [last];
      assert last in ms;
      if Mandatory(init).Some? && !last.mandatory {
        var m :| m in init && m.mandatory && m.name == Mandatory(init).value;
        assert m in ms;
      }
    }
  }

  lemma {:induction false} WaitsMeans(ms: seq<Metadata>, needs: seq<Requirement>, a: string)
    ensures a in Waits(ms, needs) <==> exists r | r in needs :: PublisherOf(ms, r.name) == Some(a)
  {
    if needs != [] {
      var init, last := needs[..|needs| - 1], needs[|needs| - 1];
      WaitsMeans(ms, init, a);
      assert needs == init + [last];
      if a in Waits(ms, init) {
        var r :| r in init && PublisherOf(ms, r.name) == Some(a);
        assert r in needs;
      }
      if a in Waits(ms, needs) && a !in Waits(ms, init) { assert last in needs; }
    }
  }

  /** An edge of the graph is a required service that somebody publishes. */
  lemma EdgeMeans(ms: seq<Metadata>, m: Metadata, a: string)
    requires Sound(ms) && m in ms
    ensures m.name in Dependencies(ms)
    ensures a in Dependencies(ms)[m.name] <==> exists r, p | r in m.needs && p in ms :: p.name == a && r.name in p.publishes
  {
    assert m.name in Names(ms);
    NeedsForIs(ms, m);
    WaitsMeans(ms, m.needs, a);
    if a in Dependencies(ms)[m.name] {
      var r :| r in m.needs && PublisherOf(ms, r.name) == Some(a);
      PublisherMeans(ms, r.name);
    }
    if exists r, p | r in m.needs && p in ms :: p.name == a && r.name in p.publishes {
      var r, p :| r in m.needs && p in ms && p.name == a && r.name in p.publishes;
      PublisherIs(ms, r.name, p);
    }
  }

  /** The graph of sound plugins is closed and has no loop of length one. */
  lemma SoundGraph(ms: seq<Metadata>)
    requires Sound(ms)
    ensures Closed(Dependencies(ms)) && forall n | n in Dependencies(ms) :: n !in Dependencies(ms)[n]
  {
    var g := Dependencies(ms);
    forall n, a | n in g && a in g[n] ensures a in g && a != n {
      var m :| m in ms && m.name == n;
      EdgeMeans(ms, m, a);
      var r, p :| r in m.needs && p in ms && p.name == a && r.name in p.publishes;
      assert a in Names(ms);
      if a == n { assert false; }
    }
  }

  // ---------------------------------------------------------------- the order of declaration does not matter

  /** Soundness in terms of membership alone. */
  predicate SoundSet(ms: seq<Metadata>) {
    && (forall m | m in ms :: !Blank(m.name))
    && (forall m, n | m in ms && n in ms && (m.name == n.name || (m.mandatory && n.mandatory)) :: m == n)
    && (forall m | m in ms && m.mandatory :: m.needs == [])
    && (forall m, p | m in ms && p in m.publishes :: !Blank(p))
    && (forall m | m in ms :: Distinct(m.publishes))
    && (forall m, n, p | m in ms && n in ms && p in m.publishes && p in n.publishes :: m == n)
    && (forall m | m in ms :: NeedsOk(ms, m))
  }

  lemma SoundIsSet(ms: seq<Metadata>)
    ensures Sound(ms) <==> Distinct(ms) && SoundSet(ms)
  {
    if Distinct(ms) && SoundSet(ms) {
      forall i, j | 0 <= i < j < |ms| ensures ms[i].name != ms[j].name {
        assert ms[i] in ms && ms[j] in ms && ms[i] != ms[j];
      }
    }
    if Sound(ms) {
      forall m, n | m in ms && n in ms && (m.name == n.name || (m.mandatory && n.mandatory)) ensures m == n {
        var i :| 0 <= i < |ms| && ms[i] == m;
        var j :| 0 <= j < |ms| && ms[j] == n;
      }
      forall m, n, p | m in ms && n in ms && p in m.publishes && p in n.publishes ensures m == n {
        var i :| 0 <= i < |ms| && ms[i] == m;
        var j :| 0 <= j < |ms| && ms[j] == n;
      }
    }
  }

  lemma SameMembers(ms: seq<Metadata>, ns: seq<Metadata>)
    requires multiset(ms) == multiset(ns)
    ensures forall m :: m in ms <==> m in ns
    ensures Sound(ms) <==> Sound(ns)
  {
    forall m ensures m in ms <==> m in ns { assert m in multiset(ms) <==> m in multiset(ns); }
    MultisetDistinct(ms);
    MultisetDistinct(ns);
    SoundIsSet(ms);
    SoundIsSet(ns);
    forall service ensures Published(ms, service) <==> Published(ns, service) {
      if Published(ms, service) { var m :| m in ms && service in m.publishes; assert m in ns; }
      if Published(ns, service) { var m :| m in ns && service in m.publishes; assert m in ms; }
    }
    assert forall m :: NeedsOk(ms, m) <==> NeedsOk(ns, m);
  }

  lemma SamePublisher(ms: seq<Metadata>, ns: seq<Metadata>, service: string)
    requires PublishesOk(ms) && PublishesOk(ns) && forall m :: m in ms <==> m in ns
    ensures PublisherOf(ms, service) == PublisherOf(ns, service)
  {
    PublisherMeans(ms, service);
    PublisherMeans(ns, service);
    if Published(ms, service) {
      var m :| m in ms && service in m.publishes;
      PublisherIs(ms, service, m);
      PublisherIs(ns, service, m);
    }
  }

  lemma {:induction false} SameWaits(ms: seq<Metadata>, ns: seq<Metadata>, needs: seq<Requirement>)
    requires PublishesOk(ms) && PublishesOk(ns) && forall m :: m in ms <==> m in ns
    ensures Waits(ms, needs) == Waits(ns, needs)
  {
    if needs != [] {
      SameWaits(ms, ns, needs[..|needs| - 1]);
      SamePublisher(ms, ns, needs[|needs| - 1].name);
    }
  }

  lemma SameDependencies(ms: seq<Metadata>, ns: seq<Metadata>)
    requires Sound(ms) && Sound(ns) && forall m :: m in ms <==> m in ns
    ensures Dependencies(ms) == Dependencies(ns)
  {
    assert Names(ms) == Names(ns);
    forall n | n in Names(ms) ensures Dependencies(ms)[n] == Dependencies(ns)[n] {
      var m :| m in ms && m.name == n;
      NeedsForIs(ms, m);
      NeedsForIs(ns, m);
      SameWaits(ms, ns, m.needs);
    }
  }

  /** Plugins declared in another order: same verdict, same graph, same reserved plugin. */
  lemma Reordered(ms: seq<Metadata>, ns: seq<Metadata>)
    requires multiset(ms) == multiset(ns)
    ensures Sound(ms) <==> Sound(ns)
    ensures Sound(ms) ==> Dependencies(ms) == Dependencies(ns) && Mandatory(ms) == Mandatory(ns)
  {
    SameMembers(ms, ns);
    if Sound(ms) {
      SameDependencies(ms, ns);
      MandatoryMeans(ms);
      MandatoryMeans(ns);
    }
  }

  /** The answer the host gives for these enabled plugins. */
  ghost predicate IsLoadOrder(ms: seq<Metadata>, result: Result<seq<string>>) {
    if result.Ok? then
      && Sound(ms)
      && Topological(Dependencies(ms), result.value)
      && Starts(Mandatory(ms), result.value)
      && Greedy(Dependencies(ms), Mandatory(ms), result.value)
    else
      !Sound(ms) || exists cycle :: Cycle(Dependencies(ms), cycle)
  }

  /** The answer depends on which plugins are enabled, not on the order in which they are declared. */
  lemma OrderIndependent(ms: seq<Metadata>, ns: seq<Metadata>, a: Result<seq<string>>, b: Result<seq<string>>)
    requires multiset(ms) == multiset(ns) && IsLoadOrder(ms, a) && IsLoadOrder(ns, b)
    ensures a == b
  {
    Reordered(ms, ns);
    if Sound(ms) {
      var g := Dependencies(ms);
      if a.Ok? && b.Ok? {
        GreedyIsUnique(g, Mandatory(ms), a.value, b.value);
      } else if a.Ok? {
        var cycle :| Cycle(g, cycle);
        OrderedHasNoCycle(g, a.value, cycle);
      } else if b.Ok? {
        var cycle :| Cycle(g, cycle);
        OrderedHasNoCycle(g, b.value, cycle);
      }
    }
  }
}
