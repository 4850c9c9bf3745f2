/** The host's graph routine: selection, validation, edges and order. */
module PluginHostGraph {
  import opened Common
  import opened Ordering
  import opened LoadOrder
  import opened PluginGraph

  method Select(plugins: seq<Metadata>, enabled: map<string, bool>) returns (ms: seq<Metadata>)
    ensures ms == Selected(plugins, enabled)
  {
    ms := [];
    for i := 0 to |plugins|
      invariant ms == Selected(plugins[..i], enabled)
    {
      assert plugins[..i + 1][..i] == plugins[..i];
      if Get(enabled, plugins[i].name) == Some(true) { ms := ms + [plugins[i]]; }
    }
    assert plugins[..|plugins|] == plugins;
  }

  // ---------------------------------------------------------------- names and publications

  /** What the first pass checks of one more plugin. */
  predicate NameFits(ms: seq<Metadata>, m: Metadata) {
    !Blank(m.name) && forall n | n in ms :: n.name != m.name
  }

  predicate MandatoryFits(ms: seq<Metadata>, m: Metadata) {
    m.mandatory ==> m.needs == [] && Mandatory(ms).None?
  }

  predicate PublicationsFit(ms: seq<Metadata>, m: Metadata) {
    Distinct(m.publishes) && forall p | p in m.publishes :: !Blank(p) && PublisherOf(ms, p).None?
  }

  lemma NamesExtend(ms: seq<Metadata>, m: Metadata)
    ensures NamesOk(ms + [m]) <==> NamesOk(ms) && NameFits(ms, m)
  {
    var longer := ms + [m];
    assert forall i | 0 <= i < |ms| :: longer[i] == ms[i];
    assert longer[|ms|] == m;
    if NamesOk(longer) {
      forall n | n in ms ensures !Blank(n.name) && n.name != m.name {
        assert n in longer;
        var i :| 0 <= i < |ms| && ms[i] == n;
        assert longer[i].name != longer[|ms|].name;
      }
      forall i, j | 0 <= i < j < |ms| ensures ms[i].name != ms[j].name { assert longer[i].name != longer[j].name; }
    }
  }

  lemma MandatoryExtend(ms: seq<Metadata>, m: Metadata)
    ensures MandatoryOk(ms + [m]) <==> MandatoryOk(ms) && MandatoryFits(ms, m)
  {
    var longer := ms + [m];
    assert forall i | 0 <= i < |ms| :: longer[i] == ms[i];
    assert longer[|ms|] == m && m in longer;
    MandatoryFound(ms);
    if MandatoryOk(longer) {
      forall n | n in ms && n.mandatory ensures n.needs == [] && !m.mandatory {
        assert n in longer;
        var i :| 0 <= i < |ms| && ms[i] == n;
        assert longer[i].mandatory;
      }
      forall i, j | 0 <= i < |ms| && 0 <= j < |ms| && ms[i].mandatory && ms[j].mandatory ensures i == j {
        assert longer[i].mandatory && longer[j].mandatory;
      }
    }
  }

  lemma PublishesExtend(ms: seq<Metadata>, m: Metadata)
    ensures PublishesOk(ms + [m]) <==> PublishesOk(ms) && PublicationsFit(ms, m)
  {
    var longer := ms + [m];
    assert forall i | 0 <= i < |ms| :: longer[i] == ms[i];
    assert longer[|ms|] == m && m in longer;
    forall p ensures PublisherOf(ms, p).Some? <==> Published(ms, p) { PublisherMeans(ms, p); }
    if PublishesOk(longer) {
      ShorterPublishes(ms, m);
    }
  }

  lemma ShorterPublishes(ms: seq<Metadata>, m: Metadata)
    requires PublishesOk(ms + [m])
    ensures PublishesOk(ms) && PublicationsFit(ms, m)
  {
    var longer := ms + [m];
    assert forall i | 0 <= i < |ms| :: longer[i] == ms[i];
    assert longer[|ms|] == m && m in longer;
    assert forall n | n in ms :: n in longer;
    forall i, j, p | 0 <= i < |ms| && 0 <= j < |ms| && p in ms[i].publishes && p in ms[j].publishes ensures i == j {
      assert longer[i].publishes == ms[i].publishes && longer[j].publishes == ms[j].publishes;
    }
    forall p | p in m.publishes ensures PublisherOf(ms, p).None? {
      PublisherMeans(ms, p);
      if Published(ms, p) { assert false; }
    }
  }

  predicate Declared(ms: seq<Metadata>) {
    NamesOk(ms) && MandatoryOk(ms) && PublishesOk(ms)
  }

  lemma DeclaredExtend(ms: seq<Metadata>, m: Metadata)
    ensures Declared(ms + [m]) <==> Declared(ms) && NameFits(ms, m) && MandatoryFits(ms, m) && PublicationsFit(ms, m)
  {
    NamesExtend(ms, m);
    MandatoryExtend(ms, m);
    PublishesExtend(ms, m);
  }

  lemma {:induction false} DeclaredPrefix(ms: seq<Metadata>, k: nat)
    requires k <= |ms| && Declared(ms)
    ensures Declared(ms[..k])
    decreases |ms| - k
  {
    if k == |ms| {
      assert ms[..k] == ms;
    } else {
      DeclaredPrefix(ms, k + 1);
      assert ms[..k + 1] == ms[..k] + [ms[k]];
      DeclaredExtend(ms[..k], ms[k]);
    }
  }

  /** The service table holds exactly the publishers of these plugins. */
  ghost predicate Tabulates(published: map<string, string>, ms: seq<Metadata>) {
    forall s :: Get(published, s) == PublisherOf(ms, s)
  }

  /** One plugin's publications enter the table, or something is wrong with them. */
  method Publish(ms: seq<Metadata>, m: Metadata, table: map<string, string>) returns (ok: bool, published: map<string, string>)
    requires Tabulates(table, ms)
    ensures ok <==> PublicationsFit(ms, m)
    ensures ok ==> Tabulates(published, ms + [m])
  {
    published := table;
    var declared := {};
    for j := 0 to |m.publishes|
      invariant forall p :: p in declared <==> p in m.publishes[..j]
      invariant Distinct(m.publishes[..j])
      invariant forall p | p in m.publishes[..j] :: !Blank(p) && PublisherOf(ms, p).None?
      invariant forall s :: Get(published, s) == if s in m.publishes[..j] then Some(m.name) else PublisherOf(ms, s)
    {
      var p := m.publishes[j];
      assert p in m.publishes;
      if Blank(p) {
        return false, published;
      }
      if p in declared {
        var i :| 0 <= i < j && m.publishes[i] == p;
        return false, published;
      }
      declared := declared + {p};
      if p in published {
        assert Get(published, p) == PublisherOf(ms, p);
        return false, published;
      }
      published := published[p := m.name];
    }
    assert m.publishes[..|m.publishes|] == m.publishes;
    assert (ms + [m])[..|ms|] == ms;
    return true, published;
  }

  /** What the first pass has to find out about the next plugin. */
  lemma FirstPass(ms: seq<Metadata>, k: nat)
    requires k < |ms|
    ensures ms[..k + 1] == ms[..k] + [ms[k]]
    ensures Declared(ms) ==> Declared(ms[..k + 1])
    ensures Declared(ms[..k + 1]) <==>
            && Declared(ms[..k])
            && !Blank(ms[k].name) && ms[k].name !in Names(ms[..k])
            && MandatoryFits(ms[..k], ms[k])
            && PublicationsFit(ms[..k], ms[k])
    ensures Names(ms[..k + 1]) == Names(ms[..k]) + {ms[k].name}
    ensures Mandatory(ms[..k + 1]) == if ms[k].mandatory then Some(ms[k].name) else Mandatory(ms[..k])
  {
    var before, m := ms[..k], ms[k];
    assert ms[..k + 1] == before + [m] && (before + [m])[..k] == before;
    if Declared(ms) { DeclaredPrefix(ms, k + 1); }
    DeclaredExtend(before, m);
    assert NameFits(before, m) <==> !Blank(m.name) && m.name !in Names(before);
    forall n ensures n in Names(before + [m]) <==> n in Names(before) || n == m.name {
      if n in Names(before) {
        var x :| x in before && x.name == n;
        assert x in before + [m];
      }
      if n == m.name { assert m in before + [m]; }
    }
  }

  /** The first pass: the service table and the mandatory plugin. */
  method Declare(ms: seq<Metadata>) returns (ok: bool, published: map<string, string>, first: Option<string>)
    ensures ok <==> Declared(ms)
    ensures ok ==> Tabulates(published, ms) && first == Mandatory(ms)
  {
    published, first := map[], None;
    var byName := {};
    for k := 0 to |ms|
      invariant Declared(ms[..k]) && Tabulates(published, ms[..k]) && first == Mandatory(ms[..k])
      invariant byName == Names(ms[..k])
    {
      var m := ms[k];
      FirstPass(ms, k);
      if Blank(m.name) || m.name in byName {
        return false, published, first;
      }
      byName := byName + {m.name};
      if m.mandatory {
        if first.Some? || m.needs != [] {
          return false, published, first;
        }
        first := Some(m.name);
      }
      var fits, table := Publish(ms[..k], m, published);
      if !fits {
        return false, published, first;
      }
      published := table;
    }
    assert ms[..|ms|] == ms;
    return true, published, first;
  }

  // ---------------------------------------------------------------- requirements and edges

  /** The counters and the reverse lists describe this graph. */
  ghost predicate Tracks(g: Graph, inDegree: map<string, int>, consumers: map<string, seq<string>>) {
    && inDegree.Keys == g.Keys
    && (forall n | n in g :: inDegree[n] == |g[n]|)
    && (forall p, c :: Occurrences(consumers, p, c) == if c in g then multiset(g[c])[p] else 0)
  }

  lemma CountAppend(s: seq<string>, x: string, y: string)
    ensures multiset(s + [x])[y] == multiset(s)[y] + if x == y then 1 else 0
  {
  }

  lemma AddNode(g: Graph, inDegree: map<string, int>, consumers: map<string, seq<string>>, n: string)
    requires Tracks(g, inDegree, consumers) && n !in g
    ensures Tracks(With(g, n, []), inDegree[n := 0], consumers)
  {
  }

  lemma AddEdge(g: Graph, inDegree: map<string, int>, consumers: map<string, seq<string>>, n: string, who: string)
    requires Tracks(g, inDegree, consumers) && n in g
    ensures Tracks(g[n := g[n] + [who]], inDegree[n := inDegree[n] + 1], consumers[who := ListOf(consumers, who) + [n]])
  {
    var h, lists := g[n := g[n] + [who]], consumers[who := ListOf(consumers, who) + [n]];
    forall p, c ensures Occurrences(lists, p, c) == if c in h then multiset(h[c])[p] else 0 {
      CountAppend(ListOf(consumers, who), n, c);
      CountAppend(g[n], who, p);
      assert Occurrences(consumers, p, c) == if c in g then multiset(g[c])[p] else 0;
    }
  }

  /** What the second pass has to find wrong with a plugin's requirements. */
  predicate NeedFits(ms: seq<Metadata>, m: Metadata, r: Requirement) {
    && !Blank(r.name)
    && (PublisherOf(ms, r.name).Some? || r.optional)
    && PublisherOf(ms, r.name) != Some(m.name)
  }

  lemma NeedFitsMeans(ms: seq<Metadata>, m: Metadata, r: Requirement)
    requires NamesOk(ms) && PublishesOk(ms) && m in ms
    ensures NeedFits(ms, m, r) <==> !Blank(r.name) && r.name !in m.publishes && (Published(ms, r.name) || r.optional)
  {
    PublisherMeans(ms, r.name);
    if r.name in m.publishes { PublisherIs(ms, r.name, m); }
    if PublisherOf(ms, r.name) == Some(m.name) {
      var p :| p in ms && r.name in p.publishes && p.name == m.name;
      var i :| 0 <= i < |ms| && ms[i] == p;
      var j :| 0 <= j < |ms| && ms[j] == m;
    }
  }

  predicate NeedsFit(ms: seq<Metadata>, m: Metadata) {
    && (forall i, j | 0 <= i < j < |m.needs| :: m.needs[i].name != m.needs[j].name)
    && (forall r | r in m.needs :: NeedFits(ms, m, r))
  }

  lemma NeedsMeans(ms: seq<Metadata>, m: Metadata)
    requires NamesOk(ms) && PublishesOk(ms) && m in ms
    ensures NeedsOk(ms, m) <==> NeedsFit(ms, m)
  {
    forall r ensures NeedFits(ms, m, r) <==> !Blank(r.name) && r.name !in m.publishes && (Published(ms, r.name) || r.optional) {
      NeedFitsMeans(ms, m, r);
    }
  }

  lemma WaitsGrow(ms: seq<Metadata>, needs: seq<Requirement>, j: nat)
    requires j < |needs|
    ensures Waits(ms, needs[..j + 1]) == Waits(ms, needs[..j]) + Met(ms, needs[j])
  {
    assert needs[..j + 1][..j] == needs[..j];
  }

  /** One more service that `n` waits for. */
  method AddConsumer(ghost g: Graph, degrees: map<string, int>, lists: map<string, seq<string>>, n: string, who: string)
    returns (inDegree: map<string, int>, consumers: map<string, seq<string>>)
    requires Tracks(g, degrees, lists) && n in g
    ensures Tracks(g[n := g[n] + [who]], inDegree, consumers)
  {
    AddEdge(g, degrees, lists, n, who);
    consumers := lists[who := ListOf(lists, who) + [n]];
    inDegree := degrees[n := degrees[n] + 1];
  }

  /** The names of the first requirements. */
  function Earlier(m: Metadata, j: nat): set<string>
    requires j <= |m.needs|
  {
    set i | 0 <= i < j :: m.needs[i].name
  }

  predicate FirstFit(ms: seq<Metadata>, m: Metadata, j: nat)
    requires j <= |m.needs|
  {
    && (forall i, k | 0 <= i < k < j :: m.needs[i].name != m.needs[k].name)
    && (forall i | 0 <= i < j :: NeedFits(ms, m, m.needs[i]))
  }

  lemma FirstFitGrows(ms: seq<Metadata>, m: Metadata, j: nat)
    requires j < |m.needs|
    ensures FirstFit(ms, m, j + 1) <==>
            FirstFit(ms, m, j) && m.needs[j].name !in Earlier(m, j) && NeedFits(ms, m, m.needs[j])
    ensures Earlier(m, j + 1) == Earlier(m, j) + {m.needs[j].name}
    ensures NeedsFit(ms, m) ==> FirstFit(ms, m, j + 1)
  {
  }

  /** A plugin and those it waits for added to a graph. */
  ghost function With(g: Graph, n: string, waits: seq<string>): Graph {
    g[n := waits]
  }

  /** Who meets a requirement. */
  function Met(ms: seq<Metadata>, r: Requirement): seq<string> {
    var who := PublisherOf(ms, r.name);
    if who.None? then [] else [who.value]
  }

  /** One requirement becomes an edge, if somebody meets it, or something is wrong with it. */
  method RequireOne(ms: seq<Metadata>, m: Metadata, r: Requirement, published: map<string, string>, declared: set<string>,
                    ghost g: Graph, ghost waits: seq<string>, degrees: map<string, int>, lists: map<string, seq<string>>)
    returns (ok: bool, inDegree: map<string, int>, consumers: map<string, seq<string>>)
    requires Get(published, r.name) == PublisherOf(ms, r.name) && Tracks(With(g, m.name, waits), degrees, lists)
    ensures ok <==> r.name !in declared && NeedFits(ms, m, r)
    ensures ok ==> Tracks(With(g, m.name, waits + Met(ms, r)), inDegree, consumers)
  {
    ok, inDegree, consumers := true, degrees, lists;
    if Blank(r.name) || r.name in declared {
      return false, degrees, lists;
    }
    if r.name in published {
      var who := published[r.name];
      if who == m.name {
        return false, degrees, lists;
      }
      inDegree, consumers := AddConsumer(With(g, m.name, waits), degrees, lists, m.name, who);
      assert With(g, m.name, waits)[m.name := waits + [who]] == With(g, m.name, waits + [who]);
    } else {
      ok := r.optional;
      assert waits + [] == waits;
    }
  }

  /** One plugin's requirements become edges, or something is wrong with them. */
  method Require(ms: seq<Metadata>, m: Metadata, published: map<string, string>, ghost g: Graph,
                 degrees: map<string, int>, lists: map<string, seq<string>>)
    returns (ok: bool, inDegree: map<string, int>, consumers: map<string, seq<string>>)
    requires Tabulates(published, ms) && Tracks(g, degrees, lists) && m.name !in g
    ensures ok <==> NeedsFit(ms, m)
    ensures ok ==> Tracks(With(g, m.name, Waits(ms, m.needs)), inDegree, consumers)
  {
    inDegree, consumers := degrees[m.name := 0], lists;
    AddNode(g, degrees, lists, m.name);
    var declared := {};
    assert Waits(ms, m.needs[..0]) == [];
    for j := 0 to |m.needs|
      invariant declared == Earlier(m, j) && FirstFit(ms, m, j)
      invariant Tracks(With(g, m.name, Waits(ms, m.needs[..j])), inDegree, consumers)
    {
      FirstFitGrows(ms, m, j);
      WaitsGrow(ms, m.needs, j);
      ok, inDegree, consumers := RequireOne(ms, m, m.needs[j], published, declared, g, Waits(ms, m.needs[..j]), inDegree, consumers);
      if !ok {
        return;
      }
      declared := declared + {m.needs[j].name};
    }
    assert m.needs[..|m.needs|] == m.needs;
    FirstFitAll(ms, m);
    ok := true;
  }

  lemma FirstFitAll(ms: seq<Metadata>, m: Metadata)
    requires FirstFit(ms, m, |m.needs|)
    ensures NeedsFit(ms, m)
  {
  }

  /** The graph of the plugins handled so far. */
  ghost function PartialGraph(ms: seq<Metadata>, k: nat): Graph
    requires k <= |ms|
  {
    map n | n in Names(ms[..k]) :: Waits(ms, NeedsFor(ms, n))
  }

  lemma NamesGrow(ms: seq<Metadata>, k: nat)
    requires k < |ms| && NamesOk(ms)
    ensures Names(ms[..k + 1]) == Names(ms[..k]) + {ms[k].name} && ms[k].name !in Names(ms[..k])
  {
    assert ms[..k + 1] == ms[..k] + [ms[k]];
    assert forall m | m in ms[..k + 1] :: m in ms[..k] || m == ms[k];
    assert ms[k] in ms[..k + 1];
  }

  lemma PartialGrows(ms: seq<Metadata>, k: nat)
    requires k < |ms| && NamesOk(ms)
    ensures ms[k].name !in PartialGraph(ms, k)
    ensures PartialGraph(ms, k + 1) == PartialGraph(ms, k)[ms[k].name := Waits(ms, ms[k].needs)]
  {
    NamesGrow(ms, k);
    assert NeedsFor(ms, ms[k].name) == ms[k].needs by { NeedsForIs(ms, ms[k]); }
    var before, after := PartialGraph(ms, k), PartialGraph(ms, k + 1);
    assert after.Keys == before.Keys + {ms[k].name};
    assert forall n | n in before :: after[n] == before[n];
  }

  /** The second pass. */
  method BuildEdges(ms: seq<Metadata>, published: map<string, string>)
    returns (ok: bool, inDegree: map<string, int>, consumers: map<string, seq<string>>)
    requires NamesOk(ms) && PublishesOk(ms) && Tabulates(published, ms)
    ensures ok <==> forall m | m in ms :: NeedsOk(ms, m)
    ensures ok ==> Tracks(Dependencies(ms), inDegree, consumers)
  {
    inDegree, consumers := map[], map[];
    for k := 0 to |ms|
      invariant Tracks(PartialGraph(ms, k), inDegree, consumers)
      invariant forall m | m in ms[..k] :: NeedsOk(ms, m)
    {
      assert ms[k] in ms && ms[..k + 1] == ms[..k] + [ms[k]];
      PartialGrows(ms, k);
      NeedsMeans(ms, ms[k]);
      ok, inDegree, consumers := Require(ms, ms[k], published, PartialGraph(ms, k), inDegree, consumers);
      if !ok {
        return;
      }
    }
    assert ms[..|ms|] == ms;
    assert PartialGraph(ms, |ms|) == Dependencies(ms);
    ok := true;
  }

  /** Each list of consumers sorted. */
  method SortLists(ghost g: Graph, inDegree: map<string, int>, lists: map<string, seq<string>>)
    returns (consumers: map<string, seq<string>>)
    requires Tracks(g, inDegree, lists)
    ensures Tracks(g, inDegree, consumers)
  {
    consumers := lists;
    var todo := lists.Keys;
    while todo != {}
      invariant Tracks(g, inDegree, consumers) && todo <= consumers.Keys
    {
      var p :| p in todo;
      var sorted := Sort(consumers[p], Itself);
      SortedTracks(g, inDegree, consumers, p, sorted, consumers[p := sorted]);
      consumers, todo := consumers[p := sorted], todo - {p};
    }
  }

  lemma SortedTracks(g: Graph, inDegree: map<string, int>, lists: map<string, seq<string>>, p: string, sorted: seq<string>,
                     after: map<string, seq<string>>)
    requires Tracks(g, inDegree, lists) && multiset(sorted) == multiset(ListOf(lists, p)) && after == lists[p := sorted]
    ensures Tracks(g, inDegree, after)
  {
    forall q, c ensures Occurrences(after, q, c) == Occurrences(lists, q, c) {
      assert ListOf(after, q) == if q == p then sorted else ListOf(lists, q);
    }
  }

  lemma TracksAreEdges(g: Graph, inDegree: map<string, int>, consumers: map<string, seq<string>>)
    requires Tracks(g, inDegree, consumers) && Closed(g) && forall n | n in g :: n !in g[n]
    ensures Edges(g, inDegree, consumers)
  {
    forall c | c in g ensures inDegree[c] == Open(g[c], {}) { OpenNone(g[c]); }
    forall p, c | p in g && c in ListOf(consumers, p) ensures c in g {
      assert Occurrences(consumers, p, c) > 0;
    }
    assert Reverses(g, consumers);
    assert Counts(g, inDegree, {});
  }

  lemma {:induction false} NamesAre(ms: seq<Metadata>, names: seq<string>)
    requires NamesOk(ms) && |names| == |ms| && forall i | 0 <= i < |ms| :: names[i] == ms[i].name
    ensures Distinct(names) && Elements(names) == Dependencies(ms).Keys
  {
    forall n ensures n in Elements(names) <==> n in Dependencies(ms).Keys {
      if n in names {
        var i :| 0 <= i < |names| && names[i] == n;
        assert ms[i] in ms;
      }
      if n in Names(ms) {
        var m :| m in ms && m.name == n;
        var i :| 0 <= i < |ms| && ms[i] == m;
        assert names[i] == n;
      }
    }
  }

  function NameOf(m: Metadata): string {
    m.name
  }

  method OrderOf(ms: seq<Metadata>) returns (result: Result<seq<string>>)
    ensures IsLoadOrder(ms, result)
  {
    var declared, published, first := Declare(ms);
    if !declared {
      return Err;
    }
    var ok, inDegree, lists := BuildEdges(ms, published);
    if !ok {
      return Err;
    }
    var consumers := SortLists(Dependencies(ms), inDegree, lists);
    SoundGraph(ms);
    TracksAreEdges(Dependencies(ms), inDegree, consumers);
    var names := seq(|ms|, i requires 0 <= i < |ms| => ms[i].name);
    NamesAre(ms, names);
    MandatoryMeans(ms);
    result := OrderPlugins(Dependencies(ms), names, inDegree, consumers, first);
  }

  /**
   * The load order of the enabled plugins. It exists exactly when the metadata are sound and no
   * plugins wait for one another in a circle; it is then the least order in which every plugin
   * follows the publishers of the services it requires and the mandatory plugin comes first.
   */
  method Graph(plugins: seq<Metadata>, enabled: map<string, bool>) returns (result: Result<seq<string>>)
    ensures IsLoadOrder(Selected(plugins, enabled), result)
    ensures result.Ok? <==>
            var ms := Selected(plugins, enabled);
            Sound(ms) && !exists cycle :: Cycle(Dependencies(ms), cycle)
  {
    var selected := Select(plugins, enabled);
    var ms := Sort(selected, NameOf);
    result := OrderOf(ms);
    Reordered(ms, selected);
    if result.Ok? {
      forall cycle ensures !Cycle(Dependencies(selected), cycle) {
        OrderedHasNoCycle(Dependencies(selected), result.value, cycle);
      }
    }
  }
}
