/**
 * Load orders of a dependency graph: which orders are admissible, which one is least, and the
 * queue algorithm that finds it.
 */
module LoadOrder {
  import opened Common
  import opened Ordering

  /**
   * For each plugin the plugins it waits for, once per required service, so that a plugin
   * waiting for two services of one publisher lists it twice.
   */
  type Graph = map<string, seq<string>>

  predicate Closed(g: Graph) {
    forall n, a | n in g && a in g[n] :: a in g
  }

  function Elements<T(==)>(s: seq<T>): set<T> {
    set x | x in s
  }

  /** Every plugin once, after all it waits for. */
  predicate Topological(g: Graph, order: seq<string>) {
    && Distinct(order)
    && Elements(order) == g.Keys
    && Respects(g, order)
  }

  predicate Respects(g: Graph, order: seq<string>) {
    forall i, a | 0 <= i < |order| && order[i] in g && a in g[order[i]] :: a in order[..i]
  }

  predicate Starts(first: Option<string>, order: seq<string>) {
    first.Some? ==> order != [] && order[0] == first.value
  }

  /** A walk along dependencies that comes back. */
  predicate Cycle(g: Graph, walk: seq<string>) {
    && |walk| >= 2 && walk[0] == walk[|walk| - 1]
    && Walk(g, walk)
  }

  predicate Walk(g: Graph, walk: seq<string>) {
    forall i | 0 <= i < |walk| - 1 :: walk[i] in g && walk[i + 1] in g[walk[i]]
  }

  /** May be loaded next. */
  predicate Ready(g: Graph, done: seq<string>, n: string) {
    n in g && n !in done && forall a | a in g[n] :: a in done
  }

  /** At each place stands the least plugin that may be loaded there; only the first place may be reserved. */
  ghost predicate Greedy(g: Graph, first: Option<string>, order: seq<string>) {
    forall i, n | 0 <= i < |order| && (i > 0 || first.None?) && Ready(g, order[..i], n) :: AtMost(order[i], n)
  }

  // ---------------------------------------------------------------- what these mean

  lemma {:induction false} WalkGoesBack(g: Graph, order: seq<string>, walk: seq<string>, at: nat) returns (b: nat)
    requires Respects(g, order) && walk != [] && Walk(g, walk) && at < |order| && order[at] == walk[0]
    ensures b <= at && order[b] == walk[|walk| - 1]
    ensures |walk| > 1 ==> b < at
    decreases |walk|
  {
    if |walk| == 1 {
      b := at;
    } else {
      assert walk[1] in order[..at];
      var next :| 0 <= next < at && order[next] == walk[1];
      forall i | 0 <= i < |walk[1..]| - 1 ensures walk[1..][i] in g && walk[1..][i + 1] in g[walk[1..][i]] {
        assert walk[1..][i] == walk[i + 1] && walk[1..][i + 1] == walk[i + 2];
      }
      b := WalkGoesBack(g, order, walk[1..], next);
    }
  }

  /** A graph with an admissible order has no cycle. */
  lemma OrderedHasNoCycle(g: Graph, order: seq<string>, walk: seq<string>)
    requires Topological(g, order)
    ensures !Cycle(g, walk)
  {
    if Cycle(g, walk) {
      assert walk[0] in g && walk[0] in Elements(order);
      var at :| 0 <= at < |order| && order[at] == walk[0];
      var b := WalkGoesBack(g, order, walk, at);
      assert false;
    }
  }

  /** The plugin waits for one of these. */
  predicate Blocked(g: Graph, stuck: set<string>, n: string) {
    n in g && exists a | a in g[n] :: a in stuck
  }

  predicate Stuck(g: Graph, stuck: set<string>) {
    forall n {:trigger Blocked(g, stuck, n)} | n in stuck :: Blocked(g, stuck, n)
  }

  /** A walk of any length inside a set each of whose members waits for a member. */
  lemma {:induction false} LongWalk(g: Graph, stuck: set<string>, from: string, steps: nat) returns (walk: seq<string>)
    requires from in stuck && Stuck(g, stuck)
    ensures |walk| == steps + 1 && walk[0] == from && Walk(g, walk)
    ensures forall n | n in walk :: n in stuck
    decreases steps
  {
    if steps == 0 {
      walk := [from];
    } else {
      assert Blocked(g, stuck, from);
      var a :| a in g[from] && a in stuck;
      var rest := LongWalk(g, stuck, a, steps - 1);
      walk := [from] + rest;
    }
  }

  /** Plugins that wait for one another contain a cycle. */
  lemma StuckHasCycle(g: Graph, stuck: set<string>) returns (cycle: seq<string>)
    requires stuck != {} && Stuck(g, stuck)
    ensures Cycle(g, cycle)
  {
    var from :| from in stuck;
    var walk := LongWalk(g, stuck, from, |stuck|);
    var i, j := Pigeonhole(walk, stuck);
    cycle := CycleBetween(g, walk, i, j);
  }

  lemma CycleBetween(g: Graph, walk: seq<string>, i: nat, j: nat) returns (cycle: seq<string>)
    requires i < j < |walk| && walk[i] == walk[j] && Walk(g, walk)
    ensures Cycle(g, cycle)
  {
    cycle := walk[i..j + 1];
    forall k | 0 <= k < |cycle| - 1 ensures cycle[k] in g && cycle[k + 1] in g[cycle[k]] {
      assert cycle[k] == walk[i + k] && cycle[k + 1] == walk[i + k + 1];
    }
  }

  /** The first place where two sequences differ. */
  lemma FirstDifference(a: seq<string>, b: seq<string>) returns (i: nat)
    requires a != b && |a| == |b|
    ensures i < |a| && a[..i] == b[..i] && a[i] != b[i]
  {
    i := 0;
    while a[i] == b[i]
      invariant i < |a| && a[..i] == b[..i]
      decreases |a| - i
    {
      if i + 1 == |a| {
        assert false;
      }
      assert a[..i + 1] == a[..i] + [a[i]] && b[..i + 1] == b[..i] + [b[i]];
      i := i + 1;
    }
  }

  /**
   * The greedy order is the lexicographically least admissible order among those that begin with
   * the reserved plugin: where another one first differs from it, the other has the larger name.
   */
  lemma GreedyIsLeast(g: Graph, first: Option<string>, order: seq<string>, other: seq<string>) returns (i: nat)
    requires Topological(g, order) && Starts(first, order) && Greedy(g, first, order)
    requires Topological(g, other) && Starts(first, other) && other != order
    ensures i < |order| && i < |other| && order[..i] == other[..i] && Less(order[i], other[i])
  {
    DistinctSize(order);
    DistinctSize(other);
    assert |order| == |other| by { assert Elements(order) == Elements(other); }
    i := FirstDifference(order, other);
    assert i > 0 || first.None?;
    assert other[i] in Elements(other);
    assert other[i] !in other[..i];
    assert Ready(g, order[..i], other[i]);
  }

  /** So it is unique. */
  lemma GreedyIsUnique(g: Graph, first: Option<string>, order: seq<string>, other: seq<string>)
    requires Topological(g, order) && Starts(first, order) && Greedy(g, first, order)
    requires Topological(g, other) && Starts(first, other) && Greedy(g, first, other)
    ensures order == other
  {
    if order != other {
      var i := GreedyIsLeast(g, first, order, other);
      var j := GreedyIsLeast(g, first, other, order);
      LessIrreflexive(order[i]);
      LessIrreflexive(order[j]);
      if i == j {
        LessTransitive(order[i], other[i], order[i]);
      }
    }
  }

  // ---------------------------------------------------------------- the queue algorithm

  /** How many of the listed plugins are not loaded yet. */
  function Open(waits: seq<string>, done: set<string>): nat {
    if waits == [] then 0
    else Open(waits[..|waits| - 1], done) + if waits[|waits| - 1] in done then 0 else 1
  }

  lemma {:induction false} OpenZero(waits: seq<string>, done: set<string>)
    ensures Open(waits, done) == 0 <==> forall a | a in waits :: a in done
  {
    if waits != [] {
      OpenZero(waits[..|waits| - 1], done);
      assert waits == waits[..|waits| - 1] + [waits[|waits| - 1]];
    }
  }

  lemma {:induction false} OpenAdd(waits: seq<string>, done: set<string>, n: string)
    requires n !in done
    ensures Open(waits, done + {n}) == Open(waits, done) - multiset(waits)[n]
  {
    if waits != [] {
      var init := waits[..|waits| - 1];
      OpenAdd(init, done, n);
      assert waits == init + [waits[|init|]];
      assert multiset(waits)[n] == multiset(init)[n] + if waits[|init|] == n then 1 else 0;
    }
  }

  lemma {:induction false} OpenNone(waits: seq<string>)
    ensures Open(waits, {}) == |waits|
  {
    if waits != [] { OpenNone(waits[..|waits| - 1]); }
  }

  /** The reverse edges: a consumer stands in a publisher's list as often as it waits for it. */
  predicate Reverses(g: Graph, consumers: map<string, seq<string>>) {
    forall p, c | p in g && c in g :: Occurrences(consumers, p, c) == multiset(g[c])[p]
  }

  /** How often a consumer stands in a publisher's list. */
  function Occurrences(consumers: map<string, seq<string>>, p: string, c: string): nat {
    multiset(ListOf(consumers, p))[c]
  }

  function ListOf(consumers: map<string, seq<string>>, p: string): seq<string> {
    if p in consumers then consumers[p] else []
  }

  predicate Counts(g: Graph, inDegree: map<string, int>, done: set<string>) {
    inDegree.Keys == g.Keys && forall c | c in g :: inDegree[c] == Open(g[c], done)
  }

  ghost predicate Queue(g: Graph, done: seq<string>, ready: seq<string>) {
    Distinct(ready) && forall n :: n in ready <==> Ready(g, done, n)
  }

  /** Kept by the main loop: what is loaded is a prefix of the greedy order. */
  ghost predicate Prefix(g: Graph, first: Option<string>, order: seq<string>) {
    Distinct(order) && Elements(order) <= g.Keys && Respects(g, order) && Greedy(g, first, order)
    && (order != [] ==> Starts(first, order))
  }

  /** The first plugin of the queue is the right one to load. */
  predicate Head(order: seq<string>, first: Option<string>, ready: seq<string>) {
    ready != [] ==>
      if order == [] && first.Some? then ready[0] == first.value
      else forall n | n in ready :: AtMost(ready[0], n)
  }

  lemma ReadyMeans(g: Graph, order: seq<string>, inDegree: map<string, int>, n: string)
    requires Counts(g, inDegree, Elements(order))
    ensures Ready(g, order, n) <==> n in g && n !in order && inDegree[n] == 0
  {
    if n in g { OpenZero(g[n], Elements(order)); }
  }

  lemma TakeKeepsPrefix(g: Graph, first: Option<string>, order: seq<string>, ready: seq<string>)
    requires Prefix(g, first, order) && Queue(g, order, ready) && ready != [] && Head(order, first, ready)
    ensures Prefix(g, first, order + [ready[0]])
  {
    var n := ready[0];
    var longer := order + [n];
    assert Ready(g, order, n);
    assert longer[..|order|] == order;
    forall i, a | 0 <= i < |longer| && longer[i] in g && a in g[longer[i]] ensures a in longer[..i] {
      if i < |order| { assert longer[..i] == order[..i]; }
    }
    forall i, m | 0 <= i < |longer| && (i > 0 || first.None?) && Ready(g, longer[..i], m)
      ensures AtMost(longer[i], m)
    {
      if i < |order| { assert longer[..i] == order[..i]; } else { assert m in ready; }
    }
  }

  /** The state in the middle of the loop over the consumers of `current`. */
  predicate Mid(g: Graph, done: set<string>, inDegree: map<string, int>, seen: seq<string>) {
    inDegree.Keys == g.Keys && forall c | c in g :: inDegree[c] == Open(g[c], done) - multiset(seen)[c]
  }

  ghost predicate MidQueue(waiting: seq<string>, inDegree: map<string, int>, seen: seq<string>, ready: seq<string>) {
    && Distinct(ready)
    && forall n :: n in ready <==> n in waiting || (n in seen && Get(inDegree, n) == Some(0))
  }

  lemma DecrementKeeps(g: Graph, done: set<string>, current: string, consumers: map<string, seq<string>>, k: nat)
    requires Reverses(g, consumers) && current in g && current !in done && k < |ListOf(consumers, current)|
    requires ListOf(consumers, current)[k] in g
    ensures var c := ListOf(consumers, current)[k];
            multiset(ListOf(consumers, current)[..k])[c] < multiset(g[c])[current] <= Open(g[c], done)
  {
    var list := ListOf(consumers, current);
    var c := list[k];
    assert Occurrences(consumers, current, c) == multiset(g[c])[current];
    assert list == list[..k] + [c] + list[k + 1..];
    assert multiset(list)[c] >= multiset(list[..k])[c] + 1;
    OpenAdd(g[c], done, current);
  }

  lemma AllDecremented(g: Graph, done: set<string>, current: string, consumers: map<string, seq<string>>, inDegree: map<string, int>)
    requires Reverses(g, consumers) && current in g && current !in done
    requires Mid(g, done, inDegree, ListOf(consumers, current))
    ensures Counts(g, inDegree, done + {current})
  {
    forall c | c in g ensures inDegree[c] == Open(g[c], done + {current}) {
      assert Occurrences(consumers, current, c) == multiset(g[c])[current];
      OpenAdd(g[c], done, current);
    }
  }

  /** What becomes loadable when `current` is loaded. */
  lemma ReadyAdvances(g: Graph, order: seq<string>, current: string, before: map<string, int>, consumers: map<string, seq<string>>,
                      inDegree: map<string, int>, n: string)
    requires Counts(g, before, Elements(order)) && Counts(g, inDegree, Elements(order + [current]))
    requires Reverses(g, consumers) && current in g && Ready(g, order, current) && current !in g[current]
    requires Respects(g, order) && forall c | c in ListOf(consumers, current) :: c in g
    ensures Ready(g, order + [current], n) <==>
            (Ready(g, order, n) && n != current) || (n in ListOf(consumers, current) && Get(inDegree, n) == Some(0))
  {
    var longer := order + [current];
    ReadyMeans(g, order, before, n);
    ReadyMeans(g, longer, inDegree, n);
    if n in g {
      var list := ListOf(consumers, current);
      assert n in list <==> Occurrences(consumers, current, n) > 0;
      assert current in g[n] <==> multiset(g[n])[current] > 0;
      OpenZero(g[n], Elements(longer));
      OpenZero(g[n], Elements(order));
      if n in order {
        var i :| 0 <= i < |order| && order[i] == n;
        assert forall a | a in g[n] :: a in order[..i];
      }
    }
  }

  /** After the loop over its consumers, the queue is that of the longer order. */
  lemma QueueAdvances(g: Graph, order: seq<string>, queue: seq<string>, before: map<string, int>,
                      consumers: map<string, seq<string>>, inDegree: map<string, int>, ready: seq<string>)
    requires queue != [] && Queue(g, order, queue) && Counts(g, before, Elements(order)) && Respects(g, order)
    requires Reverses(g, consumers) && forall c | c in ListOf(consumers, queue[0]) :: c in g
    requires Counts(g, inDegree, Elements(order + [queue[0]]))
    requires MidQueue(queue[1..], inDegree, ListOf(consumers, queue[0]), ready)
    requires queue[0] in g && queue[0] !in g[queue[0]]
    ensures Queue(g, order + [queue[0]], ready)
  {
    assert Ready(g, order, queue[0]);
    forall n ensures n in ready <==> Ready(g, order + [queue[0]], n) {
      ReadyAdvances(g, order, queue[0], before, consumers, inDegree, n);
      QueueTail(queue, n);
    }
  }

  lemma QueueTail(queue: seq<string>, n: string)
    requires queue != [] && Distinct(queue)
    ensures n in queue[1..] <==> n in queue && n != queue[0]
  {
    if n in queue && n != queue[0] {
      var i :| 0 <= i < |queue| && queue[i] == n;
      assert queue[1..][i - 1] == n;
    }
  }

  /** One consumer of `current` released. */
  lemma DecrementOne(g: Graph, done: set<string>, before: map<string, int>, list: seq<string>, k: nat,
                     after: map<string, int>)
    requires k < |list| && list[k] in g && Mid(g, done, before, list[..k])
    requires after == before[list[k] := before[list[k]] - 1]
    ensures Mid(g, done, after, list[..k + 1])
  {
    assert list[..k + 1] == list[..k] + [list[k]];
  }

  lemma QueueOne(waiting: seq<string>, before: map<string, int>, list: seq<string>, k: nat, queue: seq<string>,
                 after: map<string, int>, ready: seq<string>)
    requires k < |list| && list[k] in before && before[list[k]] > 0
    requires forall n | n in waiting :: Get(before, n) == Some(0)
    requires MidQueue(waiting, before, list[..k], queue)
    requires after == before[list[k] := before[list[k]] - 1]
    requires ready == if after[list[k]] == 0 then queue + [list[k]] else queue
    ensures MidQueue(waiting, after, list[..k + 1], ready)
  {
    assert list[..k + 1] == list[..k] + [list[k]];
    assert list[k] !in queue;
  }

  /** One pass over the consumers of the plugin just loaded. */
  method Release(g: Graph, done: set<string>, current: string, consumers: map<string, seq<string>>,
                 degrees: map<string, int>, waiting: seq<string>)
    returns (inDegree: map<string, int>, ready: seq<string>)
    requires Counts(g, degrees, done) && current in g && current !in done && Reverses(g, consumers)
    requires forall c | c in ListOf(consumers, current) :: c in g
    requires Distinct(waiting) && forall n | n in waiting :: Get(degrees, n) == Some(0)
    ensures Mid(g, done, inDegree, ListOf(consumers, current))
    ensures MidQueue(waiting, inDegree, ListOf(consumers, current), ready)
  {
    inDegree, ready := degrees, waiting;
    var list := ListOf(consumers, current);
    for k := 0 to |list|
      invariant Mid(g, done, inDegree, list[..k])
      invariant MidQueue(waiting, inDegree, list[..k], ready)
      invariant forall n | n in waiting :: Get(inDegree, n) == Some(0)
    {
      var c := list[k];
      DecrementKeeps(g, done, current, consumers, k);
      ghost var before, queue := inDegree, ready;
      inDegree := inDegree[c := inDegree[c] - 1];
      if inDegree[c] == 0 {
        ready := ready + [c];
      }
      DecrementOne(g, done, before, list, k, inDegree);
      QueueOne(waiting, before, list, k, queue, inDegree, ready);
    }
    assert list[..|list|] == list;
  }

  /** What the caller hands to the queue algorithm. */
  predicate Edges(g: Graph, degrees: map<string, int>, consumers: map<string, seq<string>>) {
    && Closed(g) && (forall n | n in g :: n !in g[n])
    && Counts(g, degrees, {}) && Reverses(g, consumers)
    && forall p, c | p in g && c in ListOf(consumers, p) :: c in g
  }

  function Itself(s: string): string {
    s
  }

  lemma SortedHead(ready: seq<string>)
    requires Sorted(ready, Itself)
    ensures forall n | n in ready :: AtMost(ready[0], n)
  {
    forall n | n in ready ensures AtMost(ready[0], n) {
      var i :| 0 <= i < |ready| && ready[i] == n;
      assert i > 0 ==> AtMost(Itself(ready[0]), Itself(ready[i]));
    }
  }

  lemma SamePlugins(s: seq<string>, t: seq<string>)
    requires multiset(s) == multiset(t) && Distinct(s)
    ensures Distinct(t) && forall n :: n in t <==> n in s
  {
    MultisetDistinct(s);
    MultisetDistinct(t);
    forall n ensures n in t <==> n in s { assert n in multiset(s) <==> n in multiset(t); }
  }

  lemma MoveToFront(ready: seq<string>, i: nat)
    requires i < |ready|
    ensures multiset([ready[i]] + ready[..i] + ready[i + 1..]) == multiset(ready)
  {
    assert ready == ready[..i] + [ready[i]] + ready[i + 1..];
  }

  /** The plugins without dependencies, sorted, the reserved one in front. */
  method InitialQueue(g: Graph, names: seq<string>, degrees: map<string, int>, first: Option<string>)
    returns (ready: seq<string>)
    requires Distinct(names) && Elements(names) == g.Keys && Counts(g, degrees, {})
    requires first.Some? ==> first.value in g && g[first.value] == []
    ensures Queue(g, [], ready) && Head([], first, ready)
  {
    ready := [];
    for i := 0 to |names|
      invariant Distinct(ready)
      invariant forall n :: n in ready <==> n in names[..i] && Get(degrees, n) == Some(0)
    {
      assert names[i] in Elements(names) && names[i] !in names[..i];
      if degrees[names[i]] == 0 {
        ready := ready + [names[i]];
      }
    }
    assert names[..|names|] == names && Elements<string>([]) == {};
    forall n ensures n in ready <==> Ready(g, [], n) {
      ReadyMeans(g, [], degrees, n);
      assert n in names <==> n in Elements(names);
    }
    var sorted := Sort(ready, Itself);
    SamePlugins(ready, sorted);
    SortedHead(sorted);
    ready := sorted;
    if first.Some? {
      OpenZero(g[first.value], {});
      assert Ready(g, [], first.value);
      ready := Reserve(sorted, first.value);
      SamePlugins(sorted, ready);
    }
  }

  method Reserve(sorted: seq<string>, first: string) returns (ready: seq<string>)
    requires first in sorted
    ensures multiset(ready) == multiset(sorted) && ready != [] && ready[0] == first
  {
    var i := 0;
    while sorted[i] != first
      invariant i < |sorted| && first !in sorted[..i]
      decreases |sorted| - i
    {
      assert sorted == sorted[..i + 1] + sorted[i + 1..] && sorted[..i + 1] == sorted[..i] + [sorted[i]];
      i := i + 1;
    }
    MoveToFront(sorted, i);
    ready := [first] + sorted[..i] + sorted[i + 1..];
  }

  /** Nothing is ready and something is left: what is left waits for itself. */
  lemma LeftIsStuck(g: Graph, order: seq<string>) returns (cycle: seq<string>)
    requires Closed(g) && Elements(order) <= g.Keys && Elements(order) != g.Keys
    requires forall n :: !Ready(g, order, n)
    ensures Cycle(g, cycle)
  {
    var left := g.Keys - Elements(order);
    forall n | n in left ensures Blocked(g, left, n) {
      assert !Ready(g, order, n);
      var a :| a in g[n] && a !in order;
      assert a in left;
    }
    assert !(g.Keys <= Elements(order));
    var some :| some in g.Keys && some !in Elements(order);
    assert some in left;
    cycle := StuckHasCycle(g, left);
  }

  /** Loads the head of the queue. */
  method LoadHead(g: Graph, order: seq<string>, degrees: map<string, int>, consumers: map<string, seq<string>>, queue: seq<string>)
    returns (inDegree: map<string, int>, ready: seq<string>)
    requires queue != [] && Queue(g, order, queue) && Respects(g, order) && Counts(g, degrees, Elements(order))
    requires Reverses(g, consumers) && queue[0] in g && queue[0] !in g[queue[0]]
    requires forall c | c in ListOf(consumers, queue[0]) :: c in g
    ensures Counts(g, inDegree, Elements(order + [queue[0]]))
    ensures Queue(g, order + [queue[0]], ready) && forall n | n in ready :: AtMost(ready[0], n)
  {
    var current := queue[0];
    assert Ready(g, order, current);
    WaitingHasNone(g, order, degrees, queue);
    inDegree, ready := Release(g, Elements(order), current, consumers, degrees, queue[1..]);
    AllDecremented(g, Elements(order), current, consumers, inDegree);
    assert Elements(order + [current]) == Elements(order) + {current};
    QueueAdvances(g, order, queue, degrees, consumers, inDegree, ready);
    var sorted := Sort(ready, Itself);
    SamePlugins(ready, sorted);
    SortedHead(sorted);
    ready := sorted;
  }

  /** What the main loop keeps. */
  ghost predicate Loading(g: Graph, first: Option<string>, order: seq<string>, inDegree: map<string, int>, ready: seq<string>) {
    && Prefix(g, first, order) && Counts(g, inDegree, Elements(order))
    && Queue(g, order, ready) && Head(order, first, ready)
    && (order == [] && first.Some? ==> ready != [])
  }

  /** One turn of the main loop. */
  method LoadNext(g: Graph, first: Option<string>, order: seq<string>, degrees: map<string, int>,
                  consumers: map<string, seq<string>>, queue: seq<string>)
    returns (longer: seq<string>, inDegree: map<string, int>, ready: seq<string>)
    requires Loading(g, first, order, degrees, queue) && queue != []
    requires Reverses(g, consumers) && (forall n | n in g :: n !in g[n])
    requires forall p, c | p in g && c in ListOf(consumers, p) :: c in g
    ensures Loading(g, first, longer, inDegree, ready)
    ensures g.Keys - Elements(longer) < g.Keys - Elements(order)
  {
    var current := queue[0];
    assert Ready(g, order, current);
    TakeKeepsPrefix(g, first, order, queue);
    assert Elements(order + [current]) == Elements(order) + {current};
    inDegree, ready := LoadHead(g, order, degrees, consumers, queue);
    longer := order + [current];
    assert current in g.Keys - Elements(order);
  }

  /** The main loop. */
  method LoadAll(g: Graph, degrees: map<string, int>, consumers: map<string, seq<string>>, first: Option<string>, queue: seq<string>)
    returns (order: seq<string>)
    requires Edges(g, degrees, consumers) && Queue(g, [], queue) && Head([], first, queue) && (first.Some? ==> queue != [])
    ensures Prefix(g, first, order) && Starts(first, order) && forall n :: !Ready(g, order, n)
  {
    var inDegree, ready := degrees, queue;
    order := [];
    assert Elements<string>([]) == {};
    while ready != []
      invariant Loading(g, first, order, inDegree, ready)
      decreases g.Keys - Elements(order)
    {
      order, inDegree, ready := LoadNext(g, first, order, inDegree, consumers, ready);
    }
  }

  /** The queue algorithm: the least admissible order, or an error when there is a cycle. */
  method OrderPlugins(g: Graph, names: seq<string>, degrees: map<string, int>,
                      consumers: map<string, seq<string>>, first: Option<string>)
    returns (result: Result<seq<string>>)
    requires Distinct(names) && Elements(names) == g.Keys && Edges(g, degrees, consumers)
    requires first.Some? ==> first.value in g && g[first.value] == []
    ensures result.Ok? ==>
              && Topological(g, result.value)
              && Starts(first, result.value)
              && Greedy(g, first, result.value)
    ensures result.Err? ==> exists cycle :: Cycle(g, cycle)
  {
    var ready := InitialQueue(g, names, degrees, first);
    assert first.Some? ==> Ready(g, [], first.value);
    var order := LoadAll(g, degrees, consumers, first, ready);
    DistinctSize(order);
    DistinctSize(names);
    if |order| != |names| {
      ghost var cycle := LeftIsStuck(g, order);
      return Err;
    }
    SubsetSize(Elements(order), g.Keys);
    return Ok(order);
  }

  lemma WaitingHasNone(g: Graph, order: seq<string>, inDegree: map<string, int>, queue: seq<string>)
    requires Counts(g, inDegree, Elements(order)) && queue != [] && Queue(g, order, queue)
    ensures Distinct(queue[1..]) && forall n | n in queue[1..] :: Get(inDegree, n) == Some(0)
  {
    forall n | n in queue[1..] ensures Get(inDegree, n) == Some(0) {
      assert n in queue;
      ReadyMeans(g, order, inDegree, n);
    }
  }
}
