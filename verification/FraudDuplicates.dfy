/** How often one event can reach the anti-fraud provider, and how an outbox empties. */
module FraudDuplicates {
  import opened Common
  import opened FraudStore
  import opened FraudDelivery

  /** How many accepted batches of the node hold the id. */
  function Times(log: seq<(Node, seq<Event>)>, n: Node, id: Id): nat {
    if log == [] then 0
    else
      var last := log[|log| - 1];
      Times(log[..|log| - 1], n, id) + if last.0 == n && id in Ids(last.1) then 1 else 0
  }

  predicate Holds(g: Ingest, n: Node, id: Id, waiting: bool) {
    g.node == n && id in Ids(g.pending) && (waiting ==> !g.accepted)
  }

  /** How many batches in progress are to submit, or have submitted, the id; `waiting` counts the former alone. */
  function Holding(ingests: seq<Ingest>, n: Node, id: Id, waiting: bool): nat {
    if ingests == [] then 0
    else Holding(ingests[..|ingests| - 1], n, id, waiting) + if Holds(ingests[|ingests| - 1], n, id, waiting) then 1 else 0
  }

  lemma {:induction false} HoldingConcat(a: seq<Ingest>, b: seq<Ingest>, n: Node, id: Id, waiting: bool)
    ensures Holding(a + b, n, id, waiting) == Holding(a, n, id, waiting) + Holding(b, n, id, waiting)
  {
    if b == [] {
      assert a + b == a;
    } else {
      assert (a + b)[..|a + b| - 1] == a + b[..|b| - 1];
      HoldingConcat(a, b[..|b| - 1], n, id, waiting);
    }
  }

  lemma HoldingOne(g: Ingest, n: Node, id: Id, waiting: bool)
    ensures Holding([g], n, id, waiting) == if Holds(g, n, id, waiting) then 1 else 0
  {
    assert [g][..0] == [];
  }

  /** One batch taken out of the sequence. */
  lemma HoldingSplit(ingests: seq<Ingest>, i: nat, n: Node, id: Id, waiting: bool)
    requires i < |ingests|
    ensures Holding(ingests, n, id, waiting)
         == Holding(RemoveAt(ingests, i), n, id, waiting) + if Holds(ingests[i], n, id, waiting) then 1 else 0
  {
    var a, b := ingests[..i], ingests[i + 1..];
    assert ingests == (a + [ingests[i]]) + b;
    HoldingConcat(a + [ingests[i]], b, n, id, waiting);
    HoldingConcat(a, [ingests[i]], n, id, waiting);
    HoldingConcat(a, b, n, id, waiting);
    HoldingOne(ingests[i], n, id, waiting);
  }

  lemma {:induction false} NoneHolding(ingests: seq<Ingest>, n: Node, id: Id, waiting: bool)
    requires forall g | g in ingests :: g.node != n
    ensures Holding(ingests, n, id, waiting) == 0
  {
    if ingests != [] { NoneHolding(ingests[..|ingests| - 1], n, id, waiting); }
  }

  predicate Bounded(s: State, n: Node, id: Id) {
    var tried := Times(s.log, n, id) + Holding(s.ingests, n, id, true);
    && tried <= FaultsOf(s, n) + 1
    && ((n, id) !in s.receipts ==> tried <= FaultsOf(s, n) + Holding(s.ingests, n, id, false))
  }

  lemma BeginBounded(s: State, m: Node, batch: seq<Event>, n: Node, id: Id)
    requires Bounded(s, n, id)
    ensures Bounded(BeginStep(s, m, batch), n, id)
  {
    var t := BeginStep(s, m, batch);
    var g := t.ingests[|s.ingests|];
    HoldingConcat(s.ingests, [g], n, id, true);
    HoldingConcat(s.ingests, [g], n, id, false);
    HoldingOne(g, n, id, true);
    HoldingOne(g, n, id, false);
    if Holds(g, n, id, true) {
      UnreceivedMeans(s.receipts, m, batch);
      var j :| 0 <= j < |g.pending| && Ids(g.pending)[j] == id;
      assert g.pending[j] in g.pending;
      if !Busy(s, n) {
        forall h | h in s.ingests ensures h.node != n {}
        NoneHolding(s.ingests, n, id, true);
        NoneHolding(s.ingests, n, id, false);
      }
    }
  }

  lemma AcceptBounded(s: State, i: nat, n: Node, id: Id)
    requires Bounded(s, n, id) && i < |s.ingests| && !s.ingests[i].accepted
    ensures Bounded(AcceptStep(s, i), n, id)
  {
    var t := AcceptStep(s, i);
    assert t.log[..|t.log| - 1] == s.log;
    assert RemoveAt(t.ingests, i) == RemoveAt(s.ingests, i);
    HoldingSplit(s.ingests, i, n, id, true);
    HoldingSplit(t.ingests, i, n, id, true);
    HoldingSplit(s.ingests, i, n, id, false);
    HoldingSplit(t.ingests, i, n, id, false);
  }

  lemma FinishBounded(s: State, i: nat, n: Node, id: Id)
    requires Bounded(s, n, id) && i < |s.ingests| && (s.ingests[i].pending == [] || s.ingests[i].accepted)
    ensures Bounded(FinishStep(s, i), n, id)
  {
    var g := s.ingests[i];
    AddReceiptsMeans(s.receipts, g.node, g.pending);
    HoldingSplit(s.ingests, i, n, id, true);
    HoldingSplit(s.ingests, i, n, id, false);
    if Holds(g, n, id, false) {
      var j :| 0 <= j < |g.pending| && Ids(g.pending)[j] == id;
      assert g.pending[j] in g.pending && g.pending[j].id == id;
    }
  }

  lemma AbortBounded(s: State, i: nat, n: Node, id: Id)
    requires Bounded(s, n, id) && i < |s.ingests|
    ensures Bounded(AbortStep(s, i), n, id)
  {
    HoldingSplit(s.ingests, i, n, id, true);
    HoldingSplit(s.ingests, i, n, id, false);
  }

  lemma StepBounded(s: State, a: Action, n: Node, id: Id)
    requires Bounded(s, n, id)
    ensures Bounded(Step(s, a), n, id)
  {
    if Enabled(s, a) {
      match a
      case BeginIngest(m, batch) => BeginBounded(s, m, batch, n, id);
      case SinkAccepts(i) => AcceptBounded(s, i, n, id);
      case FinishIngest(i) => FinishBounded(s, i, n, id);
      case AbortIngest(i) => AbortBounded(s, i, n, id);
      case _ =>
    }
  }

  lemma {:induction false} RunBounded(actions: seq<Action>, n: Node, id: Id)
    ensures Bounded(Run(Fresh, actions), n, id)
  {
    if actions != [] {
      RunBounded(actions[..|actions| - 1], n, id);
      StepBounded(Run(Fresh, actions[..|actions| - 1]), actions[|actions| - 1], n, id);
    }
  }

  /**
   * An event reaches the provider at most once more than the node had faults; with no fault, a
   * receipt means exactly once.
   */
  lemma DuplicatesBounded(actions: seq<Action>, n: Node, e: Event)
    ensures var s := Run(Fresh, actions);
            && Times(s.log, n, e.id) <= FaultsOf(s, n) + 1
            && (Received(s, n, e) ==> Times(s.log, n, e.id) >= 1)
            && (Received(s, n, e) && FaultsOf(s, n) == 0 ==> Times(s.log, n, e.id) == 1)
  {
    RunBounded(actions, n, e.id);
    Delivery(actions, n, e);
    var s := Run(Fresh, actions);
    if Accepted(s, n, e) {
      var b :| b in s.log && b.0 == n && e in b.1;
      CountedOnce(s.log, b, e);
    }
  }

  lemma {:induction false} CountedOnce(log: seq<(Node, seq<Event>)>, b: (Node, seq<Event>), e: Event)
    requires b in log && e in b.1
    ensures Times(log, b.0, e.id) >= 1
  {
    var init := log[..|log| - 1];
    if b in init {
      CountedOnce(init, b, e);
    } else {
      assert b == log[|log| - 1];
      var j :| 0 <= j < |b.1| && b.1[j] == e;
      assert Ids(b.1)[j] == e.id;
    }
  }

  // ---------------------------------------------------------------- the bound is reached

  /** `k` rounds in which the master stops between acceptance and receipt. */
  function Faulty(n: Node, e: Event, k: nat): seq<Action> {
    if k == 0 then [Enqueue(n, [e]), Flush(n)]
    else Faulty(n, e, k - 1) + [BeginIngest(n, [e]), SinkAccepts(0), AbortIngest(0)]
  }

  lemma RunConcat(s: State, a: seq<Action>, b: seq<Action>)
    ensures Run(s, a + b) == Run(Run(s, a), b)
    decreases |b|
  {
    if b == [] {
      assert a + b == a;
    } else {
      assert (a + b)[..|a + b| - 1] == a + b[..|b| - 1];
      RunConcat(s, a, b[..|b| - 1]);
    }
  }

  lemma RunThree(s: State, a: Action, b: Action, c: Action)
    ensures Run(s, [a, b, c]) == Step(Step(Step(s, a), b), c)
  {
    assert [a][..0] == [] && [a, b][..1] == [a] && [a, b, c][..2] == [a, b];
    assert Run(s, [a]) == Step(s, a);
    assert Run(s, [a, b]) == Step(Step(s, a), b);
  }

  /** Between rounds: queued, sent, no receipt, nothing in progress, `k` acceptances for `k` faults. */
  predicate AfterFaults(s: State, n: Node, e: Event, k: nat) {
    && (n, [e]) in s.sent && (n, e.id) !in s.receipts && s.ingests == []
    && Times(s.log, n, e.id) == k && FaultsOf(s, n) == k
  }

  lemma UnreceivedOne(receipts: Receipts, n: Node, e: Event)
    requires (n, e.id) !in receipts
    ensures Unreceived(receipts, n, [e]) == [e]
  {
    assert [e][..0] == [];
  }

  lemma BegunOnce(s: State, n: Node, e: Event)
    requires (n, [e]) in s.sent && (n, e.id) !in s.receipts && s.ingests == []
    ensures Step(s, BeginIngest(n, [e])) == s.(ingests := [Ingest(n, [e], [e], false)])
  {
    UnreceivedOne(s.receipts, n, e);
    assert [] + [Ingest(n, [e], [e], false)] == [Ingest(n, [e], [e], false)];
  }

  lemma CountedMore(log: seq<(Node, seq<Event>)>, n: Node, e: Event)
    ensures Times(log + [(n, [e])], n, e.id) == Times(log, n, e.id) + 1
  {
    var longer := log + [(n, [e])];
    assert longer[..|longer| - 1] == log && Ids([e])[0] == e.id;
  }

  lemma AcceptedOnce(s: State, n: Node, e: Event, k: nat, t: State)
    requires AfterFaults(s, n, e, k)
    requires t == Step(Step(s, BeginIngest(n, [e])), SinkAccepts(0))
    ensures t == s.(ingests := [Ingest(n, [e], [e], true)], log := s.log + [(n, [e])])
    ensures Times(t.log, n, e.id) == k + 1 && FaultsOf(t, n) == k
  {
    BegunOnce(s, n, e);
    var begun := s.(ingests := [Ingest(n, [e], [e], false)]);
    assert AcceptStep(begun, 0).ingests == [Ingest(n, [e], [e], true)];
    CountedMore(s.log, n, e);
  }

  lemma {:induction false} FaultyRuns(n: Node, e: Event, k: nat)
    requires n != "" && e.id != "" && Usable(e.observation)
    ensures AfterFaults(Run(Fresh, Faulty(n, e, k)), n, e, k)
  {
    if k == 0 {
      assert [Enqueue(n, [e]), Flush(n)][..1] == [Enqueue(n, [e])] && [Enqueue(n, [e])][..0] == [];
      var s := EnqueueStep(Fresh, n, [e]);
      assert Run(Fresh, [Enqueue(n, [e])]) == s;
      assert OutboxOf(s, n) == [e] && [e][..1] == [e];
      assert (n, [e]) in Step(s, Flush(n)).sent;
    } else {
      var s := Run(Fresh, Faulty(n, e, k - 1));
      FaultyRuns(n, e, k - 1);
      RunConcat(Fresh, Faulty(n, e, k - 1), [BeginIngest(n, [e]), SinkAccepts(0), AbortIngest(0)]);
      RunThree(s, BeginIngest(n, [e]), SinkAccepts(0), AbortIngest(0));
      AcceptedOnce(s, n, e, k - 1, Step(Step(s, BeginIngest(n, [e])), SinkAccepts(0)));
    }
  }

  /** For every number of faults there is a run in which the provider is given an event once more than that. */
  lemma DuplicatesReached(n: Node, e: Event, k: nat) returns (actions: seq<Action>)
    requires n != "" && e.id != "" && Usable(e.observation)
    ensures var s := Run(Fresh, actions);
            Received(s, n, e) && FaultsOf(s, n) == k && Times(s.log, n, e.id) == k + 1
  {
    FaultyRuns(n, e, k);
    var s := Run(Fresh, Faulty(n, e, k));
    var last := [BeginIngest(n, [e]), SinkAccepts(0), FinishIngest(0)];
    actions := Faulty(n, e, k) + last;
    RunConcat(Fresh, Faulty(n, e, k), last);
    RunThree(s, last[0], last[1], last[2]);
    AcceptedOnce(s, n, e, k, Step(Step(s, BeginIngest(n, [e])), SinkAccepts(0)));
    assert [e][..0] == [];
    assert AddReceipts(s.receipts, n, [e]) == s.receipts[(n, e.id) := e.observation];
  }

  // ---------------------------------------------------------------- an outbox empties

  /** One undisturbed round: flush, ingest, acknowledge. */
  function Round(s: State, n: Node): seq<Action> {
    var rows := OutboxOf(s, n);
    var batch := rows[..if |rows| < FLUSH_LIMIT then |rows| else FLUSH_LIMIT];
    [Flush(n), BeginIngest(n, batch), SinkAccepts(|s.ingests|), FinishIngest(|s.ingests|), DeliverAck(n, Ids(batch))]
  }

  lemma RunFive(s: State, a: Action, b: Action, c: Action, d: Action, e: Action)
    ensures Run(s, [a, b, c, d, e]) == Step(Step(Step(Step(Step(s, a), b), c), d), e)
  {
    RunThree(s, a, b, c);
    assert [a, b, c, d, e][..4] == [a, b, c, d] && [a, b, c, d][..3] == [a, b, c];
  }

  lemma {:induction false} WithoutFirst(rows: seq<Event>, k: nat, ids: set<Id>)
    requires Distinct(Ids(rows)) && k <= |rows| && ids == (set i | i in Ids(rows[..k]))
    ensures Without(rows, ids) == rows[k..]
    decreases |rows| - k
  {
    if k == |rows| {
      WithoutAll(rows, ids);
    } else {
      var init, last := rows[..|rows| - 1], rows[|rows| - 1];
      DistinctInit(rows);
      assert init[..k] == rows[..k];
      WithoutFirst(init, k, ids);
      forall j | 0 <= j < k ensures Ids(rows[..k])[j] != last.id { assert Ids(rows)[j] != Ids(rows)[|rows| - 1]; }
      assert rows[k..] == init[k..] + [last];
    }
  }

  lemma {:induction false} WithoutAll(rows: seq<Event>, ids: set<Id>)
    requires forall e | e in rows :: e.id in ids
    ensures Without(rows, ids) == []
  {
    if rows != [] { WithoutAll(rows[..|rows| - 1], ids); }
  }

  /** A batch that is sent and ingested undisturbed is acknowledged. */
  lemma IngestAcknowledges(s: State, n: Node, batch: seq<Event>, i: nat, t: State)
    requires (n, batch) in s.sent && i == |s.ingests|
    requires t == Step(Step(Step(s, BeginIngest(n, batch)), SinkAccepts(i)), FinishIngest(i))
    ensures (n, Ids(batch)) in t.acks && t.outbox == s.outbox
  {
    var s2 := Step(s, BeginIngest(n, batch));
    var s3 := Step(s2, SinkAccepts(i));
    assert s2.ingests[i].batch == batch && s2.ingests[i].node == n && s2.outbox == s.outbox;
    assert s3.ingests[i].batch == batch && s3.ingests[i].node == n && s3.outbox == s.outbox;
  }

  lemma AckTakesFirst(s: State, n: Node, k: nat, t: State)
    requires Identified(s) && Known(s, n, OutboxOf(s, n)) && k <= |OutboxOf(s, n)|
    requires t.outbox == s.outbox && (n, Ids(OutboxOf(s, n)[..k])) in t.acks
    ensures OutboxOf(Step(t, DeliverAck(n, Ids(OutboxOf(s, n)[..k]))), n) == OutboxOf(s, n)[k..]
  {
    var rows := OutboxOf(s, n);
    var ids := Ids(rows[..k]);
    forall id | id in ids ensures id != "" {
      var j :| 0 <= j < k && ids[j] == id;
      assert rows[j] in rows && (n, rows[j]) in s.enqueued;
    }
    assert (set j | j in ids && j != "") == (set j | j in ids);
    WithoutFirst(rows, k, set j | j in ids);
  }

  /** From any reachable state an undisturbed round takes the oldest rows, up to the limit, off the outbox. */
  lemma RoundDelivers(s: State, n: Node)
    requires Inv(s) && OutboxOf(s, n) != []
    ensures var rows := OutboxOf(s, n);
            OutboxOf(Run(s, Round(s, n)), n) == rows[if |rows| < 100 then |rows| else 100..]
  {
    var rows := OutboxOf(s, n);
    var k := if |rows| < FLUSH_LIMIT then |rows| else FLUSH_LIMIT;
    var batch, i := rows[..k], |s.ingests|;
    RunFive(s, Flush(n), BeginIngest(n, batch), SinkAccepts(i), FinishIngest(i), DeliverAck(n, Ids(batch)));
    var s1 := Step(s, Flush(n));
    var s4 := Step(Step(Step(s1, BeginIngest(n, batch)), SinkAccepts(i)), FinishIngest(i));
    IngestAcknowledges(s1, n, batch, i, s4);
    AckTakesFirst(s, n, k, s4);
  }

  /** Nothing a run can do keeps an outbox from emptying: some continuation delivers everything in it. */
  lemma {:induction false} Drains(actions: seq<Action>, n: Node) returns (rest: seq<Action>)
    ensures OutboxOf(Run(Fresh, actions + rest), n) == []
    decreases |OutboxOf(Run(Fresh, actions), n)|
  {
    var s := Run(Fresh, actions);
    if OutboxOf(s, n) == [] {
      rest := [];
      assert actions + rest == actions;
    } else {
      RunKeeps(actions);
      RoundDelivers(s, n);
      RunConcat(Fresh, actions, Round(s, n));
      var more := Drains(actions + Round(s, n), n);
      rest := Round(s, n) + more;
      assert actions + rest == actions + Round(s, n) + more;
    }
  }
}
