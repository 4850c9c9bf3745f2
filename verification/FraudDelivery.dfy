/**
 * Delivery of anti-fraud observations from slaves to the master's anti-fraud provider, as a step
 * system over the durable steps of all parties. Sent batches and acknowledgements may be lost,
 * delayed, repeated and reordered, and every party may stop between two durable steps. A
 * disabled action changes nothing, so every sequence of actions is a run.
 */
module FraudDelivery {
  import opened Common
  import opened FraudStore

  /** A batch the master is working on: filtered against the receipts, then accepted by the provider. */
  datatype Ingest = Ingest(node: Node, batch: seq<Event>, pending: seq<Event>, accepted: bool)

  datatype State = State(
    outbox: map<Node, seq<Event>>,
    receipts: Receipts,
    ingests: seq<Ingest>,
    sent: set<(Node, seq<Event>)>,
    acks: set<(Node, seq<Id>)>,
    // What has happened so far: events queued, identified batches the provider accepted, and per
    // node how often a batch died between acceptance and receipt or met another batch of the node.
    enqueued: set<(Node, Event)>,
    log: seq<(Node, seq<Event>)>,
    faults: map<Node, nat>
  )

  datatype Action =
    | Enqueue(node: Node, events: seq<Event>)
    | Flush(node: Node)
    | BeginIngest(node: Node, batch: seq<Event>)
    | SinkAccepts(i: nat)
    | FinishIngest(i: nat)
    | AbortIngest(i: nat)
    | DeliverAck(node: Node, ids: seq<Id>)

  function OutboxOf(s: State, n: Node): seq<Event> {
    if n in s.outbox then s.outbox[n] else []
  }

  /** Ids come from a random UUID, which never repeats. */
  predicate MayEnqueue(s: State, n: Node, events: seq<Event>) {
    && n != ""
    && Distinct(Ids(events))
    && (forall e | e in events :: e.id != "" && Usable(e.observation))
    && (forall e, p | e in events && p in s.enqueued && p.0 == n :: e.id != p.1.id)
  }

  predicate Enabled(s: State, a: Action) {
    match a
    case Enqueue(n, events) => MayEnqueue(s, n, events)
    case Flush(n) => OutboxOf(s, n) != []
    case BeginIngest(n, batch) => (n, batch) in s.sent
    case SinkAccepts(i) => i < |s.ingests| && s.ingests[i].pending != [] && !s.ingests[i].accepted
    case FinishIngest(i) => i < |s.ingests| && (s.ingests[i].pending == [] || s.ingests[i].accepted)
    case AbortIngest(i) => i < |s.ingests|
    case DeliverAck(n, ids) => (n, ids) in s.acks
  }

  function EnqueueStep(s: State, n: Node, events: seq<Event>): State {
    s.(outbox := s.outbox[n := OutboxOf(s, n) + events], enqueued := s.enqueued + (set e | e in events :: (n, e)))
  }

  function FlushStep(s: State, n: Node): State {
    var rows := OutboxOf(s, n);
    s.(sent := s.sent + {(n, rows[..if |rows| < FLUSH_LIMIT then |rows| else FLUSH_LIMIT])})
  }

  function FaultsOf(s: State, n: Node): nat {
    if n in s.faults then s.faults[n] else 0
  }

  function AddFault(s: State, n: Node, fault: bool): map<Node, nat> {
    if fault then s.faults[n := FaultsOf(s, n) + 1] else s.faults
  }

  predicate Busy(s: State, n: Node) {
    exists i | 0 <= i < |s.ingests| :: s.ingests[i].node == n
  }

  function BeginStep(s: State, n: Node, batch: seq<Event>): State {
    s.(ingests := s.ingests + [Ingest(n, batch, Unreceived(s.receipts, n, batch), false)],
       faults := AddFault(s, n, Busy(s, n)))
  }

  function AcceptStep(s: State, i: nat): State
    requires i < |s.ingests|
  {
    var g := s.ingests[i];
    s.(ingests := s.ingests[i := g.(accepted := true)], log := s.log + [(g.node, g.pending)])
  }

  function FinishStep(s: State, i: nat): State
    requires i < |s.ingests|
  {
    var g := s.ingests[i];
    s.(ingests := RemoveAt(s.ingests, i),
       receipts := AddReceipts(s.receipts, g.node, g.pending),
       acks := s.acks + {(g.node, Ids(g.batch))})
  }

  function AbortStep(s: State, i: nat): State
    requires i < |s.ingests|
  {
    s.(ingests := RemoveAt(s.ingests, i), faults := AddFault(s, s.ingests[i].node, s.ingests[i].accepted))
  }

  function AckStep(s: State, n: Node, ids: seq<Id>): State {
    s.(outbox := s.outbox[n := Without(OutboxOf(s, n), set i | i in ids && i != "")])
  }

  function Next(s: State, a: Action): State
    requires Enabled(s, a)
  {
    match a
    case Enqueue(n, events) => EnqueueStep(s, n, events)
    case Flush(n) => FlushStep(s, n)
    case BeginIngest(n, batch) => BeginStep(s, n, batch)
    case SinkAccepts(i) => AcceptStep(s, i)
    case FinishIngest(i) => FinishStep(s, i)
    case AbortIngest(i) => AbortStep(s, i)
    case DeliverAck(n, ids) => AckStep(s, n, ids)
  }

  function Step(s: State, a: Action): State {
    if Enabled(s, a) then Next(s, a) else s
  }

  function Run(s: State, actions: seq<Action>): State {
    if actions == [] then s else Step(Run(s, actions[..|actions| - 1]), actions[|actions| - 1])
  }

  const Fresh := State(map[], map[], [], {}, {}, {}, [], map[])

  // ---------------------------------------------------------------- what every step keeps

  /** A list of events queued earlier by the node, without repeats. */
  predicate Known(s: State, n: Node, events: seq<Event>) {
    Distinct(Ids(events)) && forall e | e in events :: (n, e) in s.enqueued
  }

  predicate Identified(s: State) {
    && (forall p | p in s.enqueued :: p.0 != "" && p.1.id != "")
    && (forall p, q | p in s.enqueued && q in s.enqueued && p.0 == q.0 && p.1.id == q.1.id :: p == q)
  }

  predicate OutboxOk(s: State) {
    forall n | n in s.outbox :: Known(s, n, s.outbox[n])
  }

  predicate SentOk(s: State) {
    forall b | b in s.sent :: Known(s, b.0, b.1)
  }

  predicate Received(s: State, n: Node, e: Event) {
    Get(s.receipts, (n, e.id)) == Some(e.observation)
  }

  predicate IngestOk(s: State, g: Ingest) {
    && Known(s, g.node, g.batch)
    && Known(s, g.node, g.pending)
    && (forall e | e in g.pending :: e in g.batch)
    && (forall e | e in g.batch :: e in g.pending || Received(s, g.node, e))
    && (g.accepted ==> (g.node, g.pending) in s.log)
  }

  predicate IngestsOk(s: State) {
    forall g | g in s.ingests :: IngestOk(s, g)
  }

  predicate Accepted(s: State, n: Node, e: Event) {
    exists b | b in s.log :: b.0 == n && e in b.1
  }

  predicate ReceiptsOk(s: State) {
    forall k | k in s.receipts ::
      var e := Event(k.1, s.receipts[k]);
      (k.0, e) in s.enqueued && Accepted(s, k.0, e)
  }

  predicate AcksOk(s: State) {
    forall a, id | a in s.acks && id in a.1 :: (a.0, id) in s.receipts
  }

  predicate NothingLost(s: State) {
    forall p | p in s.enqueued :: p.1 in OutboxOf(s, p.0) || Received(s, p.0, p.1)
  }

  predicate LogOk(s: State) {
    forall b | b in s.log :: Known(s, b.0, b.1)
  }

  predicate Inv(s: State) {
    && Identified(s) && OutboxOk(s) && SentOk(s) && IngestsOk(s)
    && ReceiptsOk(s) && AcksOk(s) && NothingLost(s) && LogOk(s)
  }

  /** What happened stays: queued events, accepted batches and receipts. */
  predicate Later(s: State, t: State) {
    && s.enqueued <= t.enqueued
    && (forall b | b in s.log :: b in t.log)
    && (forall k | k in s.receipts :: Get(t.receipts, k) == Some(s.receipts[k]))
  }

  lemma SentStays(s: State, t: State)
    requires SentOk(s) && Later(s, t) && t.sent == s.sent
    ensures SentOk(t)
  {
  }

  lemma LogStays(s: State, t: State)
    requires LogOk(s) && Later(s, t) && t.log == s.log
    ensures LogOk(t)
  {
  }

  lemma OutboxStays(s: State, t: State)
    requires OutboxOk(s) && Later(s, t) && t.outbox == s.outbox
    ensures OutboxOk(t)
  {
  }

  lemma AcksStay(s: State, t: State)
    requires AcksOk(s) && Later(s, t) && t.acks == s.acks
    ensures AcksOk(t)
  {
    forall a, id | a in t.acks && id in a.1 ensures (a.0, id) in t.receipts {
      assert (a.0, id) in s.receipts;
    }
  }

  lemma NothingIsLost(s: State, t: State)
    requires NothingLost(s) && Later(s, t) && t.outbox == s.outbox && t.enqueued == s.enqueued
    ensures NothingLost(t)
  {
    forall p | p in t.enqueued ensures p.1 in OutboxOf(t, p.0) || Received(t, p.0, p.1) {
      if p.1 !in OutboxOf(s, p.0) { assert Received(s, p.0, p.1); }
    }
  }

  lemma ReceiptsStay(s: State, t: State)
    requires ReceiptsOk(s) && Later(s, t) && t.receipts == s.receipts
    ensures ReceiptsOk(t)
  {
    forall k | k in t.receipts
      ensures (k.0, Event(k.1, t.receipts[k])) in t.enqueued && Accepted(t, k.0, Event(k.1, t.receipts[k]))
    {
      var b :| b in s.log && b.0 == k.0 && Event(k.1, s.receipts[k]) in b.1;
      assert b in t.log;
    }
  }

  lemma IngestStays(s: State, t: State, g: Ingest)
    requires IngestOk(s, g) && Later(s, t)
    ensures IngestOk(t, g)
  {
    forall e | e in g.batch ensures e in g.pending || Received(t, g.node, e) {
      if e !in g.pending { assert Received(s, g.node, e); }
    }
  }

  lemma IngestsStay(s: State, t: State)
    requires IngestsOk(s) && Later(s, t)
    requires forall g | g in t.ingests :: g in s.ingests || IngestOk(t, g)
    ensures IngestsOk(t)
  {
    forall g | g in t.ingests ensures IngestOk(t, g) {
      if g in s.ingests { IngestStays(s, t, g); }
    }
  }

  lemma EnqueueKeeps(s: State, n: Node, events: seq<Event>, t: State)
    requires Inv(s) && MayEnqueue(s, n, events) && t == EnqueueStep(s, n, events)
    ensures Inv(t)
  {
    EnqueueUnique(s, n, events, t);
    EnqueueOutbox(s, n, events, t);
    EnqueueLosesNothing(s, n, events, t);
    SentStays(s, t);
    IngestsStay(s, t);
    ReceiptsStay(s, t);
    AcksStay(s, t);
    LogStays(s, t);
  }

  lemma EnqueueLosesNothing(s: State, n: Node, events: seq<Event>, t: State)
    requires NothingLost(s) && t == EnqueueStep(s, n, events)
    ensures NothingLost(t)
  {
    forall p | p in t.enqueued ensures p.1 in OutboxOf(t, p.0) || Received(t, p.0, p.1) {
      if p in s.enqueued && p.1 !in OutboxOf(s, p.0) { assert Received(s, p.0, p.1); }
    }
  }

  lemma EnqueueUnique(s: State, n: Node, events: seq<Event>, t: State)
    requires Identified(s) && MayEnqueue(s, n, events) && t == EnqueueStep(s, n, events)
    ensures Identified(t)
  {
    forall p, q | p in t.enqueued && q in t.enqueued && p.0 == q.0 && p.1.id == q.1.id
      ensures p == q
    {
      if p !in s.enqueued && q !in s.enqueued {
        var i :| 0 <= i < |events| && events[i] == p.1;
        var j :| 0 <= j < |events| && events[j] == q.1;
        assert Ids(events)[i] == Ids(events)[j];
      }
    }
  }

  lemma EnqueueOutbox(s: State, n: Node, events: seq<Event>, t: State)
    requires OutboxOk(s) && MayEnqueue(s, n, events) && t == EnqueueStep(s, n, events)
    ensures OutboxOk(t)
  {
    var before, after := OutboxOf(s, n), OutboxOf(t, n);
    forall i, j | 0 <= i < j < |after| ensures Ids(after)[i] != Ids(after)[j] {
      if j < |before| {
        assert Ids(before)[i] != Ids(before)[j];
      } else if i < |before| {
        assert before[i] in before && after[j] == events[j - |before|];
        assert (n, before[i]) in s.enqueued;
      } else {
        assert Ids(events)[i - |before|] != Ids(events)[j - |before|];
      }
    }
    assert Known(t, n, after);
    forall m | m in t.outbox ensures Known(t, m, t.outbox[m]) {
      if m != n { assert Known(s, m, s.outbox[m]); }
    }
  }

  lemma FlushKeeps(s: State, n: Node, t: State)
    requires Inv(s) && OutboxOf(s, n) != [] && t == FlushStep(s, n)
    ensures Inv(t)
  {
    FlushSends(s, n, t);
    OutboxStays(s, t);
    NothingIsLost(s, t);
    IngestsStay(s, t);
    ReceiptsStay(s, t);
    AcksStay(s, t);
    LogStays(s, t);
  }

  lemma FlushSends(s: State, n: Node, t: State)
    requires OutboxOk(s) && SentOk(s) && OutboxOf(s, n) != [] && t == FlushStep(s, n)
    ensures SentOk(t)
  {
    var rows := OutboxOf(s, n);
    var batch := rows[..if |rows| < FLUSH_LIMIT then |rows| else FLUSH_LIMIT];
    assert Known(s, n, rows);
    forall i, j | 0 <= i < j < |batch| ensures Ids(batch)[i] != Ids(batch)[j] {
      assert Ids(rows)[i] != Ids(rows)[j];
    }
    assert Known(t, n, batch);
  }

  /** The ingests may change when each stays as it should be. */
  lemma OnlyIngestsChanged(s: State, t: State)
    requires Inv(s) && t == s.(ingests := t.ingests, faults := t.faults)
    requires forall g | g in t.ingests :: g in s.ingests || IngestOk(t, g)
    ensures Inv(t)
  {
    SentStays(s, t);
    OutboxStays(s, t);
    NothingIsLost(s, t);
    IngestsStay(s, t);
    ReceiptsStay(s, t);
    AcksStay(s, t);
    LogStays(s, t);
  }

  lemma BeginKeeps(s: State, n: Node, batch: seq<Event>, t: State)
    requires Inv(s) && (n, batch) in s.sent && t == BeginStep(s, n, batch)
    ensures Inv(t)
  {
    BeginFilters(s, n, batch, t);
    OnlyIngestsChanged(s, t);
  }

  lemma BeginFilters(s: State, n: Node, batch: seq<Event>, t: State)
    requires Identified(s) && ReceiptsOk(s) && Known(s, n, batch) && t == BeginStep(s, n, batch)
    ensures IngestOk(t, Ingest(n, batch, Unreceived(s.receipts, n, batch), false))
  {
    UnreceivedMeans(s.receipts, n, batch);
    var pending := Unreceived(s.receipts, n, batch);
    forall e | e in batch ensures e in pending || Received(t, n, e) {
      if e !in pending { ReceiptIsOf(s, n, e); }
    }
  }

  /** Ids are unique, so a receipt for an id is a receipt for the event queued under it. */
  lemma ReceiptIsOf(s: State, n: Node, e: Event)
    requires Identified(s) && ReceiptsOk(s) && (n, e) in s.enqueued && (n, e.id) in s.receipts
    ensures Received(s, n, e)
  {
    assert (n, Event(e.id, s.receipts[(n, e.id)])) in s.enqueued;
  }

  lemma AcceptKeeps(s: State, i: nat, t: State)
    requires Inv(s) && i < |s.ingests| && t == AcceptStep(s, i)
    ensures Inv(t)
  {
    var g := s.ingests[i];
    assert IngestOk(s, g);
    assert t.log[|s.log|] == (g.node, g.pending);
    IngestStays(s, t, g);
    assert IngestOk(t, g.(accepted := true));
    AcceptLogs(s, g, t);
    SentStays(s, t);
    OutboxStays(s, t);
    NothingIsLost(s, t);
    IngestsStay(s, t);
    ReceiptsStay(s, t);
    AcksStay(s, t);
  }

  lemma AcceptLogs(s: State, g: Ingest, t: State)
    requires LogOk(s) && Known(s, g.node, g.pending) && t.enqueued == s.enqueued && t.log == s.log + [(g.node, g.pending)]
    ensures LogOk(t)
  {
    forall b | b in t.log ensures Known(t, b.0, b.1) {
      if b in s.log { assert Known(s, b.0, b.1); } else { assert Known(s, g.node, g.pending); }
    }
  }

  lemma FinishKeeps(s: State, i: nat, t: State)
    requires Inv(s) && i < |s.ingests| && (s.ingests[i].pending == [] || s.ingests[i].accepted) && t == FinishStep(s, i)
    ensures Inv(t)
  {
    var g := s.ingests[i];
    assert IngestOk(s, g);
    FinishReceipts(s, g, t);
    FinishAcks(s, g, t);
    SentStays(s, t);
    OutboxStays(s, t);
    NothingIsLost(s, t);
    IngestsStay(s, t);
    LogStays(s, t);
  }

  lemma FinishReceipts(s: State, g: Ingest, t: State)
    requires ReceiptsOk(s) && IngestOk(s, g) && (g.pending == [] || g.accepted)
    requires t.enqueued == s.enqueued && t.log == s.log && t.receipts == AddReceipts(s.receipts, g.node, g.pending)
    ensures ReceiptsOk(t) && Later(s, t)
  {
    AddReceiptsMeans(s.receipts, g.node, g.pending);
    forall k | k in t.receipts
      ensures (k.0, Event(k.1, t.receipts[k])) in t.enqueued && Accepted(t, k.0, Event(k.1, t.receipts[k]))
    {
      var e := Event(k.1, t.receipts[k]);
      if k in s.receipts {
        assert Get(t.receipts, k) == Some(s.receipts[k]);
        assert Accepted(s, k.0, e);
      } else {
        assert e in g.pending && (g.node, g.pending) in s.log;
      }
    }
  }

  /** An acknowledgement names only events with a receipt. */
  lemma FinishAcks(s: State, g: Ingest, t: State)
    requires AcksOk(s) && IngestOk(s, g) && Later(s, t)
    requires t.receipts == AddReceipts(s.receipts, g.node, g.pending) && t.acks == s.acks + {(g.node, Ids(g.batch))}
    ensures AcksOk(t)
  {
    AddReceiptsMeans(s.receipts, g.node, g.pending);
    forall a, id | a in t.acks && id in a.1 ensures (a.0, id) in t.receipts {
      if a in s.acks {
        assert (a.0, id) in s.receipts;
      } else {
        var j :| 0 <= j < |a.1| && a.1[j] == id;
        var e := g.batch[j];
        assert e in g.batch && e.id == id;
        if e !in g.pending { assert Received(s, g.node, e); }
      }
    }
  }

  lemma AckKeeps(s: State, n: Node, ids: seq<Id>, t: State)
    requires Inv(s) && (n, ids) in s.acks && t == AckStep(s, n, ids)
    ensures Inv(t)
  {
    AckDeletes(s, n, ids, t);
    SentStays(s, t);
    IngestsStay(s, t);
    ReceiptsStay(s, t);
    AcksStay(s, t);
    LogStays(s, t);
  }

  lemma AckDeletes(s: State, n: Node, ids: seq<Id>, t: State)
    requires Identified(s) && ReceiptsOk(s) && OutboxOk(s) && NothingLost(s)
    requires forall id | id in ids :: (n, id) in s.receipts
    requires t == AckStep(s, n, ids)
    ensures OutboxOk(t) && NothingLost(t)
  {
    var gone := set i | i in ids && i != "";
    WithoutMeans(OutboxOf(s, n), gone);
    forall m | m in t.outbox ensures Known(t, m, t.outbox[m]) {
      if m in s.outbox { assert Known(s, m, s.outbox[m]); }
    }
    forall p | p in t.enqueued ensures p.1 in OutboxOf(t, p.0) || Received(t, p.0, p.1) {
      if p.0 == n && p.1 in OutboxOf(s, n) && p.1.id in gone { ReceiptIsOf(s, n, p.1); }
      if p.1 !in OutboxOf(s, p.0) { assert Received(s, p.0, p.1); }
    }
  }

  lemma StepKeeps(s: State, a: Action)
    requires Inv(s)
    ensures Inv(Step(s, a))
  {
    if Enabled(s, a) {
      match a
      case Enqueue(n, events) => EnqueueKeeps(s, n, events, Step(s, a));
      case Flush(n) => FlushKeeps(s, n, Step(s, a));
      case BeginIngest(n, batch) => BeginKeeps(s, n, batch, Step(s, a));
      case SinkAccepts(i) => AcceptKeeps(s, i, Step(s, a));
      case FinishIngest(i) => FinishKeeps(s, i, Step(s, a));
      case AbortIngest(i) => OnlyIngestsChanged(s, Step(s, a));
      case DeliverAck(n, ids) => AckKeeps(s, n, ids, Step(s, a));
    }
  }

  lemma {:induction false} RunKeeps(actions: seq<Action>)
    ensures Inv(Run(Fresh, actions))
  {
    if actions != [] {
      RunKeeps(actions[..|actions| - 1]);
      StepKeeps(Run(Fresh, actions[..|actions| - 1]), actions[|actions| - 1]);
    }
  }

  /**
   * At-least-once delivery. In every run, an event once queued is still in its outbox or has a
   * receipt with the observation it was queued with; a receipt exists only for an event that was
   * queued and accepted by the provider; the provider is only ever given what was queued.
   */
  lemma Delivery(actions: seq<Action>, n: Node, e: Event)
    ensures var s := Run(Fresh, actions);
            && ((n, e) in s.enqueued ==> e in OutboxOf(s, n) || Received(s, n, e))
            && (Received(s, n, e) ==> Accepted(s, n, e) && (n, e) in s.enqueued)
            && (Accepted(s, n, e) ==> (n, e) in s.enqueued)
  {
    RunKeeps(actions);
    var s := Run(Fresh, actions);
    if Accepted(s, n, e) {
      var b :| b in s.log && b.0 == n && e in b.1;
      assert Known(s, b.0, b.1);
    }
  }
}
