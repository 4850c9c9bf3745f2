/**
 * The two durable tables behind the delivery of anti-fraud observations: a slave's outbox and
 * the master's receipts, and the master's handling of one received batch.
 */
module FraudStore {
  import opened Common
  import opened Strings

  type Node = string
  type Id = string

  /** An already hashed observation. */
  datatype Observation = Observation(email: string, ip: string, occurredAt: int, hashKey: string)

  datatype Event = Event(id: Id, observation: Observation)

  type Receipts = map<(Node, Id), Observation>

  const FLUSH_LIMIT: nat := 100

  predicate Usable(o: Observation) {
    o.email != "" && o.ip != ""
  }

  function Ids(events: seq<Event>): (ids: seq<Id>)
    ensures |ids| == |events|
    ensures forall i | 0 <= i < |events| :: ids[i] == events[i].id
  {
    seq(|events|, i requires 0 <= i < |events| => events[i].id)
  }

  method NonEmptyStrings(values: seq<string>) returns (result: seq<string>)
    ensures result == FirstNonEmpty(values)
    ensures Distinct(result) && forall v :: v in result <==> v in values && v != ""
  {
    var seen := {};
    result := [];
    for i := 0 to |values|
      invariant result == FirstNonEmpty(values[..i])
      invariant forall v :: v in seen <==> v in result
    {
      assert values[..i + 1][..i] == values[..i];
      var value := values[i];
      if value != "" && value !in seen {
        seen, result := seen + {value}, result + [value];
      }
    }
    assert values[..|values|] == values;
    FirstNonEmptyMeans(values);
  }

  /** The events of a batch without a receipt, in order. */
  function Unreceived(receipts: Receipts, node: Node, events: seq<Event>): seq<Event> {
    if events == [] then []
    else
      var before, last := Unreceived(receipts, node, events[..|events| - 1]), events[|events| - 1];
      if (node, last.id) in receipts then before else before + [last]
  }

  lemma {:induction false} UnreceivedMeans(receipts: Receipts, node: Node, events: seq<Event>)
    ensures forall e :: e in Unreceived(receipts, node, events) <==> e in events && (node, e.id) !in receipts
    ensures Distinct(Ids(events)) ==> Distinct(Ids(Unreceived(receipts, node, events)))
  {
    if events != [] {
      var init, last := events[..|events| - 1], events[|events| - 1];
      UnreceivedMeans(receipts, node, init);
      assert events == init + [last];
      if Distinct(Ids(events)) {
        DistinctInit(events);
        var rest := Unreceived(receipts, node, init);
        forall i | 0 <= i < |rest| ensures rest[i].id != last.id {
          assert rest[i] in init;
          var j :| 0 <= j < |init| && init[j] == rest[i];
          assert Ids(events)[j] != Ids(events)[|init|];
        }
      }
    }
  }

  lemma DistinctInit(events: seq<Event>)
    requires events != [] && Distinct(Ids(events))
    ensures Distinct(Ids(events[..|events| - 1]))
  {
    var init := events[..|events| - 1];
    forall i, j | 0 <= i < j < |init| ensures Ids(init)[i] != Ids(init)[j] {
      assert Ids(init)[i] == Ids(events)[i] && Ids(init)[j] == Ids(events)[j];
    }
  }

  /** Receipts for a batch; a receipt that exists stays as it is. */
  function AddReceipts(receipts: Receipts, node: Node, events: seq<Event>): Receipts {
    if events == [] then receipts
    else
      var before, last := AddReceipts(receipts, node, events[..|events| - 1]), events[|events| - 1];
      if (node, last.id) in before then before else before[(node, last.id) := last.observation]
  }

  lemma {:induction false} AddReceiptsMeans(receipts: Receipts, node: Node, events: seq<Event>)
    ensures forall k | k in receipts :: Get(AddReceipts(receipts, node, events), k) == Some(receipts[k])
    ensures forall k :: k in AddReceipts(receipts, node, events) <==> k in receipts || (k.0 == node && exists e | e in events :: e.id == k.1)
    ensures forall k | k in AddReceipts(receipts, node, events) && k !in receipts ::
              Event(k.1, AddReceipts(receipts, node, events)[k]) in events
  {
    if events != [] {
      var init, last := events[..|events| - 1], events[|events| - 1];
      AddReceiptsMeans(receipts, node, init);
      assert events == init + [last];
      assert last in events && last == Event(last.id, last.observation);
      var before, after := AddReceipts(receipts, node, init), AddReceipts(receipts, node, events);
      forall k
        ensures k in after <==> k in receipts || (k.0 == node && exists e | e in events :: e.id == k.1)
      {
        if k.0 == node && exists e | e in events :: e.id == k.1 {
          var e :| e in events && e.id == k.1;
          if e in init { assert k in before; }
        }
        if k in before && k !in receipts {
          var e :| e in init && e.id == k.1;
          assert e in events;
        }
      }
    }
  }

  /** What is left of an outbox once the rows with these ids are deleted. */
  function Without(outbox: seq<Event>, ids: set<Id>): seq<Event> {
    if outbox == [] then []
    else
      var before, last := Without(outbox[..|outbox| - 1], ids), outbox[|outbox| - 1];
      if last.id in ids then before else before + [last]
  }

  lemma {:induction false} WithoutMeans(outbox: seq<Event>, ids: set<Id>)
    ensures forall e :: e in Without(outbox, ids) <==> e in outbox && e.id !in ids
    ensures Distinct(Ids(outbox)) ==> Distinct(Ids(Without(outbox, ids)))
  {
    if outbox != [] {
      var init, last := outbox[..|outbox| - 1], outbox[|outbox| - 1];
      WithoutMeans(init, ids);
      assert outbox == init + [last];
      if Distinct(Ids(outbox)) {
        DistinctInit(outbox);
        var rest := Without(init, ids);
        forall i | 0 <= i < |rest| ensures rest[i].id != last.id {
          assert rest[i] in init;
          var j :| 0 <= j < |init| && init[j] == rest[i];
          assert Ids(outbox)[j] != Ids(outbox)[|init|];
        }
      }
    }
  }

  /** Every event carries an id, or none does (the format of older slaves). */
  predicate WellFormed(events: seq<Event>) {
    && events != []
    && forall e | e in events :: Usable(e.observation) && (e.id == "" <==> events[0].id == "")
  }

  class Store {
    var outbox: seq<Event>
    var receipts: Receipts

    constructor ()
      ensures outbox == [] && receipts == map[]
    {
      outbox, receipts := [], map[];
    }

    /** All events are queued, in order and with their ids, or none is. */
    method Enqueue(observations: seq<Observation>, ids: seq<Id>) returns (result: Result<seq<Event>>)
      requires |ids| == |observations|
      modifies this`outbox
      ensures result.Ok? <==>
              && (forall o | o in observations :: o.email != "" && o.ip != "")
              && Distinct(ids)
              && (forall e | e in old(outbox) :: e.id !in ids)
      ensures result.Ok? ==>
                && outbox == old(outbox) + result.value
                && Ids(result.value) == ids
                && forall i | 0 <= i < |ids| :: result.value[i].observation == observations[i]
      ensures result.Err? ==> outbox == old(outbox)
    {
      var queued := [];
      for i := 0 to |observations|
        invariant |queued| == i
        invariant forall k | 0 <= k < i :: queued[k] == Event(ids[k], observations[k]) && Usable(observations[k])
        invariant Distinct(ids[..i])
        invariant forall e | e in outbox :: e.id !in ids[..i]
        invariant outbox == old(outbox)
      {
        assert ids[i] in ids && observations[i] in observations;
        if !Usable(observations[i]) {
          return Err;
        }
        if ids[i] in ids[..i] {
          var j :| 0 <= j < i && ids[j] == ids[i];
          assert !Distinct(ids);
          return Err;
        }
        if exists e | e in outbox :: e.id == ids[i] {
          return Err;
        }
        queued := queued + [Event(ids[i], observations[i])];
      }
      assert ids[..|ids|] == ids;
      outbox := outbox + queued;
      return Ok(queued);
    }

    method Pending(limit: int) returns (events: seq<Event>)
      ensures events <= outbox
      ensures |events| == |outbox| || |events| == (if limit <= 0 then 100 else limit)
      ensures |events| <= (if limit <= 0 then 100 else limit)
    {
      var most := if limit <= 0 then FLUSH_LIMIT else limit;
      events := outbox[..if |outbox| < most then |outbox| else most];
    }

    /** Deletes exactly the rows named; unknown and empty ids do nothing, so a repeated ACK does nothing. */
    method Acknowledge(ids: seq<Id>)
      modifies this`outbox
      ensures outbox == Without(old(outbox), set i | i in ids && i != "")
      ensures forall e :: e in outbox <==> e in old(outbox) && (e.id == "" || e.id !in ids)
    {
      var named := NonEmptyStrings(ids);
      var kept := [];
      for i := 0 to |outbox|
        invariant kept == Without(outbox[..i], set i | i in ids && i != "")
        invariant outbox == old(outbox)
      {
        assert outbox[..i + 1][..i] == outbox[..i];
        if outbox[i].id !in named { kept := kept + [outbox[i]]; }
      }
      assert outbox[..|outbox|] == outbox;
      WithoutMeans(outbox, set i | i in ids && i != "");
      outbox := kept;
    }

    method UnreceivedFraudEvents(node: Node, events: seq<Event>) returns (result: Result<seq<Event>>)
      ensures result.Ok? <==> node != "" && forall e | e in events :: e.id != "" && Usable(e.observation)
      ensures result.Ok? ==> result.value == Unreceived(receipts, node, events)
    {
      if node == "" {
        return Err;
      }
      for i := 0 to |events|
        invariant forall k | 0 <= k < i :: events[k].id != "" && Usable(events[k].observation)
      {
        if events[i].id == "" || !Usable(events[i].observation) {
          return Err;
        }
      }
      var rest := [];
      for i := 0 to |events|
        invariant rest == Unreceived(receipts, node, events[..i])
      {
        assert events[..i + 1][..i] == events[..i];
        if (node, events[i].id) !in receipts { rest := rest + [events[i]]; }
      }
      assert events[..|events|] == events;
      return Ok(rest);
    }

    /** One transaction; a receipt that exists wins. */
    method MarkReceived(node: Node, events: seq<Event>) returns (ok: bool)
      modifies this`receipts
      ensures ok <==> node != "" && forall e | e in events :: e.id != "" && Usable(e.observation)
      ensures receipts == if ok then AddReceipts(old(receipts), node, events) else old(receipts)
    {
      if node == "" {
        return false;
      }
      var updated := receipts;
      for i := 0 to |events|
        invariant updated == AddReceipts(old(receipts), node, events[..i]) && receipts == old(receipts)
        invariant forall k | 0 <= k < i :: events[k].id != "" && Usable(events[k].observation)
      {
        assert events[..i + 1][..i] == events[..i];
        var e := events[i];
        if e.id == "" || !Usable(e.observation) {
          return false;
        }
        if (node, e.id) !in updated { updated := updated[(node, e.id) := e.observation]; }
      }
      assert events[..|events|] == events;
      receipts := updated;
      return true;
    }

    /**
     * The master's handling of a decoded batch. `sink` is Some(answer) when an anti-fraud provider
     * is registered, `durable` whether writing the receipts succeeds; `submitted` is what the
     * provider was given.
     */
    method Ingest(node: Node, events: seq<Event>, sink: Option<bool>, durable: bool)
      returns (acknowledged: Result<seq<Id>>, submitted: seq<Event>)
      modifies this`receipts
      ensures !WellFormed(events) ==> acknowledged.Err? && submitted == []
      ensures WellFormed(events) && events[0].id == "" ==>
                acknowledged == Ok([]) && submitted == if sink.Some? then events else []
      ensures WellFormed(events) && events[0].id != "" ==>
                && submitted == (if sink.Some? && node != "" then Unreceived(old(receipts), node, events) else [])
                && (acknowledged.Ok? <==> sink.Some? && node != "" && (submitted == [] || (sink.value && durable)))
                && (acknowledged.Ok? ==> acknowledged.value == Ids(events))
      ensures receipts == (if acknowledged.Ok? && events[0].id != "" then AddReceipts(old(receipts), node, submitted) else old(receipts))
      ensures acknowledged.Ok? ==> forall id | id in acknowledged.value :: (node, id) in receipts
      ensures acknowledged.Ok? ==>
                events != [] && forall e | e in events :: e.observation.email != "" && e.observation.ip != "" && (e.id == "" <==> events[0].id == "")
    {
      submitted := [];
      if events == [] {
        return Err, [];
      }
      var legacy := events[0].id == "";
      for i := 0 to |events|
        invariant forall k | 0 <= k < i :: Usable(events[k].observation) && (events[k].id == "" <==> legacy)
      {
        if !Usable(events[i].observation) || (events[i].id == "") != legacy {
          assert events[i] in events;
          return Err, [];
        }
      }
      if legacy {
        return Ok([]), if sink.Some? then events else [];
      }
      if sink.None? {
        return Err, [];
      }
      var pending := UnreceivedFraudEvents(node, events);
      if pending.Err? {
        return Err, [];
      }
      submitted := pending.value;
      UnreceivedMeans(receipts, node, events);
      if submitted != [] {
        if !sink.value || !durable {
          return Err, submitted;
        }
        var ok := MarkReceived(node, submitted);
      }
      AddReceiptsMeans(old(receipts), node, submitted);
      assert forall e | e in events :: (node, e.id) in receipts;
      return Ok(Ids(events)), submitted;
    }
  }
}
