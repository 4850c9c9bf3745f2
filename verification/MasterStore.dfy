/** The master's tables of cluster replication and the statements run against them. */
module MasterStore {
  import opened Common
  import opened Journal

  class Store {
    var outbox: seq<Row>             // ordered by revision
    var issued: nat                  // the auto-increment counter
    var replicas: map<string, nat>   // node id -> acknowledged revision

    /** Rows are ordered, and every revision in use was issued. */
    ghost predicate Valid()
      reads this
    {
      Ascending(outbox) && Latest(outbox) <= issued
    }

    constructor ()
      ensures Valid() && outbox == [] && issued == 0 && replicas == map[]
    {
      outbox, issued, replicas := [], 0, map[];
    }

    method Append(payload: Payload) returns (row: Row)
      requires Valid()
      modifies this`outbox, this`issued
      ensures Valid()
      ensures row.payload == payload && row.revision > old(issued)
      ensures outbox == old(outbox) + [row] && issued == row.revision
      ensures row.revision > Latest(old(outbox))
    {
      issued := issued + 1;
      row := Row(issued, payload);
      outbox := outbox + [row];
    }

    /** The first `limit` rows past `revision`, in order; a limit that is not positive means 500. */
    method EventsAfter(revision: nat, limit: int) returns (events: seq<Row>)
      requires Valid()
      ensures events == Take(RowsAfter(outbox, revision), if limit <= 0 then 500 else limit)
      ensures Ascending(events) && forall e | e in events :: e in outbox && e.revision > revision
      ensures forall row | row in outbox && row.revision > revision && row !in events ::
                && |events| == (if limit <= 0 then 500 else limit)
                && events[|events| - 1].revision < row.revision
    {
      var most: nat := if limit <= 0 then 500 else limit;
      BatchMeans(outbox, revision, most);
      events := Take(RowsAfter(outbox, revision), most);
    }

    method LatestRevision() returns (revision: nat)
      ensures revision == Latest(outbox)
      ensures Valid() ==> forall i | 0 <= i < |outbox| :: outbox[i].revision <= revision
    {
      revision := if outbox == [] then 0 else outbox[|outbox| - 1].revision;
    }

    method OldestRevision() returns (revision: nat)
      ensures revision == Oldest(outbox)
      ensures Valid() ==> forall i | 0 <= i < |outbox| :: 0 < revision <= outbox[i].revision
    {
      revision := if outbox == [] then 0 else outbox[0].revision;
    }

    /** A node already known keeps its acknowledged revision. */
    method MarkReplicaConnected(node: string)
      modifies this`replicas
      ensures replicas == old(replicas)[node := if node in old(replicas) then old(replicas)[node] else 0]
    {
      if node !in replicas {
        replicas := replicas[node := 0];
      }
    }

    /** The acknowledged revision of a node never goes back. */
    method AcknowledgeReplica(node: string, revision: nat)
      modifies this`replicas
      ensures replicas == old(replicas)[node := if node in old(replicas) then Max(old(replicas)[node], revision) else revision]
    {
      if node !in replicas || revision > replicas[node] {
        replicas := replicas[node := revision];
      }
    }

    /** Deletes exactly the rows every permitted node has acknowledged; none when no node is permitted. */
    method PruneAcknowledged(allowed: seq<string>) returns (removed: nat)
      requires Valid()
      modifies this`outbox
      ensures Valid()
      ensures outbox == RowsAfter(old(outbox), RetentionFloor(allowed, replicas))
      ensures forall row | row in old(outbox) :: row !in outbox <==> AcknowledgedByAll(allowed, replicas, row.revision)
      ensures removed == |old(outbox)| - |outbox|
    {
      var minimum := Retention(allowed, replicas);
      PruneDeletes(outbox, allowed, replicas, minimum);
      removed := IndexAfter(outbox, minimum);
      outbox := RowsAfter(outbox, minimum);
    }
  }

  /** The loop of PruneAcknowledged: the floor up to which rows may go, 0 for none. */
  method Retention(allowed: seq<string>, replicas: map<string, nat>) returns (floor: nat)
    ensures floor == RetentionFloor(allowed, replicas)
    ensures floor > 0 ==> AcknowledgedByAll(allowed, replicas, floor) && !AcknowledgedByAll(allowed, replicas, floor + 1)
    ensures floor == 0 ==> !AcknowledgedByAll(allowed, replicas, 1)
  {
    if allowed == [] {
      return 0;
    }
    var minimum: int := -1;
    var i := 0;
    while i < |allowed|
      invariant 0 <= i <= |allowed|
      invariant -1 <= minimum && (minimum < 0 <==> i == 0)
      invariant forall j | 0 <= j < i :: allowed[j] in replicas && minimum <= replicas[allowed[j]]
      invariant i > 0 ==> exists j | 0 <= j < i :: replicas[allowed[j]] == minimum
    {
      if allowed[i] !in replicas {
        FloorMissing(allowed, replicas, i);
        return 0;
      }
      if minimum < 0 || replicas[allowed[i]] < minimum {
        minimum := replicas[allowed[i]];
      }
      i := i + 1;
    }
    FloorIsLeast(allowed, replicas, minimum);
    floor := if minimum <= 0 then 0 else minimum;
  }

  /** Every permitted node has acknowledged the revision. */
  predicate AcknowledgedByAll(allowed: seq<string>, replicas: map<string, nat>, revision: nat) {
    allowed != [] && forall i | 0 <= i < |allowed| :: allowed[i] in replicas && revision <= replicas[allowed[i]]
  }

  lemma InRowsAfter(rows: seq<Row>, revision: nat, row: Row)
    requires Ascending(rows) && row in rows
    ensures row in RowsAfter(rows, revision) <==> row.revision > revision
  {
    var k := IndexAfter(rows, revision);
    var i :| 0 <= i < |rows| && rows[i] == row;
    if i >= k { assert RowsAfter(rows, revision)[i - k] == row; }
  }

  lemma PruneDeletes(rows: seq<Row>, allowed: seq<string>, replicas: map<string, nat>, floor: nat)
    requires Ascending(rows)
    requires floor > 0 ==> AcknowledgedByAll(allowed, replicas, floor) && !AcknowledgedByAll(allowed, replicas, floor + 1)
    requires floor == 0 ==> !AcknowledgedByAll(allowed, replicas, 1)
    ensures Ascending(RowsAfter(rows, floor))
    ensures forall row | row in rows :: row !in RowsAfter(rows, floor) <==> AcknowledgedByAll(allowed, replicas, row.revision)
  {
    forall row | row in rows
      ensures row !in RowsAfter(rows, floor) <==> AcknowledgedByAll(allowed, replicas, row.revision)
    {
      InRowsAfter(rows, floor, row);
    }
  }

  lemma BatchIsNewer(rows: seq<Row>, revision: nat, most: nat)
    requires Ascending(rows)
    ensures forall e | e in Take(RowsAfter(rows, revision), most) :: e in rows && e.revision > revision
  {
    var batch := Take(RowsAfter(rows, revision), most);
    forall e | e in batch ensures e in rows && e.revision > revision {
      var i :| 0 <= i < |batch| && batch[i] == e;
      assert e == RowsAfter(rows, revision)[i];
      InRowsAfter(rows, revision, e);
    }
  }

  lemma BatchLeavesLater(rows: seq<Row>, revision: nat, most: nat, row: Row)
    requires Ascending(rows) && most > 0
    requires row in rows && row.revision > revision && row !in Take(RowsAfter(rows, revision), most)
    ensures var batch := Take(RowsAfter(rows, revision), most);
            |batch| == most && batch[most - 1].revision < row.revision
  {
    var after := RowsAfter(rows, revision);
    InRowsAfter(rows, revision, row);
    var i :| 0 <= i < |after| && after[i] == row;
    if i < most { assert false; }
  }

  lemma BatchMeans(rows: seq<Row>, revision: nat, most: nat)
    requires Ascending(rows) && most > 0
    ensures var batch := Take(RowsAfter(rows, revision), most);
            && Ascending(batch)
            && (forall e | e in batch :: e in rows && e.revision > revision)
            && (forall row | row in rows && row.revision > revision && row !in batch ::
                  |batch| == most && batch[|batch| - 1].revision < row.revision)
  {
    BatchIsNewer(rows, revision, most);
    forall row | row in rows && row.revision > revision && row !in Take(RowsAfter(rows, revision), most)
      ensures var batch := Take(RowsAfter(rows, revision), most);
              |batch| == most && batch[|batch| - 1].revision < row.revision
    {
      BatchLeavesLater(rows, revision, most, row);
    }
  }

  /** A permitted node without a replica record stops all pruning. */
  lemma {:induction false} FloorMissing(allowed: seq<string>, replicas: map<string, nat>, i: nat)
    requires i < |allowed| && allowed[i] !in replicas
    ensures RetentionFloor(allowed, replicas) == 0
  {
    if i > 0 { FloorMissing(allowed[1..], replicas, i - 1); }
  }

  /** With every node known, the floor is the least acknowledged revision. */
  lemma {:induction false} FloorIsLeast(allowed: seq<string>, replicas: map<string, nat>, least: nat)
    requires forall i | 0 <= i < |allowed| :: allowed[i] in replicas && least <= replicas[allowed[i]]
    requires exists i | 0 <= i < |allowed| :: replicas[allowed[i]] == least
    ensures RetentionFloor(allowed, replicas) == least
  {
    if |allowed| > 1 {
      var rest := allowed[1..];
      forall i | 0 <= i < |rest| ensures rest[i] in replicas && least <= replicas[rest[i]] { assert rest[i] == allowed[i + 1]; }
      if replicas[allowed[0]] == least {
        FloorAtLeast(rest, replicas, least);
      } else {
        var i :| 0 <= i < |allowed| && replicas[allowed[i]] == least;
        assert rest[i - 1] == allowed[i];
        FloorIsLeast(rest, replicas, least);
      }
    }
  }

  lemma {:induction false} FloorAtLeast(allowed: seq<string>, replicas: map<string, nat>, bound: nat)
    requires allowed != [] && forall i | 0 <= i < |allowed| :: allowed[i] in replicas && bound <= replicas[allowed[i]]
    ensures RetentionFloor(allowed, replicas) >= bound
  {
    if |allowed| > 1 {
      var rest := allowed[1..];
      forall i | 0 <= i < |rest| ensures rest[i] in replicas && bound <= replicas[rest[i]] { assert rest[i] == allowed[i + 1]; }
      FloorAtLeast(rest, replicas, bound);
    }
  }
}
