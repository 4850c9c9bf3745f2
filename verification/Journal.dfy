/**
 * The durable journal of cluster replication: the rows of the master's outbox table
 * and the queries that read and prune it.
 */
module Journal {
  import opened Common

  type Email = string
  type User = string // the serialised user configuration

  datatype Payload =
    | Upsert(email: Email, user: User)
    | Remove(email: Email)
    | Artifact
    | Resnapshot

  datatype Row = Row(revision: nat, payload: Payload)

  predicate IsUserRow(row: Row) {
    row.payload.Upsert? || row.payload.Remove?
  }

  /** Revisions are issued by an auto-increment primary key: positive and never reused. */
  ghost predicate Ascending(rows: seq<Row>) {
    && (forall i | 0 <= i < |rows| :: rows[i].revision > 0)
    && (forall i, j | 0 <= i < j < |rows| :: rows[i].revision < rows[j].revision)
  }

  /** SELECT ... ORDER BY revision DESC LIMIT 1; the zero row when the table is empty. */
  function Latest(rows: seq<Row>): nat {
    if rows == [] then 0 else rows[|rows| - 1].revision
  }

  /** SELECT ... ORDER BY revision ASC LIMIT 1; the zero row when the table is empty. */
  function Oldest(rows: seq<Row>): nat {
    if rows == [] then 0 else rows[0].revision
  }

  /** The number of leading rows whose revision does not exceed `revision`. */
  function IndexAfter(rows: seq<Row>, revision: nat): (k: nat)
    ensures k <= |rows|
    ensures forall i | 0 <= i < k :: rows[i].revision <= revision
    ensures k < |rows| ==> rows[k].revision > revision
  {
    if rows == [] || rows[0].revision > revision then 0
    else 1 + IndexAfter(rows[1..], revision)
  }

  /** SELECT ... WHERE revision > ? ORDER BY revision ASC. */
  function RowsAfter(rows: seq<Row>, revision: nat): seq<Row> {
    rows[IndexAfter(rows, revision)..]
  }

  function Take(rows: seq<Row>, limit: nat): seq<Row> {
    if |rows| <= limit then rows else rows[..limit]
  }

  /** On a well-formed journal the prefix found by IndexAfter is the only split that fits. */
  lemma IndexAfterUnique(rows: seq<Row>, revision: nat, k: nat)
    requires Ascending(rows) && k <= |rows|
    requires k > 0 ==> rows[k - 1].revision <= revision
    requires k < |rows| ==> rows[k].revision > revision
    ensures IndexAfter(rows, revision) == k
  {
  }

  /** The revision reached after the first `position` rows. */
  function RevisionAt(rows: seq<Row>, position: nat): nat
    requires position <= |rows|
  {
    if position == 0 then 0 else rows[position - 1].revision
  }

  lemma RevisionAtMonotone(rows: seq<Row>, a: nat, b: nat)
    requires Ascending(rows) && a <= |rows| && b <= |rows|
    ensures a <= b <==> RevisionAt(rows, a) <= RevisionAt(rows, b)
  {
  }

  /**
   * The retention floor computed by PruneAcknowledged: the least acknowledged revision over
   * the permitted nodes, or 0 (nothing to delete) when no node is permitted or one of them
   * has no replica record.
   */
  function RetentionFloor(allowed: seq<string>, replicas: map<string, nat>): (floor: nat)
    ensures floor > 0 ==> forall i | 0 <= i < |allowed| ::
                            allowed[i] in replicas && floor <= replicas[allowed[i]]
  {
    if allowed == [] || allowed[0] !in replicas then 0
    else if |allowed| == 1 then replicas[allowed[0]]
    else
      var rest := RetentionFloor(allowed[1..], replicas);
      if rest == 0 then 0
      else if replicas[allowed[0]] < rest then replicas[allowed[0]] else rest
  }
}
