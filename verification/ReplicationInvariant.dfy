/**
 * What every step of the replication protocol keeps.
 *
 * The heart is `PeerOk`: whatever the slave holds for an e-mail is some version the master
 * has held, and unless the slave was resumed past deleted rows, it is at least as new as every
 * journaled version among the rows the slave has covered.
 */
module ReplicationInvariant {
  import opened Common
  import opened Strings
  import opened Journal
  import opened Replication

  /** `position` rows are accounted for by a cursor that shows `revision`. */
  ghost predicate Aligned(m: Master, revision: nat, position: nat) {
    && position <= |m.journal|
    && (|| revision == RevisionAt(m.journal, position)
        || (revision <= RevisionAt(m.journal, position) && position <= m.pruned))
  }

  ghost predicate AtMost(m: Master, revision: nat, position: nat) {
    position <= |m.journal| && revision <= RevisionAt(m.journal, position)
  }

  /** `vs` is at least as new as every user row among the first `position` rows. */
  ghost predicate Reflects(m: Master, vs: Versions, position: nat)
    requires |m.versions| == |m.journal|
  {
    forall i | 0 <= i < |m.journal| && i < position && IsUserRow(m.journal[i]) ::
      m.versions[i] <= VersionHeld(vs, m.journal[i].payload.email)
  }

  ghost predicate VersionsExist(h: History, vs: Versions) {
    forall e | e in vs :: e in h && vs[e] < |h[e]|
  }

  /** `users` is exactly the map of the versions `vs`. */
  ghost predicate Matches(h: History, users: map<Email, User>, vs: Versions) {
    forall e: Email :: Get(users, e) == ValueAt(h, e, VersionHeld(vs, e))
  }

  /** Row `i`, if it carries a user, carries version `m.versions[i]` of it. */
  ghost predicate RowOk(m: Master, i: nat)
    requires i < |m.journal| && |m.versions| == |m.journal|
  {
    IsUserRow(m.journal[i]) ==>
      var e := m.journal[i].payload.email;
      && e in m.history
      && m.versions[i] < |m.history[e]|
      && m.journal[i].payload == UserPayload(m.history, e, m.versions[i])
  }

  ghost predicate RowsInOrder(m: Master)
    requires |m.versions| == |m.journal|
  {
    forall i, j | 0 <= i < j < |m.journal| && IsUserRow(m.journal[i]) && IsUserRow(m.journal[j])
                  && m.journal[i].payload.email == m.journal[j].payload.email ::
      m.versions[i] <= m.versions[j]
  }

  /** A user that was not read at all was absent at the start. */
  ghost predicate OthersAbsent(h: History, at: Versions) {
    forall e | e in h && e !in at :: ValueAt(h, e, 0).None?
  }

  ghost predicate SnapshotOk(m: Master, snap: Snapshot)
    requires |m.versions| == |m.journal|
  {
    && Aligned(m, snap.revision, snap.position)
    && VersionsExist(m.history, snap.at)
    && Reflects(m, snap.at, snap.position)
    && OthersAbsent(m.history, snap.at)
  }

  ghost predicate MasterOk(m: Master) {
    && HistoryOk(m.history)
    && Ascending(m.journal)
    && |m.versions| == |m.journal|
    && m.pruned <= |m.journal|
    && (forall i | 0 <= i < |m.journal| :: RowOk(m, i))
    && RowsInOrder(m)
    && (forall id | id in m.snapshots :: id != "" && SnapshotOk(m, m.snapshots[id]))
  }

  // ---------------------------------------------------------------- frames in flight

  /** What the slave will look like at some point of its queue. */
  datatype Cursor = Cursor(position: nat, active: string, staged: map<Email, User>, initialised: bool)

  ghost predicate Fits(m: Master, c: Cursor, f: Frame) {
    match f
    case EventFrame(row) =>
      && c.active == "" && c.initialised && c.position < |m.journal|
      && m.journal[c.position] == row && !row.payload.Resnapshot?
    case BeginFrame(id) => c.active == "" && id in m.snapshots
    case UserFrame(e, _) => c.active != "" && e != ""
    case EndFrame(id, revision) =>
      && c.active == id && id in m.snapshots
      && revision == m.snapshots[id].revision
      && c.position <= m.snapshots[id].position
      && Matches(m.history, c.staged, m.snapshots[id].at)
  }

  ghost function Advance(m: Master, c: Cursor, f: Frame): Cursor
    requires Fits(m, c, f)
  {
    match f
    case EventFrame(_) => c.(position := c.position + 1)
    case BeginFrame(id) => c.(active := id, staged := map[])
    case UserFrame(e, u) => c.(staged := c.staged[e := u])
    case EndFrame(id, _) => Cursor(m.snapshots[id].position, "", map[], true)
  }

  ghost predicate QueueOk(m: Master, c: Cursor, q: seq<Frame>)
    decreases |q|
  {
    q == [] || (Fits(m, c, q[0]) && QueueOk(m, Advance(m, c, q[0]), q[1..]))
  }

  ghost function Final(m: Master, c: Cursor, q: seq<Frame>): Cursor
    requires QueueOk(m, c, q)
    decreases |q|
  {
    if q == [] then c else Final(m, Advance(m, c, q[0]), q[1..])
  }

  ghost function CursorOf(st: Store, s: Session): Cursor {
    Cursor(st.covered, s.active, if s.active == "" then map[] else Staged(st.staging, s.active), st.initialised)
  }

  /** A snapshot still to begin has nothing staged yet, and no two of them share an id. */
  ghost predicate FreshIds(staging: map<(string, Email), User>, active: string, q: seq<Frame>) {
    && (forall i | 0 <= i < |q| && q[i].BeginFrame? ::
          q[i].id != active && forall k | k in staging :: k.0 != q[i].id)
    && (forall i, j | 0 <= i < j < |q| && q[i].BeginFrame? && q[j].BeginFrame? :: q[i].id != q[j].id)
  }

  // ---------------------------------------------------------------- one slave

  ghost predicate AcksAtMost(m: Master, link: Link, position: nat) {
    && (forall a | a in link.acks :: AtMost(m, a, position))
    && (link.replica.Some? ==> AtMost(m, link.replica.value, position))
  }

  /** `before` is the history at the moment the first `position` rows made up the journal. */
  ghost predicate CapturedBefore(m: Master, before: History, position: nat) {
    && HistoryOk(before)
    && (forall e | e in before :: e in m.history && before[e] <= m.history[e])
    && (forall e | e in m.history && e !in before :: ValueAt(m.history, e, 0).None?)
    && |m.versions| == |m.journal|
    && (forall i | 0 <= i < |m.journal| && i < position && IsUserRow(m.journal[i]) ::
          m.versions[i] <= Newest(before, m.journal[i].payload.email))
  }

  /** The master's side of a session, given where the queued frames will take the slave. */
  ghost predicate PhaseOk(m: Master, link: Link, s: Session, last: Cursor) {
    match s.phase
    case Gone => true
    case Streaming =>
      && last.position == s.sentPosition && last.active == "" && last.initialised
      && Aligned(m, s.lastSent, s.sentPosition)
      && m.pruned <= s.sentPosition
      && AcksAtMost(m, link, s.sentPosition)
    case SnapshotDue =>
      last.active == "" && last.position <= |m.journal|
    case Captured(revision, position, before) =>
      && last.active == "" && last.position <= position
      && Aligned(m, revision, position)
      && m.pruned <= position
      && AcksAtMost(m, link, position)
      && CapturedBefore(m, before, position)
  }

  /** A projection write that is not yet marked applied. */
  ghost predicate WroteOk(m: Master, st: Store, s: Session) {
    s.wrote ==>
      && s.queue != [] && s.queue[0].EventFrame?
      && (IsUserRow(s.queue[0].row) ==>
            && st.covered < |m.versions|
            && m.versions[st.covered] <= VersionHeld(st.holds, s.queue[0].row.payload.email))
  }

  /** Acknowledgements left from before a slave lost its database are behind the coming snapshot. */
  ghost predicate OldAcksBehind(m: Master, link: Link, st: Store, q: seq<Frame>) {
    !st.initialised ==>
      forall i | 0 <= i < |q| && q[i].EndFrame? ::
        q[i].id in m.snapshots && AcksAtMost(m, link, m.snapshots[q[i].id].position)
  }

  ghost predicate SessionOk(m: Master, n: string, link: Link, st: Store, s: Session) {
    && (s.active != "" ==> s.active in m.snapshots)
    && QueueOk(m, CursorOf(st, s), s.queue)
    && FreshIds(st.staging, s.active, s.queue)
    && WroteOk(m, st, s)
    && OldAcksBehind(m, link, st, s.queue)
    && PhaseOk(m, link, s, Final(m, CursorOf(st, s), s.queue))
    && (!s.phase.Gone? ==> NodeAllowed(m, n))
    && link.replica.Some?
  }

  /** The positions a slave has reached. */
  ghost predicate PositionOk(m: Master, st: Store) {
    && st.covered <= |m.journal|
    && (!st.initialised ==> st.inbox == {})
    && (st.initialised ==>
          && Aligned(m, st.applied, st.covered)
          && (forall r | r in st.inbox :: AtMost(m, r, st.covered)))
  }

  /** What a slave holds. */
  ghost predicate ProjectionOk(m: Master, st: Store)
    requires |m.versions| == |m.journal|
  {
    && (forall k | k in st.staging :: k.0 in m.snapshots)
    && (st.initialised ==>
          && VersionsExist(m.history, st.holds)
          && Matches(m.history, st.desired, st.holds)
          && (!st.broken ==> Reflects(m, st.holds, st.covered)))
  }

  ghost predicate LinkOk(m: Master, n: string, link: Link, st: Store) {
    && AcksAtMost(m, link, |m.journal|)
    && (st.initialised ==> AcksAtMost(m, link, st.covered))
    && (link.replica.Some? ==> Trimmed(n))
    && (link.acks != {} ==> link.replica.Some?)
  }

  ghost predicate PeerOk(m: Master, n: string, p: Peer)
    requires |m.versions| == |m.journal|
  {
    && PositionOk(m, p.store)
    && ProjectionOk(m, p.store)
    && LinkOk(m, n, p.link, p.store)
    && (p.session.Some? ==> SessionOk(m, n, p.link, p.store, p.session.value))
  }

  ghost predicate Inv(s: State) {
    MasterOk(s.master) && forall n | n in s.peers :: PeerOk(s.master, n, s.peers[n])
  }

  lemma InitInv(s: State)
    requires Init(s)
    ensures Inv(s)
  {
  }
}
