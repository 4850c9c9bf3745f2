/** Each step of the replication protocol keeps the invariant. */
module ReplicationSteps {
  import opened Common
  import opened Strings
  import opened Journal
  import opened Replication
  import opened ReplicationInvariant

  // ---------------------------------------------------------------- the master moves on

  /** The master has made changes, appended rows, built snapshots or pruned. */
  ghost predicate Grows(m: Master, m': Master) {
    && (forall e: Email :: VersionsOf(m.history, e) <= VersionsOf(m'.history, e))
    && (forall e | e in m.history :: e in m'.history)
    && m.journal <= m'.journal
    && m.versions <= m'.versions
    && m.pruned <= m'.pruned
    && (forall id | id in m.snapshots :: id in m'.snapshots && m'.snapshots[id] == m.snapshots[id])
  }

  /** Every user that has appeared since was absent before. */
  ghost predicate NewUsersAppear(m: Master, m': Master) {
    forall e | e in m'.history && e !in m.history :: ValueAt(m'.history, e, 0).None?
  }

  lemma GrowsValue(m: Master, m': Master, e: Email, version: nat)
    requires Grows(m, m') && version < |VersionsOf(m.history, e)|
    ensures ValueAt(m.history, e, version) == ValueAt(m'.history, e, version)
  {
    assert VersionsOf(m.history, e) <= VersionsOf(m'.history, e);
  }

  lemma GrowsMatches(m: Master, m': Master, users: map<Email, User>, vs: Versions)
    requires Grows(m, m') && HistoryOk(m.history)
    requires VersionsExist(m.history, vs) && Matches(m.history, users, vs)
    ensures VersionsExist(m'.history, vs) && Matches(m'.history, users, vs)
  {
    forall e: Email
      ensures Get(users, e) == ValueAt(m'.history, e, VersionHeld(vs, e))
    {
      GrowsValue(m, m', e, VersionHeld(vs, e));
    }
    forall e | e in vs
      ensures e in m'.history && vs[e] < |m'.history[e]|
    {
      assert VersionsOf(m.history, e) <= VersionsOf(m'.history, e);
    }
  }

  lemma GrowsSnapshot(m: Master, m': Master, snap: Snapshot)
    requires Grows(m, m') && |m.versions| == |m.journal| && |m'.versions| == |m'.journal|
    requires NewUsersAppear(m, m') && HistoryOk(m.history) && SnapshotOk(m, snap)
    ensures SnapshotOk(m', snap)
  {
    forall e | e in m'.history && e !in snap.at
      ensures ValueAt(m'.history, e, 0).None?
    {
      if e in m.history { GrowsValue(m, m', e, 0); }
    }
    forall e | e in snap.at
      ensures e in m'.history && snap.at[e] < |m'.history[e]|
    {
      assert VersionsOf(m.history, e) <= VersionsOf(m'.history, e);
    }
  }

  lemma GrowsRow(m: Master, m': Master, i: nat)
    requires Grows(m, m') && |m.versions| == |m.journal| && |m'.versions| == |m'.journal|
    requires i < |m.journal| && RowOk(m, i)
    ensures RowOk(m', i)
  {
    if IsUserRow(m.journal[i]) {
      var e := m.journal[i].payload.email;
      assert VersionsOf(m.history, e) <= VersionsOf(m'.history, e);
      GrowsValue(m, m', e, m.versions[i]);
    }
  }

  lemma {:induction false} GrowsQueue(m: Master, m': Master, c: Cursor, q: seq<Frame>)
    requires Grows(m, m') && MasterOk(m) && QueueOk(m, c, q)
    ensures QueueOk(m', c, q) && Final(m', c, q) == Final(m, c, q)
    decreases |q|
  {
    if q != [] {
      if q[0].EndFrame? {
        GrowsMatches(m, m', c.staged, m.snapshots[q[0].id].at);
      }
      assert Fits(m', c, q[0]) && Advance(m', c, q[0]) == Advance(m, c, q[0]);
      GrowsQueue(m, m', Advance(m, c, q[0]), q[1..]);
    }
  }

  lemma GrowsCaptured(m: Master, m': Master, before: History, position: nat)
    requires Grows(m, m') && MasterOk(m) && |m'.versions| == |m'.journal|
    requires CapturedBefore(m, before, position) && position <= |m.journal|
    requires forall e | e in m'.history && e !in m.history :: ValueAt(m'.history, e, 0).None?
    ensures CapturedBefore(m', before, position)
  {
    forall e | e in before
      ensures e in m'.history && before[e] <= m'.history[e]
    {
      assert VersionsOf(m.history, e) <= VersionsOf(m'.history, e);
    }
    forall e | e in m'.history && e !in before
      ensures ValueAt(m'.history, e, 0).None?
    {
      if e in m.history { GrowsValue(m, m', e, 0); }
    }
  }

  lemma GrowsAligned(m: Master, m': Master, revision: nat, position: nat)
    requires Grows(m, m')
    ensures Aligned(m, revision, position) ==> Aligned(m', revision, position)
    ensures AtMost(m, revision, position) ==> AtMost(m', revision, position)
  {
  }

  lemma GrowsAcks(m: Master, m': Master, link: Link, position: nat)
    requires Grows(m, m') && AcksAtMost(m, link, position)
    ensures AcksAtMost(m', link, position)
  {
    forall a | a in link.acks ensures AtMost(m', a, position) { GrowsAligned(m, m', a, position); }
  }

  /** Pruning has not reached what the master's side of the session still has to send. */
  ghost predicate PruneBehind(m: Master, s: Session) {
    && (s.phase.Streaming? ==> m.pruned <= s.sentPosition)
    && (s.phase.Captured? ==> m.pruned <= s.phase.position)
  }

  lemma GrowsPhase(m: Master, m': Master, link: Link, s: Session, last: Cursor)
    requires Grows(m, m') && MasterOk(m) && |m'.versions| == |m'.journal|
    requires PruneBehind(m', s) && NewUsersAppear(m, m') && PhaseOk(m, link, s, last)
    ensures PhaseOk(m', link, s, last)
  {
    match s.phase
    case Gone =>
    case Streaming =>
      GrowsAligned(m, m', s.lastSent, s.sentPosition);
      GrowsAcks(m, m', link, s.sentPosition);
    case SnapshotDue =>
    case Captured(revision, position, before) =>
      GrowsAligned(m, m', revision, position);
      GrowsAcks(m, m', link, position);
      GrowsCaptured(m, m', before, position);
  }

  lemma GrowsSession(m: Master, m': Master, n: string, link: Link, st: Store, s: Session)
    requires Grows(m, m') && MasterOk(m) && |m'.versions| == |m'.journal|
    requires PruneBehind(m', s) && NewUsersAppear(m, m')
    requires s.phase.Gone? || m.allowed == m'.allowed
    requires SessionOk(m, n, link, st, s)
    ensures SessionOk(m', n, link, st, s)
  {
    var c := CursorOf(st, s);
    GrowsQueue(m, m', c, s.queue);
    GrowsPhase(m, m', link, s, Final(m, c, s.queue));
    GrowsOldAcks(m, m', link, st, s.queue);
  }

  lemma GrowsOldAcks(m: Master, m': Master, link: Link, st: Store, q: seq<Frame>)
    requires Grows(m, m') && OldAcksBehind(m, link, st, q)
    ensures OldAcksBehind(m', link, st, q)
  {
    if !st.initialised {
      forall i | 0 <= i < |q| && q[i].EndFrame?
        ensures q[i].id in m'.snapshots && AcksAtMost(m', link, m'.snapshots[q[i].id].position)
      {
        GrowsAcks(m, m', link, m.snapshots[q[i].id].position);
      }
    }
  }

  lemma GrowsPosition(m: Master, m': Master, st: Store)
    requires Grows(m, m') && PositionOk(m, st)
    ensures PositionOk(m', st)
  {
    GrowsAligned(m, m', st.applied, st.covered);
    forall r | r in st.inbox ensures AtMost(m, r, st.covered) ==> AtMost(m', r, st.covered) {
      GrowsAligned(m, m', r, st.covered);
    }
  }

  lemma GrowsProjection(m: Master, m': Master, st: Store)
    requires Grows(m, m') && MasterOk(m) && |m'.versions| == |m'.journal|
    requires st.covered <= |m.journal| && ProjectionOk(m, st)
    ensures ProjectionOk(m', st)
  {
    if st.initialised { GrowsMatches(m, m', st.desired, st.holds); }
  }

  lemma GrowsLink(m: Master, m': Master, n: string, link: Link, st: Store)
    requires Grows(m, m') && Ascending(m'.journal) && LinkOk(m, n, link, st)
    ensures LinkOk(m', n, link, st)
  {
    GrowsAcks(m, m', link, |m.journal|);
    RevisionAtMonotone(m'.journal, |m.journal|, |m'.journal|);
    if st.initialised { GrowsAcks(m, m', link, st.covered); }
  }

  lemma GrowsPeer(m: Master, m': Master, n: string, p: Peer)
    requires Grows(m, m') && MasterOk(m) && |m'.versions| == |m'.journal| && Ascending(m'.journal)
    requires NewUsersAppear(m, m') && PeerOk(m, n, p)
    requires p.session.Some? ==>
               PruneBehind(m', p.session.value) && (p.session.value.phase.Gone? || m.allowed == m'.allowed)
    ensures PeerOk(m', n, p)
  {
    GrowsPosition(m, m', p.store);
    GrowsProjection(m, m', p.store);
    GrowsLink(m, m', n, p.link, p.store);
    if p.session.Some? { GrowsSession(m, m', n, p.link, p.store, p.session.value); }
  }

  lemma GrowsMaster(m: Master, m': Master)
    requires Grows(m, m') && NewUsersAppear(m, m') && MasterOk(m) && HistoryOk(m'.history)
    requires Ascending(m'.journal) && |m'.versions| == |m'.journal| && m'.pruned <= |m'.journal|
    requires RowsInOrder(m')
    requires forall i | |m.journal| <= i < |m'.journal| :: RowOk(m', i)
    requires forall id | id in m'.snapshots && id !in m.snapshots :: id != "" && SnapshotOk(m', m'.snapshots[id])
    ensures MasterOk(m')
  {
    forall i | 0 <= i < |m.journal| ensures RowOk(m', i) { GrowsRow(m, m', i); }
    forall id | id in m.snapshots ensures SnapshotOk(m', m.snapshots[id]) { GrowsSnapshot(m, m', m.snapshots[id]); }
  }

  lemma GrowsInv(s: State, m': Master)
    requires Inv(s) && Grows(s.master, m') && MasterOk(m') && NewUsersAppear(s.master, m')
    requires s.master.allowed == m'.allowed && s.master.pruned == m'.pruned
    ensures Inv(s.(master := m'))
  {
    forall n | n in s.peers
      ensures PeerOk(m', n, s.peers[n])
    {
      GrowsPeer(s.master, m', n, s.peers[n]);
    }
  }

  lemma ChangeKeeps(s: State, a: Action)
    requires Inv(s) && a.Change? && Enabled(s, a)
    ensures Inv(Next(s, a))
  {
    var m' := Next(s, a).master;
    assert Grows(s.master, m');
    GrowsMaster(s.master, m');
    GrowsInv(s, m');
  }

  lemma AppendMaster(m: Master, row: Row, version: nat)
    requires MasterOk(m) && row.revision > Latest(m.journal)
    requires IsUserRow(row) ==>
               && row.payload.email in m.history && version < |m.history[row.payload.email]|
               && row.payload == UserPayload(m.history, row.payload.email, version)
    requires forall i | 0 <= i < |m.journal| && IsUserRow(m.journal[i]) && IsUserRow(row) ::
               m.journal[i].payload.email == row.payload.email ==> m.versions[i] <= version
    ensures var m' := m.(journal := m.journal + [row], versions := m.versions + [version]);
            MasterOk(m') && Grows(m, m')
  {
    var m' := m.(journal := m.journal + [row], versions := m.versions + [version]);
    assert Grows(m, m');
    assert RowOk(m', |m.journal|);
    assert Ascending(m'.journal);
    assert RowsInOrder(m');
    GrowsMaster(m, m');
  }

  lemma AppendKeeps(s: State, a: Action)
    requires Inv(s) && (a.AppendUser? || a.AppendOther?) && Enabled(s, a)
    ensures Inv(Next(s, a))
  {
    var m := s.master;
    if a.AppendUser? {
      AppendMaster(m, Row(a.revision, UserPayload(m.history, a.email, a.version)), a.version);
    } else {
      AppendMaster(m, Row(a.revision, a.payload), 0);
    }
    GrowsInv(s, Next(s, a).master);
  }

  // ---------------------------------------------------------------- pruning and reconfiguration

  /** The floor never passes a revision acknowledged by a permitted node. */
  lemma FloorBelow(s: State, n: string, floor: nat)
    requires Inv(s) && n in s.peers
    requires floor == RetentionFloor(s.master.allowed, ReplicaRecords(s.peers)) > 0
    requires NodeAllowed(s.master, n)
    ensures n in s.master.allowed
    ensures s.peers[n].link.replica.Some? && floor <= s.peers[n].link.replica.value
  {
    var i :| 0 <= i < |s.master.allowed| && TrimSpace(s.master.allowed[i]) == n;
    var raw := s.master.allowed[i];
    assert raw in ReplicaRecords(s.peers);
    assert PeerOk(s.master, raw, s.peers[raw]);
    TrimSpaceTrims(raw);
  }

  /** Deleting up to a revision covered at `position` deletes no row from `position` on. */
  lemma PruneStops(m: Master, revision: nat, position: nat)
    requires MasterOk(m) && m.pruned <= position && AtMost(m, revision, position)
    ensures m.pruned + IndexAfter(Outbox(m), revision) <= position
  {
    var k := IndexAfter(Outbox(m), revision);
    if k > 0 {
      assert Outbox(m)[k - 1] == m.journal[m.pruned + k - 1];
      RevisionAtMonotone(m.journal, m.pruned + k, position);
    }
  }

  lemma PruneBehindSession(s: State, n: string, m': Master)
    requires Inv(s) && n in s.peers && s.peers[n].session.Some?
    requires m' == PruneStep(s.master, s.peers)
    ensures PruneBehind(m', s.peers[n].session.value)
  {
    var m, p := s.master, s.peers[n];
    var t := p.session.value;
    var floor := RetentionFloor(m.allowed, ReplicaRecords(s.peers));
    assert PeerOk(m, n, p);
    if floor > 0 && !t.phase.Gone? {
      FloorBelow(s, n, floor);
      if t.phase.Streaming? { PruneStops(m, floor, t.sentPosition); }
      if t.phase.Captured? { PruneStops(m, floor, t.phase.position); }
    }
  }

  lemma PruneMaster(m: Master, peers: map<string, Peer>, m': Master)
    requires MasterOk(m) && m' == PruneStep(m, peers)
    ensures MasterOk(m') && Grows(m, m') && NewUsersAppear(m, m')
  {
    assert Grows(m, m');
    GrowsMaster(m, m');
  }

  lemma PruneKeeps(s: State, m': Master)
    requires Inv(s) && m' == PruneStep(s.master, s.peers)
    ensures Inv(s.(master := m'))
  {
    PruneMaster(s.master, s.peers, m');
    forall n | n in s.peers
      ensures PeerOk(m', n, s.peers[n])
    {
      if s.peers[n].session.Some? { PruneBehindSession(s, n, m'); }
      GrowsPeer(s.master, m', n, s.peers[n]);
    }
  }

  lemma GonePeer(m: Master, n: string, p: Peer)
    requires MasterOk(m) && PeerOk(m, n, p)
    ensures PeerOk(m, n, p.(session := EndMasterSide(p.session)))
  {
    if p.session.Some? {
      assert CursorOf(p.store, EndMasterSide(p.session).value) == CursorOf(p.store, p.session.value);
    }
  }

  lemma ReconfigureKeeps(s: State, s': State, allowed: seq<string>)
    requires Inv(s) && s' == ReconfigureStep(s, allowed)
    ensures Inv(s')
  {
    assert Grows(s.master, s'.master);
    GrowsMaster(s.master, s'.master);
    forall n | n in s'.peers
      ensures PeerOk(s'.master, n, s'.peers[n])
    {
      GonePeer(s.master, n, s.peers[n]);
      GrowsPeer(s.master, s'.master, n, s'.peers[n]);
    }
  }
}
