/** The steps of a session keep the invariant. */
module ReplicationSession {
  import opened Common
  import opened Strings
  import opened Journal
  import opened Replication
  import opened ReplicationInvariant
  import opened ReplicationSteps

  lemma UpdateKeeps(s: State, n: string, p: Peer)
    requires Inv(s) && n in s.peers && PeerOk(s.master, n, p)
    ensures Inv(Update(s, n, p))
  {
  }

  // ---------------------------------------------------------------- queues

  lemma {:induction false} QueueConcat(m: Master, c: Cursor, q: seq<Frame>, r: seq<Frame>)
    requires QueueOk(m, c, q) && QueueOk(m, Final(m, c, q), r)
    ensures QueueOk(m, c, q + r) && Final(m, c, q + r) == Final(m, Final(m, c, q), r)
    decreases |q|
  {
    if q == [] {
      assert q + r == r;
    } else {
      assert (q + r)[1..] == q[1..] + r;
      QueueConcat(m, Advance(m, c, q[0]), q[1..], r);
    }
  }

  lemma {:induction false} EventQueue(m: Master, c: Cursor, rows: seq<Row>)
    requires c.active == "" && c.initialised && c.position + |rows| <= |m.journal|
    requires m.journal[c.position..c.position + |rows|] == rows
    requires forall i | 0 <= i < |rows| :: !rows[i].payload.Resnapshot?
    ensures QueueOk(m, c, EventFrames(rows))
    ensures Final(m, c, EventFrames(rows)) == c.(position := c.position + |rows|)
    decreases |rows|
  {
    if rows != [] {
      var q := EventFrames(rows);
      assert m.journal[c.position] == m.journal[c.position..c.position + |rows|][0];
      assert Fits(m, c, q[0]);
      assert q[1..] == EventFrames(rows[1..]);
      EventQueue(m, Advance(m, c, q[0]), rows[1..]);
    }
  }

  lemma {:induction false} UserQueue(m: Master, c: Cursor, users: map<Email, User>, order: seq<Email>)
    requires c.active != ""
    requires forall i | 0 <= i < |order| :: order[i] in users && order[i] != ""
    ensures QueueOk(m, c, UserFrames(users, order))
    ensures var last := Final(m, c, UserFrames(users, order));
            && last == c.(staged := last.staged)
            && (forall e: Email :: Get(last.staged, e) == if e in order then Some(users[e]) else Get(c.staged, e))
    decreases |order|
  {
    if order != [] {
      var q := UserFrames(users, order);
      assert q[1..] == UserFrames(users, order[1..]);
      assert order == [order[0]] + order[1..];
      UserQueue(m, Advance(m, c, q[0]), users, order[1..]);
    }
  }

  /** Consuming frames never moves a slave back. */
  lemma {:induction false} FinalPosition(m: Master, c: Cursor, q: seq<Frame>)
    requires QueueOk(m, c, q)
    ensures c.position <= Final(m, c, q).position
    ensures c.initialised ==> Final(m, c, q).initialised
    decreases |q|
  {
    if q != [] { FinalPosition(m, Advance(m, c, q[0]), q[1..]); }
  }

  /** The rows a cursor has not been sent are exactly those the outbox query returns. */
  lemma AlignedIndex(m: Master, revision: nat, position: nat)
    requires MasterOk(m) && Aligned(m, revision, position)
    ensures m.pruned + IndexAfter(Outbox(m), revision) == Max(position, m.pruned)
  {
    var outbox := Outbox(m);
    var k := Max(position, m.pruned) - m.pruned;
    assert k > 0 ==> outbox[k - 1] == m.journal[position - 1];
    if k < |outbox| {
      assert outbox[k] == m.journal[m.pruned + k];
      RevisionAtMonotone(m.journal, m.pruned + k, m.pruned + k + 1);
      RevisionAtMonotone(m.journal, position, m.pruned + k);
    }
    IndexAfterUnique(outbox, revision, k);
  }

  // ---------------------------------------------------------------- the master's side

  lemma AcksMonotone(m: Master, link: Link, a: nat, b: nat)
    requires MasterOk(m) && a <= b <= |m.journal|
    ensures AcksAtMost(m, link, a) ==> AcksAtMost(m, link, b)
    ensures forall r | AtMost(m, r, a) :: AtMost(m, r, b)
  {
    RevisionAtMonotone(m.journal, a, b);
  }

  lemma AllowedTrimmed(m: Master, n: string)
    requires NodeAllowed(m, n)
    ensures Trimmed(n)
  {
    var i :| 0 <= i < |m.allowed| && TrimSpace(m.allowed[i]) == n;
    TrimSpaceTrims(m.allowed[i]);
  }

  lemma ResumeKeeps(m: Master, n: string, link: Link, st: Store, st': Store)
    requires MasterOk(m) && PositionOk(m, st) && ProjectionOk(m, st) && LinkOk(m, n, link, st)
    requires st.initialised && st' == ResumeStore(m, st)
    ensures PositionOk(m, st') && ProjectionOk(m, st') && LinkOk(m, n, link, st')
  {
    AcksMonotone(m, link, st.covered, st'.covered);
    RevisionAtMonotone(m.journal, st.covered, st'.covered);
  }

  lemma ConnectSession(m: Master, n: string, link: Link, st: Store, s: Session)
    requires MasterOk(m) && PositionOk(m, st) && LinkOk(m, n, link, st)
    requires NodeAllowed(m, n) && link.replica.Some?
    requires s.queue == [] && s.active == "" && !s.wrote && s.lastSent == st.applied && s.sentPosition == st.covered
    requires s.phase.SnapshotDue? || (s.phase.Streaming? && st.initialised && m.pruned <= st.covered)
    ensures SessionOk(m, n, link, st, s)
  {
    assert CursorOf(st, s) == Cursor(st.covered, "", map[], st.initialised);
  }

  lemma ConnectKeeps(m: Master, n: string, p: Peer, p': Peer)
    requires MasterOk(m) && PeerOk(m, n, p)
    requires NodeAllowed(m, n) && p' == ConnectStep(m, p)
    ensures PeerOk(m, n, p')
  {
    AllowedTrimmed(m, n);
    ConnectLinkKeeps(m, n, p.link, p.store);
    if !NeedsSnapshot(m, p.store) { ResumeKeeps(m, n, p'.link, p.store, p'.store); }
    ConnectSession(m, n, p'.link, p'.store, p'.session.value);
  }

  lemma ConnectLinkKeeps(m: Master, n: string, link: Link, st: Store)
    requires st.covered <= |m.journal| && LinkOk(m, n, link, st) && Trimmed(n)
    ensures LinkOk(m, n, ConnectLink(link), st)
  {
  }

  /** One batch is the next stretch of the journal, cut at a marker. */
  lemma BatchRows(m: Master, lastSent: nat, position: nat, rows: seq<Row>)
    requires MasterOk(m) && Aligned(m, lastSent, position) && m.pruned <= position
    requires rows == Take(RowsAfter(Outbox(m), lastSent), BATCH_LIMIT)
    ensures position + |rows| <= |m.journal|
    ensures rows == m.journal[position..position + |rows|]
  {
    AlignedIndex(m, lastSent, position);
    TakeSlice(m.journal, m.pruned, position, RowsAfter(Outbox(m), lastSent), rows);
  }

  lemma TakeSlice(journal: seq<Row>, pruned: nat, position: nat, after: seq<Row>, rows: seq<Row>)
    requires pruned <= position <= |journal|
    requires after == journal[pruned..][position - pruned..] && rows == Take(after, BATCH_LIMIT)
    ensures position + |rows| <= |journal| && rows == journal[position..position + |rows|]
  {
    assert after == journal[position..];
  }

  /** Where the slave will be once the frames `more` are queued as well. */
  lemma ExtendQueue(m: Master, st: Store, s: Session, s': Session, more: seq<Frame>)
    requires QueueOk(m, CursorOf(st, s), s.queue)
    requires s'.queue == s.queue + more && s'.active == s.active
    requires QueueOk(m, Final(m, CursorOf(st, s), s.queue), more)
    ensures CursorOf(st, s') == CursorOf(st, s)
    ensures QueueOk(m, CursorOf(st, s'), s'.queue)
    ensures Final(m, CursorOf(st, s'), s'.queue) == Final(m, Final(m, CursorOf(st, s), s.queue), more)
  {
    QueueConcat(m, CursorOf(st, s), s.queue, more);
  }

  lemma BatchStep(m: Master, s: Session, s': Session, rows: seq<Row>)
    requires Aligned(m, s.lastSent, s.sentPosition)
    requires s.sentPosition + |rows| <= |m.journal|
    requires rows == m.journal[s.sentPosition..s.sentPosition + |rows|]
    requires s' == QueueBatch(s, rows)
    ensures s.sentPosition <= s'.sentPosition <= |m.journal|
    ensures var sent := m.journal[s.sentPosition..s'.sentPosition];
            && s'.queue == s.queue + EventFrames(sent)
            && (forall i | 0 <= i < |sent| :: !sent[i].payload.Resnapshot?)
    ensures Aligned(m, s'.lastSent, s'.sentPosition)
    ensures s'.phase.Streaming? || s'.phase.SnapshotDue?
  {
    var k := BeforeMarker(rows);
    var sent := m.journal[s.sentPosition..s'.sentPosition];
    assert s'.sentPosition == s.sentPosition + k;
    assert rows[..k] == sent;
    assert s'.queue == s.queue + EventFrames(sent);
    forall i | 0 <= i < |sent| ensures !sent[i].payload.Resnapshot? { assert sent[i] == rows[i]; }
    assert k > 0 ==> rows[k - 1] == m.journal[s.sentPosition + k - 1];
  }

  lemma SendBatchPhase(m: Master, link: Link, s: Session, s': Session, last: Cursor)
    requires MasterOk(m) && PhaseOk(m, link, s, last) && s.phase.Streaming?
    requires s.sentPosition <= s'.sentPosition <= |m.journal|
    requires Aligned(m, s'.lastSent, s'.sentPosition)
    requires s'.phase.Streaming? || s'.phase.SnapshotDue?
    ensures PhaseOk(m, link, s', last.(position := s'.sentPosition))
  {
    AcksMonotone(m, link, s.sentPosition, s'.sentPosition);
  }

  lemma SendBatchSession(m: Master, n: string, link: Link, st: Store, s: Session, s': Session, batch: seq<Row>)
    requires MasterOk(m) && SessionOk(m, n, link, st, s) && s.phase.Streaming?
    requires s.sentPosition + |batch| <= |m.journal|
    requires batch == m.journal[s.sentPosition..s.sentPosition + |batch|]
    requires s' == QueueBatch(s, batch)
    ensures SessionOk(m, n, link, st, s')
  {
    var last := Final(m, CursorOf(st, s), s.queue);
    BatchStep(m, s, s', batch);
    SendBatchPhase(m, link, s, s', last);
    var rows := m.journal[s.sentPosition..s'.sentPosition];
    EventQueue(m, last, rows);
    ExtendQueue(m, st, s, s', EventFrames(rows));
    FreshEvents(st.staging, s.active, s.queue, EventFrames(rows));
    OldAcksEvents(m, link, st, s.queue, EventFrames(rows));
  }

  lemma FreshEvents(staging: map<(string, Email), User>, active: string, q: seq<Frame>, more: seq<Frame>)
    requires FreshIds(staging, active, q)
    requires forall i | 0 <= i < |more| :: !more[i].BeginFrame?
    ensures FreshIds(staging, active, q + more)
  {
  }

  lemma OldAcksEvents(m: Master, link: Link, st: Store, q: seq<Frame>, more: seq<Frame>)
    requires OldAcksBehind(m, link, st, q)
    requires forall i | 0 <= i < |more| :: !more[i].EndFrame?
    ensures OldAcksBehind(m, link, st, q + more)
  {
  }

  lemma SendBatchKeeps(m: Master, n: string, p: Peer, s': Session)
    requires MasterOk(m) && PeerOk(m, n, p)
    requires p.session.Some? && p.session.value.phase.Streaming? && s' == SendBatchStep(m, p.session.value)
    ensures PeerOk(m, n, p.(session := Some(s')))
  {
    SendBatchOk(m, n, p.link, p.store, p.session.value, s');
  }

  lemma SendBatchOk(m: Master, n: string, link: Link, st: Store, s: Session, s': Session)
    requires MasterOk(m) && SessionOk(m, n, link, st, s) && s.phase.Streaming? && s' == SendBatchStep(m, s)
    ensures SessionOk(m, n, link, st, s')
  {
    var batch := Take(RowsAfter(Outbox(m), s.lastSent), BATCH_LIMIT);
    BatchRows(m, s.lastSent, s.sentPosition, batch);
    SendBatchSession(m, n, link, st, s, s', batch);
  }

  lemma CaptureKeeps(m: Master, n: string, p: Peer, s': Session)
    requires MasterOk(m) && PeerOk(m, n, p)
    requires p.session.Some? && p.session.value.phase.SnapshotDue? && s' == CaptureStep(m, p.session.value)
    ensures PeerOk(m, n, p.(session := Some(s')))
  {
    assert CursorOf(p.store, s') == CursorOf(p.store, p.session.value);
    forall i | 0 <= i < |m.journal| && IsUserRow(m.journal[i])
      ensures m.versions[i] <= Newest(m.history, m.journal[i].payload.email)
    {
      assert RowOk(m, i);
    }
    assert Outbox(m) != [] ==> Outbox(m)[|Outbox(m)| - 1] == m.journal[|m.journal| - 1];
    assert Aligned(m, s'.phase.revision, s'.phase.position);
  }

  // ---------------------------------------------------------------- snapshots

  /** Reading every user after the capture misses nothing journaled before it. */
  lemma SnapshotReflects(m: Master, revision: nat, position: nat, before: History, at: Versions)
    requires MasterOk(m) && Aligned(m, revision, position)
    requires CapturedBefore(m, before, position) && ReadBetween(before, m.history, at)
    ensures SnapshotOk(m, Snapshot(revision, position, at))
    ensures Matches(m.history, UsersAt(m.history, at), at)
  {
    forall i | 0 <= i < |m.journal| && i < position && IsUserRow(m.journal[i])
      ensures m.versions[i] <= VersionHeld(at, m.journal[i].payload.email)
    {
      var e := m.journal[i].payload.email;
      assert m.versions[i] <= Newest(before, e);
      assert e in at || e !in before;
    }
    forall e: Email
      ensures Get(UsersAt(m.history, at), e) == ValueAt(m.history, e, VersionHeld(at, e))
    {
      if e !in at && e in m.history { assert e !in before; }
    }
  }

  lemma RecordKeeps(m: Master, m': Master, s: Session, id: string, at: Versions)
    requires MasterOk(m) && s.phase.Captured? && id != "" && id !in m.snapshots
    requires SnapshotOk(m, Snapshot(s.phase.revision, s.phase.position, at))
    requires m' == RecordSnapshot(m, s, id, at)
    ensures MasterOk(m') && Grows(m, m') && NewUsersAppear(m, m')
  {
    assert Grows(m, m');
    GrowsSnapshot(m, m', Snapshot(s.phase.revision, s.phase.position, at));
    GrowsMaster(m, m');
  }

  lemma ConsQueue(m: Master, c: Cursor, f: Frame, rest: seq<Frame>)
    requires Fits(m, c, f) && QueueOk(m, Advance(m, c, f), rest)
    ensures QueueOk(m, c, [f] + rest)
    ensures Final(m, c, [f] + rest) == Final(m, Advance(m, c, f), rest)
  {
    assert ([f] + rest)[1..] == rest;
  }

  /** The frames of a snapshot lead the slave to exactly what was read. */
  lemma SnapshotQueue(m: Master, c: Cursor, id: string, users: map<Email, User>, order: seq<Email>)
    requires c.active == "" && id != "" && id in m.snapshots
    requires c.position <= m.snapshots[id].position
    requires Matches(m.history, users, m.snapshots[id].at)
    requires forall i | 0 <= i < |order| :: order[i] in users && order[i] != ""
    requires forall e | e in users :: e in order
    ensures QueueOk(m, c, SnapshotFrames(id, m.snapshots[id].revision, users, order))
    ensures Final(m, c, SnapshotFrames(id, m.snapshots[id].revision, users, order))
         == Cursor(m.snapshots[id].position, "", map[], true)
  {
    var c1 := Advance(m, c, BeginFrame(id));
    var middle := UserFrames(users, order);
    var end := EndFrame(id, m.snapshots[id].revision);
    UserQueue(m, c1, users, order);
    var c2 := Final(m, c1, middle);
    SameMatches(m.history, users, c2.staged, m.snapshots[id].at, order);
    ConsQueue(m, c2, end, []);
    assert [end] + [] == [end];
    QueueConcat(m, c1, middle, [end]);
    ConsQueue(m, c, BeginFrame(id), middle + [end]);
    assert [BeginFrame(id)] + (middle + [end]) == SnapshotFrames(id, m.snapshots[id].revision, users, order);
  }

  lemma SameMatches(h: History, users: map<Email, User>, staged: map<Email, User>, at: Versions, order: seq<Email>)
    requires Matches(h, users, at)
    requires forall e | e in users :: e in order
    requires forall i | 0 <= i < |order| :: order[i] in users
    requires forall e: Email :: Get(staged, e) == if e in order then Some(users[e]) else None
    ensures Matches(h, staged, at)
  {
    forall e: Email ensures Get(staged, e) == Get(users, e) { }
  }

  lemma FreshSnapshot(staging: map<(string, Email), User>, active: string, q: seq<Frame>, more: seq<Frame>)
    requires FreshIds(staging, active, q) && more != [] && more[0].BeginFrame? && more[0].id != active
    requires forall k | k in staging :: k.0 != more[0].id
    requires forall i | 0 <= i < |q| && q[i].BeginFrame? :: q[i].id != more[0].id
    requires forall i | 0 < i < |more| :: !more[i].BeginFrame?
    ensures FreshIds(staging, active, q + more)
  {
  }

  lemma OldAcksSnapshot(m: Master, link: Link, st: Store, q: seq<Frame>, more: seq<Frame>, id: string)
    requires OldAcksBehind(m, link, st, q)
    requires id in m.snapshots && AcksAtMost(m, link, m.snapshots[id].position)
    requires forall i | 0 <= i < |more| :: !more[i].EndFrame? || more[i].id == id
    ensures OldAcksBehind(m, link, st, q + more)
  {
  }

  lemma SendSnapshotSession(m: Master, n: string, link: Link, st: Store, s: Session, s': Session,
                            id: string, at: Versions, order: seq<Email>)
    requires MasterOk(m) && SessionOk(m, n, link, st, s)
    requires s.phase.Captured? && id in m.snapshots && id != s.active
    requires m.snapshots[id] == Snapshot(s.phase.revision, s.phase.position, at)
    requires forall k | k in st.staging :: k.0 != id
    requires forall i | 0 <= i < |s.queue| && s.queue[i].BeginFrame? :: s.queue[i].id != id
    requires Matches(m.history, UsersAt(m.history, at), at)
    requires forall i | 0 <= i < |order| :: order[i] in UsersAt(m.history, at) && order[i] != ""
    requires forall e | e in UsersAt(m.history, at) :: e in order
    requires s' == SendSnapshotStep(m, s, id, at, order)
    ensures SessionOk(m, n, link, st, s')
  {
    var frames := SnapshotFrames(id, s.phase.revision, UsersAt(m.history, at), order);
    var last := Final(m, CursorOf(st, s), s.queue);
    SnapshotQueue(m, last, id, UsersAt(m.history, at), order);
    ExtendQueue(m, st, s, s', frames);
    SnapshotShape(id, s.phase.revision, UsersAt(m.history, at), order);
    FreshSnapshot(st.staging, s.active, s.queue, frames);
    OldAcksSnapshot(m, link, st, s.queue, frames, id);
    SnapshotPhase(m, link, s, s', last);
  }

  /** A snapshot begins once, at its head, and all that ends in it is itself. */
  lemma SnapshotShape(id: string, revision: nat, users: map<Email, User>, order: seq<Email>)
    requires forall i | 0 <= i < |order| :: order[i] in users
    ensures var frames := SnapshotFrames(id, revision, users, order);
            && frames != [] && frames[0] == BeginFrame(id)
            && (forall i | 0 < i < |frames| :: !frames[i].BeginFrame?)
            && (forall i | 0 <= i < |frames| :: !frames[i].EndFrame? || frames[i].id == id)
  {
  }

  lemma SnapshotPhase(m: Master, link: Link, s: Session, s': Session, last: Cursor)
    requires s.phase.Captured? && PhaseOk(m, link, s, last)
    requires s'.phase.Streaming? && s'.lastSent == s.phase.revision && s'.sentPosition == s.phase.position
    ensures PhaseOk(m, link, s', Cursor(s.phase.position, "", map[], true))
  {
  }

  lemma {:induction false} QueuedIds(m: Master, c: Cursor, q: seq<Frame>, i: nat)
    requires QueueOk(m, c, q) && i < |q| && q[i].BeginFrame?
    ensures q[i].id in m.snapshots
    decreases |q|
  {
    if i > 0 { QueuedIds(m, Advance(m, c, q[0]), q[1..], i - 1); }
  }

  lemma SendSnapshotPeer(m: Master, m': Master, n: string, p: Peer, id: string, at: Versions, order: seq<Email>, s': Session)
    requires MasterOk(m) && PeerOk(m, n, p) && p.session.Some?
    requires MasterOk(m') && Grows(m, m') && NewUsersAppear(m, m')
    requires MaySendSnapshot(m, p.session.value, id, at, order)
    requires m' == RecordSnapshot(m, p.session.value, id, at)
    requires s' == SendSnapshotStep(m, p.session.value, id, at, order)
    requires Matches(m.history, UsersAt(m.history, at), at)
    ensures PeerOk(m', n, p.(session := Some(s')))
  {
    var t := p.session.value;
    forall i | 0 <= i < |t.queue| && t.queue[i].BeginFrame? ensures t.queue[i].id != id {
      QueuedIds(m, CursorOf(p.store, t), t.queue, i);
    }
    GrowsPeer(m, m', n, p);
    forall i | 0 <= i < |order| ensures order[i] in UsersAt(m.history, at) && order[i] != "" { assert order[i] in m.history; }
    SendSnapshotSession(m', n, p.link, p.store, t, s', id, at, order);
  }

  lemma SendSnapshotParts(m: Master, m': Master, n: string, p: Peer, id: string, at: Versions, order: seq<Email>, s': Session)
    requires MasterOk(m) && PeerOk(m, n, p) && p.session.Some?
    requires MaySendSnapshot(m, p.session.value, id, at, order)
    requires m' == RecordSnapshot(m, p.session.value, id, at)
    requires s' == SendSnapshotStep(m, p.session.value, id, at, order)
    ensures MasterOk(m') && Grows(m, m') && NewUsersAppear(m, m')
    ensures PeerOk(m', n, p.(session := Some(s')))
  {
    var t := p.session.value;
    SnapshotReflects(m, t.phase.revision, t.phase.position, t.phase.before, at);
    RecordKeeps(m, m', t, id, at);
    SendSnapshotPeer(m, m', n, p, id, at, order, s');
  }

  lemma SendSnapshotKeeps(s: State, n: string, id: string, at: Versions, order: seq<Email>, m': Master, t': Session)
    requires Inv(s) && n in s.peers && s.peers[n].session.Some?
    requires MaySendSnapshot(s.master, s.peers[n].session.value, id, at, order)
    requires m' == RecordSnapshot(s.master, s.peers[n].session.value, id, at)
    requires t' == SendSnapshotStep(s.master, s.peers[n].session.value, id, at, order)
    ensures Inv(UpdateSession(s.(master := m'), n, t'))
  {
    assert PeerOk(s.master, n, s.peers[n]);
    SendSnapshotParts(s.master, m', n, s.peers[n], id, at, order, t');
    GrowsInv(s, m');
    UpdateKeeps(s.(master := m'), n, s.peers[n].(session := Some(t')));
  }

  // ---------------------------------------------------------------- the slave's side

  lemma AckKeeps(m: Master, n: string, p: Peer, revision: nat)
    requires MasterOk(m) && PeerOk(m, n, p) && revision in p.link.acks
    ensures PeerOk(m, n, p.(link := AckStep(p.link, revision)))
  {
  }

  lemma DropKeeps(m: Master, n: string, p: Peer)
    requires MasterOk(m) && PeerOk(m, n, p)
    ensures PeerOk(m, n, p.(session := None))
    ensures PeerOk(m, n, Peer(p.link, EmptyStore(), None))
  {
  }

  /** Writing the projection of the next row makes the slave hold that row's version. */
  lemma WriteProjection(m: Master, st: Store, st': Store, row: Row)
    requires MasterOk(m) && ProjectionOk(m, st) && st.initialised
    requires st.covered < |m.journal| && m.journal[st.covered] == row && st' == WriteStore(m, st, row)
    ensures ProjectionOk(m, st')
    ensures IsUserRow(row) ==> VersionHeld(st'.holds, row.payload.email) == m.versions[st.covered]
  {
    if IsUserRow(row) {
      assert RowOk(m, st.covered);
      var e := row.payload.email;
      forall x: Email
        ensures Get(st'.desired, x) == ValueAt(m.history, x, VersionHeld(st'.holds, x))
      {
        assert Get(st.desired, x) == ValueAt(m.history, x, VersionHeld(st.holds, x));
      }
      assert !st.broken ==> Reflects(m, st'.holds, st.covered);
    }
  }

  lemma WriteKeeps(m: Master, n: string, p: Peer, p': Peer)
    requires MasterOk(m) && PeerOk(m, n, p)
    requires p.session.Some? && MayWrite(p.store, p.session.value) && p' == WriteProjectionStep(m, p)
    ensures PeerOk(m, n, p')
  {
    var s := p.session.value;
    assert Fits(m, CursorOf(p.store, s), s.queue[0]);
    WriteProjection(m, p.store, p'.store, s.queue[0].row);
    assert CursorOf(p'.store, p'.session.value) == CursorOf(p.store, s);
  }

  /** After a frame is consumed the rest of the session is as the queue promised. */
  lemma PopSession(m: Master, n: string, link: Link, link': Link, st: Store, st': Store, s: Session, s': Session)
    requires MasterOk(m) && SessionOk(m, n, link, st, s) && s.queue != []
    requires s'.queue == s.queue[1..] && !s'.wrote && s'.phase == s.phase
    requires s'.lastSent == s.lastSent && s'.sentPosition == s.sentPosition
    requires CursorOf(st', s') == Advance(m, CursorOf(st, s), s.queue[0])
    requires s'.active != "" ==> s'.active in m.snapshots
    requires FreshIds(st'.staging, s'.active, s'.queue)
    requires link'.replica == link.replica
    requires st.initialised ==> st'.initialised
    requires !st'.initialised ==> link' == link
    requires forall a | a in link'.acks && a !in link.acks :: AtMost(m, a, CursorOf(st', s').position)
    ensures SessionOk(m, n, link', st', s')
  {
    var c' := CursorOf(st', s');
    var last := Final(m, c', s'.queue);
    assert last == Final(m, CursorOf(st, s), s.queue);
    FinalPosition(m, c', s'.queue);
    match s.phase
    case Gone =>
    case SnapshotDue =>
    case Streaming => AcksMonotone(m, link', c'.position, s.sentPosition);
    case Captured(_, position, _) => AcksMonotone(m, link', c'.position, position);
  }

  lemma FreshTail(staging: map<(string, Email), User>, active: string, q: seq<Frame>)
    requires q != [] && FreshIds(staging, active, q)
    ensures FreshIds(staging, active, q[1..])
    ensures q[0].BeginFrame? ==> FreshIds(staging, q[0].id, q[1..])
  {
  }

  /** The inbox check never suppresses an event that the slave has yet to see. */
  lemma NotYetApplied(m: Master, st: Store, row: Row)
    requires MasterOk(m) && PositionOk(m, st) && st.initialised
    requires st.covered < |m.journal| && m.journal[st.covered] == row
    ensures row.revision !in st.inbox
    ensures row.revision == RevisionAt(m.journal, st.covered + 1)
  {
    RevisionAtMonotone(m.journal, st.covered, st.covered + 1);
    assert row.revision > RevisionAt(m.journal, st.covered);
  }

  lemma AppliedStore(m: Master, n: string, link: Link, st: Store, st': Store, row: Row)
    requires MasterOk(m) && PositionOk(m, st) && ProjectionOk(m, st) && LinkOk(m, n, link, st)
    requires st.initialised && st.covered < |m.journal| && m.journal[st.covered] == row
    requires IsUserRow(row) ==> m.versions[st.covered] <= VersionHeld(st.holds, row.payload.email)
    requires st' == MarkApplied(st, row.revision) && link.replica.Some?
    ensures PositionOk(m, st') && ProjectionOk(m, st') && LinkOk(m, n, SendAck(link, row.revision), st')
    ensures st'.covered == st.covered + 1
  {
    NotYetApplied(m, st, row);
    AcksMonotone(m, link, st.covered, st'.covered);
    RevisionAtMonotone(m.journal, st'.covered, |m.journal|);
  }

  lemma FinishEvent(m: Master, n: string, p: Peer, p': Peer)
    requires MasterOk(m) && PeerOk(m, n, p)
    requires p.session.Some? && MayFinish(p.store, p.session.value) && p' == FinishFrameStep(m, p)
    requires p.session.value.queue[0].EventFrame?
    ensures PeerOk(m, n, p')
  {
    var s, s' := p.session.value, p'.session.value;
    var row := s.queue[0].row;
    assert Fits(m, CursorOf(p.store, s), s.queue[0]);
    NotYetApplied(m, p.store, row);
    AppliedStore(m, n, p.link, p.store, p'.store, row);
    FreshTail(p.store.staging, s.active, s.queue);
    PopSession(m, n, p.link, p'.link, p.store, p'.store, s, s');
  }

  lemma FinishBegin(m: Master, n: string, p: Peer, p': Peer)
    requires MasterOk(m) && PeerOk(m, n, p)
    requires p.session.Some? && MayFinish(p.store, p.session.value) && p' == FinishFrameStep(m, p)
    requires p.session.value.queue[0].BeginFrame?
    ensures PeerOk(m, n, p')
  {
    var s, s' := p.session.value, p'.session.value;
    assert Fits(m, CursorOf(p.store, s), s.queue[0]);
    FreshTail(p.store.staging, s.active, s.queue);
    assert Staged(p.store.staging, s'.active) == map[];
    PopSession(m, n, p.link, p'.link, p.store, p'.store, s, s');
  }

  /** Staging one more user under the active id. */
  lemma StageOne(staging: map<(string, Email), User>, id: string, e: Email, u: User)
    ensures Staged(staging[(id, e) := u], id) == Staged(staging, id)[e := u]
  {
    var bigger := staging[(id, e) := u];
    forall x: Email
      ensures Get(Staged(bigger, id), x) == Get(Staged(staging, id)[e := u], x)
    {
      StagedAt(staging, id, x);
      StagedAt(bigger, id, x);
    }
    assert forall x: Email :: x in Staged(bigger, id) <==> Get(Staged(bigger, id), x).Some?;
  }

  lemma FinishUser(m: Master, n: string, p: Peer, p': Peer)
    requires MasterOk(m) && PeerOk(m, n, p)
    requires p.session.Some? && MayFinish(p.store, p.session.value) && p' == FinishFrameStep(m, p)
    requires p.session.value.queue[0].UserFrame?
    ensures PeerOk(m, n, p')
  {
    var s, s' := p.session.value, p'.session.value;
    var f := s.queue[0];
    assert Fits(m, CursorOf(p.store, s), f);
    StageOne(p.store.staging, s.active, f.email, f.user);
    FreshTail(p.store.staging, s.active, s.queue);
    assert FreshIds(p'.store.staging, s'.active, s'.queue);
    PopSession(m, n, p.link, p'.link, p.store, p'.store, s, s');
  }

  /** Activation replaces the projection by the versions that were read. */
  lemma ActivatedStore(m: Master, n: string, link: Link, st: Store, st': Store, id: string, revision: nat)
    requires MasterOk(m) && PositionOk(m, st) && ProjectionOk(m, st) && LinkOk(m, n, link, st)
    requires id in m.snapshots && revision == m.snapshots[id].revision
    requires Matches(m.history, Staged(st.staging, id), m.snapshots[id].at)
    requires st.covered <= m.snapshots[id].position
    requires st' == Activate(m, st, id, revision)
    requires !st.initialised ==> AcksAtMost(m, link, m.snapshots[id].position)
    requires link.replica.Some?
    ensures PositionOk(m, st') && ProjectionOk(m, st') && LinkOk(m, n, SendAck(link, revision), st')
  {
    assert SnapshotOk(m, m.snapshots[id]);
    AcksMonotone(m, link, st.covered, st'.covered);
    RevisionAtMonotone(m.journal, st'.covered, |m.journal|);
  }

  lemma FreshAfterEnd(staging: map<(string, Email), User>, active: string, q: seq<Frame>)
    requires q != [] && FreshIds(staging, active, q) && forall i | 0 <= i < |q| && q[i].BeginFrame? :: q[i].id != ""
    ensures FreshIds(Unstage(staging, active), "", q[1..])
  {
  }

  lemma FinishEnd(m: Master, n: string, p: Peer, p': Peer)
    requires MasterOk(m) && PeerOk(m, n, p)
    requires p.session.Some? && MayFinish(p.store, p.session.value) && p' == FinishFrameStep(m, p)
    requires p.session.value.queue[0].EndFrame?
    ensures PeerOk(m, n, p')
  {
    var s, s' := p.session.value, p'.session.value;
    var f := s.queue[0];
    assert Fits(m, CursorOf(p.store, s), f);
    ActivatedStore(m, n, p.link, p.store, p'.store, f.id, f.revision);
    forall i | 0 <= i < |s.queue| && s.queue[i].BeginFrame? ensures s.queue[i].id != "" {
      QueuedIds(m, CursorOf(p.store, s), s.queue, i);
    }
    FreshAfterEnd(p.store.staging, s.active, s.queue);
    PopSession(m, n, p.link, p'.link, p.store, p'.store, s, s');
  }

  lemma FinishKeeps(m: Master, n: string, p: Peer, p': Peer)
    requires MasterOk(m) && PeerOk(m, n, p)
    requires p.session.Some? && MayFinish(p.store, p.session.value) && p' == FinishFrameStep(m, p)
    ensures PeerOk(m, n, p')
  {
    match p.session.value.queue[0]
    case EventFrame(_) => FinishEvent(m, n, p, p');
    case BeginFrame(_) => FinishBegin(m, n, p, p');
    case UserFrame(_, _) => FinishUser(m, n, p, p');
    case EndFrame(_, _) => FinishEnd(m, n, p, p');
  }

  // ---------------------------------------------------------------- every run

  lemma PeerNextKeeps(m: Master, p: Peer, a: Action, p': Peer)
    requires IsPeerAction(a) && MasterOk(m) && PeerOk(m, a.node, p) && PeerEnabled(m, p, a)
    requires p' == PeerNext(m, p, a)
    ensures PeerOk(m, a.node, p')
  {
    var n := a.node;
    match a
    case Connect(_) => ConnectKeeps(m, n, p, p');
    case SendBatch(_) => SendBatchKeeps(m, n, p, p'.session.value);
    case CaptureRevision(_) => CaptureKeeps(m, n, p, p'.session.value);
    case DeliverAck(_, revision) => AckKeeps(m, n, p, revision);
    case MasterEnds(_) => GonePeer(m, n, p);
    case WriteProjection(_) => WriteKeeps(m, n, p, p');
    case FinishFrame(_) => FinishKeeps(m, n, p, p');
    case Disconnect(_) => DropKeeps(m, n, p);
    case Wipe(_) => DropKeeps(m, n, p);
  }

  lemma PeerStepKeeps(s: State, a: Action)
    requires IsPeerAction(a) && Inv(s) && a.node in s.peers && PeerEnabled(s.master, s.peers[a.node], a)
    ensures Inv(Update(s, a.node, PeerNext(s.master, s.peers[a.node], a)))
  {
    assert PeerOk(s.master, a.node, s.peers[a.node]);
    PeerNextKeeps(s.master, s.peers[a.node], a, PeerNext(s.master, s.peers[a.node], a));
    UpdateKeeps(s, a.node, PeerNext(s.master, s.peers[a.node], a));
  }

  lemma StepKeeps(s: State, a: Action)
    requires Inv(s)
    ensures Inv(Step(s, a))
  {
    if Enabled(s, a) {
      match a
      case Change(_, _) => ChangeKeeps(s, a);
      case AppendUser(_, _, _) => AppendKeeps(s, a);
      case AppendOther(_, _) => AppendKeeps(s, a);
      case Prune => PruneKeeps(s, PruneStep(s.master, s.peers));
      case Reconfigure(allowed) => ReconfigureKeeps(s, ReconfigureStep(s, allowed), allowed);
      case SendSnapshot(n, id, at, order) =>
        var t := s.peers[n].session.value;
        SendSnapshotKeeps(s, n, id, at, order, RecordSnapshot(s.master, t, id, at),
                          SendSnapshotStep(s.master, t, id, at, order));
      case _ => PeerStepKeeps(s, a);
    }
  }

  /** The invariant holds after every run. */
  lemma {:induction false} RunKeeps(s: State, actions: seq<Action>)
    requires Init(s)
    ensures Inv(Run(s, actions))
    decreases |actions|
  {
    if actions == [] {
      InitInv(s);
    } else {
      var before := Run(s, actions[..|actions| - 1]);
      RunKeeps(s, actions[..|actions| - 1]);
      StepKeeps(before, actions[|actions| - 1]);
    }
  }
}
