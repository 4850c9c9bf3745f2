/** From every reachable state the protocol can go on until a slave has caught up. */
module ReplicationProgress {
  import opened Common
  import opened Strings
  import opened Journal
  import opened Replication
  import opened ReplicationInvariant
  import opened ReplicationSession
  import opened ReplicationTheorems
  import MasterStore

  lemma {:induction false} InvGoesOn(s: State, actions: seq<Action>)
    requires Inv(s)
    ensures Inv(Run(s, actions))
    decreases |actions|
  {
    if actions != [] {
      InvGoesOn(s, actions[..|actions| - 1]);
      StepKeeps(Run(s, actions[..|actions| - 1]), actions[|actions| - 1]);
    }
  }

  lemma RunTwo(s: State, a: Action, b: Action)
    ensures Run(s, [a, b]) == Step(Step(s, a), b)
  {
    RunStep(s, [], a);
    RunStep(s, [a], b);
    assert [] + [a] == [a] && [a] + [b] == [a, b];
  }

  // ---------------------------------------------------------------- one batch

  /** The rows still to be sent on a stream. */
  lemma RowsLeft(m: Master, n: string, p: Peer)
    requires MasterOk(m) && PeerOk(m, n, p) && p.session.Some? && p.session.value.phase.Streaming?
    ensures var s := p.session.value;
            s.sentPosition <= |m.journal| && RowsAfter(Outbox(m), s.lastSent) == m.journal[s.sentPosition..]
  {
    var s := p.session.value;
    AlignedIndex(m, s.lastSent, s.sentPosition);
  }

  /** `sent` is as much of `rows` as one batch takes: 500 rows, or all, or those before the first marker. */
  predicate OneBatch(rows: seq<Row>, sent: seq<Row>, marker: bool) {
    && sent <= rows && |sent| <= 500
    && (forall i | 0 <= i < |sent| :: !sent[i].payload.Resnapshot?)
    && (marker <==> |sent| < 500 && |sent| < |rows|)
    && (marker ==> rows[|sent|].payload.Resnapshot?)
  }

  lemma BatchOf(m: Master, s: Session) returns (sent: seq<Row>)
    requires m.pruned <= |m.journal| && s.phase.Streaming?
    ensures var t := SendBatchStep(m, s);
            && OneBatch(RowsAfter(Outbox(m), s.lastSent), sent, t.phase.SnapshotDue?)
            && t.queue == s.queue + EventFrames(sent)
            && t.lastSent == (if sent == [] then s.lastSent else sent[|sent| - 1].revision)
            && t.sentPosition == s.sentPosition + |sent|
            && (t.phase.SnapshotDue? || t.phase.Streaming?)
            && t.active == s.active && t.wrote == s.wrote
  {
    var rows := RowsAfter(Outbox(m), s.lastSent);
    var batch := Take(rows, 500);
    sent := batch[..BeforeMarker(batch)];
  }

  /** `sent` is the batch of the next rows past `lastSent`, and is queued; what follows it is left. */
  ghost predicate Sends(m: Master, before: Session, after: Session, sent: seq<Row>)
    requires m.pruned <= |m.journal|
  {
    var rows := RowsAfter(Outbox(m), before.lastSent);
    && OneBatch(rows, sent, after.phase.SnapshotDue?)
    && after.queue == before.queue + EventFrames(sent)
    && RowsAfter(Outbox(m), after.lastSent) == rows[|sent|..]
    && (after.phase.SnapshotDue? || after.phase.Streaming?)
  }

  /**
   * One batch, in every reachable state: the frames queued are the next rows past `lastSent`, in order, as many
   * as there are up to 500 and up to the first resnapshot marker, and if it is the marker that
   * ends the batch a snapshot is due. So with rows to send, something is sent.
   */
  lemma BatchSends(s: State, actions: seq<Action>, n: string, t: State, u: State) returns (sent: seq<Row>)
    requires Init(s) && t == Run(s, actions) && u == Step(t, SendBatch(n)) && Streams(t, n)
    ensures t.master.pruned <= |t.master.journal| && Connected(u, n)
    ensures Sends(t.master, t.peers[n].session.value, u.peers[n].session.value, sent)
    ensures RowsAfter(Outbox(t.master), t.peers[n].session.value.lastSent) != [] ==> sent != [] || u.peers[n].session.value.phase.SnapshotDue?
  {
    RunKeeps(s, actions);
    SendOne(t, n, u);
    sent := BatchMoves(t.master, n, t.peers[n], u.peers[n].session.value);
  }

  lemma BatchMoves(m: Master, n: string, p: Peer, after: Session) returns (sent: seq<Row>)
    requires MasterOk(m) && PeerOk(m, n, p) && p.session.Some? && p.session.value.phase.Streaming?
    requires after == SendBatchStep(m, p.session.value)
    ensures Sends(m, p.session.value, after, sent)
  {
    var before := p.session.value;
    RowsLeft(m, n, p);
    sent := BatchOf(m, before);
    BatchLeaves(m, before.lastSent, before.sentPosition, sent, after.lastSent);
  }

  lemma BatchLeaves(m: Master, lastSent: nat, position: nat, sent: seq<Row>, after: nat)
    requires MasterOk(m) && Aligned(m, lastSent, position) && m.pruned <= position && sent <= m.journal[position..]
    requires after == if sent == [] then lastSent else sent[|sent| - 1].revision
    ensures RowsAfter(Outbox(m), after) == m.journal[position..][|sent|..]
  {
    var reached := position + |sent|;
    assert sent != [] ==> sent[|sent| - 1] == m.journal[reached - 1];
    AlignedIndex(m, after, reached);
  }

  // ---------------------------------------------------------------- the slave takes what is queued

  ghost predicate Connected(s: State, n: string) {
    n in s.peers && s.peers[n].session.Some?
  }

  ghost predicate Streams(s: State, n: string) {
    Connected(s, n) && s.peers[n].session.value.phase.Streaming?
  }

  /** The master is the same and its side of the session is. */
  ghost predicate SameSide(s: State, t: State, n: string) {
    && Connected(s, n) && Connected(t, n) && t.master == s.master
    && var a, b := s.peers[n].session.value, t.peers[n].session.value;
       b.phase == a.phase && b.lastSent == a.lastSent && b.sentPosition == a.sentPosition
  }

  /** What a queue holds can be written or finished, and what is written can be finished. */
  lemma HeadIsHandled(m: Master, n: string, p: Peer)
    requires MasterOk(m) && PeerOk(m, n, p) && p.session.Some? && p.session.value.queue != []
    ensures MayWrite(p.store, p.session.value) || MayFinish(p.store, p.session.value)
  {
    var s := p.session.value;
    assert Fits(m, CursorOf(p.store, s), s.queue[0]);
    if s.queue[0].EventFrame? { assert RowOk(m, p.store.covered); }
  }

  /** The steps of a slave that takes frames. */
  predicate Takes(a: Action, n: string) {
    (a.WriteProjection? || a.FinishFrame?) && a.node == n
  }

  lemma FinishKeepsSide(m: Master, p: Peer, p': Peer)
    requires p.session.Some? && MayFinish(p.store, p.session.value) && p' == FinishFrameStep(m, p)
    ensures p'.session.Some?
    ensures var a, b := p.session.value, p'.session.value;
            b.phase == a.phase && b.lastSent == a.lastSent && b.sentPosition == a.sentPosition && b.queue == a.queue[1..]
  {
  }

  lemma FinishOne(s: State, n: string, t: State)
    requires s.master.pruned <= |s.master.journal| && Connected(s, n) && MayFinish(s.peers[n].store, s.peers[n].session.value)
    requires t == Step(s, FinishFrame(n))
    ensures SameSide(s, t, n) && t.peers[n].session.value.queue == s.peers[n].session.value.queue[1..]
  {
    var p := FinishFrameStep(s.master, s.peers[n]);
    FinishKeepsSide(s.master, s.peers[n], p);
    assert t == Update(s, n, p);
  }

  lemma WriteOne(s: State, n: string, t: State)
    requires s.master.pruned <= |s.master.journal| && Connected(s, n) && MayWrite(s.peers[n].store, s.peers[n].session.value)
    requires t == Step(s, WriteProjection(n))
    ensures SameSide(s, t, n) && t.peers[n].session.value.queue == s.peers[n].session.value.queue
    ensures MayFinish(t.peers[n].store, t.peers[n].session.value)
  {
    assert t == Update(s, n, WriteProjectionStep(s.master, s.peers[n]));
  }

  /** At most two steps for one frame. */
  lemma HandleOne(s: State, n: string) returns (actions: seq<Action>)
    requires s.master.pruned <= |s.master.journal| && Connected(s, n)
    requires MayWrite(s.peers[n].store, s.peers[n].session.value) || MayFinish(s.peers[n].store, s.peers[n].session.value)
    ensures forall a | a in actions :: Takes(a, n)
    ensures SameSide(s, Run(s, actions), n)
    ensures Run(s, actions).peers[n].session.value.queue == s.peers[n].session.value.queue[1..]
  {
    if MayFinish(s.peers[n].store, s.peers[n].session.value) {
      actions := [FinishFrame(n)];
      FinishOne(s, n, Step(s, FinishFrame(n)));
      RunStep(s, [], FinishFrame(n));
      assert [] + actions == actions;
    } else {
      actions := [WriteProjection(n), FinishFrame(n)];
      var mid := Step(s, WriteProjection(n));
      WriteOne(s, n, mid);
      FinishOne(mid, n, Step(mid, FinishFrame(n)));
      RunTwo(s, WriteProjection(n), FinishFrame(n));
    }
  }

  lemma TakeOne(s: State, n: string) returns (actions: seq<Action>, t: State)
    requires Inv(s) && Connected(s, n) && s.peers[n].session.value.queue != []
    ensures t == Run(s, actions) && forall a | a in actions :: Takes(a, n)
    ensures Inv(t) && SameSide(s, t, n) && t.peers[n].session.value.queue == s.peers[n].session.value.queue[1..]
  {
    HeadIsHandled(s.master, n, s.peers[n]);
    actions := HandleOne(s, n);
    t := Run(s, actions);
    InvGoesOn(s, actions);
  }

  lemma {:induction false} TakeAll(s: State, n: string) returns (actions: seq<Action>, t: State)
    requires Inv(s) && Connected(s, n)
    ensures t == Run(s, actions) && forall a | a in actions :: Takes(a, n)
    ensures Inv(t) && SameSide(s, t, n) && t.peers[n].session.value.queue == []
    decreases |s.peers[n].session.value.queue|
  {
    if s.peers[n].session.value.queue == [] {
      actions, t := [], s;
    } else {
      var first, rest, mid;
      first, mid := TakeOne(s, n);
      rest, t := TakeAll(mid, n);
      RunConcat(s, first, rest);
      actions := first + rest;
    }
  }

  // ---------------------------------------------------------------- the stream runs dry

  /** The steps of a stream. */
  predicate Flows(a: Action, n: string) {
    Takes(a, n) || a == SendBatch(n)
  }

  lemma SendOne(s: State, n: string, t: State)
    requires Inv(s) && Streams(s, n) && t == Step(s, SendBatch(n))
    ensures Inv(t) && Connected(t, n) && t.master == s.master
    ensures t.peers[n].session.value == SendBatchStep(s.master, s.peers[n].session.value)
  {
    StepKeeps(s, SendBatch(n));
  }

  /** The rows still to be sent. */
  ghost function Left(s: State, n: string): seq<Row>
    requires s.master.pruned <= |s.master.journal| && Connected(s, n)
  {
    RowsAfter(Outbox(s.master), s.peers[n].session.value.lastSent)
  }

  ghost predicate NoMarker(rows: seq<Row>) {
    forall i | 0 <= i < |rows| :: !rows[i].payload.Resnapshot?
  }

  /** A stream either runs dry or comes to a resnapshot marker; without one ahead it runs dry. */
  lemma {:induction false} RunsDry(s: State, n: string) returns (actions: seq<Action>, t: State)
    requires Inv(s) && Streams(s, n)
    ensures t == Run(s, actions) && forall a | a in actions :: Flows(a, n)
    ensures Inv(t) && Connected(t, n) && t.master == s.master
    ensures CaughtUp(t, n) || t.peers[n].session.value.phase.SnapshotDue?
    ensures NoMarker(Left(s, n)) ==> CaughtUp(t, n)
    decreases |Left(s, n)|
  {
    var taking, mid := TakeAll(s, n);
    if Left(mid, n) == [] {
      actions, t := taking, mid;
    } else {
      var sent, next := SendNext(mid, n);
      RunStep(s, taking, SendBatch(n));
      actions, t := taking + [SendBatch(n)], next;
      if next.peers[n].session.value.phase.Streaming? {
        var rest;
        rest, t := RunsDry(next, n);
        RunConcat(s, actions, rest);
        actions := actions + rest;
      }
    }
  }

  lemma BatchShortens(m: Master, before: Session, after: Session, sent: seq<Row>)
    requires m.pruned <= |m.journal| && Sends(m, before, after, sent) && RowsAfter(Outbox(m), before.lastSent) != []
    ensures var rows, left := RowsAfter(Outbox(m), before.lastSent), RowsAfter(Outbox(m), after.lastSent);
            && (after.phase.Streaming? ==> |left| < |rows|)
            && (NoMarker(rows) ==> after.phase.Streaming? && NoMarker(left))
  {
  }

  lemma SendNext(s: State, n: string) returns (sent: seq<Row>, t: State)
    requires Inv(s) && Streams(s, n) && Left(s, n) != []
    ensures t == Step(s, SendBatch(n)) && Inv(t) && Connected(t, n) && t.master == s.master
    ensures t.peers[n].session.value.phase.Streaming? ==> |Left(t, n)| < |Left(s, n)|
    ensures t.peers[n].session.value.phase.Streaming? || t.peers[n].session.value.phase.SnapshotDue?
    ensures NoMarker(Left(s, n)) ==> t.peers[n].session.value.phase.Streaming? && NoMarker(Left(t, n))
  {
    t := Step(s, SendBatch(n));
    SendOne(s, n, t);
    var before, after := s.peers[n].session.value, t.peers[n].session.value;
    sent := BatchMoves(s.master, n, s.peers[n], after);
    BatchShortens(s.master, before, after, sent);
  }

  /**
   * A stream makes progress: from every reachable state with a streaming session and no resnapshot marker
   * ahead, sending and taking frames alone lead to a state in which the slave has caught up.
   */
  lemma StreamCatchesUp(s: State, actions: seq<Action>, n: string) returns (more: seq<Action>)
    requires Init(s) && Streams(Run(s, actions), n)
    requires var t := Run(s, actions); t.master.pruned <= |t.master.journal| && NoMarker(Left(t, n))
    ensures forall a | a in more :: Flows(a, n)
    ensures CaughtUp(Run(s, actions + more), n)
  {
    RunKeeps(s, actions);
    var t;
    more, t := RunsDry(Run(s, actions), n);
    RunConcat(s, actions, more);
  }

  // ---------------------------------------------------------------- any state at all

  /** The steps of one slave and of the master's side of its session; its database is not lost. */
  predicate Own(a: Action, n: string) {
    || Flows(a, n) || a == Disconnect(n) || a == Connect(n) || a == CaptureRevision(n)
    || (a.SendSnapshot? && a.node == n)
  }

  /** Nothing but the snapshots built differs. */
  predicate SameData(m: Master, m': Master) {
    m' == m.(snapshots := m'.snapshots)
  }

  lemma {:induction false} LongerThan(names: set<string>) returns (k: nat)
    ensures forall x | x in names :: |x| < k
  {
    if names == {} {
      k := 0;
    } else {
      var x :| x in names;
      k := LongerThan(names - {x});
      k := if |x| < k then k else |x| + 1;
    }
  }

  lemma NewName(names: set<string>) returns (id: string)
    ensures id != "" && id !in names
  {
    var k := LongerThan(names);
    id := seq(k + 1, _ => 'x');
  }

  lemma {:induction false} Listed(names: set<Email>) returns (order: seq<Email>)
    ensures forall x :: x in order <==> x in names
  {
    if names == {} {
      order := [];
    } else {
      var x :| x in names;
      var rest := Listed(names - {x});
      order := rest + [x];
    }
  }

  function AllNewest(h: History): Versions {
    map e | e in h :: Newest(h, e)
  }

  lemma NewestGrows(m: Master, before: History, position: nat)
    requires CapturedBefore(m, before, position)
    ensures ReadBetween(before, m.history, AllNewest(m.history))
  {
    forall e | e in m.history ensures Newest(before, e) <= Newest(m.history, e) {
      if e in before { assert |before[e]| <= |m.history[e]|; }
    }
  }

  lemma MaySend(m: Master, s: Session) returns (id: string, at: Versions, order: seq<Email>)
    requires s.phase.Captured? && CapturedBefore(m, s.phase.before, s.phase.position)
    ensures MaySendSnapshot(m, s, id, at, order)
  {
    NewestGrows(m, s.phase.before, s.phase.position);
    at := AllNewest(m.history);
    id := NewName(m.snapshots.Keys);
    order := Listed(UsersAt(m.history, at).Keys);
  }

  /** Captured users can always be sent. */
  lemma SendUsers(s: State, n: string) returns (a: Action, t: State)
    requires Inv(s) && Connected(s, n) && s.peers[n].session.value.phase.Captured?
    ensures Own(a, n) && t == Step(s, a) && Inv(t) && Streams(t, n) && SameData(s.master, t.master)
    ensures t.peers[n].session.value.lastSent == s.peers[n].session.value.phase.revision
  {
    var m, session := s.master, s.peers[n].session.value;
    assert CapturedBefore(m, session.phase.before, session.phase.position) by { assert PeerOk(m, n, s.peers[n]); }
    var id, at, order := MaySend(m, session);
    a := SendSnapshot(n, id, at, order);
    t := Step(s, a);
    assert Inv(t) by { StepKeeps(s, a); }
    UsersSent(s, n, id, at, order, t);
  }

  lemma UsersSent(s: State, n: string, id: string, at: Versions, order: seq<Email>, t: State)
    requires s.master.pruned <= |s.master.journal| && Connected(s, n)
    requires MaySendSnapshot(s.master, s.peers[n].session.value, id, at, order) && t == Step(s, SendSnapshot(n, id, at, order))
    ensures Streams(t, n) && SameData(s.master, t.master)
    ensures t.peers[n].session.value.lastSent == s.peers[n].session.value.phase.revision
  {
  }

  lemma CaptureNow(s: State, n: string, t: State)
    requires Inv(s) && Connected(s, n) && s.peers[n].session.value.phase.SnapshotDue? && t == Step(s, CaptureRevision(n))
    ensures Inv(t) && Connected(t, n) && t.master == s.master && t.peers[n].session.value.phase.Captured?
    ensures t.peers[n].session.value.phase.revision == Latest(Outbox(s.master))
  {
    StepKeeps(s, CaptureRevision(n));
  }

  lemma NothingPastLatest(m: Master)
    requires MasterOk(m)
    ensures RowsAfter(Outbox(m), Latest(Outbox(m))) == []
  {
    var outbox := Outbox(m);
    forall i | 0 <= i < |outbox| ensures outbox[i].revision <= Latest(outbox) {
      assert outbox[i] == m.journal[m.pruned + i] && outbox[|outbox| - 1] == m.journal[|m.journal| - 1];
    }
  }

  /** A snapshot that is due can be sent, and covers all there is to send. */
  lemma SendDue(s: State, n: string) returns (a: Action, t: State)
    requires Inv(s) && Connected(s, n) && s.peers[n].session.value.phase.SnapshotDue?
    ensures Own(a, n) && t == Run(s, [CaptureRevision(n), a])
    ensures Inv(t) && Streams(t, n) && SameData(s.master, t.master) && Left(t, n) == []
  {
    var captured := Step(s, CaptureRevision(n));
    CaptureNow(s, n, captured);
    NothingPastLatest(s.master);
    a, t := SendUsers(captured, n);
    RunTwo(s, CaptureRevision(n), a);
  }

  /** It is followed by nothing more to send. */
  lemma SnapshotThenDry(s: State, n: string) returns (actions: seq<Action>, t: State)
    requires Inv(s) && Connected(s, n) && s.peers[n].session.value.phase.SnapshotDue?
    ensures t == Run(s, actions) && forall a | a in actions :: Own(a, n)
    ensures Inv(t) && SameData(s.master, t.master) && CaughtUp(t, n)
  {
    var a, sent := SendDue(s, n);
    assert NoMarker(Left(sent, n));
    actions, t := RunsDry(sent, n);
    RunConcat(s, [CaptureRevision(n), a], actions);
    actions := [CaptureRevision(n), a] + actions;
  }

  lemma FromStream(s: State, n: string) returns (actions: seq<Action>, t: State)
    requires Inv(s) && Streams(s, n)
    ensures t == Run(s, actions) && forall a | a in actions :: Own(a, n)
    ensures Inv(t) && SameData(s.master, t.master) && CaughtUp(t, n)
  {
    actions, t := RunsDry(s, n);
    if !CaughtUp(t, n) {
      var rest, end := SnapshotThenDry(t, n);
      RunConcat(s, actions, rest);
      actions, t := actions + rest, end;
    }
  }

  /** A session whose master side is still there. */
  lemma FromSession(s: State, n: string) returns (actions: seq<Action>, t: State)
    requires Inv(s) && Connected(s, n) && !s.peers[n].session.value.phase.Gone?
    ensures t == Run(s, actions) && forall a | a in actions :: Own(a, n)
    ensures Inv(t) && SameData(s.master, t.master) && CaughtUp(t, n)
  {
    match s.peers[n].session.value.phase
    case Streaming => actions, t := FromStream(s, n);
    case SnapshotDue => actions, t := SnapshotThenDry(s, n);
    case Captured(_, _, _) =>
      var a, sent := SendUsers(s, n);
      actions, t := FromStream(sent, n);
      RunStep(s, [], a);
      assert [] + [a] == [a];
      RunConcat(s, [a], actions);
      actions := [a] + actions;
  }

  lemma Reconnects(s: State, n: string, t: State)
    requires Inv(s) && n in s.peers && NodeAllowed(s.master, n) && t == Step(Step(s, Disconnect(n)), Connect(n))
    ensures Inv(t) && t.master == s.master && Connected(t, n) && !t.peers[n].session.value.phase.Gone?
  {
    RunTwo(s, Disconnect(n), Connect(n));
    InvGoesOn(s, [Disconnect(n), Connect(n)]);
    ReconnectSession(s, n, t);
  }

  lemma ReconnectSession(s: State, n: string, t: State)
    requires s.master.pruned <= |s.master.journal| && n in s.peers && NodeAllowed(s.master, n)
    requires t == Step(Step(s, Disconnect(n)), Connect(n))
    ensures t.master == s.master && Connected(t, n) && !t.peers[n].session.value.phase.Gone?
  {
  }

  lemma FromAnywhere(s: State, n: string) returns (actions: seq<Action>, t: State)
    requires Inv(s) && n in s.peers && NodeAllowed(s.master, n)
    ensures t == Run(s, actions) && forall a | a in actions :: Own(a, n)
    ensures Inv(t) && SameData(s.master, t.master) && CaughtUp(t, n)
  {
    if Connected(s, n) && !s.peers[n].session.value.phase.Gone? {
      actions, t := FromSession(s, n);
    } else {
      var back := Step(Step(s, Disconnect(n)), Connect(n));
      Reconnects(s, n, back);
      actions, t := FromSession(back, n);
      RunTwo(s, Disconnect(n), Connect(n));
      RunConcat(s, [Disconnect(n), Connect(n)], actions);
      actions := [Disconnect(n), Connect(n)] + actions;
    }
  }

  /**
   * Progress. From every reachable state, whatever the slave and the master's side of its session are doing, a
   * permitted slave can catch up by steps of its own: the master's data stay as they are.
   */
  lemma CatchesUp(s: State, actions: seq<Action>, n: string) returns (more: seq<Action>)
    requires Init(s) && n in Run(s, actions).peers && NodeAllowed(Run(s, actions).master, n)
    ensures forall a | a in more :: Own(a, n)
    ensures var t := Run(s, actions + more);
            CaughtUp(t, n) && SameData(Run(s, actions).master, t.master)
  {
    RunKeeps(s, actions);
    var t;
    more, t := FromAnywhere(Run(s, actions), n);
    RunConcat(s, actions, more);
  }

  // ---------------------------------------------------------------- the whole cluster

  /** What a slave has applied is acknowledged, sooner or later. */
  predicate Acknowledges(p: Peer) {
    p.store.initialised ==> p.store.applied in p.link.acks
  }

  lemma AcknowledgesPeer(m: Master, p: Peer, a: Action)
    requires m.pruned <= |m.journal| && IsPeerAction(a) && PeerEnabled(m, p, a) && Acknowledges(p)
    ensures Acknowledges(PeerNext(m, p, a))
  {
  }

  lemma AcknowledgesStep(s: State, a: Action, n: string)
    requires n in s.peers && Acknowledges(s.peers[n])
    ensures n in Step(s, a).peers && Acknowledges(Step(s, a).peers[n])
  {
    if Enabled(s, a) && IsPeerAction(a) && a.node == n { AcknowledgesPeer(s.master, s.peers[n], a); }
  }

  lemma {:induction false} AcknowledgesRun(s: State, actions: seq<Action>, n: string)
    requires n in s.peers && Acknowledges(s.peers[n])
    ensures n in Run(s, actions).peers && Acknowledges(Run(s, actions).peers[n])
    decreases |actions|
  {
    if actions != [] {
      AcknowledgesRun(s, actions[..|actions| - 1], n);
      AcknowledgesStep(Run(s, actions[..|actions| - 1]), actions[|actions| - 1], n);
    }
  }

  /** Caught up, and the master knows it. */
  ghost predicate Confirmed(s: State, n: string) {
    && CaughtUp(s, n)
    && s.peers[n].link.replica.Some? && Latest(Outbox(s.master)) <= s.peers[n].link.replica.value
  }

  lemma AppliedAll(m: Master, st: Store)
    requires MasterOk(m) && PositionOk(m, st) && st.initialised && st.covered == |m.journal|
    ensures Latest(Outbox(m)) <= st.applied
  {
    if Outbox(m) != [] { assert Outbox(m)[|Outbox(m)| - 1] == m.journal[|m.journal| - 1]; }
  }

  lemma AckArrives(s: State, n: string, revision: nat, t: State)
    requires s.master.pruned <= |s.master.journal| && n in s.peers && revision in s.peers[n].link.acks && t == Step(s, DeliverAck(n, revision))
    ensures t.master == s.master && n in t.peers && t.peers[n] == s.peers[n].(link := AckStep(s.peers[n].link, revision))
  {
  }

  lemma Confirms(s: State, n: string, t: State)
    requires Inv(s) && CaughtUp(s, n) && Acknowledges(s.peers[n]) && t == Step(s, DeliverAck(n, s.peers[n].store.applied))
    ensures t.master == s.master && Confirmed(t, n)
  {
    assert PositionOk(s.master, s.peers[n].store) by { assert PeerOk(s.master, n, s.peers[n]); }
    CaughtUpCovers(s, n);
    AppliedAll(s.master, s.peers[n].store);
    AckArrives(s, n, s.peers[n].store.applied, t);
  }

  /** The steps of one slave and of its session leave the other slaves alone. */
  predicate Concerns(a: Action, n: string) {
    Own(a, n) || (a.DeliverAck? && a.node == n)
  }

  /** A step that changes one slave at most, and of the master the snapshots built. */
  ghost predicate ChangesOnly(s: State, t: State, n: string) {
    && SameData(s.master, t.master) && t.peers.Keys == s.peers.Keys
    && forall x | x in s.peers && x != n :: t.peers[x] == s.peers[x]
  }

  lemma UpdateChangesOnly(s: State, m: Master, n: string, p: Peer)
    requires n in s.peers && SameData(s.master, m)
    ensures ChangesOnly(s, Update(s.(master := m), n, p), n)
  {
  }

  lemma PeerActionUpdates(s: State, a: Action)
    requires IsPeerAction(a) && Enabled(s, a)
    ensures a.node in s.peers && Step(s, a) == Update(s.(master := s.master), a.node, PeerNext(s.master, s.peers[a.node], a))
  {
  }

  lemma SendSnapshotUpdates(s: State, a: Action) returns (m: Master, p: Peer)
    requires a.SendSnapshot? && Enabled(s, a)
    ensures a.node in s.peers && SameData(s.master, m) && Step(s, a) == Update(s.(master := m), a.node, p)
  {
    var session := s.peers[a.node].session.value;
    m := RecordSnapshot(s.master, session, a.id, a.at);
    p := s.peers[a.node].(session := Some(SendSnapshotStep(s.master, session, a.id, a.at, a.order)));
  }

  lemma PeerActionChanges(s: State, a: Action)
    requires IsPeerAction(a) && Enabled(s, a)
    ensures ChangesOnly(s, Step(s, a), a.node)
  {
    PeerActionUpdates(s, a);
    UpdateChangesOnly(s, s.master, a.node, PeerNext(s.master, s.peers[a.node], a));
  }

  lemma OthersStay(s: State, a: Action, n: string)
    requires Concerns(a, n)
    ensures ChangesOnly(s, Step(s, a), n)
  {
    if Enabled(s, a) {
      if a.SendSnapshot? {
        var m, p := SendSnapshotUpdates(s, a);
        UpdateChangesOnly(s, m, n, p);
      } else {
        PeerActionChanges(s, a);
      }
    }
  }

  lemma {:induction false} OthersStayRun(s: State, actions: seq<Action>, n: string)
    requires forall a | a in actions :: Concerns(a, n)
    ensures ChangesOnly(s, Run(s, actions), n)
    decreases |actions|
  {
    if actions != [] {
      var init, last := actions[..|actions| - 1], actions[|actions| - 1];
      assert last in actions;
      OthersStayRun(s, init, n);
      OthersStay(Run(s, init), last, n);
    }
  }

  lemma StaysConfirmed(s: State, t: State, x: string)
    requires Confirmed(s, x) && SameData(s.master, t.master) && x in t.peers && t.peers[x] == s.peers[x]
    ensures Confirmed(t, x)
  {
  }

  /** One permitted slave catches up and says so. */
  lemma ConfirmOne(s: State, n: string) returns (actions: seq<Action>, t: State)
    requires Inv(s) && n in s.peers && NodeAllowed(s.master, n) && Acknowledges(s.peers[n])
    ensures t == Run(s, actions) && (forall a | a in actions :: Concerns(a, n))
    ensures Inv(t) && Confirmed(t, n) && Acknowledges(t.peers[n])
  {
    var end;
    actions, end := FromAnywhere(s, n);
    AcknowledgesRun(s, actions, n);
    var a := DeliverAck(n, end.peers[n].store.applied);
    t := Step(end, a);
    Confirms(end, n, t);
    StepKeeps(end, a);
    AcknowledgesStep(end, a, n);
    RunStep(s, actions, a);
    actions := actions + [a];
  }

  /** The first `k` nodes of the list. */
  ghost predicate AllConfirmed(s: State, nodes: seq<string>, k: nat) {
    k <= |nodes| && forall i | 0 <= i < k :: Confirmed(s, nodes[i])
  }

  predicate OfTheNodes(a: Action, nodes: seq<string>) {
    exists i | 0 <= i < |nodes| :: Concerns(a, nodes[i])
  }

  ghost predicate Willing(s: State, nodes: seq<string>) {
    forall i | 0 <= i < |nodes| :: nodes[i] in s.peers && NodeAllowed(s.master, nodes[i]) && Acknowledges(s.peers[nodes[i]])
  }

  lemma {:induction false} ConfirmAll(s: State, nodes: seq<string>, k: nat) returns (actions: seq<Action>, t: State)
    requires Inv(s) && Willing(s, nodes) && k <= |nodes|
    ensures t == Run(s, actions) && (forall a | a in actions :: OfTheNodes(a, nodes))
    ensures Inv(t) && Willing(t, nodes) && AllConfirmed(t, nodes, k) && SameData(s.master, t.master)
    decreases k
  {
    if k == 0 {
      actions, t := [], s;
    } else {
      var first, mid := ConfirmAll(s, nodes, k - 1);
      var last;
      last, t := ConfirmOne(mid, nodes[k - 1]);
      OthersStayRun(mid, last, nodes[k - 1]);
      ConfirmedWithOne(mid, t, nodes, k);
      RunConcat(s, first, last);
      actions := first + last;
    }
  }

  lemma ConfirmedWithOne(t: State, u: State, nodes: seq<string>, k: nat)
    requires 0 < k <= |nodes| && AllConfirmed(t, nodes, k - 1) && Confirmed(u, nodes[k - 1]) && SameData(t.master, u.master)
    requires u.peers.Keys == t.peers.Keys && forall x | x in t.peers && x != nodes[k - 1] :: u.peers[x] == t.peers[x]
    requires Willing(t, nodes) && Acknowledges(u.peers[nodes[k - 1]])
    ensures AllConfirmed(u, nodes, k) && Willing(u, nodes)
  {
    forall i | 0 <= i < k ensures Confirmed(u, nodes[i]) {
      if nodes[i] != nodes[k - 1] { StaysConfirmed(t, u, nodes[i]); }
    }
  }

  lemma AllHaveIt(s: State)
    requires s.master.pruned <= |s.master.journal| && s.master.allowed != [] && AllConfirmed(s, s.master.allowed, |s.master.allowed|)
    ensures Latest(Outbox(s.master)) <= RetentionFloor(s.master.allowed, ReplicaRecords(s.peers))
  {
    var allowed, records := s.master.allowed, ReplicaRecords(s.peers);
    forall i | 0 <= i < |allowed| ensures allowed[i] in records && Latest(Outbox(s.master)) <= records[allowed[i]] {
      assert Confirmed(s, allowed[i]);
    }
    MasterStore.FloorAtLeast(allowed, records, Latest(Outbox(s.master)));
  }

  lemma PruneEmpties(s: State, t: State)
    requires MasterOk(s.master) && s.master.allowed != [] && AllConfirmed(s, s.master.allowed, |s.master.allowed|) && t == Step(s, Prune)
    ensures t.master.pruned == |t.master.journal| && t.peers == s.peers
  {
    AllHaveIt(s);
    var floor := RetentionFloor(s.master.allowed, ReplicaRecords(s.peers));
    assert IndexAfter(Outbox(s.master), floor) == |Outbox(s.master)| by { NothingLeft(s.master, floor); }
    assert t == s.(master := PruneStep(s.master, s.peers));
  }

  lemma NothingLeft(m: Master, floor: nat)
    requires MasterOk(m) && Latest(Outbox(m)) <= floor
    ensures IndexAfter(Outbox(m), floor) == |Outbox(m)|
  {
    var outbox := Outbox(m);
    forall i | 0 <= i < |outbox| ensures outbox[i].revision <= floor {
      assert outbox[i] == m.journal[m.pruned + i] && outbox[|outbox| - 1] == m.journal[|m.journal| - 1];
    }
  }

  /**
   * The cluster can come to rest. From every reachable state in which the permitted nodes are known under the names
   * configured, some continuation, of steps of these nodes and their sessions and one prune, lets
   * every one of them catch up and empties the outbox.
   */
  lemma ComesToRest(s: State, actions: seq<Action>) returns (more: seq<Action>)
    requires Init(s) && CanPrune(Run(s, actions).master.allowed) && forall x | x in Run(s, actions).master.allowed :: x in s.peers
    ensures var nodes := Run(s, actions).master.allowed;
            && (forall a | a in more :: OfTheNodes(a, nodes) || a.Prune?)
            && var t := Run(s, actions + more);
               t.master.pruned == |t.master.journal| && forall x | x in nodes :: CaughtUp(t, x)
  {
    RunKeeps(s, actions);
    var now := Run(s, actions);
    var nodes := now.master.allowed;
    WillingRun(s, actions, nodes);
    var t;
    more, t := RestFrom(now);
    RunConcat(s, actions, more);
  }

  lemma WillingRun(s: State, actions: seq<Action>, nodes: seq<string>)
    requires Init(s) && CanPrune(nodes) && nodes == Run(s, actions).master.allowed && forall x | x in nodes :: x in s.peers
    ensures Willing(Run(s, actions), nodes)
  {
    forall i | 0 <= i < |nodes|
      ensures nodes[i] in Run(s, actions).peers && Permits(nodes, nodes[i]) && Acknowledges(Run(s, actions).peers[nodes[i]])
    {
      assert nodes[i] in nodes && TrimSpace(nodes[i]) == nodes[i];
      AcknowledgesRun(s, actions, nodes[i]);
    }
  }

  lemma RestFrom(s: State) returns (actions: seq<Action>, t: State)
    requires Inv(s) && Willing(s, s.master.allowed) && s.master.allowed != []
    ensures t == Run(s, actions) && forall a | a in actions :: OfTheNodes(a, s.master.allowed) || a.Prune?
    ensures t.master.pruned == |t.master.journal| && forall x | x in s.master.allowed :: CaughtUp(t, x)
  {
    var nodes := s.master.allowed;
    var mid;
    actions, mid := ConfirmAll(s, nodes, |nodes|);
    t := Step(mid, Prune);
    PruneEmpties(mid, t);
    RunStep(s, actions, Prune);
    actions := actions + [Prune];
    forall x | x in nodes ensures CaughtUp(t, x) { RestsAfterPrune(mid, t, nodes, x); }
  }

  lemma RestsAfterPrune(t: State, u: State, nodes: seq<string>, x: string)
    requires AllConfirmed(t, nodes, |nodes|) && x in nodes && u.peers == t.peers && u.master.pruned == |u.master.journal|
    ensures CaughtUp(u, x)
  {
    var i :| 0 <= i < |nodes| && nodes[i] == x;
    assert Confirmed(t, nodes[i]);
  }
}
