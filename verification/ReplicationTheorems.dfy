/** What cluster replication promises, over every run. */
module ReplicationTheorems {
  import opened Common
  import opened Strings
  import opened Journal
  import opened Replication
  import opened ReplicationInvariant
  import opened ReplicationSteps
  import opened ReplicationSession

  // ---------------------------------------------------------------- convergence

  /** The newest change to `e` has been journaled (a user never changed needs no row). */
  ghost predicate Journaled(m: Master, e: Email) {
    || Newest(m.history, e) == 0
    || (|m.versions| == |m.journal| &&
        exists i | 0 <= i < |m.journal| ::
          && IsUserRow(m.journal[i]) && m.journal[i].payload.email == e
          && m.versions[i] == Newest(m.history, e))
  }

  /** The slave is connected, has consumed every frame, and the master has nothing more to send. */
  ghost predicate CaughtUp(s: State, n: string) {
    && n in s.peers && s.master.pruned <= |s.master.journal|
    && s.peers[n].session.Some?
    && var t := s.peers[n].session.value;
       t.phase.Streaming? && t.queue == [] && RowsAfter(Outbox(s.master), t.lastSent) == []
  }

  lemma CaughtUpCovers(s: State, n: string)
    requires Inv(s) && CaughtUp(s, n)
    ensures s.peers[n].store.initialised
    ensures s.peers[n].store.covered == |s.master.journal|
  {
    var p := s.peers[n];
    assert PeerOk(s.master, n, p);
    AlignedIndex(s.master, p.session.value.lastSent, p.session.value.sentPosition);
  }

  lemma ValueOfUsers(h: History, e: Email)
    requires HistoryOk(h)
    ensures Get(Users(h), e) == ValueAt(h, e, Newest(h, e))
  {
  }

  /** A projection that reflects the whole journal agrees with the master on every journaled user. */
  lemma ReflectsAgrees(m: Master, st: Store, e: Email)
    requires MasterOk(m) && ProjectionOk(m, st) && st.initialised && !st.broken
    requires st.covered == |m.journal| && Journaled(m, e)
    ensures Get(st.desired, e) == Get(Users(m.history), e)
  {
    ValueOfUsers(m.history, e);
    if Newest(m.history, e) > 0 {
      var i :| 0 <= i < |m.journal| && IsUserRow(m.journal[i]) && m.journal[i].payload.email == e
               && m.versions[i] == Newest(m.history, e);
      assert m.versions[i] <= VersionHeld(st.holds, e);
    }
    assert VersionHeld(st.holds, e) == Newest(m.history, e);
  }

  /**
   * Convergence. Whatever changes, pruning, snapshots, reconfigurations, disconnects, crashes
   * between two durable writes and database losses a run contains, a slave that has caught up
   * holds exactly the master's value for every user whose newest change is journaled, unless it
   * was once resumed past deleted rows and has not been snapshotted since.
   */
  lemma Convergence(s: State, actions: seq<Action>, n: string)
    requires Init(s)
    requires CaughtUp(Run(s, actions), n) && !Run(s, actions).peers[n].store.broken
    ensures var t := Run(s, actions);
            && (forall e: Email | Journaled(t.master, e) ::
                  Get(t.peers[n].store.desired, e) == Get(Users(t.master.history), e))
            && ((forall e: Email :: Journaled(t.master, e)) ==>
                  t.peers[n].store.desired == Users(t.master.history))
  {
    var t := Run(s, actions);
    RunKeeps(s, actions);
    CaughtUpCovers(t, n);
    var st := t.peers[n].store;
    assert PeerOk(t.master, n, t.peers[n]);
    forall e: Email | Journaled(t.master, e)
      ensures Get(st.desired, e) == Get(Users(t.master.history), e)
    {
      ReflectsAgrees(t.master, st, e);
    }
    if forall e: Email :: Journaled(t.master, e) {
      SameMap(st.desired, Users(t.master.history));
    }
  }

  // ---------------------------------------------------------------- pruning and the gap check

  /** Every row the slave has not covered can still be sent to it. */
  ghost predicate NothingLost(m: Master, st: Store)
    requires m.pruned <= |m.journal|
  {
    forall i | st.covered <= i < |m.journal| :: m.journal[i] in Outbox(m)
  }

  /** The hello of an initialised slave passes the gap check, so no snapshot is sent. */
  ghost predicate Resumes(s: State, n: string) {
    && s.master.pruned <= |s.master.journal|
    && n in s.peers && s.peers[n].session.None? && NodeAllowed(s.master, n)
    && !NeedsSnapshot(s.master, s.peers[n].store)
  }

  lemma NothingLostMeans(m: Master, st: Store)
    requires MasterOk(m) && st.covered <= |m.journal|
    ensures NothingLost(m, st) <==> (m.pruned <= st.covered || st.covered == |m.journal|)
  {
    if m.pruned <= st.covered {
      forall i | st.covered <= i < |m.journal| ensures m.journal[i] in Outbox(m) {
        assert Outbox(m)[i - m.pruned] == m.journal[i];
      }
    } else if st.covered < |m.journal| {
      forall k | 0 <= k < |Outbox(m)| ensures Outbox(m)[k] != m.journal[st.covered] {
        assert Outbox(m)[k] == m.journal[m.pruned + k];
      }
      assert m.journal[st.covered] !in Outbox(m);
    }
  }

  /** An outbox with rows makes the gap check notice every deletion the slave missed. */
  lemma GapCheckNotices(m: Master, st: Store)
    requires MasterOk(m) && PositionOk(m, st) && !NeedsSnapshot(m, st) && Outbox(m) != []
    ensures m.pruned <= st.covered
  {
    if m.pruned > 0 {
      assert Outbox(m)[0] == m.journal[m.pruned];
      assert m.journal[m.pruned - 1].revision <= Oldest(Outbox(m)) - 1;
      RevisionAtMonotone(m.journal, m.pruned, st.covered);
    }
  }

  /** A permitted slave says hello. */
  ghost predicate AtHello(s: State, n: string) {
    && s.master.pruned <= |s.master.journal|
    && n in s.peers && s.peers[n].session.None? && NodeAllowed(s.master, n)
  }

  /** The gap check in terms of the rows: it finds one that the slave has, or the very next one, or none at all. */
  lemma GapCheckRows(m: Master, st: Store)
    requires MasterOk(m) && st.initialised
    ensures !NeedsSnapshot(m, st) <==> Outbox(m) == [] || exists row | row in Outbox(m) :: row.revision <= st.applied + 1
  {
    var outbox := Outbox(m);
    if outbox != [] {
      assert outbox[0] == m.journal[m.pruned];
      forall row | row in outbox ensures Oldest(outbox) <= row.revision {
        var k :| 0 <= k < |outbox| && outbox[k] == row;
        assert row == m.journal[m.pruned + k];
      }
      assert outbox[0] in outbox;
    }
  }

  /** A slave that has covered a row that is still there is resumed. */
  lemma CoveredIsResumed(m: Master, st: Store)
    requires MasterOk(m) && PositionOk(m, st) && st.initialised && m.pruned < st.covered
    ensures !NeedsSnapshot(m, st)
  {
    assert Outbox(m)[0] == m.journal[m.pruned];
    RevisionAtMonotone(m.journal, m.pruned + 1, st.covered);
  }

  /**
   * The gap check at one hello. An initialised slave is resumed exactly when the outbox is empty or
   * holds a row the slave has, or the very next one; so it is if a row it has covered is still
   * there. When a slave is resumed while the outbox holds rows, every row it has not covered is
   * still there, and every user change is either reflected in the projection or still to be
   * sent. An empty outbox shows the check nothing; which lists of permitted nodes keep a
   * slave from harm then is the subject of ReplicationGap.
   */
  lemma GapCheckAtHello(s: State, actions: seq<Action>, n: string)
    requires Init(s) && AtHello(Run(s, actions), n)
    ensures var t := Run(s, actions);
            var st := t.peers[n].store;
            && (Resumes(t, n) <==>
                  st.initialised && (Outbox(t.master) == [] || exists row | row in Outbox(t.master) :: row.revision <= st.applied + 1))
            && (st.initialised && t.master.pruned < st.covered ==> Resumes(t, n))
            && (Resumes(t, n) && Outbox(t.master) != [] ==> NothingLost(t.master, st))
            && (Resumes(t, n) && NothingLost(t.master, st) && !st.broken ==> ReflectedOrSent(t.master, st))
  {
    var t := Run(s, actions);
    var st := t.peers[n].store;
    assert MasterOk(t.master) && PeerOk(t.master, n, t.peers[n]) by { RunKeeps(s, actions); }
    if st.initialised {
      GapCheckRows(t.master, st);
      if t.master.pruned < st.covered { CoveredIsResumed(t.master, st); }
    }
    if Resumes(t, n) {
      ResumedHasAll(t.master, st);
    }
  }

  /** Every user change is held by the slave or still to be sent. */
  ghost predicate ReflectedOrSent(m: Master, st: Store)
    requires m.pruned <= |m.journal|
  {
    && |m.versions| == |m.journal|
    && forall i | 0 <= i < |m.journal| && IsUserRow(m.journal[i]) ::
         m.versions[i] <= VersionHeld(st.holds, m.journal[i].payload.email) || m.journal[i] in Outbox(m)
  }

  lemma ResumedHasAll(m: Master, st: Store)
    requires MasterOk(m) && PositionOk(m, st) && ProjectionOk(m, st) && !NeedsSnapshot(m, st)
    ensures Outbox(m) != [] ==> NothingLost(m, st)
    ensures NothingLost(m, st) && !st.broken ==> ReflectedOrSent(m, st)
  {
    NothingLostMeans(m, st);
    if Outbox(m) != [] {
      GapCheckNotices(m, st);
    }
  }

  /** Rows can be deleted under this list: it names nodes, and each as the node calls itself. */
  predicate CanPrune(allowed: seq<string>) {
    allowed != [] && forall i | 0 <= i < |allowed| :: TrimSpace(allowed[i]) == allowed[i]
  }

  /** A name with surrounding blanks has no replica record, and so stops all deletion. */
  lemma CannotPrune(s: State)
    requires Inv(s) && !CanPrune(s.master.allowed)
    ensures PruneStep(s.master, s.peers) == s.master
  {
    var records := ReplicaRecords(s.peers);
    if RetentionFloor(s.master.allowed, records) > 0 {
      forall i | 0 <= i < |s.master.allowed| ensures TrimSpace(s.master.allowed[i]) == s.master.allowed[i] {
        var name := s.master.allowed[i];
        assert name in records;
        assert PeerOk(s.master, name, s.peers[name]);
        TrimSpaceTrims(name);
      }
    }
  }

  /** The lists of permitted nodes that come into force, in order. */
  function Reconfigured(actions: seq<Action>): seq<seq<string>> {
    if actions == [] then []
    else
      var before, last := Reconfigured(actions[..|actions| - 1]), actions[|actions| - 1];
      if last.Reconfigure? then before + [last.allowed] else before
  }

  /** All lists that have been in force. */
  function ListsUsed(s: State, actions: seq<Action>): seq<seq<string>> {
    [s.master.allowed] + Reconfigured(actions)
  }

  lemma OnlyReconfigureLists(s: State, a: Action)
    requires s.master.pruned <= |s.master.journal|
    ensures Step(s, a).master.allowed == if a.Reconfigure? then a.allowed else s.master.allowed
  {
  }

  lemma {:induction false} ListInForce(s: State, actions: seq<Action>)
    requires Init(s)
    ensures ListsUsed(s, actions) != [] && ListsUsed(s, actions)[|ListsUsed(s, actions)| - 1] == Run(s, actions).master.allowed
    decreases |actions|
  {
    if actions != [] {
      var before := actions[..|actions| - 1];
      ListInForce(s, before);
      assert Run(s, before).master.pruned <= |Run(s, before).master.journal| by { RunKeeps(s, before); }
      OnlyReconfigureLists(Run(s, before), actions[|actions| - 1]);
    }
  }

  /** No list so far permits the node. */
  ghost predicate NotYetPermitted(s: State, actions: seq<Action>, n: string) {
    forall l | l in ListsUsed(s, actions) :: !Permits(l, n)
  }

  lemma StaysFresh(s: State, a: Action, n: string)
    requires n in s.peers && s.peers[n] == FreshPeer() && !NodeAllowed(s.master, n)
    ensures n in Step(s, a).peers && Step(s, a).peers[n] == FreshPeer()
  {
  }

  /** A node that no list has permitted has never connected. */
  lemma {:induction false} NeverConnected(s: State, actions: seq<Action>, n: string)
    requires Init(s) && n in s.peers && NotYetPermitted(s, actions, n)
    ensures n in Run(s, actions).peers && Run(s, actions).peers[n] == FreshPeer()
    decreases |actions|
  {
    if actions != [] {
      var before := actions[..|actions| - 1];
      forall l | l in ListsUsed(s, before) ensures !Permits(l, n) { assert l in ListsUsed(s, actions); }
      NeverConnected(s, before, n);
      ListInForce(s, before);
      StaysFresh(Run(s, before), actions[|actions| - 1], n);
    }
  }

  /** Whenever rows can be deleted the node is permitted, or has not been permitted before. */
  ghost predicate PermittedAtPrunes(s: State, actions: seq<Action>, n: string)
    decreases |actions|
  {
    actions == [] ||
    var before := actions[..|actions| - 1];
    && PermittedAtPrunes(s, before, n)
    && (actions[|actions| - 1].Prune? ==> Spares(Run(s, before).master.allowed, n) || NotYetPermitted(s, before, n))
  }

  /** Deletions under this list, if any, wait for the node. */
  predicate Spares(allowed: seq<string>, n: string) {
    Permits(allowed, n) || !CanPrune(allowed)
  }

  /** Every snapshot still in flight is ahead of the deletions. */
  ghost predicate SnapshotsAhead(m: Master, q: seq<Frame>) {
    forall i | 0 <= i < |q| && q[i].EndFrame? ::
      q[i].id in m.snapshots && m.pruned <= m.snapshots[q[i].id].position
  }

  /** No row that this slave still needs has been deleted. */
  ghost predicate Retained(m: Master, p: Peer) {
    && !p.store.broken
    && (p.store.initialised ==> m.pruned <= p.store.covered)
    && (p.session.Some? ==> SnapshotsAhead(m, p.session.value.queue))
  }

  lemma {:induction false} EndAhead(m: Master, c: Cursor, q: seq<Frame>, i: nat)
    requires QueueOk(m, c, q) && i < |q| && q[i].EndFrame?
    ensures q[i].id in m.snapshots && c.position <= m.snapshots[q[i].id].position
    decreases |q|
  {
    if i > 0 { EndAhead(m, Advance(m, c, q[0]), q[1..], i - 1); }
  }

  lemma RetainedPruneQueue(m: Master, m': Master, n: string, p: Peer, floor: nat, i: nat)
    requires MasterOk(m) && PeerOk(m, n, p) && Retained(m, p) && p.session.Some?
    requires p.link.replica.Some? && floor <= p.link.replica.value
    requires m' == m.(pruned := m.pruned + IndexAfter(Outbox(m), floor))
    requires i < |p.session.value.queue| && p.session.value.queue[i].EndFrame?
    ensures m'.pruned <= m.snapshots[p.session.value.queue[i].id].position
  {
    var q := p.session.value.queue;
    var snap := m.snapshots[q[i].id];
    EndAhead(m, CursorOf(p.store, p.session.value), q, i);
    assert SnapshotOk(m, snap);
    if p.store.initialised { AcksMonotone(m, p.link, p.store.covered, snap.position); }
    PruneStops(m, floor, snap.position);
  }

  lemma RetainedPruneTo(m: Master, m': Master, n: string, p: Peer, floor: nat)
    requires MasterOk(m) && PeerOk(m, n, p) && Retained(m, p)
    requires p.link.replica.Some? && 0 < floor <= p.link.replica.value
    requires m' == m.(pruned := m.pruned + IndexAfter(Outbox(m), floor))
    ensures Retained(m', p)
  {
    if p.store.initialised { PruneStops(m, floor, p.store.covered); }
    if p.session.Some? {
      forall i | 0 <= i < |p.session.value.queue| && p.session.value.queue[i].EndFrame?
        ensures m'.pruned <= m.snapshots[p.session.value.queue[i].id].position
      {
        RetainedPruneQueue(m, m', n, p, floor, i);
      }
    }
  }

  lemma RetainedPrune(s: State, n: string, m': Master)
    requires Inv(s) && n in s.peers && Retained(s.master, s.peers[n]) && Spares(s.master.allowed, n)
    requires m' == PruneStep(s.master, s.peers)
    ensures Retained(m', s.peers[n])
  {
    var floor := RetentionFloor(s.master.allowed, ReplicaRecords(s.peers));
    if !CanPrune(s.master.allowed) {
      CannotPrune(s);
    } else if floor > 0 {
      FloorBelow(s, n, floor);
      RetainedPruneTo(s.master, m', n, s.peers[n], floor);
    }
  }

  lemma AheadConcat(m: Master, q: seq<Frame>, more: seq<Frame>)
    requires SnapshotsAhead(m, q) && SnapshotsAhead(m, more)
    ensures SnapshotsAhead(m, q + more)
  {
  }

  lemma AheadTail(m: Master, q: seq<Frame>)
    requires SnapshotsAhead(m, q) && q != []
    ensures SnapshotsAhead(m, q[1..])
    ensures q[0].EndFrame? ==> q[0].id in m.snapshots && m.pruned <= m.snapshots[q[0].id].position
  {
  }

  lemma RetainedFinish(m: Master, p: Peer, p': Peer)
    requires Retained(m, p) && p.session.Some? && MayFinish(p.store, p.session.value)
    requires p' == FinishFrameStep(m, p)
    ensures Retained(m, p')
  {
    AheadTail(m, p.session.value.queue);
  }

  lemma RetainedBatch(m: Master, p: Peer, s': Session)
    requires m.pruned <= |m.journal| && Retained(m, p) && p.session.Some?
    requires s' == SendBatchStep(m, p.session.value)
    ensures Retained(m, p.(session := Some(s')))
  {
    var rows := Take(RowsAfter(Outbox(m), p.session.value.lastSent), BATCH_LIMIT);
    AheadConcat(m, p.session.value.queue, EventFrames(rows[..BeforeMarker(rows)]));
  }

  lemma RetainedPeer(m: Master, p: Peer, a: Action, p': Peer)
    requires m.pruned <= |m.journal| && IsPeerAction(a) && PeerEnabled(m, p, a)
    requires Retained(m, p) && p' == PeerNext(m, p, a)
    ensures Retained(m, p')
  {
    if a.FinishFrame? { RetainedFinish(m, p, p'); }
    if a.SendBatch? { RetainedBatch(m, p, p'.session.value); }
  }

  lemma RetainedSnapshot(m: Master, m': Master, link: Link, p: Peer, last: Cursor,
                         id: string, at: Versions, order: seq<Email>, t': Session)
    requires Retained(m, p) && p.session.Some?
    requires MaySendSnapshot(m, p.session.value, id, at, order)
    requires PhaseOk(m, link, p.session.value, last)
    requires m' == RecordSnapshot(m, p.session.value, id, at)
    requires t' == SendSnapshotStep(m, p.session.value, id, at, order)
    ensures Retained(m', p.(session := Some(t')))
  {
    var revision := p.session.value.phase.revision;
    var users := UsersAt(m.history, at);
    AheadConcat(m', [BeginFrame(id)], UserFrames(users, order));
    AheadConcat(m', [BeginFrame(id)] + UserFrames(users, order), [EndFrame(id, revision)]);
    AheadConcat(m', p.session.value.queue, SnapshotFrames(id, revision, users, order));
  }

  /** Nothing else the master does concerns the slave. */
  lemma RetainedOther(m: Master, m': Master, p: Peer)
    requires Retained(m, p) && m'.pruned == m.pruned
    requires forall id | id in m.snapshots :: id in m'.snapshots && m'.snapshots[id] == m.snapshots[id]
    ensures Retained(m', p)
    ensures Retained(m', p.(session := EndMasterSide(p.session)))
  {
  }

  lemma RetainedSendSnapshot(s: State, a: Action, s': State)
    requires Inv(s) && a.SendSnapshot? && Enabled(s, a) && s' == Next(s, a)
    requires Retained(s.master, s.peers[a.node])
    ensures Retained(s'.master, s'.peers[a.node])
  {
    var p := s.peers[a.node];
    assert PeerOk(s.master, a.node, p);
    var last := Final(s.master, CursorOf(p.store, p.session.value), p.session.value.queue);
    RetainedSnapshot(s.master, s'.master, p.link, p, last, a.id, a.at, a.order, s'.peers[a.node].session.value);
  }

  lemma RetainedElsewhere(s: State, a: Action, n: string, s': State)
    requires n in s.peers && Retained(s.master, s.peers[n])
    requires !a.Prune? && !IsPeerAction(a) && !(a.SendSnapshot? && a.node == n)
    requires Enabled(s, a) && s' == Next(s, a)
    ensures n in s'.peers && Retained(s'.master, s'.peers[n])
  {
    RetainedOther(s.master, s'.master, s.peers[n]);
  }

  lemma RetainedPeerStep(s: State, a: Action, n: string, s': State)
    requires n in s.peers && Retained(s.master, s.peers[n])
    requires IsPeerAction(a) && Enabled(s, a) && s' == Next(s, a)
    ensures n in s'.peers && Retained(s'.master, s'.peers[n])
  {
    if a.node == n { RetainedPeer(s.master, s.peers[n], a, s'.peers[n]); }
  }

  lemma RetainedStep(s: State, a: Action, n: string, s': State)
    requires Inv(s) && n in s.peers && Retained(s.master, s.peers[n])
    requires a.Prune? ==> Spares(s.master.allowed, n)
    requires Enabled(s, a) && s' == Next(s, a)
    ensures n in s'.peers && Retained(s'.master, s'.peers[n])
  {
    if a.Prune? {
      RetainedPrune(s, n, s'.master);
    } else if IsPeerAction(a) {
      RetainedPeerStep(s, a, n, s');
    } else if a.SendSnapshot? && a.node == n {
      RetainedSendSnapshot(s, a, s');
    } else {
      RetainedElsewhere(s, a, n, s');
    }
  }

  /**
   * A slave that from its first permission on is permitted whenever rows can be deleted is never
   * resumed past a deleted row, so it converges. What was deleted before it was first permitted does
   * not matter: it starts with a snapshot.
   */
  lemma {:induction false} PermittedNeverBroken(s: State, actions: seq<Action>, n: string)
    requires Init(s) && n in s.peers && PermittedAtPrunes(s, actions, n)
    ensures n in Run(s, actions).peers && Retained(Run(s, actions).master, Run(s, actions).peers[n])
    decreases |actions|
  {
    if actions != [] {
      var before := actions[..|actions| - 1];
      PermittedNeverBroken(s, before, n);
      RunKeeps(s, before);
      var t, a := Run(s, before), actions[|actions| - 1];
      if Enabled(t, a) {
        if a.Prune? && !Spares(t.master.allowed, n) {
          NeverConnected(s, before, n);
        } else {
          RetainedStep(t, a, n, Next(t, a));
        }
      }
    }
  }

  /** A permitted slave that has caught up holds the master's user map once all changes are journaled. */
  lemma PermittedConverges(s: State, actions: seq<Action>, n: string)
    requires Init(s) && n in s.peers && PermittedAtPrunes(s, actions, n) && CaughtUp(Run(s, actions), n)
    requires forall e: Email :: Journaled(Run(s, actions).master, e)
    ensures Run(s, actions).peers[n].store.desired == Users(Run(s, actions).master.history)
  {
    PermittedNeverBroken(s, actions, n);
    Convergence(s, actions, n);
  }

  // ---------------------------------------------------------------- acknowledgements

  /** No step takes back what the master has recorded of a slave's progress. */
  lemma AcknowledgedStep(s: State, a: Action, n: string)
    requires n in s.peers && s.peers[n].link.replica.Some?
    ensures var t := Step(s, a);
            n in t.peers && t.peers[n].link.replica.Some? && s.peers[n].link.replica.value <= t.peers[n].link.replica.value
  {
  }

  /** Over every run, whatever reconnects, repeated and late acknowledgements there are, the acknowledged revision only rises. */
  lemma {:induction false} AcknowledgedRises(s: State, actions: seq<Action>, n: string)
    requires n in s.peers && s.peers[n].link.replica.Some?
    ensures var t := Run(s, actions);
            n in t.peers && t.peers[n].link.replica.Some? && s.peers[n].link.replica.value <= t.peers[n].link.replica.value
    decreases |actions|
  {
    if actions != [] {
      AcknowledgedRises(s, actions[..|actions| - 1], n);
      AcknowledgedStep(Run(s, actions[..|actions| - 1]), actions[|actions| - 1], n);
    }
  }

  // ---------------------------------------------------------------- snapshots

  /** Applying rows to a user map in order. */
  function Replay(users: map<Email, User>, rows: seq<Row>): map<Email, User> {
    if rows == [] then users
    else Project(Replay(users, rows[..|rows| - 1]), rows[|rows| - 1].payload)
  }

  lemma ReplayMore(users: map<Email, User>, rows: seq<Row>, lo: nat, hi: nat)
    requires lo < hi <= |rows|
    ensures Replay(users, rows[lo..hi]) == Project(Replay(users, rows[lo..hi - 1]), rows[hi - 1].payload)
  {
    assert rows[lo..hi][..hi - lo - 1] == rows[lo..hi - 1];
  }

  /** Replaying journal rows keeps a map of existing versions that reflects the rows so far. */
  lemma {:induction false} ReplayReflects(m: Master, users: map<Email, User>, vs: Versions, lo: nat, hi: nat) returns (vs': Versions)
    requires MasterOk(m) && lo <= hi <= |m.journal|
    requires VersionsExist(m.history, vs) && Matches(m.history, users, vs) && Reflects(m, vs, lo)
    ensures VersionsExist(m.history, vs') && Reflects(m, vs', hi)
    ensures Matches(m.history, Replay(users, m.journal[lo..hi]), vs')
    decreases hi
  {
    vs' := vs;
    if lo == hi {
      assert m.journal[lo..hi] == [];
    } else {
      ReplayMore(users, m.journal, lo, hi);
      var before := ReplayReflects(m, users, vs, lo, hi - 1);
      vs' := ReplayOne(m, Replay(users, m.journal[lo..hi - 1]), before, hi - 1);
    }
  }

  lemma ReplayOne(m: Master, users: map<Email, User>, vs: Versions, i: nat) returns (vs': Versions)
    requires MasterOk(m) && i < |m.journal|
    requires VersionsExist(m.history, vs) && Matches(m.history, users, vs) && Reflects(m, vs, i)
    ensures VersionsExist(m.history, vs') && Reflects(m, vs', i + 1)
    ensures Matches(m.history, Project(users, m.journal[i].payload), vs')
  {
    var row := m.journal[i];
    vs' := vs;
    if IsUserRow(row) {
      assert RowOk(m, i);
      vs' := vs[row.payload.email := m.versions[i]];
      forall x: Email
        ensures Get(Project(users, row.payload), x) == ValueAt(m.history, x, VersionHeld(vs', x))
      {
        assert Get(users, x) == ValueAt(m.history, x, VersionHeld(vs, x));
      }
    }
  }

  /**
   * No omission around a snapshot. Whenever its users were read after its revision was captured,
   * and whatever was changed meanwhile, the users of a snapshot followed by every row past the
   * captured position give the master's value of every user whose newest change is journaled;
   * and until the journal is pruned further, those rows are what the outbox returns past the
   * captured revision.
   */
  lemma NoOmission(s: State, actions: seq<Action>, id: string)
    requires Init(s) && id in Run(s, actions).master.snapshots
    ensures var m := Run(s, actions).master;
            var snap := m.snapshots[id];
            && snap.position <= |m.journal|
            && (forall e: Email | Journaled(m, e) ::
                  Get(Replay(UsersAt(m.history, snap.at), m.journal[snap.position..]), e) == Get(Users(m.history), e))
            && (m.pruned <= snap.position ==>
                  RowsAfter(Outbox(m), snap.revision) == m.journal[snap.position..])
  {
    var m := Run(s, actions).master;
    assert MasterOk(m) && SnapshotOk(m, m.snapshots[id]) by { RunKeeps(s, actions); }
    NothingOmitted(m, m.snapshots[id]);
    RowsPastSnapshot(m, m.snapshots[id]);
  }

  lemma NothingOmitted(m: Master, snap: Snapshot)
    requires MasterOk(m) && SnapshotOk(m, snap)
    ensures snap.position <= |m.journal|
    ensures forall e: Email | Journaled(m, e) ::
              Get(Replay(UsersAt(m.history, snap.at), m.journal[snap.position..]), e) == Get(Users(m.history), e)
  {
    forall e: Email | Journaled(m, e)
      ensures Get(Replay(UsersAt(m.history, snap.at), m.journal[snap.position..]), e) == Get(Users(m.history), e)
    {
      SnapshotThenRows(m, snap, e);
    }
  }

  lemma RowsPastSnapshot(m: Master, snap: Snapshot)
    requires MasterOk(m) && SnapshotOk(m, snap) && snap.position <= |m.journal|
    ensures m.pruned <= snap.position ==> RowsAfter(Outbox(m), snap.revision) == m.journal[snap.position..]
  {
    if m.pruned <= snap.position {
      AlignedIndex(m, snap.revision, snap.position);
    }
  }

  lemma SnapshotThenRows(m: Master, snap: Snapshot, e: Email)
    requires MasterOk(m) && SnapshotOk(m, snap) && Journaled(m, e)
    ensures Get(Replay(UsersAt(m.history, snap.at), m.journal[snap.position..]), e) == Get(Users(m.history), e)
  {
    assert Matches(m.history, UsersAt(m.history, snap.at), snap.at);
    var vs := ReplayReflects(m, UsersAt(m.history, snap.at), snap.at, snap.position, |m.journal|);
    assert m.journal[snap.position..|m.journal|] == m.journal[snap.position..];
    AgreesWhenReflecting(m, Replay(UsersAt(m.history, snap.at), m.journal[snap.position..]), vs, e);
  }

  lemma AgreesWhenReflecting(m: Master, users: map<Email, User>, vs: Versions, e: Email)
    requires MasterOk(m) && VersionsExist(m.history, vs) && Matches(m.history, users, vs)
    requires Reflects(m, vs, |m.journal|) && Journaled(m, e)
    ensures Get(users, e) == Get(Users(m.history), e)
  {
    ReflectsAgrees(m, Store(users, 0, true, {}, map[], vs, |m.journal|, false), e);
  }
}
