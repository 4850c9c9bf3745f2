/**
 * When the gap check is safe, in terms of the configured lists of nodes. The one way a slave can
 * miss changes: it is taken off the list, rows it has not seen are deleted until the outbox is
 * empty, and it is put back.
 */
module ReplicationGap {
  import opened Common
  import opened Strings
  import opened Journal
  import opened Replication
  import opened ReplicationTheorems
  import MasterStore

  function FirstMaster(allowed: seq<string>, snapshots: map<string, Snapshot>): Master {
    Master(map[], [], [], 0, allowed, snapshots)
  }

  function EmptySnapshot(): Snapshot {
    Snapshot(0, 0, map[])
  }

  /** A slave with an empty database at some point of its first session. */
  function Booting(phase: Phase, queue: seq<Frame>, active: string): Peer {
    Peer(Link(Some(0), {}), EmptyStore(), Some(Session(phase, 0, 0, queue, active, false)))
  }

  /** A slave that has just activated a snapshot of no users from an empty journal. */
  function Booted(): Peer {
    Peer(Link(Some(0), {0}), EmptyStore().(initialised := true), Some(Session(Streaming, 0, 0, [], "", false)))
  }

  lemma BootConnect(m: Master, peers: map<string, Peer>, n: string)
    requires m == FirstMaster(m.allowed, m.snapshots)
    requires n in peers && peers[n] == FreshPeer() && NodeAllowed(m, n)
    ensures Step(State(m, peers), Connect(n)) == State(m, peers[n := Booting(SnapshotDue, [], "")])
  {
  }

  lemma BootCapture(m: Master, peers: map<string, Peer>, n: string)
    requires m == FirstMaster(m.allowed, m.snapshots)
    requires n in peers && peers[n] == Booting(SnapshotDue, [], "")
    ensures Step(State(m, peers), CaptureRevision(n)) == State(m, peers[n := Booting(Captured(0, 0, map[]), [], "")])
  {
  }

  lemma BootSend(m: Master, peers: map<string, Peer>, n: string, id: string)
    requires m == FirstMaster(m.allowed, m.snapshots) && id != "" && id !in m.snapshots
    requires n in peers && peers[n] == Booting(Captured(0, 0, map[]), [], "")
    ensures Step(State(m, peers), SendSnapshot(n, id, map[], []))
         == State(m.(snapshots := m.snapshots[id := EmptySnapshot()]),
                  peers[n := Booting(Streaming, [BeginFrame(id), EndFrame(id, 0)], "")])
  {
    var s := State(m, peers);
    assert UsersAt(m.history, map[]) == map[];
    assert MaySendSnapshot(m, peers[n].session.value, id, map[], []);
    var frames := SnapshotFrames(id, 0, UsersAt(m.history, map[]), []);
    assert frames == [BeginFrame(id), EndFrame(id, 0)];
    assert [] + frames == frames;
    assert SendSnapshotStep(m, peers[n].session.value, id, map[], []).queue == frames;
  }

  /** The end frame of a snapshot without users. */
  lemma BootActivate(m: Master, s: State, n: string, id: string)
    requires id != "" && id in m.snapshots && m.snapshots[id] == EmptySnapshot() && m.pruned <= |m.journal|
    requires s.master == m && n in s.peers && s.peers[n] == Booting(Streaming, [EndFrame(id, 0)], id)
    ensures Step(s, FinishFrame(n)) == State(m, s.peers[n := Booted()])
  {
    var p := s.peers[n];
    assert [EndFrame(id, 0)][1..] == [];
    assert Staged(map[], id) == map[] && Unstage(map[], id) == map[];
    assert SendAck(p.link, 0) == Booted().link;
    assert Activate(m, p.store, id, 0) == Booted().store;
    assert FinishFrameStep(m, p) == Booted();
  }

  lemma BootFinish(m: Master, peers: map<string, Peer>, n: string, id: string)
    requires id != "" && id in m.snapshots && m.snapshots[id] == EmptySnapshot() && m.pruned <= |m.journal|
    requires n in peers && peers[n] == Booting(Streaming, [BeginFrame(id), EndFrame(id, 0)], "")
    ensures Step(Step(State(m, peers), FinishFrame(n)), FinishFrame(n)) == State(m, peers[n := Booted()])
  {
    var q := [BeginFrame(id), EndFrame(id, 0)];
    assert q[1..] == [EndFrame(id, 0)];
    var middle := State(m, peers[n := Booting(Streaming, q[1..], id)]);
    assert Step(State(m, peers), FinishFrame(n)) == middle;
    assert Staged(map[], id) == map[] && Unstage(map[], id) == map[];
    BootActivate(m, middle, n, id);
    assert peers[n := Booting(Streaming, q[1..], id)][n := Booted()] == peers[n := Booted()];
  }

  function Boot(n: string, id: string): seq<Action> {
    [Connect(n), CaptureRevision(n), SendSnapshot(n, id, map[], []), FinishFrame(n), FinishFrame(n)]
  }

  lemma RunFive(s: State, a: Action, b: Action, c: Action, d: Action, e: Action)
    ensures Run(s, [a, b, c, d, e]) == Step(Step(Step(Step(Step(s, a), b), c), d), e)
  {
    RunStep(s, [], a);
    RunStep(s, [a], b);
    RunStep(s, [a, b], c);
    RunStep(s, [a, b, c], d);
    RunStep(s, [a, b, c, d], e);
    assert [] + [a] == [a] && [a] + [b] == [a, b] && [a, b] + [c] == [a, b, c];
    assert [a, b, c] + [d] == [a, b, c, d] && [a, b, c, d] + [e] == [a, b, c, d, e];
  }

  lemma BootSlave(m: Master, peers: map<string, Peer>, n: string, id: string)
    requires m == FirstMaster(m.allowed, m.snapshots)
    requires n in peers && peers[n] == FreshPeer() && NodeAllowed(m, n)
    requires id != "" && id !in m.snapshots
    ensures Run(State(m, peers), Boot(n, id))
         == State(m.(snapshots := m.snapshots[id := EmptySnapshot()]), peers[n := Booted()])
  {
    var m' := m.(snapshots := m.snapshots[id := EmptySnapshot()]);
    var p1, p2 := peers[n := Booting(SnapshotDue, [], "")], peers[n := Booting(Captured(0, 0, map[]), [], "")];
    var p3 := peers[n := Booting(Streaming, [BeginFrame(id), EndFrame(id, 0)], "")];
    RunFive(State(m, peers), Connect(n), CaptureRevision(n), SendSnapshot(n, id, map[], []), FinishFrame(n), FinishFrame(n));
    assert p1[n := p2[n]] == p2 && p2[n := p3[n]] == p3 && p3[n := Booted()] == peers[n := Booted()];
    var s1, s2, s3 := State(m, p1), State(m, p2), State(m', p3);
    assert Step(State(m, peers), Connect(n)) == s1 by { BootConnect(m, peers, n); }
    assert Step(s1, CaptureRevision(n)) == s2 by { BootCapture(m, p1, n); }
    assert Step(s2, SendSnapshot(n, id, map[], [])) == s3 by { BootSend(m, p2, n, id); }
    BootFinish(m', p3, n, id);
  }

  // ---------------------------------------------------------------- one change, told to a node by snapshot

  function TheRow(): Row {
    Row(1, Upsert("u", "v"))
  }

  /** The journal of one change: `u` gets the value `v`. */
  function Changed(pruned: nat, allowed: seq<string>, snapshots: map<string, Snapshot>): Master {
    Master(map["u" := [None, Some("v")]], [TheRow()], [1], pruned, allowed, snapshots)
  }

  function FullSnapshot(): Snapshot {
    Snapshot(1, 1, map["u" := 1])
  }

  /** A node on the way to its snapshot of the one user. */
  function Filling(queue: seq<Frame>, active: string, staging: map<(string, Email), User>): Peer {
    Peer(Link(Some(0), {}), EmptyStore().(staging := staging), Some(Session(Streaming, 1, 1, queue, active, false)))
  }

  /** The node holds the user and has acknowledged, with `replica` recorded so far. */
  function Served(replica: nat, phase: Phase): Peer {
    Peer(Link(Some(replica), {1}),
         Store(map["u" := "v"], 1, true, {}, map[], map["u" := 1], 1, false),
         Some(Session(phase, 1, 1, [], "", false)))
  }

  lemma RunTwo(s: State, a: Action, b: Action)
    ensures Run(s, [a, b]) == Step(Step(s, a), b)
  {
    RunStep(s, [], a);
    RunStep(s, [a], b);
    assert [] + [a] == [a] && [a] + [b] == [a, b];
  }

  lemma ChangeOne(m: Master, peers: map<string, Peer>)
    requires m == FirstMaster(m.allowed, m.snapshots)
    ensures Step(State(m, peers), Change("u", Some("v"))) == State(m.(history := map["u" := [None, Some("v")]]), peers)
  {
    assert VersionsOf(map[], "u") + [Some("v")] == [None, Some("v")];
  }

  lemma AppendOne(m: Master, peers: map<string, Peer>)
    requires m == FirstMaster(m.allowed, m.snapshots).(history := map["u" := [None, Some("v")]])
    ensures Step(State(m, peers), AppendUser("u", 1, 1)) == State(Changed(0, m.allowed, m.snapshots), peers)
  {
    assert MayAppend(m, AppendUser("u", 1, 1));
    assert UserPayload(m.history, "u", 1) == Upsert("u", "v");
    assert m.journal + [TheRow()] == [TheRow()] && m.versions + [1] == [1];
  }

  lemma ChangeAndAppend(m: Master, peers: map<string, Peer>)
    requires m == FirstMaster(m.allowed, m.snapshots)
    ensures Run(State(m, peers), [Change("u", Some("v")), AppendUser("u", 1, 1)]) == State(Changed(0, m.allowed, m.snapshots), peers)
  {
    ChangeOne(m, peers);
    AppendOne(m.(history := map["u" := [None, Some("v")]]), peers);
    RunTwo(State(m, peers), Change("u", Some("v")), AppendUser("u", 1, 1));
  }

  lemma ServeConnect(m: Master, peers: map<string, Peer>, x: string)
    requires m == Changed(0, m.allowed, m.snapshots)
    requires x in peers && peers[x] == FreshPeer() && NodeAllowed(m, x)
    ensures Step(State(m, peers), Connect(x)) == State(m, peers[x := Booting(SnapshotDue, [], "")])
  {
  }

  lemma ServeCapture(m: Master, peers: map<string, Peer>, x: string)
    requires m == Changed(0, m.allowed, m.snapshots)
    requires x in peers && peers[x] == Booting(SnapshotDue, [], "")
    ensures Step(State(m, peers), CaptureRevision(x)) == State(m, peers[x := Booting(Captured(1, 1, m.history), [], "")])
  {
    assert Outbox(m) == [TheRow()];
  }

  function Frames(id: string): seq<Frame> {
    [BeginFrame(id), UserFrame("u", "v"), EndFrame(id, 1)]
  }

  lemma ServeSend(m: Master, peers: map<string, Peer>, x: string, id: string)
    requires m == Changed(0, m.allowed, m.snapshots) && id != "" && id !in m.snapshots
    requires x in peers && peers[x] == Booting(Captured(1, 1, m.history), [], "")
    ensures Step(State(m, peers), SendSnapshot(x, id, map["u" := 1], ["u"]))
         == State(m.(snapshots := m.snapshots[id := FullSnapshot()]), peers[x := Filling(Frames(id), "", map[])])
  {
    var at := map["u" := 1];
    var users := UsersAt(m.history, at);
    assert users == map["u" := "v"];
    assert MaySendSnapshot(m, peers[x].session.value, id, at, ["u"]);
    assert UserFrames(users, ["u"]) == [UserFrame("u", "v")];
    assert [] + SnapshotFrames(id, 1, users, ["u"]) == Frames(id);
    assert SendSnapshotStep(m, peers[x].session.value, id, at, ["u"]).queue == Frames(id);
  }

  lemma ServeBegin(m: Master, peers: map<string, Peer>, x: string, id: string)
    requires m.pruned <= |m.journal| && id != "" && x in peers && peers[x] == Filling(Frames(id), "", map[])
    ensures Step(State(m, peers), FinishFrame(x)) == State(m, peers[x := Filling(Frames(id)[1..], id, map[])])
  {
    assert FinishFrameStep(m, peers[x]) == Filling(Frames(id)[1..], id, map[]);
  }

  lemma ServeUser(m: Master, peers: map<string, Peer>, x: string, id: string)
    requires m.pruned <= |m.journal| && id != "" && x in peers && peers[x] == Filling(Frames(id)[1..], id, map[])
    ensures Step(State(m, peers), FinishFrame(x))
         == State(m, peers[x := Filling([EndFrame(id, 1)], id, map[(id, "u") := "v"])])
  {
    assert Frames(id)[1..][0] == UserFrame("u", "v") && Frames(id)[1..][1..] == [EndFrame(id, 1)];
    assert FinishFrameStep(m, peers[x]) == Filling([EndFrame(id, 1)], id, map[(id, "u") := "v"]);
  }

  lemma ServeEnd(m: Master, peers: map<string, Peer>, x: string, id: string)
    requires m.pruned <= |m.journal| && id != "" && id in m.snapshots && m.snapshots[id] == FullSnapshot()
    requires x in peers && peers[x] == Filling([EndFrame(id, 1)], id, map[(id, "u") := "v"])
    ensures Step(State(m, peers), FinishFrame(x)) == State(m, peers[x := Served(0, Streaming)])
  {
    var p := peers[x];
    StagedAt(p.store.staging, id, "u");
    assert Staged(p.store.staging, id) == map["u" := "v"];
    assert Unstage(p.store.staging, id) == map[];
    assert Activate(m, p.store, id, 1) == Served(0, Streaming).store;
    assert [EndFrame(id, 1)][1..] == [];
    assert FinishFrameStep(m, p) == Served(0, Streaming);
  }

  lemma ServeAck(m: Master, peers: map<string, Peer>, x: string)
    requires m.pruned <= |m.journal| && x in peers && peers[x] == Served(0, Streaming)
    ensures Step(State(m, peers), DeliverAck(x, 1)) == State(m, peers[x := Served(1, Streaming)])
  {
  }

  /** The snapshot of the one user, from the first hello to its frames being queued. */
  function Offer(x: string, id: string): seq<Action> {
    [Connect(x), CaptureRevision(x), SendSnapshot(x, id, map["u" := 1], ["u"])]
  }

  function Accept(x: string): seq<Action> {
    [FinishFrame(x), FinishFrame(x), FinishFrame(x), DeliverAck(x, 1)]
  }

  lemma RunThree(s: State, a: Action, b: Action, c: Action)
    ensures Run(s, [a, b, c]) == Step(Step(Step(s, a), b), c)
  {
    RunStep(s, [], a);
    RunStep(s, [a], b);
    RunStep(s, [a, b], c);
    assert [] + [a] == [a] && [a] + [b] == [a, b] && [a, b] + [c] == [a, b, c];
  }

  lemma Offered(m: Master, peers: map<string, Peer>, x: string, id: string)
    requires m == Changed(0, m.allowed, m.snapshots) && id != "" && id !in m.snapshots
    requires x in peers && peers[x] == FreshPeer() && NodeAllowed(m, x)
    ensures Run(State(m, peers), Offer(x, id))
         == State(m.(snapshots := m.snapshots[id := FullSnapshot()]), peers[x := Filling(Frames(id), "", map[])])
  {
    var p1 := peers[x := Booting(SnapshotDue, [], "")];
    var p2 := peers[x := Booting(Captured(1, 1, m.history), [], "")];
    assert p1[x := p2[x]] == p2;
    assert p2[x := Filling(Frames(id), "", map[])] == peers[x := Filling(Frames(id), "", map[])];
    RunThree(State(m, peers), Connect(x), CaptureRevision(x), SendSnapshot(x, id, map["u" := 1], ["u"]));
    assert Step(State(m, peers), Connect(x)) == State(m, p1) by { ServeConnect(m, peers, x); }
    assert Step(State(m, p1), CaptureRevision(x)) == State(m, p2) by { ServeCapture(m, p1, x); }
    ServeSend(m, p2, x, id);
  }

  lemma Accepted(m: Master, peers: map<string, Peer>, x: string, id: string)
    requires m.pruned <= |m.journal| && id != "" && id in m.snapshots && m.snapshots[id] == FullSnapshot()
    requires x in peers && peers[x] == Filling(Frames(id), "", map[])
    ensures Run(State(m, peers), Accept(x)) == State(m, peers[x := Served(1, Streaming)])
  {
    var p1, p2 := peers[x := Filling(Frames(id)[1..], id, map[])], peers[x := Filling([EndFrame(id, 1)], id, map[(id, "u") := "v"])];
    var p3 := peers[x := Served(0, Streaming)];
    assert p1[x := p2[x]] == p2 && p2[x := p3[x]] == p3 && p3[x := Served(1, Streaming)] == peers[x := Served(1, Streaming)];
    var s := State(m, peers);
    assert Step(s, FinishFrame(x)) == State(m, p1) by { ServeBegin(m, peers, x, id); }
    assert Step(State(m, p1), FinishFrame(x)) == State(m, p2) by { ServeUser(m, p1, x, id); }
    assert Step(State(m, p2), FinishFrame(x)) == State(m, p3) by { ServeEnd(m, p2, x, id); }
    RunThree(s, FinishFrame(x), FinishFrame(x), FinishFrame(x));
    RunStep(s, [FinishFrame(x), FinishFrame(x), FinishFrame(x)], DeliverAck(x, 1));
    assert [FinishFrame(x), FinishFrame(x), FinishFrame(x)] + [DeliverAck(x, 1)] == Accept(x);
    ServeAck(m, p3, x);
  }

  /** A node that has never connected is told the one change and acknowledges it. */
  lemma ServeOne(m: Master, peers: map<string, Peer>, x: string, id: string)
    requires m == Changed(0, m.allowed, m.snapshots) && id != "" && id !in m.snapshots
    requires x in peers && peers[x] == FreshPeer() && NodeAllowed(m, x)
    ensures Run(State(m, peers), Offer(x, id) + Accept(x))
         == State(m.(snapshots := m.snapshots[id := FullSnapshot()]), peers[x := Served(1, Streaming)])
  {
    var m', p' := m.(snapshots := m.snapshots[id := FullSnapshot()]), peers[x := Filling(Frames(id), "", map[])];
    RunConcat(State(m, peers), Offer(x, id), Accept(x));
    Offered(m, peers, x, id);
    Accepted(m', p', x, id);
    assert p'[x := Served(1, Streaming)] == peers[x := Served(1, Streaming)];
  }

  // ---------------------------------------------------------------- the list without the node is served and pruned

  /** The node that is off the list. */
  function Parked(): Peer {
    Booted().(session := None)
  }

  /** Ids of snapshots, one per node. */
  function IdOf(x: string): string {
    "s" + x
  }

  function Nodes(c: seq<string>): set<string> {
    set x | x in c
  }

  /** Under the list `c`: `n` is parked, the nodes in `done` are served, the others have never connected. */
  ghost predicate Serving(s: State, c: seq<string>, n: string, done: set<string>) {
    && s.master == Changed(0, c, s.master.snapshots)
    && (forall id | id in s.master.snapshots :: exists x | x in done + {n} :: id == IdOf(x))
    && n in s.peers && s.peers[n] == Parked()
    && (forall x | x in c :: x in s.peers && s.peers[x] == if x in done then Served(1, Streaming) else FreshPeer())
  }

  predicate NoReconfigure(actions: seq<Action>) {
    forall a | a in actions :: !a.Reconfigure?
  }

  lemma ServeNext(s: State, c: seq<string>, n: string, done: set<string>, x: string) returns (actions: seq<Action>)
    requires Serving(s, c, n, done) && CanPrune(c) && n !in c && x in c
    ensures Serving(Run(s, actions), c, n, done + {x}) && NoReconfigure(actions)
  {
    if x in done {
      actions := [];
      assert done + {x} == done;
    } else {
      actions := Offer(x, IdOf(x)) + Accept(x);
      NewId(s, c, n, done, x);
      var i :| 0 <= i < |c| && c[i] == x;
      assert NodeAllowed(s.master, x);
      ServeOne(s.master, s.peers, x, IdOf(x));
      var t := Run(s, actions);
      forall id | id in t.master.snapshots ensures exists y | y in done + {x} + {n} :: id == IdOf(y) {
        if id in s.master.snapshots {
          var y :| y in done + {n} && id == IdOf(y);
          assert y in done + {x} + {n};
        } else {
          assert x in done + {x} + {n} && id == IdOf(x);
        }
      }
    }
  }

  lemma NewId(s: State, c: seq<string>, n: string, done: set<string>, x: string)
    requires Serving(s, c, n, done) && x !in done && x != n
    ensures IdOf(x) !in s.master.snapshots
  {
    forall y | y in done + {n} ensures IdOf(x) != IdOf(y) { assert x == IdOf(x)[1..] && y == IdOf(y)[1..]; }
  }

  lemma ServeAt(s: State, c: seq<string>, n: string, k: nat) returns (actions: seq<Action>)
    requires k < |c| && Serving(s, c, n, Nodes(c[..k])) && CanPrune(c) && n !in c
    ensures Serving(Run(s, actions), c, n, Nodes(c[..k + 1])) && NoReconfigure(actions)
  {
    actions := ServeNext(s, c, n, Nodes(c[..k]), c[k]);
    assert c[..k + 1] == c[..k] + [c[k]];
    assert Nodes(c[..k + 1]) == Nodes(c[..k]) + {c[k]};
  }

  lemma {:induction false} ServeAll(s: State, c: seq<string>, n: string, k: nat) returns (actions: seq<Action>, t: State)
    requires Serving(s, c, n, {}) && CanPrune(c) && n !in c && k <= |c|
    ensures t == Run(s, actions) && Serving(t, c, n, Nodes(c[..k])) && NoReconfigure(actions)
    decreases k
  {
    if k == 0 {
      actions, t := [], s;
      assert Nodes(c[..0]) == {};
    } else {
      var before, last;
      before, t := ServeAll(s, c, n, k - 1);
      last := ServeAt(t, c, n, k - 1);
      actions, t := before + last, Run(t, last);
      RunConcat(s, before, last);
    }
  }

  lemma PruneServed(s: State, c: seq<string>, n: string)
    requires Serving(s, c, n, Nodes(c)) && c != []
    ensures Step(s, Prune) == State(Changed(1, c, s.master.snapshots), s.peers)
  {
    var records := ReplicaRecords(s.peers);
    forall i | 0 <= i < |c| ensures c[i] in records && records[c[i]] == 1 { assert s.peers[c[i]] == Served(1, Streaming); }
    assert records[c[0]] == 1;
    MasterStore.FloorIsLeast(c, records, 1);
    assert Outbox(s.master) == [TheRow()];
    assert IndexAfter([TheRow()], 1) == 1;
  }

  // ---------------------------------------------------------------- lists coming into force

  function Switch(lists: seq<seq<string>>): seq<Action> {
    seq(|lists|, i requires 0 <= i < |lists| => Reconfigure(lists[i]))
  }

  function LastOf(allowed: seq<string>, lists: seq<seq<string>>): seq<string> {
    if lists == [] then allowed else lists[|lists| - 1]
  }

  /** Only the list in force changes, and the sessions there are. */
  lemma {:induction false} Switched(s: State, lists: seq<seq<string>>)
    requires s.master.pruned <= |s.master.journal|
    ensures var t := Run(s, Switch(lists));
            && t.master == s.master.(allowed := LastOf(s.master.allowed, lists))
            && t.peers.Keys == s.peers.Keys
            && (forall x | x in s.peers && s.peers[x].session.None? :: t.peers[x] == s.peers[x])
    decreases |lists|
  {
    if lists != [] {
      var init := lists[..|lists| - 1];
      Switched(s, init);
      assert Switch(lists)[..|lists| - 1] == Switch(init);
    }
  }

  /** With nobody connected nothing else changes. */
  lemma SwitchedIdle(s: State, lists: seq<seq<string>>)
    requires s.master.pruned <= |s.master.journal| && forall x | x in s.peers :: s.peers[x].session.None?
    ensures Run(s, Switch(lists)) == State(s.master.(allowed := LastOf(s.master.allowed, lists)), s.peers)
  {
    Switched(s, lists);
    assert Run(s, Switch(lists)).peers == s.peers;
  }

  lemma {:induction false} SwitchLists(lists: seq<seq<string>>)
    ensures Reconfigured(Switch(lists)) == lists
  {
    if lists != [] {
      var init := lists[..|lists| - 1];
      SwitchLists(init);
      assert Switch(lists)[..|lists| - 1] == Switch(init) && lists == init + [lists[|lists| - 1]];
    }
  }

  lemma {:induction false} ReconfiguredConcat(a: seq<Action>, b: seq<Action>)
    ensures Reconfigured(a + b) == Reconfigured(a) + Reconfigured(b)
    decreases |b|
  {
    if b == [] {
      assert a + b == a;
    } else {
      assert (a + b)[..|a + b| - 1] == a + b[..|b| - 1];
      ReconfiguredConcat(a, b[..|b| - 1]);
    }
  }

  lemma {:induction false} NoneReconfigured(actions: seq<Action>)
    requires NoReconfigure(actions)
    ensures Reconfigured(actions) == []
  {
    if actions != [] { NoneReconfigured(actions[..|actions| - 1]); }
  }

  // ---------------------------------------------------------------- the node before and after

  /** The node's first session, and its end. */
  function Visit(n: string): seq<Action> {
    Boot(n, IdOf(n)) + [Disconnect(n)]
  }

  function Write(): seq<Action> {
    [Change("u", Some("v")), AppendUser("u", 1, 1)]
  }

  lemma Visited(m: Master, peers: map<string, Peer>, n: string)
    requires m == FirstMaster(m.allowed, map[]) && n in peers && peers[n] == FreshPeer() && NodeAllowed(m, n)
    ensures Run(State(m, peers), Visit(n)) == State(FirstMaster(m.allowed, map[IdOf(n) := EmptySnapshot()]), peers[n := Parked()])
  {
    var t := State(FirstMaster(m.allowed, map[IdOf(n) := EmptySnapshot()]), peers[n := Booted()]);
    BootSlave(m, peers, n, IdOf(n));
    RunStep(State(m, peers), Boot(n, IdOf(n)), Disconnect(n));
    assert Step(t, Disconnect(n)) == Update(t, n, Parked());
    assert t.peers[n := Parked()] == peers[n := Parked()];
  }

  /** Resumed past the deleted row, with nothing to show for it. */
  function Resumed(): Peer {
    Peer(Parked().link, Parked().store.(covered := 1, broken := true), Some(Session(Streaming, 0, 1, [], "", false)))
  }

  lemma PutBack(s: State, lists: seq<seq<string>>, n: string)
    requires s.master == Changed(1, s.master.allowed, s.master.snapshots) && n in s.peers && s.peers[n] == Parked()
    requires lists != [] && Permits(lists[|lists| - 1], n)
    ensures var t := Run(s, Switch(lists) + [Connect(n)]);
            t.master == Changed(1, lists[|lists| - 1], s.master.snapshots) && n in t.peers && t.peers[n] == Resumed()
  {
    Switched(s, lists);
    RunStep(s, Switch(lists), Connect(n));
    var t := Run(s, Switch(lists));
    assert Outbox(t.master) == [];
    assert ConnectStep(t.master, Parked()) == Resumed();
  }

  lemma EndState(t: State, d: seq<string>, n: string)
    requires t.master == Changed(1, d, t.master.snapshots) && n in t.peers && t.peers[n] == Resumed()
    ensures CaughtUp(t, n)
    ensures forall e: Email :: Journaled(t.master, e)
    ensures t.peers[n].store.desired != Users(t.master.history)
  {
    assert Outbox(t.master) == [];
    assert t.master.journal[0] == TheRow();
    assert Newest(t.master.history, "u") == 1;
    assert "u" in Users(t.master.history);
  }

  // ---------------------------------------------------------------- the run

  function Everyone(c: seq<string>, n: string): map<string, Peer> {
    map x | x in Nodes(c) + {n} :: FreshPeer()
  }

  /** A first visit under the last of the lists `first`, the lists `next`, and one change. */
  function Opening(n: string, first: seq<seq<string>>, next: seq<seq<string>>): seq<Action> {
    Switch(first) + Visit(n) + Switch(next) + Write()
  }

  lemma OpeningRun(s: State, n: string, first: seq<seq<string>>, next: seq<seq<string>>)
    requires s.master == FirstMaster(s.master.allowed, map[]) && n in s.peers && forall x | x in s.peers :: s.peers[x] == FreshPeer()
    requires Permits(LastOf(s.master.allowed, first), n) && next != []
    ensures Run(s, Opening(n, first, next))
         == State(Changed(0, next[|next| - 1], map[IdOf(n) := EmptySnapshot()]), s.peers[n := Parked()])
  {
    var snapshots := map[IdOf(n) := EmptySnapshot()];
    var s1 := State(FirstMaster(LastOf(s.master.allowed, first), map[]), s.peers);
    var s2 := State(FirstMaster(s1.master.allowed, snapshots), s.peers[n := Parked()]);
    var s3 := State(FirstMaster(next[|next| - 1], snapshots), s2.peers);
    assert Run(s, Switch(first)) == s1 by { SwitchedIdle(s, first); }
    assert Run(s1, Visit(n)) == s2 by { Visited(s1.master, s1.peers, n); }
    assert Run(s2, Switch(next)) == s3 by { SwitchedIdle(s2, next); }
    ChangeAndAppend(s3.master, s3.peers);
    RunConcat(s, Switch(first), Visit(n));
    RunConcat(s, Switch(first) + Visit(n), Switch(next));
    RunConcat(s, Switch(first) + Visit(n) + Switch(next), Write());
  }

  lemma InFour(a: seq<Action>, b: seq<Action>, c: seq<Action>, d: seq<Action>)
    ensures Reconfigured(a + b + c + d) == Reconfigured(a) + Reconfigured(b) + Reconfigured(c) + Reconfigured(d)
  {
    ReconfiguredConcat(a, b);
    ReconfiguredConcat(a + b, c);
    ReconfiguredConcat(a + b + c, d);
  }

  lemma QuietParts(n: string)
    ensures Reconfigured(Visit(n)) == [] && Reconfigured(Write()) == []
  {
    NoneReconfigured(Visit(n));
    NoneReconfigured(Write());
  }

  lemma OpeningLists(n: string, first: seq<seq<string>>, next: seq<seq<string>>)
    ensures Reconfigured(Opening(n, first, next)) == first + next
  {
    InFour(Switch(first), Visit(n), Switch(next), Write());
    SwitchLists(first);
    SwitchLists(next);
    QuietParts(n);
  }

  lemma OpeningServes(c: seq<string>, n: string)
    requires n !in c
    ensures Serving(State(Changed(0, c, map[IdOf(n) := EmptySnapshot()]), Everyone(c, n)[n := Parked()]), c, n, {})
  {
    var t := State(Changed(0, c, map[IdOf(n) := EmptySnapshot()]), Everyone(c, n)[n := Parked()]);
    forall id | id in t.master.snapshots ensures exists x | x in {} + {n} :: id == IdOf(x) { assert n in {} + {n}; }
    forall x | x in c ensures x in t.peers && t.peers[x] == FreshPeer() { assert x in Nodes(c); }
  }

  /** Once everyone on the list is served: the row is deleted and the node put back. */
  function Closing(n: string, last: seq<seq<string>>): seq<Action> {
    [Prune] + (Switch(last) + [Connect(n)])
  }

  lemma ClosingRun(s: State, c: seq<string>, n: string, last: seq<seq<string>>, t: State)
    requires Serving(s, c, n, Nodes(c)) && c != [] && last != [] && Permits(last[|last| - 1], n)
    requires t == Run(s, Closing(n, last))
    ensures t.master == Changed(1, last[|last| - 1], t.master.snapshots) && n in t.peers && t.peers[n] == Resumed()
  {
    RunConcat(s, [Prune], Switch(last) + [Connect(n)]);
    RunStep(s, [], Prune);
    assert [] + [Prune] == [Prune];
    PruneServed(s, c, n);
    PutBack(Step(s, Prune), last, n);
  }

  lemma ClosingLists(n: string, last: seq<seq<string>>)
    ensures Reconfigured(Closing(n, last)) == last
  {
    SwitchLists(last);
    NoneReconfigured([Prune]);
    NoneReconfigured([Connect(n)]);
    ReconfiguredConcat(Switch(last), [Connect(n)]);
    ReconfiguredConcat([Prune], Switch(last) + [Connect(n)]);
  }

  lemma NotListed(c: seq<string>, n: string)
    requires CanPrune(c) && !Permits(c, n)
    ensures n !in c
  {
    forall i | 0 <= i < |c| ensures c[i] != n { assert TrimSpace(c[i]) == c[i]; }
  }

  /** The three lists that matter: the node is permitted, left out while rows can be deleted, and permitted again. */
  predicate GapAt(n: string, lists: seq<seq<string>>, i: nat, j: nat, k: nat) {
    && i < j < k < |lists|
    && Permits(lists[i], n) && !Permits(lists[j], n) && CanPrune(lists[j]) && Permits(lists[k], n)
  }

  /** The opening, the serving of everyone on the list in force, and the closing. */
  lemma WholeRun(s: State, n: string, first: seq<seq<string>>, next: seq<seq<string>>, last: seq<seq<string>>, c: seq<string>)
    returns (serving: seq<Action>)
    requires s == State(FirstMaster(s.master.allowed, map[]), Everyone(c, n)) && CanPrune(c) && !Permits(c, n)
    requires Permits(LastOf(s.master.allowed, first), n) && next != [] && next[|next| - 1] == c
    requires last != [] && Permits(last[|last| - 1], n)
    ensures NoReconfigure(serving)
    ensures var t := Run(s, Opening(n, first, next) + serving + Closing(n, last));
            t.master == Changed(1, last[|last| - 1], t.master.snapshots) && n in t.peers && t.peers[n] == Resumed()
  {
    var opening, closing := Opening(n, first, next), Closing(n, last);
    NotListed(c, n);
    var s1 := State(Changed(0, c, map[IdOf(n) := EmptySnapshot()]), Everyone(c, n)[n := Parked()]);
    assert Run(s, opening) == s1 by { OpeningRun(s, n, first, next); }
    OpeningServes(c, n);
    var t;
    serving, t := ServeAll(s1, c, n, |c|);
    assert c[..|c|] == c;
    RunConcat(s, opening, serving);
    RunConcat(s, opening + serving, closing);
    ClosingRun(t, c, n, last, Run(t, closing));
  }

  lemma GapLists(n: string, first: seq<seq<string>>, next: seq<seq<string>>, serving: seq<Action>, last: seq<seq<string>>)
    requires NoReconfigure(serving)
    ensures Reconfigured(Opening(n, first, next) + serving + Closing(n, last)) == first + next + last
  {
    OpeningLists(n, first, next);
    ClosingLists(n, last);
    NoneReconfigured(serving);
    ReconfiguredConcat(Opening(n, first, next), serving);
    ReconfiguredConcat(Opening(n, first, next) + serving, Closing(n, last));
  }

  lemma InParts(lists: seq<seq<string>>, i: nat, j: nat, k: nat)
    requires i < j < k < |lists|
    ensures LastOf(lists[0], lists[1..i + 1]) == lists[i]
    ensures [lists[0]] + (lists[1..i + 1] + lists[i + 1..j + 1] + lists[j + 1..k + 1]) == lists[..k + 1]
  {
    assert lists[1..i + 1] + lists[i + 1..j + 1] == lists[1..j + 1];
    assert lists[1..j + 1] + lists[j + 1..k + 1] == lists[1..k + 1];
  }

  /**
   * For every node and every sequence of lists in which the node is permitted, then left out by a list
   * under which rows can be deleted, then permitted again: a run along these lists in which the
   * node ends caught up by every visible sign, every change is journaled, and the node's
   * projection is not the master's user map.
   */
  lemma ExcludedNodeDiverges(n: string, lists: seq<seq<string>>, i: nat, j: nat, k: nat) returns (s: State, actions: seq<Action>)
    requires GapAt(n, lists, i, j, k)
    ensures Init(s) && n in s.peers && ListsUsed(s, actions) == lists[..k + 1]
    ensures var t := Run(s, actions);
            && CaughtUp(t, n) && t.peers[n].store.broken
            && (forall e: Email :: Journaled(t.master, e))
            && t.peers[n].store.desired != Users(t.master.history)
  {
    var first, next, last := lists[1..i + 1], lists[i + 1..j + 1], lists[j + 1..k + 1];
    InParts(lists, i, j, k);
    s := State(FirstMaster(lists[0], map[]), Everyone(lists[j], n));
    var serving := WholeRun(s, n, first, next, last, lists[j]);
    actions := Opening(n, first, next) + serving + Closing(n, last);
    GapLists(n, first, next, serving, last);
    EndState(Run(s, actions), lists[k], n);
  }

  // ---------------------------------------------------------------- lists without such a gap

  /** The node is permitted, then left out by a list under which rows can be deleted. */
  predicate Dropped(n: string, lists: seq<seq<string>>) {
    exists i, j | 0 <= i < j < |lists| :: Permits(lists[i], n) && !Permits(lists[j], n) && CanPrune(lists[j])
  }

  predicate HasGap(n: string, lists: seq<seq<string>>) {
    exists i, j, k | 0 <= i < j < k < |lists| :: GapAt(n, lists, i, j, k)
  }

  lemma PrefixHasNoGap(n: string, lists: seq<seq<string>>, more: seq<seq<string>>)
    requires lists <= more
    ensures !HasGap(n, more) ==> !HasGap(n, lists)
    ensures !Dropped(n, more) ==> !Dropped(n, lists)
  {
    if HasGap(n, lists) {
      var i, j, k :| 0 <= i < j < k < |lists| && GapAt(n, lists, i, j, k);
      assert GapAt(n, more, i, j, k);
    }
    if Dropped(n, lists) {
      var i, j :| 0 <= i < j < |lists| && Permits(lists[i], n) && !Permits(lists[j], n) && CanPrune(lists[j]);
      assert more[i] == lists[i] && more[j] == lists[j];
    }
  }

  lemma DroppedThenPermitted(n: string, lists: seq<seq<string>>)
    requires lists != [] && Dropped(n, lists) && Permits(lists[|lists| - 1], n)
    ensures HasGap(n, lists)
  {
    var i, j :| 0 <= i < j < |lists| && Permits(lists[i], n) && !Permits(lists[j], n) && CanPrune(lists[j]);
    assert GapAt(n, lists, i, j, |lists| - 1);
  }

  /** While the node has not been dropped, every deletion waits for it or comes before its first permission. */
  lemma {:induction false} DeletionsWait(s: State, actions: seq<Action>, n: string)
    requires Init(s) && !Dropped(n, ListsUsed(s, actions))
    ensures PermittedAtPrunes(s, actions, n)
    decreases |actions|
  {
    if actions != [] {
      var before := actions[..|actions| - 1];
      assert ListsUsed(s, before) <= ListsUsed(s, actions);
      PrefixHasNoGap(n, ListsUsed(s, before), ListsUsed(s, actions));
      DeletionsWait(s, before, n);
      ListInForce(s, before);
      var lists := ListsUsed(s, before);
      if !Spares(lists[|lists| - 1], n) {
        forall l | l in lists ensures !Permits(l, n) {
          var i :| 0 <= i < |lists| && lists[i] == l;
          assert i < |lists| - 1 && Permits(lists[i], n) ==> Dropped(n, lists);
        }
      }
    }
  }

  /** A slave can be resumed past deleted rows only under a list that permits it. */
  lemma BrokenOnlyByConnect(s: State, a: Action, n: string)
    requires n in s.peers && !s.peers[n].store.broken && (a.Reconfigure? || !NodeAllowed(s.master, n))
    ensures n in Step(s, a).peers && !Step(s, a).peers[n].store.broken
  {
  }

  lemma {:induction false} NoGapIsSafe(s: State, actions: seq<Action>, n: string)
    requires Init(s) && n in s.peers && !HasGap(n, ListsUsed(s, actions))
    ensures n in Run(s, actions).peers && !Run(s, actions).peers[n].store.broken
    decreases |actions|
  {
    if !Dropped(n, ListsUsed(s, actions)) {
      DeletionsWait(s, actions, n);
      PermittedNeverBroken(s, actions, n);
    } else {
      var before, a := actions[..|actions| - 1], actions[|actions| - 1];
      assert ListsUsed(s, before) <= ListsUsed(s, actions);
      PrefixHasNoGap(n, ListsUsed(s, before), ListsUsed(s, actions));
      NoGapIsSafe(s, before, n);
      ListInForce(s, before);
      var lists := ListsUsed(s, before);
      if Permits(lists[|lists| - 1], n) && !a.Reconfigure? { DroppedThenPermitted(n, lists); }
      BrokenOnlyByConnect(Run(s, before), a, n);
    }
  }

  // ---------------------------------------------------------------- exactly when the gap check is safe

  /** In every run along these lists the node is never resumed past a deleted row. */
  ghost predicate AlwaysResumable(n: string, lists: seq<seq<string>>) {
    forall s, actions | Init(s) && n in s.peers && ListsUsed(s, actions) <= lists ::
      n in Run(s, actions).peers && !Run(s, actions).peers[n].store.broken
  }

  /** In every run along these lists the node, caught up with all changes journaled, holds the master's users. */
  ghost predicate AlwaysConverges(n: string, lists: seq<seq<string>>) {
    forall s, actions
      | Init(s) && n in s.peers && ListsUsed(s, actions) <= lists && CaughtUp(Run(s, actions), n)
        && (forall e: Email :: Journaled(Run(s, actions).master, e))
      :: Run(s, actions).peers[n].store.desired == Users(Run(s, actions).master.history)
  }

  /**
   * The gap check is safe for a node, along a sequence of lists of permitted nodes, exactly when the
   * node is never permitted, then left out by a list under which rows can be deleted, then permitted
   * again. Safe means both: it is never resumed past a deleted row, and it converges. So a node
   * added after rows were deleted is safe, and so is one removed for good.
   */
  lemma GapCheckSafety(n: string, lists: seq<seq<string>>)
    ensures AlwaysResumable(n, lists) <==> !HasGap(n, lists)
    ensures AlwaysConverges(n, lists) <==> !HasGap(n, lists)
  {
    if HasGap(n, lists) {
      var i, j, k :| 0 <= i < j < k < |lists| && GapAt(n, lists, i, j, k);
      var s, actions := ExcludedNodeDiverges(n, lists, i, j, k);
      assert ListsUsed(s, actions) <= lists;
      assert Run(s, actions).peers[n].store.broken;
    } else {
      forall s, actions | Init(s) && n in s.peers && ListsUsed(s, actions) <= lists
        ensures n in Run(s, actions).peers && !Run(s, actions).peers[n].store.broken
      {
        PrefixHasNoGap(n, ListsUsed(s, actions), lists);
        NoGapIsSafe(s, actions, n);
      }
      forall s, actions
        | Init(s) && n in s.peers && ListsUsed(s, actions) <= lists && CaughtUp(Run(s, actions), n)
          && (forall e: Email :: Journaled(Run(s, actions).master, e))
        ensures Run(s, actions).peers[n].store.desired == Users(Run(s, actions).master.history)
      {
        Convergence(s, actions, n);
      }
    }
  }

  // ---------------------------------------------------------------- the same for lists in any order

  /** Some list permits the node, and another does not and lets rows be deleted. */
  ghost predicate Exposed(n: string, configs: iset<seq<string>>) {
    exists c, d | c in configs && d in configs :: Permits(d, n) && !Permits(c, n) && CanPrune(c)
  }

  predicate Drawn(lists: seq<seq<string>>, configs: iset<seq<string>>) {
    forall l | l in lists :: l in configs
  }

  lemma GapExposes(n: string, lists: seq<seq<string>>, configs: iset<seq<string>>)
    requires Drawn(lists, configs) && HasGap(n, lists)
    ensures Exposed(n, configs)
  {
    var i, j, k :| 0 <= i < j < k < |lists| && GapAt(n, lists, i, j, k);
    assert lists[i] in configs && lists[j] in configs;
  }

  /** Whatever sequence is drawn from a set of lists, the gap check is safe: exactly when the set does not expose the node. */
  lemma GapCheckSafetyInAnyOrder(n: string, configs: iset<seq<string>>)
    ensures (forall lists | Drawn(lists, configs) :: AlwaysResumable(n, lists)) <==> !Exposed(n, configs)
    ensures (forall lists | Drawn(lists, configs) :: AlwaysConverges(n, lists)) <==> !Exposed(n, configs)
  {
    if Exposed(n, configs) {
      var c, d :| c in configs && d in configs && Permits(d, n) && !Permits(c, n) && CanPrune(c);
      var lists := [d, c, d];
      assert GapAt(n, lists, 0, 1, 2) && Drawn(lists, configs);
      GapCheckSafety(n, lists);
    } else {
      forall lists | Drawn(lists, configs) ensures AlwaysResumable(n, lists) && AlwaysConverges(n, lists) {
        if HasGap(n, lists) { GapExposes(n, lists, configs); }
        GapCheckSafety(n, lists);
      }
    }
  }
}
