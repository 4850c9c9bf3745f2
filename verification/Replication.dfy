/**
 * Cluster replication as a step system: one master, its durable journal, and any number of
 * slaves that crash, reconnect, are snapshotted, lose their database, and acknowledge rows so
 * that the journal can be pruned.
 *
 * Every durable write is a step of its own, so a crash may fall between any two of them. Some
 * fields are bookkeeping the programs do not store: the change history, the position each
 * slave has covered, and the version of each user its projection holds.
 */
module Replication {
  import opened Common
  import opened Strings
  import opened Journal

  const BATCH_LIMIT: nat := 500

  /** Every value each e-mail has held, in the order the master made the changes. */
  type History = map<Email, seq<Option<User>>>

  /** Which version of each e-mail something holds; version 0 where nothing is recorded. */
  type Versions = map<Email, nat>

  datatype Snapshot = Snapshot(revision: nat, position: nat, at: Versions)

  datatype Master = Master(
    history: History,
    journal: seq<Row>,               // every row ever appended
    versions: seq<nat>,              // the version carried by each user row
    pruned: nat,                     // how many leading rows have been deleted
    allowed: seq<string>,            // configured allowed_nodes
    snapshots: map<string, Snapshot> // every snapshot ever built, by id
  )

  datatype Frame =
    | EventFrame(row: Row)
    | BeginFrame(id: string)
    | UserFrame(email: Email, user: User)
    | EndFrame(id: string, revision: nat)

  /** What the master's side of a session is doing. */
  datatype Phase =
    | Gone                                                            // the master's side has ended
    | Streaming
    | SnapshotDue
    | Captured(revision: nat, position: nat, before: History)         // LatestRevision read, users not yet

  datatype Session = Session(
    phase: Phase,
    lastSent: nat,
    sentPosition: nat,  // bookkeeping: rows before it need not be sent any more
    queue: seq<Frame>,  // sent and not yet consumed by the slave
    active: string,     // the slave's activeSnapshot
    wrote: bool         // the projection write of the first queued event is done
  )

  /** What the master has recorded of a slave, and the acknowledgements that may still arrive. */
  datatype Link = Link(replica: Option<nat>, acks: set<nat>)

  /** The slave's database. */
  datatype Store = Store(
    desired: map<Email, User>,                  // the projection
    applied: nat,                               // meta: applied_revision
    initialised: bool,                          // meta: snapshot_initialized
    inbox: set<nat>,
    staging: map<(string, Email), User>,
    holds: Versions,                            // bookkeeping: versions held by `desired`
    covered: nat,                               // bookkeeping: rows the projection accounts for
    broken: bool                                // bookkeeping: it was resumed past deleted rows
  )

  datatype Peer = Peer(link: Link, store: Store, session: Option<Session>)

  datatype State = State(master: Master, peers: map<string, Peer>)

  datatype Action =
    | Change(email: Email, value: Option<User>)
    | AppendUser(email: Email, version: nat, revision: nat)
    | AppendOther(payload: Payload, revision: nat)
    | Prune
    | Reconfigure(allowed: seq<string>)
    | Connect(node: string)
    | SendBatch(node: string)
    | CaptureRevision(node: string)
    | SendSnapshot(node: string, id: string, at: Versions, order: seq<Email>)
    | DeliverAck(node: string, revision: nat)
    | MasterEnds(node: string)
    | WriteProjection(node: string)
    | FinishFrame(node: string)
    | Disconnect(node: string)
    | Wipe(node: string)

  /** The versions of one e-mail; an unknown e-mail has only ever been absent. */
  function VersionsOf(h: History, e: Email): (vs: seq<Option<User>>) {
    if e in h then h[e] else [None]
  }

  ghost predicate HistoryOk(h: History) {
    forall e | e in h :: h[e] != [] && e != ""
  }

  function VersionHeld(vs: Versions, e: Email): nat {
    if e in vs then vs[e] else 0
  }

  /** The value of `e` at one of its versions. */
  function ValueAt(h: History, e: Email, version: nat): Option<User> {
    var vs := VersionsOf(h, e);
    if version < |vs| then vs[version] else None
  }

  function Newest(h: History, e: Email): nat {
    var vs := VersionsOf(h, e);
    if vs == [] then 0 else |vs| - 1
  }

  /** The master's current user map. */
  function Users(h: History): map<Email, User> {
    map e | e in h && ValueAt(h, e, Newest(h, e)).Some? :: ValueAt(h, e, Newest(h, e)).value
  }

  function Outbox(m: Master): seq<Row>
    requires m.pruned <= |m.journal|
  {
    m.journal[m.pruned..]
  }

  /** nodeAllowed trims the configured names; PruneAcknowledged looks them up untrimmed. */
  predicate Permits(allowed: seq<string>, node: string) {
    exists i | 0 <= i < |allowed| :: TrimSpace(allowed[i]) == node
  }

  predicate NodeAllowed(m: Master, node: string) {
    Permits(m.allowed, node)
  }

  function ReplicaRecords(peers: map<string, Peer>): map<string, nat> {
    map n | n in peers && peers[n].link.replica.Some? :: peers[n].link.replica.value
  }

  /** The user map a snapshot carries when each user is read at its own moment. */
  function UsersAt(h: History, at: Versions): map<Email, User> {
    map e | e in at && ValueAt(h, e, at[e]).Some? :: ValueAt(h, e, at[e]).value
  }

  function UserFrames(users: map<Email, User>, order: seq<Email>): seq<Frame>
    requires forall i | 0 <= i < |order| :: order[i] in users
  {
    seq(|order|, i requires 0 <= i < |order| => UserFrame(order[i], users[order[i]]))
  }

  function EventFrames(rows: seq<Row>): seq<Frame> {
    seq(|rows|, i requires 0 <= i < |rows| => EventFrame(rows[i]))
  }

  /** The rows of a batch before the first resnapshot marker. */
  function BeforeMarker(rows: seq<Row>): (n: nat)
    ensures n <= |rows|
    ensures forall i | 0 <= i < n :: !rows[i].payload.Resnapshot?
    ensures n < |rows| ==> rows[n].payload.Resnapshot?
  {
    if rows == [] || rows[0].payload.Resnapshot? then 0 else 1 + BeforeMarker(rows[1..])
  }

  /** The rows staged under one snapshot id. */
  function Staged(staging: map<(string, Email), User>, id: string): map<Email, User> {
    map k | k in staging.Keys && k.0 == id :: k.1 := staging[k]
  }

  /** ActivateSnapshot deletes the staging rows of the activated id only. */
  function Unstage(staging: map<(string, Email), User>, id: string): map<(string, Email), User> {
    map k | k in staging && k.0 != id :: staging[k]
  }

  lemma StagedAt(staging: map<(string, Email), User>, id: string, e: Email)
    ensures Get(Staged(staging, id), e) == Get(staging, (id, e))
  {
    if (id, e) in staging {
      assert (id, e) in staging.Keys;
      assert e in Staged(staging, id);
    }
  }

  /** The master's decision on a hello that carries `applied` and `initialised`. */
  function NeedsSnapshot(m: Master, st: Store): bool
    requires m.pruned <= |m.journal|
  {
    var oldest := Oldest(Outbox(m));
    !st.initialised || (oldest > 0 && st.applied < oldest - 1)
  }

  // ---------------------------------------------------------------- steps of the master

  /** Every e-mail of the snapshot is read at a moment of its own between capture and sending. */
  ghost predicate ReadBetween(before: History, now: History, at: Versions) {
    && before.Keys <= at.Keys
    && (forall e | e in at :: e in now && Newest(before, e) <= at[e] <= Newest(now, e))
  }

  ghost predicate MayAppend(m: Master, a: Action)
    requires a.AppendUser?
  {
    && a.revision > Latest(m.journal)
    && a.email in m.history
    && a.version <= Newest(m.history, a.email)
    && |m.versions| == |m.journal|
    && (forall i | 0 <= i < |m.journal| ::
          IsUserRow(m.journal[i]) && m.journal[i].payload.email == a.email ==> m.versions[i] <= a.version)
  }

  function UserPayload(h: History, e: Email, version: nat): Payload {
    match ValueAt(h, e, version)
    case Some(u) => Upsert(e, u)
    case None => Remove(e)
  }

  /** PruneAcknowledged deletes the rows up to the retention floor. */
  function PruneStep(m: Master, peers: map<string, Peer>): Master
    requires m.pruned <= |m.journal|
  {
    m.(pruned := m.pruned + IndexAfter(Outbox(m), RetentionFloor(m.allowed, ReplicaRecords(peers))))
  }

  /** The master restarts with another configuration: every session loses its master side. */
  function ReconfigureStep(s: State, allowed: seq<string>): State {
    State(s.master.(allowed := allowed),
          map n | n in s.peers :: s.peers[n].(session := EndMasterSide(s.peers[n].session)))
  }

  function EndMasterSide(session: Option<Session>): Option<Session> {
    if session.Some? then Some(session.value.(phase := Gone)) else None
  }

  /** MarkReplicaConnected. */
  function ConnectLink(link: Link): Link {
    if link.replica.Some? then link else link.(replica := Some(0))
  }

  /** A resumed slave is taken to be past every deleted row. */
  function ResumeStore(m: Master, st: Store): Store {
    st.(covered := Max(st.covered, m.pruned), broken := st.broken || st.covered < m.pruned)
  }

  /** The hello exchange: the gap check decides between a snapshot and resuming the stream. */
  function ConnectStep(m: Master, p: Peer): Peer
    requires m.pruned <= |m.journal|
  {
    if NeedsSnapshot(m, p.store) then
      Peer(ConnectLink(p.link), p.store,
           Some(Session(SnapshotDue, p.store.applied, p.store.covered, [], "", false)))
    else
      var st := ResumeStore(m, p.store);
      Peer(ConnectLink(p.link), st, Some(Session(Streaming, st.applied, st.covered, [], "", false)))
  }

  /** Queue the rows of one batch up to the first resnapshot marker. */
  function QueueBatch(s: Session, rows: seq<Row>): Session {
    var n := BeforeMarker(rows);
    s.(queue := s.queue + EventFrames(rows[..n]),
       lastSent := if n == 0 then s.lastSent else rows[n - 1].revision,
       sentPosition := s.sentPosition + n,
       phase := if n < |rows| then SnapshotDue else Streaming)
  }

  /** sendEventsAfter. */
  function SendBatchStep(m: Master, s: Session): Session
    requires m.pruned <= |m.journal|
  {
    QueueBatch(s, Take(RowsAfter(Outbox(m), s.lastSent), BATCH_LIMIT))
  }

  function CaptureStep(m: Master, s: Session): Session
    requires m.pruned <= |m.journal|
  {
    s.(phase := Captured(Latest(Outbox(m)), |m.journal|, m.history))
  }

  /** The frames of one snapshot. */
  function SnapshotFrames(id: string, revision: nat, users: map<Email, User>, order: seq<Email>): seq<Frame>
    requires forall i | 0 <= i < |order| :: order[i] in users
  {
    [BeginFrame(id)] + UserFrames(users, order) + [EndFrame(id, revision)]
  }

  function SendSnapshotStep(m: Master, s: Session, id: string, at: Versions, order: seq<Email>): Session
    requires s.phase.Captured?
    requires forall i | 0 <= i < |order| :: order[i] in UsersAt(m.history, at)
  {
    s.(queue := s.queue + SnapshotFrames(id, s.phase.revision, UsersAt(m.history, at), order),
       lastSent := s.phase.revision,
       sentPosition := s.phase.position,
       phase := Streaming)
  }

  // ---------------------------------------------------------------- steps of the slave

  /** ApplyEvent: the slave may write the projection of the event at the head of its queue. */
  predicate MayWrite(st: Store, s: Session) {
    && s.queue != []
    && !s.wrote
    && var f := s.queue[0];
       && f.EventFrame?
       && !f.row.payload.Resnapshot?
       && f.row.revision !in st.inbox
       && (IsUserRow(f.row) ==> f.row.payload.email != "")
  }

  /** UpsertDesiredUser or RemoveDesiredUser. */
  function Project(desired: map<Email, User>, payload: Payload): map<Email, User> {
    match payload
    case Upsert(e, u) => desired[e := u]
    case Remove(e) => desired - {e}
    case Artifact => desired
    case Resnapshot => desired
  }

  function WriteStore(m: Master, st: Store, row: Row): Store {
    if IsUserRow(row) && st.covered < |m.versions| then
      st.(desired := Project(st.desired, row.payload),
          holds := st.holds[row.payload.email := m.versions[st.covered]])
    else
      st.(desired := Project(st.desired, row.payload))
  }

  function WriteProjectionStep(m: Master, p: Peer): Peer
    requires p.session.Some? && MayWrite(p.store, p.session.value)
  {
    var s := p.session.value;
    p.(store := WriteStore(m, p.store, s.queue[0].row), session := Some(s.(wrote := true)))
  }

  /** The slave's handling of the head frame can be completed. */
  predicate MayFinish(st: Store, s: Session) {
    && s.queue != []
    && match s.queue[0]
       case EventFrame(row) => s.wrote || row.revision in st.inbox
       case BeginFrame(id) => id != ""
       case UserFrame(e, _) => s.active != "" && e != ""
       case EndFrame(id, _) => s.active != "" && id == s.active
  }

  /** MarkApplied: the inbox row and applied_revision in one transaction. */
  function MarkApplied(st: Store, revision: nat): Store {
    if revision in st.inbox then st
    else st.(inbox := st.inbox + {revision}, applied := revision, covered := st.covered + 1)
  }

  /** ActivateSnapshot: one transaction replaces the projection by what was staged under `id`. */
  function Activate(m: Master, st: Store, id: string, revision: nat): Store {
    var built := if id in m.snapshots then m.snapshots[id] else Snapshot(0, 0, map[]);
    Store(Staged(st.staging, id), revision, true, st.inbox, Unstage(st.staging, id),
          built.at, built.position, false)
  }

  /** Completing the head frame; events and activated snapshots are acknowledged. */
  function FinishFrameStep(m: Master, p: Peer): Peer
    requires p.session.Some? && MayFinish(p.store, p.session.value)
  {
    var s := p.session.value;
    var rest := s.(queue := s.queue[1..], wrote := false);
    match s.queue[0]
    case EventFrame(row) =>
      Peer(SendAck(p.link, row.revision), MarkApplied(p.store, row.revision), Some(rest))
    case BeginFrame(id) => p.(session := Some(rest.(active := id)))
    case UserFrame(e, u) =>
      p.(store := p.store.(staging := p.store.staging[(s.active, e) := u]), session := Some(rest))
    case EndFrame(id, revision) =>
      Peer(SendAck(p.link, revision), Activate(m, p.store, id, revision), Some(rest.(active := "")))
  }

  function SendAck(link: Link, revision: nat): Link {
    link.(acks := link.acks + {revision})
  }

  /** AcknowledgeReplica keeps the largest acknowledged revision. */
  function AckStep(link: Link, revision: nat): Link {
    link.(replica := Some(if link.replica.Some? then Max(link.replica.value, revision) else revision))
  }

  function EmptyStore(): Store {
    Store(map[], 0, false, {}, map[], map[], 0, false)
  }

  // ---------------------------------------------------------------- the step system

  /** The actions of one slave, or of the master's side of its session, that leave the master's data alone. */
  predicate IsPeerAction(a: Action) {
    a.Connect? || a.SendBatch? || a.CaptureRevision? || a.DeliverAck? || a.MasterEnds?
    || a.WriteProjection? || a.FinishFrame? || a.Disconnect? || a.Wipe?
  }

  predicate PeerEnabled(m: Master, p: Peer, a: Action)
    requires IsPeerAction(a)
  {
    match a
    case Connect(n) => p.session.None? && NodeAllowed(m, n)
    case SendBatch(_) => p.session.Some? && p.session.value.phase.Streaming?
    case CaptureRevision(_) => p.session.Some? && p.session.value.phase.SnapshotDue?
    case DeliverAck(_, revision) => revision in p.link.acks
    case MasterEnds(_) => true
    case WriteProjection(_) => p.session.Some? && MayWrite(p.store, p.session.value)
    case FinishFrame(_) => p.session.Some? && MayFinish(p.store, p.session.value)
    case Disconnect(_) => true
    case Wipe(_) => true
  }

  function PeerNext(m: Master, p: Peer, a: Action): Peer
    requires m.pruned <= |m.journal| && IsPeerAction(a) && PeerEnabled(m, p, a)
  {
    match a
    case Connect(_) => ConnectStep(m, p)
    case SendBatch(_) => p.(session := Some(SendBatchStep(m, p.session.value)))
    case CaptureRevision(_) => p.(session := Some(CaptureStep(m, p.session.value)))
    case DeliverAck(_, revision) => p.(link := AckStep(p.link, revision))
    case MasterEnds(_) => p.(session := EndMasterSide(p.session))
    case WriteProjection(_) => WriteProjectionStep(m, p)
    case FinishFrame(_) => FinishFrameStep(m, p)
    case Disconnect(_) => p.(session := None)
    case Wipe(_) => Peer(p.link, EmptyStore(), None)
  }

  ghost predicate Enabled(s: State, a: Action) {
    var m := s.master;
    && m.pruned <= |m.journal|
    && match a
       case Change(e, _) => e != ""
       case AppendUser(_, _, _) => MayAppend(m, a)
       case AppendOther(payload, revision) =>
         revision > Latest(m.journal) && (payload.Artifact? || payload.Resnapshot?)
       case Prune => true
       case Reconfigure(_) => true
       case SendSnapshot(n, id, at, order) =>
         && n in s.peers && s.peers[n].session.Some?
         && MaySendSnapshot(m, s.peers[n].session.value, id, at, order)
       case _ => a.node in s.peers && PeerEnabled(m, s.peers[a.node], a)
  }

  /** The state after an enabled action. */
  ghost function Next(s: State, a: Action): State
    requires Enabled(s, a)
  {
    var m := s.master;
    match a
    case Change(e, v) => s.(master := m.(history := m.history[e := VersionsOf(m.history, e) + [v]]))
    case AppendUser(e, version, revision) =>
      s.(master := m.(journal := m.journal + [Row(revision, UserPayload(m.history, e, version))],
                      versions := m.versions + [version]))
    case AppendOther(payload, revision) =>
      s.(master := m.(journal := m.journal + [Row(revision, payload)], versions := m.versions + [0]))
    case Prune => s.(master := PruneStep(m, s.peers))
    case Reconfigure(allowed) => ReconfigureStep(s, allowed)
    case SendSnapshot(n, id, at, order) =>
      var session := s.peers[n].session.value;
      UpdateSession(s.(master := RecordSnapshot(m, session, id, at)), n,
                    SendSnapshotStep(m, session, id, at, order))
    case _ => Update(s, a.node, PeerNext(m, s.peers[a.node], a))
  }

  /** The users may be sent: the id is new and every user was read since the revision was captured. */
  ghost predicate MaySendSnapshot(m: Master, s: Session, id: string, at: Versions, order: seq<Email>) {
    && s.phase.Captured?
    && id != "" && id !in m.snapshots
    && ReadBetween(s.phase.before, m.history, at)
    && (forall i | 0 <= i < |order| :: order[i] in UsersAt(m.history, at))
    && (forall e | e in UsersAt(m.history, at) :: e in order)
  }

  function RecordSnapshot(m: Master, s: Session, id: string, at: Versions): Master
    requires s.phase.Captured?
  {
    m.(snapshots := m.snapshots[id := Snapshot(s.phase.revision, s.phase.position, at)])
  }

  function UpdateSession(s: State, n: string, session: Session): State
    requires n in s.peers
  {
    Update(s, n, s.peers[n].(session := Some(session)))
  }

  function Update(s: State, n: string, p: Peer): State {
    s.(peers := s.peers[n := p])
  }

  /** An action that is not enabled does nothing, so every action sequence is a run. */
  ghost function Step(s: State, a: Action): State {
    if Enabled(s, a) then Next(s, a) else s
  }

  ghost function Run(s: State, actions: seq<Action>): State
    decreases |actions|
  {
    if actions == [] then s
    else Step(Run(s, actions[..|actions| - 1]), actions[|actions| - 1])
  }

  lemma {:induction false} RunConcat(s: State, a: seq<Action>, b: seq<Action>)
    ensures Run(s, a + b) == Run(Run(s, a), b)
    decreases |b|
  {
    if b == [] {
      assert a + b == a;
    } else {
      assert (a + b)[..|a + b| - 1] == a + b[..|b| - 1];
      RunConcat(s, a, b[..|b| - 1]);
    }
  }

  /** One more step of a run. */
  lemma RunStep(s: State, actions: seq<Action>, a: Action)
    ensures Run(s, actions + [a]) == Step(Run(s, actions), a)
  {
    assert (actions + [a])[..|actions|] == actions;
  }

  function FreshPeer(): Peer {
    Peer(Link(None, {}), EmptyStore(), None)
  }

  /** An empty journal, users that may already exist, and slaves that have never connected. */
  ghost predicate Init(s: State) {
    && HistoryOk(s.master.history)
    && (forall e | e in s.master.history :: |s.master.history[e]| == 1)
    && s.master.journal == [] && s.master.versions == [] && s.master.pruned == 0
    && s.master.snapshots == map[]
    && (forall n | n in s.peers :: s.peers[n] == FreshPeer())
  }
}
