/**
 * The slave's receive loop: what it does with each frame of the master's stream, frame by
 * frame, whatever the frames are.
 */
module SlaveReceiver {
  import opened Common
  import opened Journal
  import opened Replication

  /** The durable tables of a slave and its active snapshot ("" for none). */
  datatype View = View(
    desired: map<Email, User>,
    applied: nat,
    initialised: bool,
    inbox: set<nat>,
    staging: map<(string, Email), User>,
    active: string
  )

  /** ApplyEvent; an error ends the session. */
  function ApplyEvent(v: View, row: Row): Result<View> {
    if row.revision in v.inbox then Ok(v)
    else if row.payload.Resnapshot? || (IsUserRow(row) && row.payload.email == "") then Err
    else Ok(v.(desired := Project(v.desired, row.payload), inbox := v.inbox + {row.revision}, applied := row.revision))
  }

  /** One frame of receiveSlaveFrames; an error ends the session and changes nothing. */
  function HandleFrame(v: View, f: Frame): Result<View> {
    match f
    case EventFrame(row) => ApplyEvent(v, row)
    case BeginFrame(id) => if id == "" then Err else Ok(v.(active := id))
    case UserFrame(e, u) =>
      if v.active == "" || e == "" then Err else Ok(v.(staging := v.staging[(v.active, e) := u]))
    case EndFrame(id, revision) =>
      if v.active == "" || id != v.active then Err
      else Ok(View(Staged(v.staging, id), revision, true, v.inbox, Unstage(v.staging, id), ""))
  }

  /** The tables after the frames up to the first error, or to the end of the stream. */
  function Receive(v: View, frames: seq<Frame>): View
    decreases |frames|
  {
    if frames == [] then v
    else match HandleFrame(v, frames[0])
         case Ok(next) => Receive(next, frames[1..])
         case Err => v
  }

  /** Every frame was accepted. */
  predicate Accepts(v: View, frames: seq<Frame>)
    decreases |frames|
  {
    frames == [] || (HandleFrame(v, frames[0]).Ok? && Accepts(HandleFrame(v, frames[0]).value, frames[1..]))
  }

  /** The frame calls on the engine: a new event, or the end of a snapshot. */
  predicate CallsEngine(v: View, f: Frame) {
    (f.EventFrame? && f.row.revision !in v.inbox) || f.EndFrame?
  }

  /**
   * The tables when the engine refuses a frame that is otherwise accepted. An event is applied to the
   * engine before anything is written; a snapshot is activated first.
   */
  function Refused(v: View, f: Frame): View {
    if f.EndFrame? && HandleFrame(v, f).Ok? then HandleFrame(v, f).value.(active := v.active) else v
  }

  /** The tables when the engine refuses the frame at place `k`, if it gets that far and calls on it. */
  function ReceiveRefused(v: View, frames: seq<Frame>, k: nat): View {
    if k < |frames| && Accepts(v, frames[..k]) && CallsEngine(Receive(v, frames[..k]), frames[k])
    then Refused(Receive(v, frames[..k]), frames[k])
    else Receive(v, frames)
  }

  class Slave {
    var desired: map<Email, User>
    var applied: nat
    var initialised: bool
    var inbox: set<nat>
    var staging: map<(string, Email), User>
    var active: string

    function Tables(): View
      reads this
    {
      View(desired, applied, initialised, inbox, staging, active)
    }

    constructor ()
      ensures Tables() == View(map[], 0, false, {}, map[], "")
    {
      desired, applied, initialised, inbox, staging, active := map[], 0, false, {}, map[], "";
    }

    /** One transaction: the projection becomes what was staged under `id`. */
    method ActivateSnapshot(id: string, revision: nat)
      modifies this`desired, this`applied, this`initialised, this`staging
      ensures Tables() == View(Staged(old(staging), id), revision, true, inbox, Unstage(old(staging), id), active)
    {
      var todo := set k | k in staging && k.0 == id;
      var users: map<Email, User> := map[];
      while todo != {}
        invariant todo <= (set k | k in staging && k.0 == id)
        invariant forall e: Email :: Get(users, e) == if (id, e) in todo then None else Get(staging, (id, e))
        decreases todo
      {
        var k :| k in todo;
        users, todo := users[k.1 := staging[k]], todo - {k};
      }
      StagedIs(staging, id, users);
      desired, applied, initialised := users, revision, true;
      staging := Unstage(staging, id);
    }

    /** One frame; `engine` says whether the engine does its part. */
    method Handle(f: Frame, engine: bool) returns (ok: bool)
      modifies this
      ensures ok <==> HandleFrame(old(Tables()), f).Ok? && (engine || !CallsEngine(old(Tables()), f))
      ensures ok ==> Tables() == HandleFrame(old(Tables()), f).value
      ensures !ok ==> Tables() == if engine then old(Tables()) else Refused(old(Tables()), f)
    {
      ok := true;
      match f
      case EventFrame(row) =>
        if row.revision in inbox {
          return;
        }
        if row.payload.Resnapshot? || (IsUserRow(row) && row.payload.email == "") || !engine {
          return false;
        }
        desired := Project(desired, row.payload);
        inbox, applied := inbox + {row.revision}, row.revision;
      case BeginFrame(id) =>
        if id == "" {
          return false;
        }
        active := id;
      case UserFrame(e, u) =>
        if active == "" || e == "" {
          return false;
        }
        staging := staging[(active, e) := u];
      case EndFrame(id, revision) =>
        if active == "" || id != active {
          return false;
        }
        ActivateSnapshot(active, revision);
        if !engine {
          return false;
        }
        active := "";
    }

    /** The receive loop of one session, over the frames that arrive before the stream ends; the engine refuses at place `k`. */
    method ReceiveFrames(frames: seq<Frame>, k: nat) returns (failed: bool)
      modifies this
      ensures Tables() == ReceiveRefused(old(Tables()).(active := ""), frames, k)
      ensures k >= |frames| ==> (failed <==> !Accepts(old(Tables()).(active := ""), frames))
    {
      active := "";
      ghost var start := Tables();
      for i := 0 to |frames|
        invariant Accepts(start, frames[..i]) && Tables() == Receive(start, frames[..i])
        invariant k < i ==> !CallsEngine(Receive(start, frames[..k]), frames[k])
      {
        ghost var v := Tables();
        var ok := Handle(frames[i], i != k);
        if HandleFrame(v, frames[i]).Ok? { GoesOn(start, frames, i); } else { StopsAt(start, frames, i, k); }
        if !ok {
          return true;
        }
      }
      assert frames[..|frames|] == frames;
      return false;
    }
  }

  lemma GoesOn(v: View, frames: seq<Frame>, i: nat)
    requires i < |frames| && Accepts(v, frames[..i]) && HandleFrame(Receive(v, frames[..i]), frames[i]).Ok?
    ensures Accepts(v, frames[..i + 1]) && Receive(v, frames[..i + 1]) == HandleFrame(Receive(v, frames[..i]), frames[i]).value
  {
    var f := frames[i];
    assert frames[..i + 1] == frames[..i] + [f] && [f][1..] == [];
    ReceiveConcat(v, frames[..i], [f]);
  }

  lemma StopsAt(v: View, frames: seq<Frame>, i: nat, k: nat)
    requires i < |frames| && Accepts(v, frames[..i]) && HandleFrame(Receive(v, frames[..i]), frames[i]).Err?
    ensures Receive(v, frames) == Receive(v, frames[..i]) && !Accepts(v, frames)
    ensures i < k <= |frames| ==> !Accepts(v, frames[..k])
  {
    assert frames == frames[..i] + frames[i..];
    ReceiveConcat(v, frames[..i], frames[i..]);
    if i < k <= |frames| {
      assert frames[..k] == frames[..i] + frames[i..k];
      ReceiveConcat(v, frames[..i], frames[i..k]);
    }
  }

  lemma StagedIs(staging: map<(string, Email), User>, id: string, users: map<Email, User>)
    requires forall e: Email :: Get(users, e) == Get(staging, (id, e))
    ensures users == Staged(staging, id)
  {
    forall e: Email
      ensures Get(Staged(staging, id), e) == Get(users, e)
    {
      StagedAt(staging, id, e);
    }
    forall e: Email ensures e in users <==> e in Staged(staging, id) { assert Get(Staged(staging, id), e) == Get(users, e); }
  }

  // ---------------------------------------------------------------- the receive loop and the step system

  function ViewOf(st: Store, active: string): View {
    View(st.desired, st.applied, st.initialised, st.inbox, st.staging, active)
  }

  /** The durable steps of the step system add up to what the loop does with a frame. */
  lemma StepsRefineHandle(m: Master, p: Peer)
    requires p.session.Some? && p.session.value.queue != [] && !p.session.value.wrote
    ensures var s := p.session.value;
            var result := HandleFrame(ViewOf(p.store, s.active), s.queue[0]);
            && (MayWrite(p.store, s) ==>
                  var q := FinishFrameStep(m, WriteProjectionStep(m, p));
                  result == Ok(ViewOf(q.store, q.session.value.active)))
            && (MayFinish(p.store, s) ==>
                  var q := FinishFrameStep(m, p);
                  result == Ok(ViewOf(q.store, q.session.value.active)))
            && (result.Ok? <==> MayWrite(p.store, s) || MayFinish(p.store, s))
  {
  }

  // ---------------------------------------------------------------- snapshot isolation

  /** The users of a stretch of frames, a later frame for an e-mail replacing an earlier one. */
  function UsersOf(frames: seq<Frame>): map<Email, User> {
    if frames == [] then map[]
    else
      var before := UsersOf(frames[..|frames| - 1]);
      match frames[|frames| - 1]
      case UserFrame(e, u) => before[e := u]
      case _ => before
  }

  predicate NoBoundary(frames: seq<Frame>) {
    forall i | 0 <= i < |frames| :: !frames[i].BeginFrame? && !frames[i].EndFrame?
  }

  lemma {:induction false} ReceiveConcat(v: View, a: seq<Frame>, b: seq<Frame>)
    requires Accepts(v, a)
    ensures Receive(v, a + b) == Receive(Receive(v, a), b)
    ensures Accepts(v, a + b) <==> Accepts(Receive(v, a), b)
    decreases |a|
  {
    if a == [] {
      assert a + b == b;
    } else {
      assert (a + b)[1..] == a[1..] + b;
      ReceiveConcat(HandleFrame(v, a[0]).value, a[1..], b);
    }
  }

  lemma {:induction false} AcceptsPrefix(v: View, a: seq<Frame>, b: seq<Frame>)
    requires Accepts(v, a + b)
    ensures Accepts(v, a)
    decreases |a|
  {
    if a != [] {
      assert (a + b)[1..] == a[1..] + b;
      AcceptsPrefix(HandleFrame(v, a[0]).value, a[1..], b);
    }
  }

  // ---------------------------------------------------------------- events twice

  lemma {:induction false} InboxGrows(v: View, frames: seq<Frame>)
    requires Accepts(v, frames)
    ensures v.inbox <= Receive(v, frames).inbox
    decreases |frames|
  {
    if frames != [] {
      InboxGrows(HandleFrame(v, frames[0]).value, frames[1..]);
    }
  }

  /**
   * An event that was accepted once is not applied again: whatever other events and snapshots came after it, the same
   * revision sent once more, as after a reconnect, is accepted and changes nothing.
   */
  lemma AppliedOnce(v: View, frames: seq<Frame>, i: nat, row: Row)
    requires Accepts(v, frames) && i < |frames| && frames[i].EventFrame? && row.revision == frames[i].row.revision
    ensures HandleFrame(Receive(v, frames), EventFrame(row)) == Ok(Receive(v, frames))
  {
    var before, rest := frames[..i], frames[i + 1..];
    assert frames == before + ([frames[i]] + rest);
    AcceptsPrefix(v, before, [frames[i]] + rest);
    ReceiveConcat(v, before, [frames[i]] + rest);
    var w := Receive(v, before);
    assert ([frames[i]] + rest)[1..] == rest;
    InboxGrows(HandleFrame(w, frames[i]).value, rest);
  }

  // ---------------------------------------------------------------- unfinished snapshots

  /** What a reader of the slave sees: the projection, the applied revision and the inbox. */
  predicate SameShown(v: View, w: View) {
    v.desired == w.desired && v.applied == w.applied && v.initialised == w.initialised && v.inbox == w.inbox
  }

  /** How many frames are accepted before the first error. */
  function Taken(v: View, frames: seq<Frame>): (k: nat)
    ensures k <= |frames|
    decreases |frames|
  {
    if frames == [] || HandleFrame(v, frames[0]).Err? then 0
    else 1 + Taken(HandleFrame(v, frames[0]).value, frames[1..])
  }

  lemma {:induction false} TakenMeans(v: View, frames: seq<Frame>)
    ensures var k := Taken(v, frames);
            && Accepts(v, frames[..k]) && Receive(v, frames) == Receive(v, frames[..k])
            && (k < |frames| ==> HandleFrame(Receive(v, frames[..k]), frames[k]).Err?)
    decreases |frames|
  {
    if frames != [] && HandleFrame(v, frames[0]).Ok? {
      TakenMeans(HandleFrame(v, frames[0]).value, frames[1..]);
      var k := Taken(v, frames);
      assert frames[..k][1..] == frames[1..][..k - 1];
    }
  }

  /** Where the last complete snapshot ends, 0 if there is none. */
  function LastEnd(frames: seq<Frame>): (k: nat)
    ensures k <= |frames| && (k > 0 ==> frames[k - 1].EndFrame?)
    ensures forall i | k <= i < |frames| :: !frames[i].EndFrame?
  {
    if frames == [] || frames[|frames| - 1].EndFrame? then |frames| else LastEnd(frames[..|frames| - 1])
  }

  function EventsIn(frames: seq<Frame>): seq<Frame> {
    if frames == [] then []
    else if frames[0].EventFrame? then [frames[0]] + EventsIn(frames[1..])
    else EventsIn(frames[1..])
  }

  lemma OneFrameShown(v: View, w: View, f: Frame)
    requires SameShown(v, w) && !f.EndFrame? && HandleFrame(v, f).Ok?
    ensures f.EventFrame? ==> HandleFrame(w, f).Ok? && SameShown(HandleFrame(v, f).value, HandleFrame(w, f).value)
    ensures !f.EventFrame? ==> SameShown(HandleFrame(v, f).value, w)
  {
  }

  /** Until a snapshot ends only the events are visible. */
  lemma {:induction false} OnlyEventsShow(v: View, w: View, frames: seq<Frame>)
    requires SameShown(v, w) && Accepts(v, frames) && forall i | 0 <= i < |frames| :: !frames[i].EndFrame?
    ensures Accepts(w, EventsIn(frames)) && SameShown(Receive(v, frames), Receive(w, EventsIn(frames)))
    decreases |frames|
  {
    if frames != [] {
      var f, rest := frames[0], frames[1..];
      OneFrameShown(v, w, f);
      if f.EventFrame? {
        OnlyEventsShow(HandleFrame(v, f).value, HandleFrame(w, f).value, rest);
        assert EventsIn(frames)[1..] == EventsIn(rest);
      } else {
        OnlyEventsShow(HandleFrame(v, f).value, w, rest);
      }
    }
  }

  lemma OnlyEventsShowAfter(v: View, a: seq<Frame>, b: seq<Frame>)
    requires Accepts(v, a + b) && forall i | 0 <= i < |b| :: !b[i].EndFrame?
    ensures Accepts(v, a + EventsIn(b)) && SameShown(Receive(v, a + b), Receive(v, a + EventsIn(b)))
  {
    AcceptsPrefix(v, a, b);
    ReceiveConcat(v, a, b);
    ReceiveConcat(v, a, EventsIn(b));
    OnlyEventsShow(Receive(v, a), Receive(v, a), b);
  }

  /**
   * An unfinished snapshot changes nothing visible. Whatever the tables and the frames, and wherever
   * the stream is cut or a frame is not accepted: the projection, the applied revision and the
   * inbox are what they would be had the frames after the last complete snapshot been its
   * events alone.
   */
  lemma UnfinishedSnapshot(v: View, frames: seq<Frame>)
    ensures var taken := frames[..Taken(v, frames)];
            var k := LastEnd(taken);
            var complete := taken[..k] + EventsIn(taken[k..]);
            Accepts(v, complete) && SameShown(Receive(v, frames), Receive(v, complete))
  {
    TakenMeans(v, frames);
    var taken := frames[..Taken(v, frames)];
    var k := LastEnd(taken);
    assert taken == taken[..k] + taken[k..];
    OnlyEventsShowAfter(v, taken[..k], taken[k..]);
  }

  // ---------------------------------------------------------------- complete snapshots

  /** What one user frame, or any other frame that is no boundary, does to the rows staged under the active id. */
  lemma StagedByOne(v: View, f: Frame, e: Email)
    requires v.active != "" && !f.BeginFrame? && !f.EndFrame? && HandleFrame(v, f).Ok?
    ensures var w := HandleFrame(v, f).value;
            && w.active == v.active
            && Get(w.staging, (v.active, e)) == (if f.UserFrame? && f.email == e then Some(f.user) else Get(v.staging, (v.active, e)))
            && forall k: (string, Email) | k.0 != v.active :: Get(w.staging, k) == Get(v.staging, k)
  {
  }

  lemma UsersOfOneMore(frames: seq<Frame>, f: Frame, e: Email)
    ensures Get(UsersOf(frames + [f]), e) == if f.UserFrame? && f.email == e then Some(f.user) else Get(UsersOf(frames), e)
  {
    assert (frames + [f])[..|frames|] == frames;
  }

  lemma ReceiveOneMore(v: View, frames: seq<Frame>, f: Frame)
    requires Accepts(v, frames + [f])
    ensures Accepts(v, frames) && HandleFrame(Receive(v, frames), f).Ok?
    ensures Receive(v, frames + [f]) == HandleFrame(Receive(v, frames), f).value
  {
    AcceptsPrefix(v, frames, [f]);
    ReceiveConcat(v, frames, [f]);
    assert [f][1..] == [];
  }

  /** Between a begin and an end frame, a row staged under the id is the last one sent, or else one already there. */
  lemma {:induction false} StagedSoFar(v: View, frames: seq<Frame>, e: Email)
    requires v.active != "" && NoBoundary(frames) && Accepts(v, frames)
    ensures var w := Receive(v, frames);
            && w.active == v.active
            && Get(w.staging, (v.active, e)) == (if e in UsersOf(frames) then Some(UsersOf(frames)[e]) else Get(v.staging, (v.active, e)))
            && (forall k: (string, Email) | k.0 != v.active :: Get(w.staging, k) == Get(v.staging, k))
    decreases |frames|
  {
    if frames != [] {
      var init, f := frames[..|frames| - 1], frames[|frames| - 1];
      assert frames == init + [f];
      ReceiveOneMore(v, init, f);
      StagedSoFar(v, init, e);
      StagedByOne(Receive(v, init), f, e);
      UsersOfOneMore(init, f, e);
    }
  }

  /** The staging rows after `sent` was staged under `id` on top of those of `v`. */
  ghost predicate StagedOver(v: View, id: string, sent: map<Email, User>, w: View) {
    && w.active == id
    && (forall e: Email :: Get(w.staging, (id, e)) == if e in sent then Some(sent[e]) else Get(v.staging, (id, e)))
    && (forall k: (string, Email) | k.0 != id :: Get(w.staging, k) == Get(v.staging, k))
  }

  lemma UsersAreStaged(v: View, id: string, users: seq<Frame>)
    requires id != "" && NoBoundary(users) && Accepts(v.(active := id), users)
    ensures StagedOver(v, id, UsersOf(users), Receive(v.(active := id), users))
  {
    var w := Receive(v.(active := id), users);
    forall e: Email
      ensures w.active == id
      ensures Get(w.staging, (id, e)) == if e in UsersOf(users) then Some(UsersOf(users)[e]) else Get(v.staging, (id, e))
    {
      StagedSoFar(v.(active := id), users, e);
    }
    StagedSoFar(v.(active := id), users, "");
  }

  /** The frames of a snapshot one part after the other. */
  lemma SnapshotParts(v: View, id: string, users: seq<Frame>, revision: nat, w: View)
    requires Accepts(v, [BeginFrame(id)] + users + [EndFrame(id, revision)])
    requires w == Receive(v, [BeginFrame(id)] + users + [EndFrame(id, revision)])
    ensures id != "" && Accepts(v.(active := id), users)
    ensures HandleFrame(Receive(v.(active := id), users), EndFrame(id, revision)) == Ok(w)
  {
    var all := [BeginFrame(id)] + users + [EndFrame(id, revision)];
    assert all[1..] == users + [EndFrame(id, revision)];
    assert Receive(v, all) == Receive(v.(active := id), users + [EndFrame(id, revision)]);
    ReceiveOneMore(v.(active := id), users, EndFrame(id, revision));
  }

  lemma ActivatedOver(v: View, id: string, sent: map<Email, User>, staged: View, revision: nat, w: View, e: Email)
    requires StagedOver(v, id, sent, staged) && HandleFrame(staged, EndFrame(id, revision)) == Ok(w)
    ensures Get(w.desired, e) == if e in sent then Some(sent[e]) else Get(v.staging, (id, e))
  {
    StagedAt(staged.staging, id, e);
  }

  /**
   * Activation. Whatever was received before, a complete snapshot replaces the projection by the
   * users staged under its id: those an earlier snapshot of the same id left behind, overwritten
   * by those sent now. It is exactly the users sent now if and only if every e-mail left behind
   * under that id was sent again; rows of other ids play no part and stay.
   */
  lemma SnapshotIsolation(v: View, id: string, users: seq<Frame>, revision: nat)
    requires NoBoundary(users)
    requires Accepts(v, [BeginFrame(id)] + users + [EndFrame(id, revision)])
    ensures var w := Receive(v, [BeginFrame(id)] + users + [EndFrame(id, revision)]);
            && (forall e: Email ::
                  Get(w.desired, e) == if e in UsersOf(users) then Some(UsersOf(users)[e]) else Get(v.staging, (id, e)))
            && (w.desired == UsersOf(users) <==> forall e: Email | (id, e) in v.staging :: e in UsersOf(users))
            && w.applied == revision && w.initialised && w.active == ""
            && (forall k: (string, Email) :: Get(w.staging, k) == if k.0 == id then None else Get(v.staging, k))
  {
    var w := Receive(v, [BeginFrame(id)] + users + [EndFrame(id, revision)]);
    SnapshotParts(v, id, users, revision, w);
    UsersAreStaged(v, id, users);
    var staged := Receive(v.(active := id), users);
    forall e: Email
      ensures Get(w.desired, e) == if e in UsersOf(users) then Some(UsersOf(users)[e]) else Get(v.staging, (id, e))
    {
      ActivatedOver(v, id, UsersOf(users), staged, revision, w, e);
    }
    DesiredExactly(v, id, UsersOf(users), w.desired);
  }

  lemma DesiredExactly(v: View, id: string, sent: map<Email, User>, desired: map<Email, User>)
    requires forall e: Email :: Get(desired, e) == if e in sent then Some(sent[e]) else Get(v.staging, (id, e))
    ensures desired == sent <==> forall e: Email | (id, e) in v.staging :: e in sent
  {
    if forall e: Email | (id, e) in v.staging :: e in sent {
      forall e: Email ensures e in desired <==> e in sent { assert Get(desired, e) == if e in sent then Some(sent[e]) else Get(v.staging, (id, e)); }
      forall e: Email | e in sent ensures e in desired && desired[e] == sent[e] { assert Get(desired, e) == Some(sent[e]); }
    } else {
      var e: Email :| (id, e) in v.staging && e !in sent;
      assert Get(desired, e).Some?;
    }
  }
}
