/** What every interleaving of the plugin's operations keeps. */
module ExternalPluginSafety {
  import opened Common
  import opened ExternalPlugin

  /** The child the operation will kill or hand to a kill before it ends, unless it publishes it. */
  function Carries(op: Op): Option<Child> {
    match op
    case RestartTaken(prior, _) => prior
    case RestartSleeps(prior, _) => prior
    case RestartAbandons(prior) => prior
    case RestartRelocked(prior, _) => prior
    case RestartCancelled(prior) => prior
    case RestartCleans(prior, _) => prior
    case RestartHandshakes(child, _) => Some(child)
    case PreflightHandshakes(child) => Some(child)
    case _ => None
  }

  predicate Handshakes(op: Op) {
    op.RestartHandshakes? || op.PreflightHandshakes?
  }

  predicate Halting(op: Op) {
    op.StopKills? || op.StopDetaches?
  }

  // ---------------------------------------------------------------- the invariant

  predicate LockOk(s: State) {
    && (s.holder.Some? ==> s.holder.value < |s.ops|)
    && (forall i | 0 <= i < |s.ops| :: Holds(s.ops[i]) <==> s.holder == Some(i))
  }

  /** `restarting` is up exactly while one restart is in flight. */
  predicate RestartOk(s: State) {
    && (forall i, j | 0 <= i < |s.ops| && 0 <= j < |s.ops| && InFlight(s.ops[i]) && InFlight(s.ops[j]) :: i == j)
    && (s.shared.restarting <==> exists i | 0 <= i < |s.ops| :: InFlight(s.ops[i]))
  }

  predicate CounterOk(maxRestarts: int, v: Shared) {
    && 0 <= v.restarts
    && (v.restarts == 0 || v.restarts <= maxRestarts)
    && (v.restarting ==> v.restarts >= 1)
  }

  /** Someone answers for the child. */
  predicate Accounted(s: State, c: Child) {
    || s.shared.client == Some(c)
    || c in s.shared.dying
    || exists i | 0 <= i < |s.ops| :: Carries(s.ops[i]) == Some(c)
  }

  predicate NoLeak(s: State) {
    forall c | c in s.shared.alive :: Accounted(s, c)
  }

  predicate Below(c: Option<Child>, issued: nat) {
    c.Some? ==> c.value < issued
  }

  predicate IssuedOk(v: Shared) {
    Below(v.client, v.issued) && forall c | c in v.torn :: c < v.issued
  }

  /** A child in a handshake is new. One being stopped is still the client, `stopping` is up, and it is killed before it is let go. */
  predicate OpOk(v: Shared, op: Op) {
    && (Handshakes(op) ==> op.child !in v.torn && v.client != Some(op.child) && op.child < v.issued)
    && (Halting(op) ==> v.stopping && v.client == op.current)
    && (op.StopDetaches? && op.current.Some? && op.current.value in v.alive ==> op.current.value in v.dying)
  }

  predicate OpsOk(s: State) {
    forall i | 0 <= i < |s.ops| :: OpOk(s.shared, s.ops[i])
  }

  /** The client was taken out of service, or the plugin is stopping. */
  predicate Retired(v: Shared) {
    v.client.Some? && (v.client.value in v.torn || v.stopping)
  }

  predicate TornOk(s: State) {
    Retired(s.shared) ==> exists i | 0 <= i < |s.ops| :: Halting(s.ops[i])
  }

  predicate Inv(s: State) {
    LockOk(s) && RestartOk(s) && CounterOk(s.maxRestarts, s.shared) && NoLeak(s) && IssuedOk(s.shared) && OpsOk(s) && TornOk(s)
  }

  // ---------------------------------------------------------------- one operation at a time

  lemma RestartFlag(m: int, v: Shared, op: Op, ok: bool, e: Effect)
    requires e == OpStep(m, v, op, ok) && (InFlight(op) ==> v.restarting)
    ensures InFlight(e.op) ==> e.shared.restarting && (InFlight(op) || !v.restarting)
    ensures !InFlight(e.op) ==> e.shared.restarting == (v.restarting && !InFlight(op))
  {
  }

  lemma SpawnedIsIdle(m: int, v: Shared, op: Op, ok: bool, e: Effect)
    requires e == OpStep(m, v, op, ok)
    ensures |e.spawned| <= 1
    ensures forall x | x in e.spawned :: !Holds(x) && !InFlight(x) && Carries(x).None? && !Handshakes(x) && !Halting(x)
  {
  }

  lemma CounterStays(m: int, v: Shared, op: Op, ok: bool, e: Effect)
    requires e == OpStep(m, v, op, ok) && CounterOk(m, v)
    ensures CounterOk(m, e.shared)
  {
  }

  lemma IssuedStays(m: int, v: Shared, op: Op, ok: bool, e: Effect)
    requires e == OpStep(m, v, op, ok) && IssuedOk(v) && OpOk(v, op)
    ensures IssuedOk(e.shared) && v.issued <= e.shared.issued
  {
  }

  /** Only the owner of the operation lock touches the client, the marks and the launches. */
  lemma OnlyOwnerChanges(m: int, v: Shared, op: Op, ok: bool, e: Effect)
    requires e == OpStep(m, v, op, ok) && !Holds(op)
    ensures e.shared.client == v.client && e.shared.torn == v.torn && e.shared.stopping == v.stopping && e.shared.issued == v.issued
    ensures e.shared.alive == v.alive && v.dying <= e.shared.dying
    ensures !Handshakes(e.op) && !Halting(e.op)
  {
  }

  lemma RestartStaysOk(m: int, v: Shared, op: Op, ok: bool, e: Effect)
    requires e == RestartStep(m, v, op, ok) && IsRestart(op) && OpOk(v, op) && IssuedOk(v)
    ensures OpOk(e.shared, e.op)
  {
  }

  lemma OtherStaysOk(v: Shared, op: Op, ok: bool, e: Effect)
    requires e == OtherStep(v, op, ok) && OpOk(v, op) && IssuedOk(v)
    ensures !IsRestart(op) ==> OpOk(e.shared, e.op)
  {
  }

  lemma RetiredOnlyByStop(m: int, v: Shared, op: Op, ok: bool, e: Effect)
    requires e == OpStep(m, v, op, ok) && OpOk(v, op) && IssuedOk(v) && (Retired(v) ==> Halting(op))
    ensures Retired(e.shared) ==> Halting(e.op)
  {
  }

  /** Someone answers for the child, seen from one operation. */
  predicate AnsweredBy(v: Shared, op: Op, c: Child) {
    v.client == Some(c) || c in v.dying || Carries(op) == Some(c)
  }

  lemma RestartHandsOn(m: int, v: Shared, op: Op, ok: bool, c: Child)
    requires IsRestart(op) && AnsweredBy(v, op, c) && c in RestartStep(m, v, op, ok).shared.alive
    ensures AnsweredBy(RestartStep(m, v, op, ok).shared, RestartStep(m, v, op, ok).op, c)
  {
  }

  lemma OtherHandsOn(v: Shared, op: Op, ok: bool, c: Child)
    requires !IsRestart(op) && OpOk(v, op) && AnsweredBy(v, op, c) && c in OtherStep(v, op, ok).shared.alive
    requires c in v.alive
    ensures AnsweredBy(OtherStep(v, op, ok).shared, OtherStep(v, op, ok).op, c)
  {
  }

  lemma OnlyLaunchesAreNew(m: int, v: Shared, op: Op, ok: bool, c: Child)
    requires c in OpStep(m, v, op, ok).shared.alive && c !in v.alive
    ensures Carries(OpStep(m, v, op, ok).op) == Some(c)
  {
  }

  /** No child falls through: a new one is carried, and what was answered for still is. */
  lemma HandedOn(m: int, v: Shared, op: Op, ok: bool, e: Effect, c: Child)
    requires e == OpStep(m, v, op, ok) && OpOk(v, op) && c in e.shared.alive
    ensures c !in v.alive || AnsweredBy(v, op, c) ==> AnsweredBy(e.shared, e.op, c)
  {
    if c !in v.alive {
      OnlyLaunchesAreNew(m, v, op, ok, c);
    } else if AnsweredBy(v, op, c) {
      if IsRestart(op) { RestartHandsOn(m, v, op, ok, c); } else { OtherHandsOn(v, op, ok, c); }
    }
  }

  // ---------------------------------------------------------------- all operations together

  lemma LockStays(s: State, i: nat, ok: bool, t: State)
    requires LockOk(s) && i < |s.ops| && t == AdvanceStep(s, i, ok)
    ensures LockOk(t)
  {
    SpawnedIsIdle(s.maxRestarts, s.shared, s.ops[i], ok, OpStep(s.maxRestarts, s.shared, s.ops[i], ok));
  }

  lemma RestartStays(s: State, i: nat, ok: bool, t: State)
    requires RestartOk(s) && i < |s.ops| && t == AdvanceStep(s, i, ok)
    ensures RestartOk(t)
  {
    var op, e := s.ops[i], OpStep(s.maxRestarts, s.shared, s.ops[i], ok);
    RestartFlag(s.maxRestarts, s.shared, op, ok, e);
    SpawnedIsIdle(s.maxRestarts, s.shared, op, ok, e);
    if t != s {
      assert forall j | 0 <= j < |s.ops| && j != i :: t.ops[j] == s.ops[j];
      assert t.ops[i] == e.op;
      if s.shared.restarting {
        var k :| 0 <= k < |s.ops| && InFlight(s.ops[k]);
        assert InFlight(t.ops[k]) || k == i;
      }
    }
  }

  lemma NoLeakStays(s: State, i: nat, ok: bool, t: State)
    requires NoLeak(s) && OpsOk(s) && i < |s.ops| && t == AdvanceStep(s, i, ok)
    ensures NoLeak(t)
  {
    var op, e := s.ops[i], OpStep(s.maxRestarts, s.shared, s.ops[i], ok);
    if t != s {
      forall c | c in t.shared.alive ensures Accounted(t, c) {
        HandedOn(s.maxRestarts, s.shared, op, ok, e, c);
        assert t.ops[i] == e.op;
        if c in s.shared.alive && s.shared.client != Some(c) && c !in s.shared.dying {
          var j :| 0 <= j < |s.ops| && Carries(s.ops[j]) == Some(c);
          assert j != i ==> t.ops[j] == s.ops[j];
        }
      }
    }
  }

  lemma OpsStay(s: State, i: nat, ok: bool, t: State)
    requires LockOk(s) && OpsOk(s) && IssuedOk(s.shared) && i < |s.ops| && t == AdvanceStep(s, i, ok)
    ensures OpsOk(t)
  {
    var op, e := s.ops[i], OpStep(s.maxRestarts, s.shared, s.ops[i], ok);
    SpawnedIsIdle(s.maxRestarts, s.shared, op, ok, e);
    if IsRestart(op) { RestartStaysOk(s.maxRestarts, s.shared, op, ok, e); } else { OtherStaysOk(s.shared, op, ok, e); }
    if t != s {
      forall j | 0 <= j < |t.ops| ensures OpOk(t.shared, t.ops[j]) {
        if j < |s.ops| && j != i {
          assert t.ops[j] == s.ops[j];
          if Holds(s.ops[j]) { OnlyOwnerChanges(s.maxRestarts, s.shared, op, ok, e); }
        }
      }
    }
  }

  lemma TornStays(s: State, i: nat, ok: bool, t: State)
    requires LockOk(s) && OpsOk(s) && IssuedOk(s.shared) && TornOk(s) && i < |s.ops| && t == AdvanceStep(s, i, ok)
    ensures TornOk(t)
  {
    var op, e := s.ops[i], OpStep(s.maxRestarts, s.shared, s.ops[i], ok);
    if t != s && Retired(t.shared) {
      assert t.ops[i] == e.op;
      if Holds(op) {
        if Retired(s.shared) {
          var k :| 0 <= k < |s.ops| && Halting(s.ops[k]);
          assert Holds(s.ops[k]) && k == i;
        }
        RetiredOnlyByStop(s.maxRestarts, s.shared, op, ok, e);
      } else {
        OnlyOwnerChanges(s.maxRestarts, s.shared, op, ok, e);
        var k :| 0 <= k < |s.ops| && Halting(s.ops[k]);
        assert Holds(s.ops[k]) && t.ops[k] == s.ops[k];
      }
    }
  }

  lemma AdvanceKeeps(s: State, i: nat, ok: bool, t: State)
    requires Inv(s) && i < |s.ops| && t == AdvanceStep(s, i, ok)
    ensures Inv(t)
  {
    var e := OpStep(s.maxRestarts, s.shared, s.ops[i], ok);
    LockStays(s, i, ok, t);
    RestartStays(s, i, ok, t);
    CounterStays(s.maxRestarts, s.shared, s.ops[i], ok, e);
    NoLeakStays(s, i, ok, t);
    IssuedStays(s.maxRestarts, s.shared, s.ops[i], ok, e);
    OpsStay(s, i, ok, t);
    TornStays(s, i, ok, t);
  }

  lemma BeginLeaksNothing(s: State, op: Op, t: State)
    requires NoLeak(s) && t == Begin(s, op)
    ensures NoLeak(t)
  {
    forall c | c in t.shared.alive ensures Accounted(t, c) {
      if s.shared.client != Some(c) && c !in s.shared.dying {
        var j :| 0 <= j < |s.ops| && Carries(s.ops[j]) == Some(c);
        assert t.ops[j] == s.ops[j];
      }
    }
  }

  lemma BeginRestartOk(s: State, op: Op, t: State)
    requires RestartOk(s) && !InFlight(op) && t == Begin(s, op)
    ensures RestartOk(t)
  {
    if s.shared.restarting {
      var k :| 0 <= k < |s.ops| && InFlight(s.ops[k]);
      assert t.ops[k] == s.ops[k];
    }
  }

  lemma BeginKeeps(s: State, op: Op, t: State)
    requires Inv(s) && !Holds(op) && !InFlight(op) && !Handshakes(op) && !Halting(op) && t == Begin(s, op)
    ensures Inv(t)
  {
    BeginLeaksNothing(s, op, t);
    BeginRestartOk(s, op, t);
    if Retired(s.shared) {
      var k :| 0 <= k < |s.ops| && Halting(s.ops[k]);
      assert t.ops[k] == s.ops[k];
    }
  }

  lemma NextKeeps(s: State, a: Action)
    requires Inv(s)
    ensures Inv(Next(s, a))
  {
    match a
    case BeginRestart => BeginKeeps(s, RestartWaits, Next(s, a));
    case BeginStop(abort) => BeginKeeps(s, StopWaits(abort), Next(s, a));
    case BeginPreflight => BeginKeeps(s, PreflightWaits, Next(s, a));
    case BeginInit => BeginKeeps(s, InitWaits, Next(s, a));
    case BeginStart => BeginKeeps(s, StartWaits, Next(s, a));
    case Advance(i, ok) => if i < |s.ops| { AdvanceKeeps(s, i, ok, Next(s, a)); }
    case _ => OutsideKeeps(s, a, Next(s, a));
  }

  /** Health checks, finished kills and crashes. */
  lemma OutsideKeeps(s: State, a: Action, t: State)
    requires Inv(s) && (a.Health? || a.KillDone? || a.Crash?) && t == Next(s, a)
    ensures Inv(t)
  {
    forall c | c in t.shared.alive ensures Accounted(t, c) { assert Accounted(s, c); }
    forall i | 0 <= i < |t.ops| ensures OpOk(t.shared, t.ops[i]) { assert OpOk(s.shared, s.ops[i]); }
  }

  lemma {:induction false} RunKeeps(maxRestarts: int, actions: seq<Action>)
    ensures Inv(Run(Fresh(maxRestarts), actions))
    ensures Run(Fresh(maxRestarts), actions).maxRestarts == maxRestarts
  {
    if actions != [] {
      RunKeeps(maxRestarts, actions[..|actions| - 1]);
      NextKeeps(Run(Fresh(maxRestarts), actions[..|actions| - 1]), actions[|actions| - 1]);
    }
  }

  // ---------------------------------------------------------------- the results

  /**
   * In every interleaving at most one restart is in flight, exactly while `restarting` is up; the
   * restart counter stays within its limit; and every running process is the client, or is being
   * killed, or is in the hands of an operation that has yet to kill or publish it.
   */
  lemma Lifecycle(maxRestarts: int, actions: seq<Action>)
    ensures var s := Run(Fresh(maxRestarts), actions);
            && (forall i, j | 0 <= i < |s.ops| && 0 <= j < |s.ops| && InFlight(s.ops[i]) && InFlight(s.ops[j]) :: i == j)
            && (s.shared.restarting <==> exists i | 0 <= i < |s.ops| :: InFlight(s.ops[i]))
            && 0 <= s.shared.restarts
            && (s.shared.restarts == 0 || s.shared.restarts <= maxRestarts)
            && (forall c | c in s.shared.alive :: Accounted(s, c))
  {
    RunKeeps(maxRestarts, actions);
  }

  predicate Idle(op: Op) {
    op.Done? || op.StartWaits? || op.StartRuns? || op.StartFails?
  }

  /** With every operation finished and every kill done, no process runs besides the client; after a stop, none. */
  lemma Quiescent(maxRestarts: int, actions: seq<Action>)
    requires var s := Run(Fresh(maxRestarts), actions);
             s.shared.dying == {} && forall i | 0 <= i < |s.ops| :: Idle(s.ops[i])
    ensures var v := Run(Fresh(maxRestarts), actions).shared;
            && v.alive <= AsSet(v.client)
            && (v.stopping ==> v.alive == {})
  {
    RunKeeps(maxRestarts, actions);
    var s := Run(Fresh(maxRestarts), actions);
    forall c | c in s.shared.alive ensures s.shared.client == Some(c) { assert Accounted(s, c); }
    if s.shared.stopping { NothingRuns(s); }
  }

  // ---------------------------------------------------------------- a stop is final

  predicate Preflights(op: Op) {
    op.PreflightWaits? || op.PreflightLocked? || op.PreflightHandshakes?
  }

  /** A restart past its last look at `stopping`, with a process still to launch, to publish or to initialise. */
  predicate Revives(op: Op) {
    op.RestartCleans? || op.RestartConnects? || op.RestartHandshakes? || op.RestartInits?
  }

  /** Nothing under way will launch or publish a process. */
  predicate Halted(s: State) {
    s.shared.stopping && forall i | 0 <= i < |s.ops| :: !Preflights(s.ops[i]) && !Revives(s.ops[i])
  }

  lemma HaltedOp(m: int, v: Shared, op: Op, ok: bool, e: Effect)
    requires e == OpStep(m, v, op, ok) && v.stopping && !Preflights(op) && !Revives(op)
    ensures e.shared.stopping && e.shared.issued == v.issued && !Preflights(e.op) && !Revives(e.op)
    ensures e.shared.client == v.client || e.shared.client == None
    ensures v.client == None ==> (e.shared.initialised ==> v.initialised)
    ensures forall x | x in e.spawned :: x.StartRuns?
  {
  }

  /** One step of any operation but a new Preflight: no process is launched or published, no restart begun. */
  lemma HaltedStep(s: State, a: Action)
    requires Halted(s) && !a.BeginPreflight?
    ensures var t := Next(s, a);
            && Halted(t) && t.shared.issued == s.shared.issued
            && (t.shared.client == s.shared.client || t.shared.client == None)
            && (s.shared.client == None && t.shared.initialised ==> s.shared.initialised)
  {
    if a.Advance? && a.i < |s.ops| {
      HaltedOp(s.maxRestarts, s.shared, s.ops[a.i], a.ok, OpStep(s.maxRestarts, s.shared, s.ops[a.i], a.ok));
    }
  }

  lemma {:induction false} StaysHalted(s: State, actions: seq<Action>)
    requires Halted(s) && forall a | a in actions :: !a.BeginPreflight?
    ensures var t := Run(s, actions);
            && Halted(t) && t.shared.issued == s.shared.issued
            && (t.shared.client == s.shared.client || t.shared.client == None)
  {
    if actions != [] {
      var init, last := actions[..|actions| - 1], actions[|actions| - 1];
      assert last in actions;
      StaysHalted(s, init);
      HaltedStep(Run(s, init), last);
    }
  }

  /** How far this stop has come, past its first section. */
  predicate Stopping(op: Op) {
    Halting(op) || op.Leaves? || op.Done?
  }

  /**
   * The stop at place `i` goes on: before it lets go of the lock, the client it found leaves service and, if it
   * aborts, the plugin is no longer initialised.
   */
  predicate StopGoesOn(s: State, i: nat, abort: bool) {
    && i < |s.ops| && Stopping(s.ops[i])
    && (Halting(s.ops[i]) ==> s.ops[i].abort == abort)
    && (!Halting(s.ops[i]) ==> s.shared.client == None && (abort ==> !s.shared.initialised))
  }

  lemma StopStep(s: State, i: nat, abort: bool, a: Action)
    requires Inv(s) && Halted(s) && StopGoesOn(s, i, abort) && !a.BeginPreflight?
    ensures StopGoesOn(Next(s, a), i, abort)
  {
    HaltedStep(s, a);
    if a.Advance? && a.i == i { assert OpOk(s.shared, s.ops[i]); }
  }

  lemma {:induction false} StopRuns(s: State, i: nat, abort: bool, actions: seq<Action>)
    requires Inv(s) && Halted(s) && StopGoesOn(s, i, abort) && forall a | a in actions :: !a.BeginPreflight?
    ensures var t := Run(s, actions); Inv(t) && Halted(t) && StopGoesOn(t, i, abort)
  {
    if actions != [] {
      var init, last := actions[..|actions| - 1], actions[|actions| - 1];
      assert last in actions;
      StopRuns(s, i, abort, init);
      NextKeeps(Run(s, init), last);
      HaltedStep(Run(s, init), last);
      StopStep(Run(s, init), i, abort, last);
    }
  }

  /** The stop raises `stopping` under the lock, when no restart can be past its last look at it. */
  lemma StopHalts(s: State, i: nat, ok: bool, t: State)
    requires Inv(s) && i < |s.ops| && s.ops[i].StopLocked? && t == Next(s, Advance(i, ok))
    requires forall j | 0 <= j < |s.ops| :: !s.ops[j].PreflightWaits?
    ensures Inv(t) && Halted(t) && StopGoesOn(t, i, s.ops[i].abort) && t.shared.issued == s.shared.issued
  {
    NextKeeps(s, Advance(i, ok));
    forall j | 0 <= j < |t.ops| ensures !Preflights(t.ops[j]) && !Revives(t.ops[j]) {
      if j != i { assert Holds(s.ops[i]) && s.holder == Some(i) && !Holds(s.ops[j]); }
    }
  }

  /**
   * A stop is final until the next Preflight. Once a Stop has the operation lock while no Preflight waits, then
   * whatever restarts, also one asleep in its backoff, inits, starts and further stops are under way or
   * begun later: `stopping` stays up, no process is launched any more, and once this Stop has
   * let go there is no client and, if it was an abort, the plugin is not initialised; when
   * all operations and kills are over, no process runs.
   */
  lemma StopIsFinal(maxRestarts: int, actions: seq<Action>, i: nat, ok: bool, more: seq<Action>, s: State, t: State)
    requires s == Run(Fresh(maxRestarts), actions) && t == Run(Next(s, Advance(i, ok)), more)
    requires i < |s.ops| && s.ops[i].StopLocked? && forall j | 0 <= j < |s.ops| :: !s.ops[j].PreflightWaits?
    requires forall a | a in more :: !a.BeginPreflight?
    ensures t.shared.stopping && t.shared.issued == s.shared.issued
    ensures i < |t.ops| && (t.ops[i].Leaves? || t.ops[i].Done? ==> t.shared.client == None && (s.ops[i].abort ==> !t.shared.initialised))
    ensures t.shared.dying == {} && (forall j | 0 <= j < |t.ops| :: Idle(t.ops[j])) ==> t.shared.alive == {}
  {
    RunKeeps(maxRestarts, actions);
    var halted := Next(s, Advance(i, ok));
    StopHalts(s, i, ok, halted);
    StaysHalted(halted, more);
    StopRuns(halted, i, s.ops[i].abort, more);
    if t.shared.dying == {} && forall j | 0 <= j < |t.ops| :: Idle(t.ops[j]) { NothingRuns(t); }
  }

  lemma NothingRuns(s: State)
    requires Inv(s) && s.shared.stopping && s.shared.dying == {} && forall j | 0 <= j < |s.ops| :: Idle(s.ops[j])
    ensures s.shared.alive == {}
  {
    forall c | c in s.shared.alive ensures Retired(s.shared) { assert Accounted(s, c); }
  }

  lemma {:induction false} TornForever(s: State, actions: seq<Action>)
    ensures s.shared.torn <= Run(s, actions).shared.torn
  {
    if actions != [] {
      TornForever(s, actions[..|actions| - 1]);
      TornGrows(Run(s, actions[..|actions| - 1]), actions[|actions| - 1]);
    }
  }

  lemma TornGrowsIn(m: int, v: Shared, op: Op, ok: bool)
    ensures v.torn <= OpStep(m, v, op, ok).shared.torn
  {
  }

  lemma TornGrows(s: State, a: Action)
    ensures s.shared.torn <= Next(s, a).shared.torn
  {
    if a.Advance? && a.i < |s.ops| {
      TornGrowsIn(s.maxRestarts, s.shared, s.ops[a.i], a.ok);
    }
  }

  lemma {:induction false} RunConcat(s: State, a: seq<Action>, b: seq<Action>)
    ensures Run(s, a + b) == Run(Run(s, a), b)
    decreases |b|
  {
    if b == [] {
      assert a + b == a;
    } else {
      assert (a + b)[..|a + b| - 1] == a + b[..|b| - 1];
      RunConcat(s, a, b[..|b| - 1]);
    }
  }

  lemma NotScheduled(t: State, i: nat, ok: bool)
    requires Inv(t) && i < |t.ops| && t.ops[i].StartFails? && t.ops[i].remote in t.shared.torn
    ensures Next(t, Advance(i, ok)) == t.(ops := t.ops[i := Done])
  {
    assert !MaySchedule(t.shared, t.ops[i].remote);
  }

  /**
   * A stale Start never schedules a restart: once a process was taken out of service on purpose, by
   * a restart, a stop or a newer connection, its Start call may fail at any later time and
   * nothing follows from it.
   */
  lemma StaleStart(maxRestarts: int, actions: seq<Action>, more: seq<Action>, i: nat, ok: bool)
    requires var s, t := Run(Fresh(maxRestarts), actions), Run(Fresh(maxRestarts), actions + more);
             i < |t.ops| && t.ops[i].StartFails? && t.ops[i].remote in s.shared.torn
    ensures var t := Run(Fresh(maxRestarts), actions + more);
            Next(t, Advance(i, ok)) == t.(ops := t.ops[i := Done])
  {
    RunKeeps(maxRestarts, actions + more);
    RunConcat(Fresh(maxRestarts), actions, more);
    TornForever(Run(Fresh(maxRestarts), actions), more);
    NotScheduled(Run(Fresh(maxRestarts), actions + more), i, ok);
  }

  /** A failed Start schedules a restart exactly when its process is still the client and no stop or restart is under way. */
  lemma FailedStart(s: State, i: nat)
    requires i < |s.ops| && s.ops[i].StartFails?
    ensures var wanted := s.shared.client == Some(s.ops[i].remote) && !s.shared.stopping && !s.shared.restarting;
            Next(s, Advance(i, true)) == s.(ops := s.ops[i := Done] + if wanted then [RestartWaits] else [])
  {
    assert s.ops[i := Done] + [] == s.ops[i := Done];
  }

  // ---------------------------------------------------------------- Start comes after Init

  /** A restart about to call Start has initialised the plugin, and no stop has begun since it published its process. */
  predicate StartsOk(s: State) {
    forall i | 0 <= i < |s.ops| ::
      && (s.ops[i].RestartInits? ==> !s.shared.stopping)
      && (s.ops[i].RestartStarts? ==> !s.shared.stopping && s.shared.initialised)
  }

  lemma OnlyOwnerInitialises(m: int, v: Shared, op: Op, ok: bool, e: Effect)
    requires e == OpStep(m, v, op, ok)
    ensures !Holds(op) ==> e.shared.initialised == v.initialised && e.shared.stopping == v.stopping
    ensures e.op.RestartInits? ==> !e.shared.stopping
    ensures e.op.RestartStarts? && !v.stopping ==> !e.shared.stopping && e.shared.initialised
    ensures e.op.RestartStarts? ==> op.RestartInits?
    ensures forall x | x in e.spawned :: !x.RestartInits? && !x.RestartStarts?
  {
  }

  lemma StartsStep(s: State, a: Action)
    requires Inv(s) && StartsOk(s)
    ensures StartsOk(Next(s, a))
  {
    if a.Advance? && a.i < |s.ops| {
      var op, e := s.ops[a.i], OpStep(s.maxRestarts, s.shared, s.ops[a.i], a.ok);
      OnlyOwnerInitialises(s.maxRestarts, s.shared, op, a.ok, e);
      var t := Next(s, a);
      if t != s {
        forall j | 0 <= j < |t.ops|
          ensures t.ops[j].RestartInits? ==> !t.shared.stopping
          ensures t.ops[j].RestartStarts? ==> !t.shared.stopping && t.shared.initialised
        {
          if j < |s.ops| && j != a.i { assert t.ops[j] == s.ops[j] && (Holds(s.ops[j]) ==> !Holds(op)); }
        }
      }
    }
  }

  lemma {:induction false} StartsRun(maxRestarts: int, actions: seq<Action>)
    ensures StartsOk(Run(Fresh(maxRestarts), actions))
  {
    if actions != [] {
      var init := actions[..|actions| - 1];
      RunKeeps(maxRestarts, init);
      StartsRun(maxRestarts, init);
      StartsStep(Run(Fresh(maxRestarts), init), actions[|actions| - 1]);
    }
  }

  lemma WhoStarts(m: int, v: Shared, op: Op, ok: bool, e: Effect)
    requires e == OpStep(m, v, op, ok) && (op.RestartStarts? ==> !v.stopping && v.initialised)
    ensures e.op.StartRuns? && e.op != op ==> v.initialised && !v.stopping && v.client == Some(e.op.remote)
    ensures forall x | x in e.spawned && x.StartRuns? :: v.initialised && !v.stopping && v.client == Some(x.remote)
  {
  }

  /**
   * In every interleaving, whoever calls Start, the host or a restart, calls it on the process in service, of a plugin
   * that is initialised and not stopping.
   */
  lemma StartAfterInit(maxRestarts: int, actions: seq<Action>, a: Action, j: nat)
    requires var s := Run(Fresh(maxRestarts), actions); var t := Next(s, a);
             j < |t.ops| && t.ops[j].StartRuns? && (j < |s.ops| ==> s.ops[j] != t.ops[j])
    ensures var s := Run(Fresh(maxRestarts), actions); var t := Next(s, a);
            s.shared.initialised && !s.shared.stopping && s.shared.client == Some(t.ops[j].remote)
  {
    var s := Run(Fresh(maxRestarts), actions);
    StartsRun(maxRestarts, actions);
    if a.Advance? && a.i < |s.ops| {
      WhoStarts(s.maxRestarts, s.shared, s.ops[a.i], a.ok, OpStep(s.maxRestarts, s.shared, s.ops[a.i], a.ok));
    }
  }

  /** Steps to the release of the operation lock. */
  function Rank(op: Op): nat {
    match op
    case RestartRelocked(_, _) => 7
    case RestartCleans(_, _) => 6
    case RestartConnects(_) => 5
    case RestartHandshakes(_, _) => 4
    case RestartInits(_) => 3
    case RestartStarts => 2
    case RestartLocked => 2
    case StopLocked(_) => 4
    case StopKills(_, _) => 3
    case StopDetaches(_, _) => 2
    case RestartCancelled(_) => 2
    case PreflightLocked => 3
    case PreflightHandshakes(_) => 2
    case InitLocked => 2
    case _ => 1
  }

  /** The owner of the operation lock is never blocked and lets go after at most seven steps, whatever they yield. */
  lemma OwnerLetsGo(s: State, i: nat, ok: bool)
    requires LockOk(s) && s.holder == Some(i)
    ensures Rank(s.ops[i]) <= 7
    ensures var t := Next(s, Advance(i, ok));
            t.holder == None || (t.holder == Some(i) && Rank(t.ops[i]) < Rank(s.ops[i]))
  {
    assert Holds(s.ops[i]);
  }
}
