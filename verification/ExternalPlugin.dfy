/**
 * The lifecycle of an out-of-process plugin: Preflight, Init, Start, Restart, Stop and Health
 * interleaved at their lock boundaries. `holder` is the owner of the operation lock (opMu); each
 * step is one section under the state lock (mu) or one outside effect. A step whose operation
 * is blocked changes nothing, so every sequence of actions is a run. `ok` decides what the
 * model leaves open: whether a call succeeds, a timer fires, a context is still live.
 */
module ExternalPlugin {
  import opened Common

  type Child = nat

  datatype Op =
    | Done
    // Restart; `prior` is the child taken out of service, `init` whether the plugin was initialised.
    | RestartWaits
    | RestartLocked
    | RestartTaken(prior: Option<Child>, init: bool)
    | RestartSleeps(prior: Option<Child>, init: bool)
    | RestartAbandons(prior: Option<Child>)
    | RestartRelocked(prior: Option<Child>, init: bool)
    | RestartCancelled(prior: Option<Child>)
    | RestartCleans(prior: Option<Child>, init: bool)
    | RestartConnects(init: bool)
    | RestartHandshakes(child: Child, init: bool)
    | RestartInits(init: bool)
    | RestartStarts
    | RestartLeaves
    | RestartClears
    // Stop
    | StopWaits(abort: bool)
    | StopLocked(abort: bool)
    | StopKills(current: Option<Child>, abort: bool)
    | StopDetaches(current: Option<Child>, abort: bool)
    // Preflight and Init
    | PreflightWaits
    | PreflightLocked
    | PreflightHandshakes(child: Child)
    | InitWaits
    | InitLocked
    | Leaves
    // Start
    | StartWaits
    | StartRuns(remote: Child)
    | StartFails(remote: Child)

  /** The fields guarded by the state lock, and the processes. */
  datatype Shared = Shared(
    client: Option<Child>,
    restarting: bool,
    stopping: bool,
    initialised: bool,
    restarts: int,
    alive: set<Child>,   // running processes
    dying: set<Child>,   // processes a kill is in progress for
    issued: nat,         // processes launched so far
    torn: set<Child>     // processes taken out of service on purpose
  )

  datatype State = State(maxRestarts: int, shared: Shared, holder: Option<nat>, ops: seq<Op>)

  datatype Action =
    | BeginRestart
    | BeginStop(abort: bool)
    | BeginPreflight
    | BeginInit
    | BeginStart
    | Advance(i: nat, ok: bool)
    | Health
    | KillDone(child: Child)
    | Crash(child: Child)

  function AsSet(c: Option<Child>): set<Child> {
    if c.Some? then {c.value} else {}
  }

  // ---------------------------------------------------------------- the steps

  /** Kills run on their own; the operation goes on when the kill is done or out of time. */
  function Kill(v: Shared, c: Option<Child>): Shared {
    v.(dying := v.dying + AsSet(c))
  }

  function Launch(v: Shared): Shared {
    v.(alive := v.alive + {v.issued}, issued := v.issued + 1)
  }

  predicate Refused(maxRestarts: int, v: Shared) {
    v.stopping || v.restarting || maxRestarts == 0 || v.restarts >= maxRestarts
  }

  /** The client leaves service before its Start call is interrupted. */
  function TakeOut(v: Shared): Shared {
    v.(restarting := true, restarts := v.restarts + 1, client := None, torn := v.torn + AsSet(v.client))
  }

  /** A handshake completed: the new child serves, whatever served before is killed. */
  function Publish(v: Shared, child: Child): Shared {
    Kill(v, v.client).(client := Some(child), stopping := false, torn := v.torn + AsSet(v.client))
  }

  /** A handshake failed: its child is killed at once. */
  function Discard(v: Shared, child: Child): Shared {
    v.(alive := v.alive - {child})
  }

  /** What a failed Start call looks at before it schedules a restart. */
  predicate MaySchedule(v: Shared, remote: Child) {
    !v.stopping && !v.restarting && v.client == Some(remote)
  }

  /** The shared fields after a step, where the operation then stands, and what it sets going. */
  datatype Effect = Effect(shared: Shared, op: Op, spawned: seq<Op>)

  function RestartStep(maxRestarts: int, v: Shared, op: Op, ok: bool): Effect {
    match op
    case RestartWaits => Effect(v, RestartLocked, [])
    case RestartLocked =>
      if Refused(maxRestarts, v) then Effect(v, Done, [])
      else Effect(TakeOut(v), RestartTaken(v.client, v.initialised), [])
    case RestartTaken(prior, init) => Effect(v, RestartSleeps(prior, init), [])
    case RestartSleeps(prior, init) => Effect(v, if ok then RestartRelocked(prior, init) else RestartAbandons(prior), [])
    case RestartAbandons(prior) => Effect(Kill(v, prior), RestartClears, [])
    case RestartRelocked(prior, init) =>
      Effect(v, if v.stopping || !ok then RestartCancelled(prior) else RestartCleans(prior, init), [])
    case RestartCancelled(prior) => Effect(Kill(v, prior), RestartLeaves, [])
    case RestartCleans(prior, init) => Effect(Kill(v, prior), RestartConnects(init), [])
    case RestartConnects(init) =>
      if ok then Effect(Launch(v), RestartHandshakes(v.issued, init), []) else Effect(v, RestartLeaves, [])
    case RestartHandshakes(child, init) =>
      if ok then Effect(Publish(v, child), RestartInits(init), []) else Effect(Discard(v, child), RestartLeaves, [])
    case RestartInits(init) =>
      if init && ok then Effect(v.(initialised := true), RestartStarts, []) else Effect(v, RestartLeaves, [])
    case RestartStarts => Effect(v, RestartLeaves, if ok && v.client.Some? then [StartRuns(v.client.value)] else [])
    case RestartLeaves => Effect(v, RestartClears, [])
    case RestartClears => Effect(v.(restarting := false), Done, [])
    case _ => Effect(v, op, [])
  }

  function OtherStep(v: Shared, op: Op, ok: bool): Effect {
    match op
    case StopWaits(abort) => Effect(v, StopLocked(abort), [])
    case StopLocked(abort) => Effect(v.(stopping := true, torn := v.torn + AsSet(v.client)), StopKills(v.client, abort), [])
    case StopKills(current, abort) => Effect(Kill(v, current), StopDetaches(current, abort), [])
    case StopDetaches(current, abort) =>
      Effect(v.(client := if v.client == current then None else v.client, initialised := v.initialised && !abort), Leaves, [])
    case PreflightWaits => Effect(v, PreflightLocked, [])
    case PreflightLocked => if v.client.Some? && ok then Effect(v, Leaves, []) else Effect(Launch(v), PreflightHandshakes(v.issued), [])
    case PreflightHandshakes(child) => Effect(if ok then Publish(v, child) else Discard(v, child), Leaves, [])
    case InitWaits => Effect(v, InitLocked, [])
    case InitLocked => Effect(if v.client.Some? && ok then v.(initialised := true) else v, Leaves, [])
    case Leaves => Effect(v, Done, [])
    case StartWaits => Effect(v, if v.initialised && v.client.Some? && !v.stopping then StartRuns(v.client.value) else Done, [])
    case StartRuns(remote) => Effect(v, if ok then Done else StartFails(remote), [])
    case StartFails(remote) => Effect(v, Done, if ok && MaySchedule(v, remote) then [RestartWaits] else [])
    case _ => Effect(v, op, [])
  }

  /** A restart between raising and clearing `restarting`. */
  predicate InFlight(op: Op) {
    || op.RestartTaken? || op.RestartSleeps? || op.RestartAbandons? || op.RestartRelocked? || op.RestartCancelled?
    || op.RestartCleans? || op.RestartConnects? || op.RestartHandshakes? || op.RestartInits? || op.RestartStarts?
    || op.RestartLeaves? || op.RestartClears?
  }

  predicate IsRestart(op: Op) {
    op.RestartWaits? || op.RestartLocked? || InFlight(op)
  }

  /** The operation owns the operation lock. */
  predicate Holds(op: Op) {
    || op.RestartLocked? || op.RestartTaken? || op.RestartRelocked? || op.RestartCancelled? || op.RestartCleans?
    || op.RestartConnects? || op.RestartHandshakes? || op.RestartInits? || op.RestartStarts? || op.RestartLeaves?
    || op.StopLocked? || op.StopKills? || op.StopDetaches?
    || op.PreflightLocked? || op.PreflightHandshakes? || op.InitLocked? || op.Leaves?
  }

  function OpStep(maxRestarts: int, v: Shared, op: Op, ok: bool): Effect {
    if IsRestart(op) then RestartStep(maxRestarts, v, op, ok) else OtherStep(v, op, ok)
  }

  /** A step into the operation lock waits until the lock is free. */
  function AdvanceStep(s: State, i: nat, ok: bool): State
    requires i < |s.ops|
  {
    var op, e := s.ops[i], OpStep(s.maxRestarts, s.shared, s.ops[i], ok);
    if Holds(e.op) && !Holds(op) && s.holder.Some? then s
    else
      State(s.maxRestarts, e.shared,
            if Holds(e.op) then Some(i) else if Holds(op) then None else s.holder,
            s.ops[i := e.op] + e.spawned)
  }

  function Begin(s: State, op: Op): State {
    s.(ops := s.ops + [op])
  }

  function Next(s: State, a: Action): State {
    match a
    case BeginRestart => Begin(s, RestartWaits)
    case BeginStop(abort) => Begin(s, StopWaits(abort))
    case BeginPreflight => Begin(s, PreflightWaits)
    case BeginInit => Begin(s, InitWaits)
    case BeginStart => Begin(s, StartWaits)
    case Advance(i, ok) => if i < |s.ops| then AdvanceStep(s, i, ok) else s
    case Health => if s.shared.restarts > 0 && !s.shared.restarting then s.(shared := s.shared.(restarts := 0)) else s
    case KillDone(c) =>
      if c in s.shared.dying then s.(shared := s.shared.(alive := s.shared.alive - {c}, dying := s.shared.dying - {c})) else s
    case Crash(c) => s.(shared := s.shared.(alive := s.shared.alive - {c}))
  }

  function Run(s: State, actions: seq<Action>): State {
    if actions == [] then s else Next(Run(s, actions[..|actions| - 1]), actions[|actions| - 1])
  }

  function Fresh(maxRestarts: int): State {
    State(maxRestarts, Shared(None, false, false, false, 0, {}, {}, 0, {}), None, [])
  }
}
