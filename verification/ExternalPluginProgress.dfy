/** What the operations of an out-of-process plugin achieve when nothing comes between. */
module ExternalPluginProgress {
  import opened Common
  import opened ExternalPlugin
  import opened ExternalPluginSafety

  function Advances(i: nat, k: nat): seq<Action> {
    seq(k, _ => Advance(i, true))
  }

  /** The operation at place `i` stands at `op`, the only one to have the lock; the shared fields are `v`. */
  predicate At(s: State, t: State, i: nat, v: Shared, op: Op) {
    && i < |s.ops|
    && t == State(s.maxRestarts, v, if Holds(op) then Some(i) else None, s.ops[i := op])
  }

  function Go(t: State, i: nat): State {
    Next(t, Advance(i, true))
  }

  lemma RunOneMore(t: State, actions: seq<Action>, a: Action)
    ensures Run(t, actions + [a]) == Next(Run(t, actions), a)
  {
    assert (actions + [a])[..|actions|] == actions;
  }

  lemma AdvanceOneMore(t: State, i: nat, k: nat)
    ensures Run(t, Advances(i, k + 1)) == Go(Run(t, Advances(i, k)), i)
  {
    assert Advances(i, k + 1) == Advances(i, k) + [Advance(i, true)];
    RunOneMore(t, Advances(i, k), Advance(i, true));
  }

  lemma RunThree(t: State, i: nat)
    ensures Run(t, Advances(i, 3)) == Go(Go(Go(t, i), i), i)
  {
    AdvanceOneMore(t, i, 0);
    AdvanceOneMore(t, i, 1);
    AdvanceOneMore(t, i, 2);
  }

  /** One more step of an operation that is not disturbed. */
  lemma GoesOn(s: State, t: State, i: nat, v: Shared, op: Op, w: Shared, next: Op)
    requires At(s, t, i, v, op) && OpStep(s.maxRestarts, v, op, true) == Effect(w, next, [])
    ensures At(s, Go(t, i), i, w, next)
  {
    assert s.ops[i := op][i := next] + [] == s.ops[i := next];
  }

  lemma ToTheBackoff(s: State, i: nat)
    requires s.holder == None && i < |s.ops| && s.ops[i] == RestartWaits && !Refused(s.maxRestarts, s.shared)
    ensures At(s, Go(Go(Go(s, i), i), i), i, TakeOut(s.shared), RestartSleeps(s.shared.client, s.shared.initialised))
  {
    var v, w, taken := s.shared, TakeOut(s.shared), RestartTaken(s.shared.client, s.shared.initialised);
    assert s.ops[i := RestartWaits] == s.ops;
    GoesOn(s, s, i, v, RestartWaits, v, RestartLocked);
    GoesOn(s, Go(s, i), i, v, RestartLocked, w, taken);
    GoesOn(s, Go(Go(s, i), i), i, w, taken, w, RestartSleeps(v.client, v.initialised));
  }

  lemma ToTheLaunch(s: State, i: nat, t: State, v: Shared, prior: Option<Child>, init: bool)
    requires At(s, t, i, v, RestartSleeps(prior, init)) && !v.stopping
    ensures At(s, Go(Go(Go(t, i), i), i), i, Kill(v, prior), RestartConnects(init))
  {
    GoesOn(s, t, i, v, RestartSleeps(prior, init), v, RestartRelocked(prior, init));
    GoesOn(s, Go(t, i), i, v, RestartRelocked(prior, init), v, RestartCleans(prior, init));
    GoesOn(s, Go(Go(t, i), i), i, v, RestartCleans(prior, init), Kill(v, prior), RestartConnects(init));
  }

  lemma FromTheLaunch(s: State, i: nat, t: State, v: Shared, init: bool)
    requires At(s, t, i, v, RestartConnects(init)) && v.client == None
    ensures var w := Launch(v).(client := Some(v.issued), stopping := false, initialised := v.initialised || init);
            At(s, Go(Go(Go(t, i), i), i), i, w, if init then RestartStarts else RestartLeaves)
  {
    var p := Launch(v).(client := Some(v.issued), stopping := false);
    var w := p.(initialised := v.initialised || init);
    assert v.dying + {} == v.dying && v.torn + {} == v.torn;
    GoesOn(s, t, i, v, RestartConnects(init), Launch(v), RestartHandshakes(v.issued, init));
    GoesOn(s, Go(t, i), i, Launch(v), RestartHandshakes(v.issued, init), p, RestartInits(init));
    GoesOn(s, Go(Go(t, i), i), i, p, RestartInits(init), w, if init then RestartStarts else RestartLeaves);
  }

  /** The last steps; Start is called on the new process if the plugin was initialised. */
  lemma ToTheEnd(s: State, i: nat, t: State, w: Shared, init: bool)
    requires At(s, t, i, w, if init then RestartStarts else RestartLeaves) && w.client.Some?
    ensures Go(Go(Go(t, i), i), i) ==
              State(s.maxRestarts, w.(restarting := false), None, s.ops[i := Done] + if init then [StartRuns(w.client.value)] else [])
  {
    if init {
      StartsAnew(s, i, t, w);
    } else {
      GoesOn(s, t, i, w, RestartLeaves, w, RestartClears);
      GoesOn(s, Go(t, i), i, w, RestartClears, w.(restarting := false), Done);
      GoesOn(s, Go(Go(t, i), i), i, w.(restarting := false), Done, w.(restarting := false), Done);
      assert s.ops[i := Done] + [] == s.ops[i := Done];
    }
  }

  lemma StartsAnew(s: State, i: nat, t: State, w: Shared)
    requires At(s, t, i, w, RestartStarts) && w.client.Some?
    ensures Go(Go(Go(t, i), i), i) == State(s.maxRestarts, w.(restarting := false), None, s.ops[i := Done] + [StartRuns(w.client.value)])
  {
    var start := StartRuns(w.client.value);
    var more := s.(ops := s.ops + [start]);
    assert s.ops[i := RestartStarts][i := RestartLeaves] + [start] == more.ops[i := RestartLeaves];
    assert At(more, Go(t, i), i, w, RestartLeaves);
    GoesOn(more, Go(t, i), i, w, RestartLeaves, w, RestartClears);
    GoesOn(more, Go(Go(t, i), i), i, w, RestartClears, w.(restarting := false), Done);
    assert more.ops[i := Done] == s.ops[i := Done] + [start];
  }

  /** A restart from beginning to end, three steps at a time. */
  lemma WholeRestart(s: State, i: nat, s1: State, s2: State, s3: State, s4: State)
    requires s.holder == None && i < |s.ops| && s.ops[i] == RestartWaits && !Refused(s.maxRestarts, s.shared)
    requires s1 == Go(Go(Go(s, i), i), i) && s2 == Go(Go(Go(s1, i), i), i) && s3 == Go(Go(Go(s2, i), i), i) && s4 == Go(Go(Go(s3, i), i), i)
    ensures var v := s.shared;
            && s4.holder == None && s4.ops == s.ops[i := Done] + (if v.initialised then [StartRuns(v.issued)] else [])
            && s4.shared == Shared(Some(v.issued), false, false, v.initialised, v.restarts + 1, v.alive + {v.issued},
                                   v.dying + AsSet(v.client), v.issued + 1, v.torn + AsSet(v.client))
  {
    var v, init := Kill(TakeOut(s.shared), s.shared.client), s.shared.initialised;
    ToTheBackoff(s, i);
    ToTheLaunch(s, i, s1, TakeOut(s.shared), s.shared.client, init);
    FromTheLaunch(s, i, s2, v, init);
    ToTheEnd(s, i, s3, Launch(v).(client := Some(v.issued), stopping := false, initialised := v.initialised || init), init);
  }

  /**
   * A restart that is allowed, meets no other operation and is not let down ends with a new process in
   * service, the one before killed, `restarting` down, one more restart on the counter, and Start
   * called on the new process if the plugin was initialised.
   */
  lemma RestartReplaces(s: State, i: nat)
    requires s.holder == None && i < |s.ops| && s.ops[i] == RestartWaits
    requires !s.shared.stopping && !s.shared.restarting && 0 < s.maxRestarts && s.shared.restarts < s.maxRestarts
    ensures var v, t := s.shared, Run(s, Advances(i, 3) + Advances(i, 3) + Advances(i, 3) + Advances(i, 3));
            && t.holder == None && t.ops == s.ops[i := Done] + (if v.initialised then [StartRuns(v.issued)] else [])
            && t.shared == Shared(Some(v.issued), false, false, v.initialised, v.restarts + 1, v.alive + {v.issued},
                                  v.dying + AsSet(v.client), v.issued + 1, v.torn + AsSet(v.client))
  {
    var three := Advances(i, 3);
    var s1 := Run(s, three);
    var s2 := Run(s1, three);
    var s3 := Run(s2, three);
    RunThree(s, i);
    RunThree(s1, i);
    RunThree(s2, i);
    RunThree(s3, i);
    WholeRestart(s, i, s1, s2, s3, Run(s3, three));
    RunConcat(s, three, three);
    RunConcat(s, three + three, three);
    RunConcat(s, three + three + three, three);
  }

  lemma PreflightFinds(s: State, i: nat, t: State, v: Shared)
    requires At(s, t, i, v, PreflightLocked) && v.client.Some?
    ensures At(s, Go(Go(Go(t, i), i), i), i, v, Done)
  {
    GoesOn(s, t, i, v, PreflightLocked, v, Leaves);
    GoesOn(s, Go(t, i), i, v, Leaves, v, Done);
    GoesOn(s, Go(Go(t, i), i), i, v, Done, v, Done);
  }

  lemma PreflightConnects(s: State, i: nat, t: State, v: Shared)
    requires At(s, t, i, v, PreflightLocked) && v.client.None?
    ensures At(s, Go(Go(Go(t, i), i), i), i, Publish(Launch(v), v.issued), Done)
  {
    var w := Publish(Launch(v), v.issued);
    GoesOn(s, t, i, v, PreflightLocked, Launch(v), PreflightHandshakes(v.issued));
    GoesOn(s, Go(t, i), i, Launch(v), PreflightHandshakes(v.issued), w, Leaves);
    GoesOn(s, Go(Go(t, i), i), i, w, Leaves, w, Done);
  }

  /** A Preflight that meets no other operation and is not let down ends with a client: the one there is, or a new process. */
  lemma PreflightServes(s: State, i: nat)
    requires s.holder == None && i < |s.ops| && s.ops[i] == PreflightWaits
    ensures var t := Run(s, [Advance(i, true)] + Advances(i, 3));
            && t.ops == s.ops[i := Done] && t.holder == None
            && t.shared.client == (if s.shared.client.Some? then s.shared.client else Some(s.shared.issued))
            && (s.shared.client.None? ==> !t.shared.stopping && s.shared.issued in t.shared.alive)
  {
    assert s.ops[i := PreflightWaits] == s.ops;
    GoesOn(s, s, i, s.shared, PreflightWaits, s.shared, PreflightLocked);
    var t := Go(s, i);
    if s.shared.client.Some? { PreflightFinds(s, i, t, s.shared); } else { PreflightConnects(s, i, t, s.shared); }
    RunThree(t, i);
    RunConcat(s, [Advance(i, true)], Advances(i, 3));
    RunOneMore(s, [], Advance(i, true));
    assert [] + [Advance(i, true)] == [Advance(i, true)];
  }

  /** A health check outside a restart forgives: however many restarts there were, the next one is allowed, unless restarts are disabled. */
  lemma HealthForgives(maxRestarts: int, actions: seq<Action>)
    requires var v := Run(Fresh(maxRestarts), actions).shared; maxRestarts > 0 && !v.stopping && !v.restarting
    ensures !Refused(maxRestarts, Run(Fresh(maxRestarts), actions + [Health]).shared)
  {
    RunKeeps(maxRestarts, actions);
    assert (actions + [Health])[..|actions|] == actions;
  }
}
