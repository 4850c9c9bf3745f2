/**
 * The sliding window of source addresses per user. The state keeps a pruned map of last-seen
 * times; what it stands for is defined over the whole history of accepted observations.
 */
module AntifraudWindow {
  import opened Common

  type Email = string
  type Hash = string
  type Time = int

  /** Last-seen time per address hash. */
  type Entries = map<Hash, Time>

  function EntriesOf(users: map<Email, Entries>, email: Email): Entries {
    if email in users then users[email] else map[]
  }

  /** An older observation never replaces a newer one. */
  function Record(u: Entries, hash: Hash, now: Time): Entries {
    if hash !in u || u[hash] < now then u[hash := now] else u
  }

  function Keep(u: Entries, cutoff: Time): Entries {
    map h | h in u && u[h] >= cutoff :: u[h]
  }

  function Add(users: map<Email, Entries>, email: Email, hash: Hash, ttl: int, now: Time): map<Email, Entries> {
    if hash == "" then users else users[email := Keep(Record(EntriesOf(users, email), hash, now), now - ttl)]
  }

  function CleanAll(users: map<Email, Entries>, cutoff: Time): map<Email, Entries> {
    map e | e in users && Keep(users[e], cutoff) != map[] :: Keep(users[e], cutoff)
  }

  /** When an event counts as observed: an unset time or one in the future is now. */
  function ObservedAt(occurred: Option<Time>, clock: Time): (at: Time)
    ensures at <= clock
  {
    if occurred.None? || occurred.value > clock then clock else occurred.value
  }

  // ---------------------------------------------------------------- the analyzer as a step system

  datatype Observation = Observation(email: Email, hash: Hash, at: Time)

  datatype Settings = Settings(ttl: int, maxIPs: int, dryRun: bool, reports: bool)

  /** A ban and the window it was decided on: all accepted observations so far, and its latest time. */
  datatype Verdict = Verdict(email: Email, threshold: int, history: nat, high: Option<Time>)

  datatype Machine = Machine(
    settings: Settings,
    users: map<Email, Entries>,
    clock: Time,
    accepted: seq<Observation>,
    cleaned: Option<Time>,
    verdicts: seq<Verdict>
  )

  /**
   * `hashed` tells a slave's hash from an address hashed here; `hash` is "" for an address that does
   * not parse or an empty hash; `devices` is the cached device limit.
   */
  datatype Action =
    | Handle(clock: Time, email: Email, hashed: bool, hash: Hash, occurred: Option<Time>, banned: bool, devices: int)
    | Clean(clock: Time)

  function Threshold(s: Settings, devices: int): int {
    s.maxIPs * if devices <= 0 then 1 else devices
  }

  /** The event is skipped: its user is banned, it is older than the window, or its address is not one. */
  predicate Skipped(m: Machine, a: Action)
    requires a.Handle?
  {
    a.banned || ObservedAt(a.occurred, a.clock) < a.clock - m.settings.ttl || (!a.hashed && a.hash == "")
  }

  predicate Bans(s: Settings, count: int, devices: int) {
    !s.reports && !s.dryRun && count > Threshold(s, devices)
  }

  function HandleStep(m: Machine, a: Action): Machine
    requires a.Handle?
  {
    var moved := m.(clock := a.clock);
    if Skipped(m, a) then moved
    else
      var at := ObservedAt(a.occurred, a.clock);
      var users := Add(m.users, a.email, a.hash, m.settings.ttl, at);
      var accepted := if a.hash == "" then m.accepted else m.accepted + [Observation(a.email, a.hash, at)];
      var high := High(accepted, m.cleaned, a.email);
      var verdicts :=
        if Bans(m.settings, |EntriesOf(users, a.email)|, a.devices)
        then m.verdicts + [Verdict(a.email, Threshold(m.settings, a.devices), |accepted|, high)]
        else m.verdicts;
      moved.(users := users, accepted := accepted, verdicts := verdicts)
  }

  function CleanStep(m: Machine, a: Action): Machine
    requires a.Clean?
  {
    m.(clock := a.clock, cleaned := Some(a.clock), users := CleanAll(m.users, a.clock - m.settings.ttl))
  }

  /** A step whose time lies before the clock does not happen: the clock is monotone. */
  function Step(m: Machine, a: Action): Machine {
    if a.clock < m.clock then m
    else if a.Handle? then HandleStep(m, a)
    else CleanStep(m, a)
  }

  function Run(m: Machine, actions: seq<Action>): Machine {
    if actions == [] then m else Step(Run(m, actions[..|actions| - 1]), actions[|actions| - 1])
  }

  function Fresh(s: Settings, clock: Time): Machine {
    Machine(s, map[], clock, [], None, [])
  }

  // ---------------------------------------------------------------- the whole-history meaning

  function Later(a: Option<Time>, b: Option<Time>): Option<Time> {
    if a.None? then b else if b.None? then a else if a.value < b.value then b else a
  }

  /** The latest accepted observation of a hash of a user. */
  function Latest(history: seq<Observation>, email: Email, hash: Hash): Option<Time> {
    if history == [] then None
    else
      var before, last := Latest(history[..|history| - 1], email, hash), history[|history| - 1];
      if last.email == email && last.hash == hash then Later(before, Some(last.at)) else before
  }

  function LatestOf(history: seq<Observation>, email: Email): Option<Time> {
    if history == [] then None
    else
      var before, last := LatestOf(history[..|history| - 1], email), history[|history| - 1];
      if last.email == email then Later(before, Some(last.at)) else before
  }

  /** The high-water mark of a user: its latest observation or the latest clean-up. */
  function High(history: seq<Observation>, cleaned: Option<Time>, email: Email): Option<Time> {
    Later(LatestOf(history, email), cleaned)
  }

  /** What the window holds for a hash: its latest observation, if that is within ttl of the mark. */
  function InWindow(m: Machine, email: Email, hash: Hash): Option<Time> {
    var seen, high := Latest(m.accepted, email, hash), High(m.accepted, m.cleaned, email);
    if seen.Some? && high.Some? && seen.value >= high.value - m.settings.ttl then seen else None
  }

  /** The hashes of a user that the history puts within the window. */
  function ActiveHashes(m: Machine, email: Email): set<Hash> {
    set o | o in m.accepted && o.email == email && InWindow(m, email, o.hash).Some? :: o.hash
  }

  // ---------------------------------------------------------------- what every step keeps

  lemma {:induction false} LatestMeans(history: seq<Observation>, email: Email, hash: Hash)
    ensures Latest(history, email, hash).Some? ==> Observation(email, hash, Latest(history, email, hash).value) in history
    ensures Latest(history, email, hash).Some? ==>
              LatestOf(history, email).Some? && Latest(history, email, hash).value <= LatestOf(history, email).value
    ensures forall o | o in history && o.email == email && o.hash == hash ::
              Latest(history, email, hash).Some? && o.at <= Latest(history, email, hash).value
  {
    if history != [] {
      LatestMeans(history[..|history| - 1], email, hash);
      assert history == history[..|history| - 1] + [history[|history| - 1]];
    }
  }

  lemma {:induction false} LatestOfMeans(history: seq<Observation>, email: Email)
    ensures LatestOf(history, email).Some? ==> exists o | o in history :: o.email == email && o.at == LatestOf(history, email).value
  {
    if history != [] {
      LatestOfMeans(history[..|history| - 1], email);
      var init, last := history[..|history| - 1], history[|history| - 1];
      assert history == init + [last];
      if LatestOf(history, email).Some? {
        if last.email == email && LatestOf(history, email) == Some(last.at) {
          assert last in history;
        } else {
          var o :| o in init && o.email == email && o.at == LatestOf(init, email).value;
          assert o in history;
        }
      }
    }
  }

  predicate ClockOk(m: Machine) {
    && (forall o | o in m.accepted :: o.at <= m.clock && o.hash != "")
    && (m.cleaned.Some? ==> m.cleaned.value <= m.clock)
  }

  /** The pruned map of a user refines its history. */
  ghost predicate Refines(m: Machine, email: Email) {
    forall h :: Get(EntriesOf(m.users, email), h) == InWindow(m, email, h)
  }

  lemma HighAtMostClock(m: Machine, email: Email)
    requires ClockOk(m)
    ensures var high := High(m.accepted, m.cleaned, email); high.Some? ==> high.value <= m.clock
  {
    LatestOfMeans(m.accepted, email);
  }

  lemma GrownHistory(history: seq<Observation>, o: Observation, email: Email, hash: Hash)
    ensures Latest(history + [o], email, hash) ==
            if o.email == email && o.hash == hash then Later(Latest(history, email, hash), Some(o.at)) else Latest(history, email, hash)
    ensures LatestOf(history + [o], email) ==
            if o.email == email then Later(LatestOf(history, email), Some(o.at)) else LatestOf(history, email)
  {
    assert (history + [o])[..|history + [o]| - 1] == history;
  }

  lemma AcceptRefines(m: Machine, o: Observation, clock: Time, t: Machine, email: Email, h: Hash)
    requires ClockOk(m) && o.hash != "" && m.clock <= clock && clock - m.settings.ttl <= o.at <= clock
    requires Get(EntriesOf(m.users, email), h) == InWindow(m, email, h)
    requires t == m.(clock := clock, users := Add(m.users, o.email, o.hash, m.settings.ttl, o.at), accepted := m.accepted + [o])
    ensures Get(EntriesOf(t.users, email), h) == InWindow(t, email, h)
  {
    GrownHistory(m.accepted, o, email, h);
    HighAtMostClock(m, email);
    LatestMeans(m.accepted, email, h);
  }

  lemma CleanRefines(m: Machine, clock: Time, email: Email, h: Hash)
    requires ClockOk(m) && m.clock <= clock
    requires Get(EntriesOf(m.users, email), h) == InWindow(m, email, h)
    ensures var t := CleanStep(m, Clean(clock)); Get(EntriesOf(t.users, email), h) == InWindow(t, email, h)
  {
    var cutoff := clock - m.settings.ttl;
    HighAtMostClock(m, email);
    LatestMeans(m.accepted, email, h);
    CleanedEntry(m.users, cutoff, email, h);
  }

  lemma CleanedEntry(users: map<Email, Entries>, cutoff: Time, email: Email, h: Hash)
    ensures Get(EntriesOf(CleanAll(users, cutoff), email), h) == Get(Keep(EntriesOf(users, email), cutoff), h)
  {
  }

  // ---------------------------------------------------------------- bans

  predicate Within(high: Option<Time>, ttl: int, at: Time) {
    high.Some? && high.value - ttl <= at <= high.value
  }

  /** More than `threshold` distinct hashes were observed within one window of length ttl. */
  ghost predicate Evidence(history: seq<Observation>, ttl: int, v: Verdict) {
    exists hashes: set<Hash> ::
      && |hashes| > v.threshold
      && forall h | h in hashes :: exists o | o in history :: o.email == v.email && o.hash == h && Within(v.high, ttl, o.at)
  }

  ghost predicate VerdictOk(m: Machine, v: Verdict) {
    v.history <= |m.accepted| && Evidence(m.accepted[..v.history], m.settings.ttl, v)
  }

  ghost predicate Inv(m: Machine) {
    ClockOk(m) && (forall e :: Refines(m, e)) && forall v | v in m.verdicts :: VerdictOk(m, v)
  }

  lemma WindowIsEvidence(m: Machine, email: Email, threshold: int)
    requires Refines(m, email) && |EntriesOf(m.users, email)| > threshold
    ensures Evidence(m.accepted, m.settings.ttl, Verdict(email, threshold, |m.accepted|, High(m.accepted, m.cleaned, email)))
  {
    var high := High(m.accepted, m.cleaned, email);
    var u := EntriesOf(m.users, email);
    forall h | h in u.Keys
      ensures exists o | o in m.accepted :: o.email == email && o.hash == h && Within(high, m.settings.ttl, o.at)
    {
      assert Get(u, h) == InWindow(m, email, h);
      LatestMeans(m.accepted, email, h);
      assert Observation(email, h, Latest(m.accepted, email, h).value) in m.accepted;
    }
    assert |u.Keys| > threshold;
  }

  lemma VerdictStays(m: Machine, t: Machine, v: Verdict)
    requires VerdictOk(m, v) && m.accepted <= t.accepted && t.settings == m.settings
    ensures VerdictOk(t, v)
  {
    assert t.accepted[..v.history] == m.accepted[..v.history];
  }

  lemma HandleKeeps(m: Machine, a: Action, t: Machine)
    requires Inv(m) && a.Handle? && m.clock <= a.clock && t == HandleStep(m, a)
    ensures Inv(t)
  {
    if Skipped(m, a) {
      forall v | v in t.verdicts ensures VerdictOk(t, v) { VerdictStays(m, t, v); }
      forall e ensures Refines(t, e) { assert Refines(m, e); }
    } else {
      HandleRefines(m, a, t);
      HandleVerdicts(m, a, t);
    }
  }

  lemma HandleRefines(m: Machine, a: Action, t: Machine)
    requires Inv(m) && a.Handle? && m.clock <= a.clock && t == HandleStep(m, a) && !Skipped(m, a)
    ensures ClockOk(t) && forall e :: Refines(t, e)
  {
    var o := Observation(a.email, a.hash, ObservedAt(a.occurred, a.clock));
    forall e ensures Refines(t, e) {
      assert Refines(m, e);
      forall h ensures Get(EntriesOf(t.users, e), h) == InWindow(t, e, h) {
        if a.hash != "" { AcceptRefines(m, o, a.clock, t.(verdicts := m.verdicts), e, h); }
      }
    }
  }

  lemma HandleVerdicts(m: Machine, a: Action, t: Machine)
    requires Inv(m) && a.Handle? && t == HandleStep(m, a) && !Skipped(m, a) && forall e :: Refines(t, e)
    ensures forall v | v in t.verdicts :: VerdictOk(t, v)
  {
    forall v | v in t.verdicts ensures VerdictOk(t, v) {
      if v in m.verdicts {
        VerdictStays(m, t, v);
      } else {
        assert Refines(t, a.email);
        WindowIsEvidence(t, a.email, Threshold(m.settings, a.devices));
        assert t.accepted[..|t.accepted|] == t.accepted;
      }
    }
  }

  lemma CleanKeeps(m: Machine, a: Action, t: Machine)
    requires Inv(m) && a.Clean? && m.clock <= a.clock && t == CleanStep(m, a)
    ensures Inv(t)
  {
    forall e ensures Refines(t, e) {
      assert Refines(m, e);
      forall h ensures Get(EntriesOf(t.users, e), h) == InWindow(t, e, h) { CleanRefines(m, a.clock, e, h); }
    }
    forall v | v in t.verdicts ensures VerdictOk(t, v) { VerdictStays(m, t, v); }
  }

  lemma {:induction false} RunKeeps(s: Settings, clock: Time, actions: seq<Action>)
    ensures Inv(Run(Fresh(s, clock), actions)) && Run(Fresh(s, clock), actions).settings == s
  {
    if actions != [] {
      var m, a := Run(Fresh(s, clock), actions[..|actions| - 1]), actions[|actions| - 1];
      RunKeeps(s, clock, actions[..|actions| - 1]);
      if a.clock >= m.clock {
        if a.Handle? { HandleKeeps(m, a, Step(m, a)); } else { CleanKeeps(m, a, Step(m, a)); }
      }
    }
  }

  /**
   * For any order of delivery, the entries of a user are exactly the hashes whose latest accepted
   * observation lies within ttl of the high-water mark, each with that observation's time.
   */
  lemma WindowIsHistory(s: Settings, clock: Time, actions: seq<Action>, email: Email, hash: Hash)
    ensures var m := Run(Fresh(s, clock), actions);
            Get(EntriesOf(m.users, email), hash) == InWindow(m, email, hash)
  {
    RunKeeps(s, clock, actions);
    assert Refines(Run(Fresh(s, clock), actions), email);
  }

  /** Whoever is banned was seen under more distinct hashes than the threshold within one window. */
  lemma BanIsJustified(s: Settings, clock: Time, actions: seq<Action>, v: Verdict)
    requires v in Run(Fresh(s, clock), actions).verdicts
    ensures var m := Run(Fresh(s, clock), actions);
            v.history <= |m.accepted| && Evidence(m.accepted[..v.history], s.ttl, v)
  {
    RunKeeps(s, clock, actions);
  }

  /** And whoever is seen so, in a handled event, is banned, unless bans are off or left to the master. */
  lemma ExcessIsBanned(s: Settings, clock: Time, actions: seq<Action>, a: Action)
    requires var m := Run(Fresh(s, clock), actions);
             a.Handle? && m.clock <= a.clock && Considered(s, a)
    ensures var m := Run(Fresh(s, clock), actions); var t := Step(m, a);
            |t.verdicts| > |m.verdicts| <==>
              !s.dryRun && !s.reports && |ActiveHashes(t, a.email)| > s.maxIPs * (if a.devices <= 0 then 1 else a.devices)
  {
    RunKeeps(s, clock, actions);
    var m := Run(Fresh(s, clock), actions);
    var t := Step(m, a);
    HandleKeeps(m, a, t);
    assert Refines(t, a.email);
    ActiveAreKeys(t, a.email);
  }

  /** In dry-run mode, and where bans are left to the master, nobody is banned. */
  lemma {:induction false} NobodyIsBanned(s: Settings, clock: Time, actions: seq<Action>)
    requires s.dryRun || s.reports
    ensures Run(Fresh(s, clock), actions).verdicts == []
  {
    if actions != [] {
      NobodyIsBanned(s, clock, actions[..|actions| - 1]);
      RunKeeps(s, clock, actions[..|actions| - 1]);
    }
  }

  /** The number of addresses a user may have: so many per device, and at least those of one device. */
  predicate AllowedFor(s: Settings, devices: int, threshold: int) {
    (devices >= 1 ==> threshold == s.maxIPs * devices) && (devices < 1 ==> threshold == s.maxIPs)
  }

  /** Every ban is that of a handled event, with the threshold of the user's devices. */
  lemma {:induction false} BanThreshold(s: Settings, clock: Time, actions: seq<Action>, v: Verdict)
    requires v in Run(Fresh(s, clock), actions).verdicts
    ensures exists a | a in actions :: a.Handle? && a.email == v.email && !a.banned && AllowedFor(s, a.devices, v.threshold)
  {
    var init, last := actions[..|actions| - 1], actions[|actions| - 1];
    RunKeeps(s, clock, init);
    if v in Run(Fresh(s, clock), init).verdicts {
      BanThreshold(s, clock, init, v);
      var a :| a in init && a.Handle? && a.email == v.email && !a.banned && AllowedFor(s, a.devices, v.threshold);
      assert a in actions;
    } else {
      assert last in actions;
    }
  }

  /**
   * Which events count: the user is not banned, there is an address, and the time given lies within ttl of
   * now. An event without a time, or with one in the future, counts as observed now.
   */
  predicate Considered(s: Settings, a: Action)
    requires a.Handle?
  {
    && !a.banned && (a.hashed || a.hash != "")
    && (if GivenTime(a) then a.clock - a.occurred.value <= s.ttl else 0 <= s.ttl)
  }

  predicate GivenTime(a: Action)
    requires a.Handle?
  {
    a.occurred.Some? && a.occurred.value <= a.clock
  }

  /** Other events leave no trace; one that counts enters the history at its time, if it has a hash. */
  lemma Counted(m: Machine, a: Action)
    requires a.Handle? && m.clock <= a.clock
    ensures !Considered(m.settings, a) ==> Step(m, a) == m.(clock := a.clock)
    ensures Considered(m.settings, a) ==>
              Step(m, a).accepted ==
                if a.hash == "" then m.accepted
                else m.accepted + [Observation(a.email, a.hash, if GivenTime(a) then a.occurred.value else a.clock)]
  {
  }

  lemma ActiveAreKeys(m: Machine, email: Email)
    requires Refines(m, email)
    ensures ActiveHashes(m, email) == EntriesOf(m.users, email).Keys
  {
    var u := EntriesOf(m.users, email);
    forall h ensures h in ActiveHashes(m, email) <==> h in u {
      assert Get(u, h) == InWindow(m, email, h);
      LatestMeans(m.accepted, email, h);
      if h in u {
        var o := Observation(email, h, Latest(m.accepted, email, h).value);
        assert o in m.accepted && o.hash == h;
      }
    }
  }
}
