/** The kernel's read cache of bans beside the anti-fraud module's own ban store. */
module BanCache {
  import opened Common
  import opened Strings

  type Email = string
  type Time = int

  /** Expiry per e-mail. */
  type Bans = map<Email, Time>

  predicate Live(bans: Bans, email: Email, now: Time) {
    email in bans && now < bans[email]
  }

  function Unban(cache: Bans, email: Email): Bans {
    if TrimSpace(email) == "" then cache else cache - {TrimSpace(email)}
  }

  /** A pushed decision; one that is over already counts as an unban. */
  function Push(cache: Bans, email: Email, until: Time, now: Time): Bans {
    var e := TrimSpace(email);
    if e == "" then cache else if until <= now then cache - {e} else cache[e := until]
  }

  /** The second phase of a read: the entry seen in the first goes if it is still there and over. */
  function Evict(cache: Bans, email: Email, seen: Time, now: Time): Bans {
    if Get(cache, email) == Some(seen) && seen <= now then cache - {email} else cache
  }

  class LocalBanCache {
    var bans: Bans

    constructor ()
      ensures bans == map[]
    {
      bans := map[];
    }

    method PushUnban(email: Email)
      modifies this
      ensures bans == Unban(old(bans), email)
    {
      var e := TrimSpace(email);
      if e == "" {
        return;
      }
      bans := bans - {e};
    }

    method PushBanUpdate(email: Email, until: Time, now: Time)
      modifies this
      ensures bans == Push(old(bans), email, until, now)
      ensures forall e :: Get(bans, e) ==
                if TrimSpace(email) == "" || e != TrimSpace(email) then Get(old(bans), e) else if until <= now then None else Some(until)
    {
      var e := TrimSpace(email);
      if e == "" {
        return;
      }
      if until <= now {
        TrimSpaceTrims(email);
        TrimSpaceTrims(e);
        PushUnban(e);
        return;
      }
      bans := bans[e := until];
    }

    /** A read in one go, at one time. */
    method IsBanned(email: Email, now: Time) returns (banned: bool)
      modifies this
      ensures banned <==> TrimSpace(email) != "" && Live(old(bans), TrimSpace(email), now)
      ensures forall e, t | now <= t :: Live(bans, e, t) <==> Live(old(bans), e, t)
    {
      var e := TrimSpace(email);
      if e == "" || e !in bans {
        return false;
      }
      var expires := bans[e];
      if now < expires {
        return true;
      }
      bans := Evict(bans, e, expires, now);
      return false;
    }
  }

  /** The store's entries pushed one after the other, in whatever order the map yields them. */
  function Replay(store: Bans, cache: Bans, order: seq<Email>, now: Time): Bans {
    if order == [] then cache
    else
      var e := order[|order| - 1];
      var before := Replay(store, cache, order[..|order| - 1], now);
      if e in store then Push(before, e, store[e], now) else before
  }

  class BanStore {
    var bans: Bans
    var sink: LocalBanCache?

    constructor (bans: Bans)
      ensures this.bans == bans && sink == null
    {
      this.bans, sink := bans, null;
    }

    method IsBanned(email: Email, now: Time) returns (banned: bool)
      ensures banned <==> Live(bans, email, now)
    {
      return email in bans && now < bans[email];
    }

    method SetBan(email: Email, until: Time, now: Time)
      modifies this`bans, sink
      ensures bans == old(bans)[email := until]
      ensures sink != null ==> sink.bans == Push(old(sink.bans), email, until, now)
    {
      bans := bans[email := until];
      if sink != null { sink.PushBanUpdate(email, until, now); }
    }

    method ClearBan(email: Email)
      modifies this`bans, sink
      ensures bans == old(bans) - {email}
      ensures sink != null ==> sink.bans == Unban(old(sink.bans), email)
    {
      bans := bans - {email};
      if sink != null { sink.PushUnban(email); }
    }

    /** Installs the sink and pushes every ban to it, in an order the map yields. */
    method SetSink(cache: LocalBanCache?, now: Time) returns (ghost order: seq<Email>)
      modifies this`sink, cache
      ensures sink == cache
      ensures cache != null ==> (set e | e in order) == bans.Keys && cache.bans == Replay(bans, old(cache.bans), order, now)
    {
      sink, order := cache, [];
      if cache == null {
        return;
      }
      var todo := bans.Keys;
      while todo != {}
        modifies cache
        invariant todo <= bans.Keys && (set e | e in order) == bans.Keys - todo
        invariant cache.bans == Replay(bans, old(cache.bans), order, now)
      {
        var e :| e in todo;
        cache.PushBanUpdate(e, bans[e], now);
        ghost var longer := order + [e];
        assert longer[..|longer| - 1] == order;
        assert (set x | x in longer) == (set x | x in order) + {e};
        order, todo := longer, todo - {e};
      }
    }
  }

  // ---------------------------------------------------------------- store and cache together

  /** An eviction between the two phases of a read. */
  datatype Eviction = Eviction(email: Email, seen: Time)

  datatype State = State(store: Bans, cache: Bans, installed: bool, clock: Time, pending: seq<Eviction>)

  datatype Action =
    | SetBan(clock: Time, email: Email, until: Time)
    | ClearBan(clock: Time, email: Email)
    | InstallSink(clock: Time, order: seq<Email>)
    | ReadBegins(clock: Time, email: Email)
    | ReadEnds(clock: Time, i: nat)

  predicate Enabled(s: State, a: Action) {
    && a.clock >= s.clock
    && (a.InstallSink? ==> (set e | e in a.order) == s.store.Keys)
    && (a.ReadEnds? ==> a.i < |s.pending|)
  }

  function Next(s: State, a: Action): State
    requires Enabled(s, a)
  {
    var moved := s.(clock := a.clock);
    match a
    case SetBan(now, e, until) =>
      moved.(store := s.store[e := until], cache := if s.installed then Push(s.cache, e, until, now) else s.cache)
    case ClearBan(now, e) =>
      moved.(store := s.store - {e}, cache := if s.installed then Unban(s.cache, e) else s.cache)
    case InstallSink(now, order) => moved.(installed := true, cache := Replay(s.store, s.cache, order, now))
    case ReadBegins(now, email) =>
      var e := TrimSpace(email);
      if e != "" && e in s.cache && s.cache[e] <= now then moved.(pending := s.pending + [Eviction(e, s.cache[e])]) else moved
    case ReadEnds(now, i) => moved.(cache := Evict(s.cache, s.pending[i].email, s.pending[i].seen, now))
  }

  function Step(s: State, a: Action): State {
    if Enabled(s, a) then Next(s, a) else s
  }

  function Run(s: State, actions: seq<Action>): State {
    if actions == [] then s else Step(Run(s, actions[..|actions| - 1]), actions[|actions| - 1])
  }

  /** Any recovered store, an empty cache. */
  predicate Init(s: State) {
    s.cache == map[] && !s.installed && s.pending == []
  }

  // ---------------------------------------------------------------- agreement

  /** What a ban table says now and will say later: the expiry of a ban that is not over. */
  function Effective(bans: Bans, email: Email, now: Time): Option<Time> {
    if Live(bans, email, now) then Some(bans[email]) else None
  }

  /** The cache sees the e-mail as the store does: nothing to trim, or nothing left when trimmed. */
  predicate Plain(email: Email) {
    TrimSpace(email) == email || TrimSpace(email) == ""
  }

  predicate Agree(s: State, e: Email) {
    Effective(s.store, e, s.clock) == Effective(s.cache, e, s.clock)
  }

  ghost predicate Inv(s: State) {
    && (forall k | k in s.store :: Plain(k))
    && (!s.installed ==> s.cache == map[])
    && (s.installed ==> forall e | TrimSpace(e) == e && e != "" :: Agree(s, e))
  }

  lemma {:induction false} ReplayMeans(store: Bans, cache: Bans, order: seq<Email>, now: Time, e: Email)
    requires TrimSpace(e) == e && e != "" && forall k | k in order :: k in store && Plain(k)
    ensures Effective(Replay(store, cache, order, now), e, now) == if e in order then Effective(store, e, now) else Effective(cache, e, now)
  {
    if order != [] {
      var init, last := order[..|order| - 1], order[|order| - 1];
      assert order == init + [last];
      ReplayMeans(store, cache, init, now, e);
    }
  }

  predicate Uses(a: Action, emails: set<Email>) {
    a.SetBan? || a.ClearBan? ==> a.email in emails
  }

  lemma StepKeeps(s: State, a: Action)
    requires Inv(s) && (a.SetBan? || a.ClearBan? ==> Plain(a.email))
    ensures Inv(Step(s, a))
  {
    var t := Step(s, a);
    if t.installed {
      forall e | TrimSpace(e) == e && e != "" ensures Agree(t, e) {
        if Enabled(s, a) {
          if a.InstallSink? {
            ReplayMeans(s.store, s.cache, a.order, a.clock, e);
            assert e in s.store <==> e in a.order;
          }
          assert s.installed ==> Agree(s, e);
        } else {
          assert Agree(s, e);
        }
      }
    }
  }

  lemma {:induction false} RunKeeps(s: State, actions: seq<Action>, emails: set<Email>)
    requires Init(s) && (forall e | e in emails :: Plain(e)) && s.store.Keys <= emails
    requires forall a | a in actions :: Uses(a, emails)
    ensures Inv(Run(s, actions))
  {
    if actions != [] {
      RunKeeps(s, actions[..|actions| - 1], emails);
      assert Uses(actions[|actions| - 1], emails);
      StepKeeps(Run(s, actions[..|actions| - 1]), actions[|actions| - 1]);
    }
  }

  /**
   * For runs over these e-mails, with the sink installed and reads in flight, cache and store answer
   * alike, now and at any later time, for every e-mail that is trimmed and not empty.
   */
  ghost predicate AlwaysAgrees(emails: set<Email>) {
    forall s, actions, e, t
      | Init(s) && s.store.Keys <= emails && (forall a | a in actions :: Uses(a, emails)) && Run(s, actions).installed
        && TrimSpace(e) == e && e != "" && t >= Run(s, actions).clock
      :: Live(Run(s, actions).store, e, t) <==> Live(Run(s, actions).cache, e, t)
  }

  lemma Agreement(s: State, actions: seq<Action>, emails: set<Email>, e: Email, t: Time)
    requires forall k | k in emails :: Plain(k)
    requires Init(s) && s.store.Keys <= emails && (forall a | a in actions :: Uses(a, emails)) && Run(s, actions).installed
    requires TrimSpace(e) == e && e != "" && t >= Run(s, actions).clock
    ensures Live(Run(s, actions).store, e, t) <==> Live(Run(s, actions).cache, e, t)
  {
    RunKeeps(s, actions, emails);
    assert Agree(Run(s, actions), e);
  }

  /** A ban of an e-mail that is not plain: the cache bans the trimmed one, the store does not. */
  lemma UntrimmedDisagrees(email: Email) returns (s: State, actions: seq<Action>)
    requires !Plain(email)
    ensures Init(s) && s.store == map[] && (forall a | a in actions :: Uses(a, {email}))
    ensures var r := Run(s, actions); var e := TrimSpace(email);
            && r.installed && r.clock == 0 && TrimSpace(e) == e && e != ""
            && Live(r.cache, e, 0) && !Live(r.store, e, 0)
  {
    s := State(map[], map[], false, 0, []);
    var install, ban := InstallSink(0, []), SetBan(0, email, 1);
    actions := [install, ban];
    assert actions[..1] == [install] && [install][..0] == [];
    assert Run(s, [install]) == Step(s, install);
    assert (set e | e in install.order) == {} == s.store.Keys;
    assert Step(s, install) == s.(installed := true);
    TrimSpaceTrims(email);
    TrimSpaceTrims(TrimSpace(email));
  }

  /** Agreement holds in every run exactly when the e-mails banned and unbanned are plain. */
  lemma AgreementExact(emails: set<Email>)
    ensures AlwaysAgrees(emails) <==> forall e | e in emails :: Plain(e)
  {
    if forall e | e in emails :: Plain(e) {
      forall s, actions, e, t
        | Init(s) && s.store.Keys <= emails && (forall a | a in actions :: Uses(a, emails)) && Run(s, actions).installed
          && TrimSpace(e) == e && e != "" && t >= Run(s, actions).clock
        ensures Live(Run(s, actions).store, e, t) <==> Live(Run(s, actions).cache, e, t)
      {
        Agreement(s, actions, emails, e, t);
      }
    } else {
      var email :| email in emails && !Plain(email);
      var s, actions := UntrimmedDisagrees(email);
      assert forall a | a in actions :: Uses(a, emails);
      var r := Run(s, actions);
      assert Live(r.store, TrimSpace(email), 0) != Live(r.cache, TrimSpace(email), 0);
    }
  }

  /** The second phase of a read takes away no ban that is still in force, whatever happened since the first. */
  lemma EvictionIsSafe(s: State, now: Time, i: nat, e: Email, t: Time)
    requires s.clock <= now <= t && i < |s.pending|
    ensures Live(Step(s, ReadEnds(now, i)).cache, e, t) <==> Live(s.cache, e, t)
  {
  }
}
