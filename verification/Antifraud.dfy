/** The anti-fraud module's mutable state and its event handler. */
module Antifraud {
  import opened Common
  import opened AntifraudWindow

  class State {
    var users: map<Email, Entries>

    constructor ()
      ensures users == map[]
    {
      users := map[];
    }

    method ActiveIPCount(email: Email) returns (count: nat)
      ensures count == |EntriesOf(users, email)|
    {
      if email !in users {
        return 0;
      }
      return |users[email]|;
    }

    /** Removes what was last seen before the cutoff. */
    static method Prune(entries: Entries, cutoff: Time) returns (u: Entries)
      ensures u == Keep(entries, cutoff)
    {
      u := entries;
      var todo := entries.Keys;
      while todo != {}
        invariant todo <= entries.Keys
        invariant forall h :: Get(u, h) == if h in todo then Get(entries, h) else Get(Keep(entries, cutoff), h)
      {
        var h :| h in todo;
        if entries[h] < cutoff { u := u - {h}; }
        todo := todo - {h};
      }
      SameMap(u, Keep(entries, cutoff));
    }

    method AddHashedEvent(email: Email, hash: Hash, ttl: int, now: Time) returns (count: nat)
      modifies this
      ensures users == Add(old(users), email, hash, ttl, now)
      ensures count == |EntriesOf(users, email)|
    {
      if hash == "" {
        count := ActiveIPCount(email);
        return;
      }
      var u := if email in users then users[email] else map[];
      if hash !in u || u[hash] < now {
        u := u[hash := now];
      }
      u := Prune(u, now - ttl);
      users := users[email := u];
      return |u|;
    }

    method Clean(ttl: int, now: Time)
      modifies this
      ensures users == CleanAll(old(users), now - ttl)
    {
      users := PruneUsers(users, now - ttl);
    }

    static method PruneUsers(users: map<Email, Entries>, cutoff: Time) returns (kept: map<Email, Entries>)
      ensures kept == CleanAll(users, cutoff)
    {
      kept := users;
      var todo := users.Keys;
      while todo != {}
        invariant todo <= users.Keys
        invariant forall e :: Get(kept, e) == if e in todo then Get(users, e) else Get(CleanAll(users, cutoff), e)
      {
        var e :| e in todo;
        CleanedUser(users, cutoff, e);
        var u := Prune(users[e], cutoff);
        kept := if u == map[] then kept - {e} else kept[e := u];
        todo := todo - {e};
      }
      SameMap(kept, CleanAll(users, cutoff));
    }
  }

  lemma CleanedUser(users: map<Email, Entries>, cutoff: Time, e: Email)
    requires e in users
    ensures Get(CleanAll(users, cutoff), e) == if Keep(users[e], cutoff) == map[] then None else Some(Keep(users[e], cutoff))
  {
  }

  class Analyzer {
    const settings: Settings
    const state: State

    constructor (settings: Settings)
      ensures this.settings == settings && fresh(state) && state.users == map[]
    {
      this.settings := settings;
      state := new State();
    }

    /**
     * One event. `ban` says that the ban is to be enforced; the handler's other effects, a report
     * to the master and the ban itself, are the caller's.
     */
    method HandleEvent(now: Time, email: Email, hashed: bool, hash: Hash, occurred: Option<Time>, banned: bool, devices: int,
                       ghost m: Machine)
      returns (ban: bool)
      requires m.settings == settings && m.users == state.users && m.clock <= now
      modifies state
      ensures var t := Step(m, Handle(now, email, hashed, hash, occurred, banned, devices));
              t.users == state.users && (ban <==> |t.verdicts| > |m.verdicts|)
      ensures banned || settings.dryRun || settings.reports ==> !ban
      ensures ban ==> |EntriesOf(state.users, email)| > settings.maxIPs * (if devices <= 0 then 1 else devices)
    {
      if banned {
        return false;
      }
      var at := if occurred.None? then now else occurred.value;
      if at > now { at := now; }
      if at < now - settings.ttl {
        return false;
      }
      if !hashed && hash == "" {
        return false;
      }
      var count := state.AddHashedEvent(email, hash, settings.ttl, at);
      var limit := if devices <= 0 then 1 else devices;
      var threshold := settings.maxIPs * limit;
      if settings.reports {
        return false;
      }
      return count > threshold && !settings.dryRun;
    }
  }
}
