/** Which engines a user's configuration goes to, and the batch each engine gets. */
module Routing {
  import opened Common
  import opened Strings

  /** unicode.ToLower, character by character. */
  type Lower = char -> char

  datatype Mode = Broadcast | ByPlan | BySubscriptionOverride

  datatype User = User(email: string, subscriptionEngines: seq<string>, planEngines: seq<string>, payload: string)

  function LowerAll(lower: Lower, s: string): string {
    seq(|s|, i requires 0 <= i < |s| => lower(s[i]))
  }

  function Normalize(lower: Lower, id: string): string {
    LowerAll(lower, TrimSpace(id))
  }

  function NormalizeAll(lower: Lower, ids: seq<string>): seq<string> {
    seq(|ids|, i requires 0 <= i < |ids| => Normalize(lower, ids[i]))
  }

  method NormalizeEngineIDs(lower: Lower, ids: seq<string>) returns (result: seq<string>)
    ensures result == FirstNonEmpty(NormalizeAll(lower, ids))
  {
    var seen := {};
    result := [];
    ghost var all := NormalizeAll(lower, ids);
    for i := 0 to |ids|
      invariant result == FirstNonEmpty(all[..i])
      invariant forall v :: v in seen <==> v in result
    {
      assert all[..i + 1][..i] == all[..i];
      var id := Normalize(lower, ids[i]);
      if id != "" && id !in seen {
        seen, result := seen + {id}, result + [id];
      }
    }
    assert all[..|ids|] == all;
  }

  // ---------------------------------------------------------------- the specification

  /** The identifiers a list names. */
  function Named(lower: Lower, ids: seq<string>): set<string> {
    set i | 0 <= i < |ids| && Normalize(lower, ids[i]) != "" :: Normalize(lower, ids[i])
  }

  /** The engines asked for: the subscription's, else the plan's where the mode looks at it, else all (None). */
  function Wanted(lower: Lower, mode: Mode, u: User): Option<set<string>> {
    if Named(lower, u.subscriptionEngines) != {} then Some(Named(lower, u.subscriptionEngines))
    else if mode != Broadcast && Named(lower, u.planEngines) != {} then Some(Named(lower, u.planEngines))
    else None
  }

  /** Router and engines are made from the same providers, with usable and different identifiers. */
  predicate Usable(lower: Lower, providers: seq<string>) {
    && (forall p | p in providers :: Normalize(lower, p) != "")
    && (forall i, j | 0 <= i < j < |providers| :: Normalize(lower, providers[i]) != Normalize(lower, providers[j]))
  }

  function ModeOf(text: string): Option<Mode> {
    var mode := TrimSpace(text);
    if mode == "" || mode == "broadcast" then Some(Broadcast)
    else if mode == "by-plan" then Some(ByPlan)
    else if mode == "by-subscription-override" then Some(BySubscriptionOverride)
    else None
  }

  /** A router exists exactly for a known mode and usable providers. */
  method NewConfiguredEngineRouter(lower: Lower, text: string, providers: seq<string>) returns (mode: Option<Mode>)
    ensures mode == if Usable(lower, providers) then ModeOf(text) else None
    ensures mode.Some? ==> TrimSpace(text) in {"", "broadcast", "by-plan", "by-subscription-override"}
    ensures mode.Some? ==> (mode.value == Broadcast <==> TrimSpace(text) in {"", "broadcast"})
    ensures mode.Some? ==> (mode.value == ByPlan <==> TrimSpace(text) == "by-plan")
  {
    mode := ModeOf(text);
    if mode.None? {
      return;
    }
    var fits := CheckProviders(lower, providers);
    if !fits { mode := None; }
  }

  method CheckProviders(lower: Lower, providers: seq<string>) returns (ok: bool)
    ensures ok <==> Usable(lower, providers)
  {
    var byID: set<string> := {};
    for i := 0 to |providers|
      invariant byID == set k | 0 <= k < i :: Normalize(lower, providers[k])
      invariant forall k | 0 <= k < i :: Normalize(lower, providers[k]) != ""
      invariant forall j, k | 0 <= j < k < i :: Normalize(lower, providers[j]) != Normalize(lower, providers[k])
    {
      var id := Normalize(lower, providers[i]);
      assert providers[i] in providers;
      if id == "" {
        return false;
      }
      if id in byID {
        var k :| 0 <= k < i && Normalize(lower, providers[k]) == id;
        return false;
      }
      byID := byID + {id};
    }
    return true;
  }

  /** Every engine asked for is there. */
  predicate Routable(lower: Lower, mode: Mode, providers: seq<string>, u: User) {
    Wanted(lower, mode, u).Some? ==> Wanted(lower, mode, u).value <= Named(lower, providers)
  }

  predicate RoutedTo(lower: Lower, mode: Mode, u: User, provider: string) {
    Wanted(lower, mode, u).Some? ==> Normalize(lower, provider) in Wanted(lower, mode, u).value
  }

  /** The users of an engine, in order. */
  function UsersOf(lower: Lower, mode: Mode, provider: string, users: seq<User>): seq<User> {
    if users == [] then []
    else
      var before, last := UsersOf(lower, mode, provider, users[..|users| - 1]), users[|users| - 1];
      if RoutedTo(lower, mode, last, provider) then before + [last] else before
  }

  lemma {:induction false} NormalizedAreNamed(lower: Lower, ids: seq<string>)
    ensures forall v :: v in FirstNonEmpty(NormalizeAll(lower, ids)) <==> v in Named(lower, ids)
    ensures FirstNonEmpty(NormalizeAll(lower, ids)) == [] <==> Named(lower, ids) == {}
  {
    var all := NormalizeAll(lower, ids);
    FirstNonEmptyMeans(all);
    forall v ensures v in FirstNonEmpty(all) <==> v in Named(lower, ids) {
      if v in all {
        var i :| 0 <= i < |all| && all[i] == v;
        assert v == Normalize(lower, ids[i]);
      }
      if v in Named(lower, ids) {
        var i :| 0 <= i < |ids| && Normalize(lower, ids[i]) == v && v != "";
        assert all[i] == v;
      }
    }
    if Named(lower, ids) != {} { var v :| v in Named(lower, ids); assert v in FirstNonEmpty(all); }
    if FirstNonEmpty(all) != [] { assert FirstNonEmpty(all)[0] in Named(lower, ids); }
  }

  /** The list names an engine at all; it names this one. */
  predicate NamesOne(lower: Lower, ids: seq<string>) {
    exists i | 0 <= i < |ids| :: Normalize(lower, ids[i]) != ""
  }

  predicate NamesIt(lower: Lower, ids: seq<string>, provider: string) {
    exists i | 0 <= i < |ids| :: Normalize(lower, ids[i]) != "" && Normalize(lower, ids[i]) == Normalize(lower, provider)
  }

  /**
   * The engines of a subscription win over everything else; without any, the plan's count, unless the mode is
   * broadcast; and without those the user goes to every engine.
   */
  lemma WhoGetsTheUser(lower: Lower, mode: Mode, u: User, provider: string)
    ensures NamesOne(lower, u.subscriptionEngines) ==>
              (RoutedTo(lower, mode, u, provider) <==> NamesIt(lower, u.subscriptionEngines, provider))
    ensures !NamesOne(lower, u.subscriptionEngines) && mode != Broadcast && NamesOne(lower, u.planEngines) ==>
              (RoutedTo(lower, mode, u, provider) <==> NamesIt(lower, u.planEngines, provider))
    ensures !NamesOne(lower, u.subscriptionEngines) && (mode == Broadcast || !NamesOne(lower, u.planEngines)) ==>
              RoutedTo(lower, mode, u, provider)
  {
    NamedMeans(lower, u.subscriptionEngines, provider);
    NamedMeans(lower, u.planEngines, provider);
  }

  lemma NamedMeans(lower: Lower, ids: seq<string>, provider: string)
    ensures NamesOne(lower, ids) <==> Named(lower, ids) != {}
    ensures NamesIt(lower, ids, provider) <==> Normalize(lower, provider) in Named(lower, ids)
  {
    if NamesOne(lower, ids) {
      var i :| 0 <= i < |ids| && Normalize(lower, ids[i]) != "";
      assert Normalize(lower, ids[i]) in Named(lower, ids);
    }
    if Named(lower, ids) != {} {
      var x :| x in Named(lower, ids);
    }
  }

  // ---------------------------------------------------------------- the router

  /** The positions of the engines a user goes to, ascending; an error if one asked for is not there. */
  ghost predicate IsSelection(lower: Lower, mode: Mode, providers: seq<string>, u: User, result: Result<seq<nat>>) {
    && (result.Ok? <==> Routable(lower, mode, providers, u))
    && (result.Ok? ==>
          && (forall i, j | 0 <= i < j < |result.value| :: result.value[i] < result.value[j])
          && (forall k: nat :: k in result.value <==> k < |providers| && RoutedTo(lower, mode, u, providers[k])))
  }

  /** The providers a user goes to, in order. */
  function Kept(lower: Lower, mode: Mode, u: User, providers: seq<string>): seq<string> {
    if providers == [] then []
    else
      var before, last := Kept(lower, mode, u, providers[..|providers| - 1]), providers[|providers| - 1];
      if RoutedTo(lower, mode, u, last) then before + [last] else before
  }

  lemma {:induction false} KeptMeans(lower: Lower, mode: Mode, u: User, providers: seq<string>)
    ensures forall p :: p in Kept(lower, mode, u, providers) <==> p in providers && RoutedTo(lower, mode, u, p)
  {
    if providers != [] {
      KeptMeans(lower, mode, u, providers[..|providers| - 1]);
      assert providers == providers[..|providers| - 1] + [providers[|providers| - 1]];
    }
  }

  lemma {:induction false} AllKept(lower: Lower, mode: Mode, u: User, providers: seq<string>)
    requires Wanted(lower, mode, u).None?
    ensures Kept(lower, mode, u, providers) == providers
  {
    if providers != [] {
      AllKept(lower, mode, u, providers[..|providers| - 1]);
      assert providers == providers[..|providers| - 1] + [providers[|providers| - 1]];
    }
  }

  /** The identifiers asked for, all of them known, pick providers. */
  method SelectProviders(lower: Lower, mode: Mode, u: User, providers: seq<string>, ids: seq<string>) returns (result: Result<seq<string>>)
    requires Wanted(lower, mode, u).Some? && forall v :: v in ids <==> v in Wanted(lower, mode, u).value
    ensures result.Ok? <==> Routable(lower, mode, providers, u)
    ensures result.Ok? ==> result.value == Kept(lower, mode, u, providers)
  {
    var selected: set<string> := {};
    for i := 0 to |ids|
      invariant forall v :: v in selected <==> v in ids[..i]
      invariant forall v | v in ids[..i] :: v in Named(lower, providers)
    {
      assert ids[i] in ids;
      if ids[i] !in Named(lower, providers) {
        return Err;
      }
      selected := selected + {ids[i]};
    }
    assert ids[..|ids|] == ids;
    var chosen := [];
    for k := 0 to |providers|
      invariant chosen == Kept(lower, mode, u, providers[..k])
    {
      assert providers[..k + 1][..k] == providers[..k];
      if Normalize(lower, providers[k]) in selected { chosen := chosen + [providers[k]]; }
    }
    assert providers[..|providers|] == providers;
    return Ok(chosen);
  }

  method EnginesForChecked(lower: Lower, mode: Mode, providers: seq<string>, u: User) returns (result: Result<seq<string>>)
    ensures result.Ok? <==> Routable(lower, mode, providers, u)
    ensures result.Ok? ==> result.value == Kept(lower, mode, u, providers)
  {
    NormalizedAreNamed(lower, u.subscriptionEngines);
    NormalizedAreNamed(lower, u.planEngines);
    var ids := NormalizeEngineIDs(lower, u.subscriptionEngines);
    if ids != [] {
      result := SelectProviders(lower, mode, u, providers, ids);
      return;
    }
    if mode != Broadcast {
      ids := NormalizeEngineIDs(lower, u.planEngines);
      if ids != [] {
        result := SelectProviders(lower, mode, u, providers, ids);
        return;
      }
    }
    AllKept(lower, mode, u, providers);
    return Ok(providers);
  }

  method TrimmedIDs(ids: seq<string>) returns (trimmed: set<string>)
    ensures trimmed == set i | 0 <= i < |ids| :: TrimSpace(ids[i])
  {
    trimmed := {};
    for i := 0 to |ids|
      invariant trimmed == set k | 0 <= k < i :: TrimSpace(ids[k])
    {
      trimmed := trimmed + {TrimSpace(ids[i])};
    }
  }

  /** The positions of the engines with these identifiers, ascending. */
  method Positions(engines: seq<string>, ids: set<string>) returns (chosen: seq<nat>)
    ensures forall i, j | 0 <= i < j < |chosen| :: chosen[i] < chosen[j]
    ensures forall k: nat :: k in chosen <==> k < |engines| && TrimSpace(engines[k]) in ids
  {
    chosen := [];
    for k := 0 to |engines|
      invariant forall i | 0 <= i < |chosen| :: chosen[i] < k && TrimSpace(engines[chosen[i]]) in ids
      invariant forall i, j | 0 <= i < j < |chosen| :: chosen[i] < chosen[j]
      invariant forall n: nat | n < k && TrimSpace(engines[n]) in ids :: n in chosen
    {
      if TrimSpace(engines[k]) in ids { chosen := chosen + [k]; }
    }
  }

  /** The router's answer, brought back to the configured engines. */
  method RoutedEngines(lower: Lower, mode: Mode, providers: seq<string>, u: User) returns (result: Result<seq<nat>>)
    requires Usable(lower, providers)
    ensures IsSelection(lower, mode, providers, u, result)
  {
    var answer := EnginesForChecked(lower, mode, providers, u);
    if answer.Err? {
      return Err;
    }
    var selected := TrimmedIDs(answer.value);
    var chosen := Positions(providers, selected);
    forall k: nat ensures k in chosen <==> k < |providers| && RoutedTo(lower, mode, u, providers[k]) {
      if k < |providers| { SelectedById(lower, mode, providers, u, answer.value, k); }
    }
    return Ok(chosen);
  }

  lemma SelectedById(lower: Lower, mode: Mode, providers: seq<string>, u: User, answer: seq<string>, k: nat)
    requires Usable(lower, providers) && k < |providers| && answer == Kept(lower, mode, u, providers)
    ensures TrimSpace(providers[k]) in (set i | 0 <= i < |answer| :: TrimSpace(answer[i])) <==> RoutedTo(lower, mode, u, providers[k])
  {
    KeptMeans(lower, mode, u, providers);
    if RoutedTo(lower, mode, u, providers[k]) {
      assert providers[k] in providers;
      var i :| 0 <= i < |answer| && answer[i] == providers[k];
    }
    if TrimSpace(providers[k]) in (set i | 0 <= i < |answer| :: TrimSpace(answer[i])) {
      var i :| 0 <= i < |answer| && TrimSpace(answer[i]) == TrimSpace(providers[k]);
      assert answer[i] in answer;
      assert Normalize(lower, answer[i]) == Normalize(lower, providers[k]);
    }
  }

  lemma PositionsOnce(a: seq<nat>, k: nat)
    requires (forall i, j | 0 <= i < j < |a| :: a[i] < a[j]) && k < |a|
    ensures a[k] !in a[..k]
  {
  }

  /** Every engine gets its users, all of them, each once and in order; one user that cannot be routed fails the whole call. */
  method UserBatches(lower: Lower, mode: Mode, providers: seq<string>, users: seq<User>) returns (result: Result<seq<seq<User>>>)
    requires Usable(lower, providers)
    ensures result.Ok? <==> forall u | u in users :: Routable(lower, mode, providers, u)
    ensures result.Ok? ==>
              && |result.value| == |providers|
              && forall i | 0 <= i < |providers| :: result.value[i] == UsersOf(lower, mode, providers[i], users)
  {
    var batches: seq<seq<User>> := seq(|providers|, i => []);
    for n := 0 to |users|
      invariant |batches| == |providers|
      invariant forall i | 0 <= i < |providers| :: batches[i] == UsersOf(lower, mode, providers[i], users[..n])
      invariant forall u | u in users[..n] :: Routable(lower, mode, providers, u)
    {
      var u := users[n];
      assert u in users && users[..n + 1][..n] == users[..n];
      var targets := RoutedEngines(lower, mode, providers, u);
      if targets.Err? {
        return Err;
      }
      batches := Append(batches, targets.value, u);
    }
    assert users[..|users|] == users;
    return Ok(batches);
  }

  /** The user at the end of each of these batches. */
  method Append(batches: seq<seq<User>>, targets: seq<nat>, u: User) returns (r: seq<seq<User>>)
    requires (forall i, j | 0 <= i < j < |targets| :: targets[i] < targets[j]) && forall k | k in targets :: k < |batches|
    ensures |r| == |batches|
    ensures forall i | 0 <= i < |batches| :: r[i] == if i in targets then batches[i] + [u] else batches[i]
  {
    r := batches;
    for k := 0 to |targets|
      invariant |r| == |batches|
      invariant forall i | 0 <= i < |batches| :: r[i] == if i in targets[..k] then batches[i] + [u] else batches[i]
    {
      PositionsOnce(targets, k);
      assert targets[k] in targets && targets[..k + 1] == targets[..k] + [targets[k]];
      r := r[targets[k] := r[targets[k]] + [u]];
    }
    assert targets[..|targets|] == targets;
  }
}
