/** Replies of several engines merged: the answer does not depend on the order in which they arrive. */
module FanOut {
  import opened Common
  import opened Ordering

  datatype Reply<T> = Reply(index: nat, answer: Result<T>)

  /** One reply per engine, in any order. */
  ghost predicate Complete<T>(n: nat, arrivals: seq<Reply<T>>) {
    && |arrivals| == n
    && (forall r | r in arrivals :: r.index < n)
    && (forall i, j | 0 <= i < j < n :: arrivals[i].index != arrivals[j].index)
  }

  /** What the engine at a place answered; the last word if there were several. */
  function AnswerOf<T>(arrivals: seq<Reply<T>>, i: nat): Result<T> {
    if arrivals == [] then Err
    else if arrivals[|arrivals| - 1].index == i then arrivals[|arrivals| - 1].answer
    else AnswerOf(arrivals[..|arrivals| - 1], i)
  }

  /** The answers in engine order. */
  function Answers<T>(n: nat, arrivals: seq<Reply<T>>): seq<Result<T>> {
    seq(n, i requires 0 <= i < n => AnswerOf(arrivals, i))
  }

  lemma {:induction false} AnswerIs<T>(arrivals: seq<Reply<T>>, r: Reply<T>)
    requires (forall i, j | 0 <= i < j < |arrivals| :: arrivals[i].index != arrivals[j].index) && r in arrivals
    ensures AnswerOf(arrivals, r.index) == r.answer
  {
    var init, last := arrivals[..|arrivals| - 1], arrivals[|arrivals| - 1];
    if last.index == r.index {
      var i :| 0 <= i < |arrivals| && arrivals[i] == r;
    } else {
      assert arrivals == init + [last];
      AnswerIs(init, r);
    }
  }

  /** Each reply goes to the slot of its engine. */
  method Collect<T>(n: nat, arrivals: seq<Reply<T>>) returns (slots: seq<Result<T>>)
    requires Complete(n, arrivals)
    ensures slots == Answers(n, arrivals)
    ensures forall r | r in arrivals :: slots[r.index] == r.answer
  {
    slots := seq(n, i => Err);
    for k := 0 to n
      invariant slots == Answers(n, arrivals[..k])
    {
      assert arrivals[k] in arrivals && arrivals[..k + 1][..k] == arrivals[..k];
      slots := slots[arrivals[k].index := arrivals[k].answer];
    }
    assert arrivals[..n] == arrivals;
    forall r | r in arrivals ensures slots[r.index] == r.answer { AnswerIs(arrivals, r); }
  }

  /** The engines that failed, in engine order. */
  function Failures<T>(slots: seq<Result<T>>): seq<nat> {
    if slots == [] then []
    else
      var before, last := Failures(slots[..|slots| - 1]), |slots| - 1;
      if slots[last].Err? then before + [last] else before
  }

  lemma {:induction false} FailuresMean<T>(slots: seq<Result<T>>)
    ensures forall i: nat :: i in Failures(slots) <==> i < |slots| && slots[i].Err?
    ensures forall i, j | 0 <= i < j < |Failures(slots)| :: Failures(slots)[i] < Failures(slots)[j]
  {
    if slots != [] {
      FailuresMean(slots[..|slots| - 1]);
      var before := Failures(slots[..|slots| - 1]);
      forall k | 0 <= k < |before| ensures before[k] < |slots| - 1 { assert before[k] in before; }
    }
  }

  /** The errors joined in the answer: exactly the engines whose reply is an error, in engine order. */
  method JoinErrors<T>(slots: seq<Result<T>>) returns (failed: seq<nat>)
    ensures failed == Failures(slots)
  {
    failed := [];
    for i := 0 to |slots|
      invariant failed == Failures(slots[..i])
    {
      assert slots[..i + 1][..i] == slots[..i];
      if slots[i].Err? { failed := failed + [i]; }
    }
    assert slots[..|slots|] == slots;
  }

  ghost function Range(n: nat): (r: set<nat>)
    ensures |r| == n && forall k: nat :: k in r <==> k < n
  {
    if n == 0 then {} else Range(n - 1) + {n - 1}
  }

  lemma IndicesAll<T>(n: nat, arrivals: seq<Reply<T>>, i: nat)
    requires Complete(n, arrivals) && i < n
    ensures exists r | r in arrivals :: r.index == i
  {
    var indices: seq<nat> := seq(n, k requires 0 <= k < n => arrivals[k].index);
    var used := set x | x in indices;
    DistinctSize(indices);
    forall x | x in used ensures x in Range(n) {
      var k :| 0 <= k < n && indices[k] == x;
      assert arrivals[k] in arrivals;
    }
    SubsetSize(used, Range(n));
    assert i in used;
    var k :| 0 <= k < n && indices[k] == i;
    assert arrivals[k] in arrivals;
  }

  /** The answers are the same whatever the order of arrival. */
  lemma ArrivalOrder<T>(n: nat, a: seq<Reply<T>>, b: seq<Reply<T>>)
    requires Complete(n, a) && Complete(n, b) && multiset(a) == multiset(b)
    ensures Answers(n, a) == Answers(n, b)
  {
    forall i | 0 <= i < n ensures AnswerOf(a, i) == AnswerOf(b, i) {
      IndicesAll(n, a, i);
      var r :| r in a && r.index == i;
      assert r in multiset(a) && r in b;
      AnswerIs(a, r);
      AnswerIs(b, r);
    }
  }

  // ---------------------------------------------------------------- traffic

  datatype Stat = Stat(email: string, up: int, down: int)

  /** All that the engines which answered report, in engine order. */
  function Reported<T>(slots: seq<Result<seq<T>>>): seq<T> {
    if slots == [] then []
    else
      var last := slots[|slots| - 1];
      Reported(slots[..|slots| - 1]) + if last.Ok? then last.value else []
  }

  function Up(stats: seq<Stat>, email: string): int {
    if stats == [] then 0
    else Up(stats[..|stats| - 1], email) + if stats[|stats| - 1].email == email then stats[|stats| - 1].up else 0
  }

  function Down(stats: seq<Stat>, email: string): int {
    if stats == [] then 0
    else Down(stats[..|stats| - 1], email) + if stats[|stats| - 1].email == email then stats[|stats| - 1].down else 0
  }

  predicate Reports(stats: seq<Stat>, email: string) {
    exists s | s in stats :: s.email == email
  }

  ghost predicate Totals(merged: map<string, Stat>, stats: seq<Stat>) {
    forall e ::
      && (e in merged <==> Reports(stats, e))
      && (e in merged ==> merged[e] == Stat(e, Up(stats, e), Down(stats, e)))
  }

  lemma AddTotal(merged: map<string, Stat>, stats: seq<Stat>, s: Stat)
    requires Totals(merged, stats)
    ensures var was := if s.email in merged then merged[s.email] else Stat(s.email, 0, 0);
            Totals(merged[s.email := Stat(s.email, was.up + s.up, was.down + s.down)], stats + [s])
  {
    var longer := stats + [s];
    assert longer[..|longer| - 1] == stats && s in longer;
    forall e ensures Reports(longer, e) <==> Reports(stats, e) || e == s.email {
      if Reports(stats, e) { var x :| x in stats && x.email == e; assert x in longer; }
    }
    if s.email !in merged { NoTotal(stats, s.email); }
  }

  lemma {:induction false} NoTotal(stats: seq<Stat>, email: string)
    requires !Reports(stats, email)
    ensures Up(stats, email) == 0 && Down(stats, email) == 0
  {
    if stats != [] {
      var init := stats[..|stats| - 1];
      assert stats[|stats| - 1] in stats;
      assert forall s | s in init :: s in stats;
      NoTotal(init, email);
    }
  }

  /** One entry per reported e-mail, sorted, with the sums over all engines that answered. */
  ghost predicate IsMerged(stats: seq<Stat>, out: seq<Stat>) {
    && StrictlySorted(out, EmailOf)
    && (forall s | s in out :: Reports(stats, s.email) && s == Stat(s.email, Up(stats, s.email), Down(stats, s.email)))
    && (forall e | Reports(stats, e) :: exists s | s in out :: s.email == e)
  }

  function EmailOf(s: Stat): string {
    s.email
  }

  method MergeStats(slots: seq<Result<seq<Stat>>>) returns (merged: map<string, Stat>)
    ensures Totals(merged, Reported(slots))
  {
    merged := map[];
    for i := 0 to |slots|
      invariant Totals(merged, Reported(slots[..i]))
    {
      assert slots[..i + 1][..i] == slots[..i];
      if slots[i].Ok? {
        merged := AddStats(merged, Reported(slots[..i]), slots[i].value);
      } else {
        assert Reported(slots[..i + 1]) == Reported(slots[..i]);
      }
    }
    assert slots[..|slots|] == slots;
  }

  /** One engine's report added. */
  method AddStats(totals: map<string, Stat>, ghost before: seq<Stat>, stats: seq<Stat>) returns (merged: map<string, Stat>)
    requires Totals(totals, before)
    ensures Totals(merged, before + stats)
  {
    merged := totals;
    assert before + stats[..0] == before;
    for k := 0 to |stats|
      invariant Totals(merged, before + stats[..k])
    {
      var s := stats[k];
      AddTotal(merged, before + stats[..k], s);
      assert before + stats[..k + 1] == before + stats[..k] + [s];
      var was := if s.email in merged then merged[s.email] else Stat(s.email, 0, 0);
      merged := merged[s.email := Stat(s.email, was.up + s.up, was.down + s.down)];
    }
    assert stats[..|stats|] == stats;
  }

  /** The statistics of all engines, and the engines that failed. */
  method QueryStats(n: nat, arrivals: seq<Reply<seq<Stat>>>) returns (out: seq<Stat>, failed: seq<nat>)
    requires Complete(n, arrivals)
    ensures IsMerged(Reported(Answers(n, arrivals)), out)
    ensures failed == Failures(Answers(n, arrivals))
  {
    var collected := Collect(n, arrivals);
    failed := JoinErrors(collected);
    var merged := MergeStats(collected);
    var todo := merged.Keys;
    var unsorted: seq<Stat> := [];
    while todo != {}
      invariant todo <= merged.Keys
      invariant forall s | s in unsorted :: s.email in merged && s.email !in todo && s == merged[s.email]
      invariant forall e | e in merged && e !in todo :: merged[e] in unsorted
      invariant Distinct(unsorted)
    {
      var e :| e in todo;
      assert merged[e].email == e;
      unsorted, todo := unsorted + [merged[e]], todo - {e};
    }
    out := Sort(unsorted, EmailOf);
    SortedMerge(Reported(collected), merged, unsorted, out);
  }

  lemma SortedMerge(stats: seq<Stat>, merged: map<string, Stat>, unsorted: seq<Stat>, out: seq<Stat>)
    requires Totals(merged, stats)
    requires Distinct(unsorted) && forall s | s in unsorted :: s.email in merged && s == merged[s.email]
    requires forall e | e in merged :: merged[e] in unsorted
    requires Sorted(out, EmailOf) && multiset(out) == multiset(unsorted)
    ensures IsMerged(stats, out)
  {
    forall s ensures s in out <==> s in unsorted { assert s in multiset(out) <==> s in multiset(unsorted); }
    MultisetDistinct(unsorted);
    MultisetDistinct(out);
    forall i, j | 0 <= i < j < |out| ensures EmailOf(out[i]) != EmailOf(out[j]) {
      assert out[i] in unsorted && out[j] in unsorted;
    }
    SortedDistinct(out, EmailOf);
    forall e | Reports(stats, e) ensures exists s | s in out :: s.email == e {
      assert merged[e] in out && merged[e].email == e;
    }
  }

  /** The merged answer is determined by what was reported. */
  lemma MergedIsUnique(stats: seq<Stat>, a: seq<Stat>, b: seq<Stat>)
    requires IsMerged(stats, a) && IsMerged(stats, b)
    ensures a == b
  {
    forall s ensures s in a <==> s in b {
      if s in a { var t :| t in b && t.email == s.email; }
      if s in b { var t :| t in a && t.email == s.email; }
    }
    SortedIsUnique(a, b, EmailOf);
  }

  /** The answer to a query, errors included, is the same for every order of arrival. */
  lemma StatsOrder(n: nat, a: seq<Reply<seq<Stat>>>, b: seq<Reply<seq<Stat>>>, out: seq<Stat>, other: seq<Stat>)
    requires Complete(n, a) && Complete(n, b) && multiset(a) == multiset(b)
    requires IsMerged(Reported(Answers(n, a)), out) && IsMerged(Reported(Answers(n, b)), other)
    ensures out == other && Failures(Answers(n, a)) == Failures(Answers(n, b))
  {
    ArrivalOrder(n, a, b);
    MergedIsUnique(Reported(Answers(n, a)), out, other);
  }

  // ---------------------------------------------------------------- no traffic is lost or counted twice

  function Bytes(s: Stat, up: bool): int {
    if up then s.up else s.down
  }

  function Total(stats: seq<Stat>, up: bool): int {
    if stats == [] then 0 else Total(stats[..|stats| - 1], up) + Bytes(stats[|stats| - 1], up)
  }

  function Of(stats: seq<Stat>, email: string, up: bool): int {
    if up then Up(stats, email) else Down(stats, email)
  }

  function OfAll(stats: seq<Stat>, emails: seq<string>, up: bool): int {
    if emails == [] then 0 else OfAll(stats, emails[..|emails| - 1], up) + Of(stats, emails[|emails| - 1], up)
  }

  lemma {:induction false} OneMoreStat(stats: seq<Stat>, emails: seq<string>, up: bool)
    requires stats != [] && Distinct(emails)
    ensures var init, last := stats[..|stats| - 1], stats[|stats| - 1];
            OfAll(stats, emails, up) == OfAll(init, emails, up) + if last.email in emails then Bytes(last, up) else 0
    decreases |emails|
  {
    if emails != [] {
      var rest, e := emails[..|emails| - 1], emails[|emails| - 1];
      OneMoreStat(stats, rest, up);
      assert emails == rest + [e] && e !in rest;
    }
  }

  lemma {:induction false} AllOfThem(stats: seq<Stat>, emails: seq<string>, up: bool)
    requires Distinct(emails) && forall s | s in stats :: s.email in emails
    ensures OfAll(stats, emails, up) == Total(stats, up)
    decreases |stats|
  {
    if stats == [] {
      NoneOfThem(emails, up);
    } else {
      assert stats[|stats| - 1] in stats;
      OneMoreStat(stats, emails, up);
      AllOfThem(stats[..|stats| - 1], emails, up);
    }
  }

  lemma {:induction false} NoneOfThem(emails: seq<string>, up: bool)
    ensures OfAll([], emails, up) == 0
  {
    if emails != [] { NoneOfThem(emails[..|emails| - 1], up); }
  }

  lemma {:induction false} TotalOfMerged(stats: seq<Stat>, out: seq<Stat>, up: bool)
    requires forall s | s in out :: s == Stat(s.email, Up(stats, s.email), Down(stats, s.email))
    ensures Total(out, up) == OfAll(stats, Emails(out), up)
    decreases |out|
  {
    if out != [] {
      assert out[|out| - 1] in out;
      assert Emails(out)[..|out| - 1] == Emails(out[..|out| - 1]);
      TotalOfMerged(stats, out[..|out| - 1], up);
    }
  }

  function Emails(stats: seq<Stat>): seq<string> {
    seq(|stats|, i requires 0 <= i < |stats| => stats[i].email)
  }

  /** The merged statistics add up to what the engines that answered reported, in both directions. */
  lemma TrafficIsConserved(stats: seq<Stat>, out: seq<Stat>, up: bool)
    requires IsMerged(stats, out)
    ensures Total(out, up) == Total(stats, up)
  {
    var emails := Emails(out);
    forall i, j | 0 <= i < j < |emails| ensures emails[i] != emails[j] { LessIrreflexive(out[i].email); }
    forall s | s in stats ensures s.email in emails {
      assert Reports(stats, s.email);
      var o :| o in out && o.email == s.email;
      var i :| 0 <= i < |out| && out[i] == o;
      assert emails[i] == s.email;
    }
    TotalOfMerged(stats, out, up);
    AllOfThem(stats, emails, up);
  }

  // ---------------------------------------------------------------- users

  datatype Account = Account(email: string, payload: string)

  function AccountEmail(a: Account): string {
    a.email
  }

  /** The first account reported for an e-mail. */
  function First(accounts: seq<Account>, email: string): Option<Account> {
    if accounts == [] then None
    else
      var before, last := First(accounts[..|accounts| - 1], email), accounts[|accounts| - 1];
      if before.Some? then before else if last.email == email then Some(last) else None
  }

  lemma {:induction false} FirstMeans(accounts: seq<Account>, email: string)
    ensures First(accounts, email).Some? <==> exists a | a in accounts :: a.email == email
    ensures First(accounts, email).Some? ==> First(accounts, email).value.email == email
  {
    if accounts != [] {
      var init, last := accounts[..|accounts| - 1], accounts[|accounts| - 1];
      FirstMeans(init, email);
      assert accounts == init + [last];
      if First(init, email).Some? { var a :| a in init && a.email == email; assert a in accounts; }
      if last.email == email { assert last in accounts; }
    }
  }

  lemma {:induction false} FirstIs(accounts: seq<Account>, email: string)
    ensures First(accounts, email).None? ==> forall i | 0 <= i < |accounts| :: accounts[i].email != email
    ensures First(accounts, email).Some? ==>
              exists i | 0 <= i < |accounts| ::
                accounts[i] == First(accounts, email).value && accounts[i].email == email
                && forall j | 0 <= j < i :: accounts[j].email != email
  {
    if accounts != [] {
      var init := accounts[..|accounts| - 1];
      FirstIs(init, email);
      if First(init, email).Some? {
        var i :| 0 <= i < |init| && init[i] == First(init, email).value && init[i].email == email
                 && forall j | 0 <= j < i :: init[j].email != email;
        assert accounts[i] == init[i] && forall j | 0 <= j < i :: accounts[j] == init[j];
      } else if First(accounts, email).Some? {
        assert forall j | 0 <= j < |init| :: accounts[j] == init[j];
        assert accounts[|init|].email == email;
      }
    }
  }

  /** Each reported e-mail once, sorted, with the account of the first engine that reports it. */
  ghost predicate IsUnion(accounts: seq<Account>, out: seq<Account>) {
    && StrictlySorted(out, AccountEmail)
    && forall a :: a in out <==> First(accounts, a.email) == Some(a)
  }

  /** The accounts kept so far: the first of each e-mail. */
  ghost predicate Firsts(kept: seq<Account>, seen: set<string>, accounts: seq<Account>) {
    && (forall i, j | 0 <= i < j < |kept| :: kept[i].email != kept[j].email)
    && (forall a :: a in kept <==> First(accounts, a.email) == Some(a))
    && (forall e :: e in seen <==> First(accounts, e).Some?)
  }

  lemma KeepFirst(kept: seq<Account>, seen: set<string>, accounts: seq<Account>, a: Account, kept': seq<Account>, seen': set<string>)
    requires Firsts(kept, seen, accounts)
    requires kept' == (if a.email in seen then kept else kept + [a]) && seen' == seen + {a.email}
    ensures Firsts(kept', seen', accounts + [a])
  {
    var longer := accounts + [a];
    assert longer[..|longer| - 1] == accounts;
    forall e ensures First(longer, e) == if First(accounts, e).Some? then First(accounts, e) else if e == a.email then Some(a) else None {}
    forall k | k in kept && a.email !in seen ensures k.email != a.email { assert First(accounts, k.email) == Some(k); }
    forall x ensures x in kept' <==> First(longer, x.email) == Some(x) {
      if First(accounts, x.email).Some? { FirstMeans(accounts, x.email); }
    }
  }

  method KeepFirsts(slots: seq<Result<seq<Account>>>) returns (kept: seq<Account>)
    ensures exists seen :: Firsts(kept, seen, Reported(slots))
  {
    kept := [];
    var seen: set<string> := {};
    for i := 0 to |slots|
      invariant Firsts(kept, seen, Reported(slots[..i]))
    {
      assert slots[..i + 1][..i] == slots[..i];
      if slots[i].Ok? {
        kept, seen := AddAccounts(kept, seen, Reported(slots[..i]), slots[i].value);
      } else {
        assert Reported(slots[..i + 1]) == Reported(slots[..i]);
      }
    }
    assert slots[..|slots|] == slots;
  }

  /** One engine's list added. */
  method AddAccounts(accounts: seq<Account>, emails: set<string>, ghost before: seq<Account>, users: seq<Account>)
    returns (kept: seq<Account>, seen: set<string>)
    requires Firsts(accounts, emails, before)
    ensures Firsts(kept, seen, before + users)
  {
    kept, seen := accounts, emails;
    assert before + users[..0] == before;
    for k := 0 to |users|
      invariant Firsts(kept, seen, before + users[..k])
    {
      assert before + users[..k + 1] == before + users[..k] + [users[k]];
      ghost var kept0, seen0 := kept, seen;
      if users[k].email !in seen {
        kept := kept + [users[k]];
      }
      seen := seen + {users[k].email};
      KeepFirst(kept0, seen0, before + users[..k], users[k], kept, seen);
    }
    assert users[..|users|] == users;
  }

  /** The users of all engines, and the engines that failed. */
  method ListUsers(n: nat, arrivals: seq<Reply<seq<Account>>>) returns (out: seq<Account>, failed: seq<nat>)
    requires Complete(n, arrivals)
    ensures IsUnion(Reported(Answers(n, arrivals)), out)
    ensures failed == Failures(Answers(n, arrivals))
  {
    var collected := Collect(n, arrivals);
    failed := JoinErrors(collected);
    var kept := KeepFirsts(collected);
    out := Sort(kept, AccountEmail);
    SortedUnion(Reported(collected), kept, out);
  }

  lemma SortedUnion(accounts: seq<Account>, kept: seq<Account>, out: seq<Account>)
    requires exists seen :: Firsts(kept, seen, accounts)
    requires Sorted(out, AccountEmail) && multiset(out) == multiset(kept)
    ensures IsUnion(accounts, out)
  {
    forall a ensures a in out <==> a in kept { assert a in multiset(out) <==> a in multiset(kept); }
    assert Distinct(kept);
    MultisetDistinct(kept);
    MultisetDistinct(out);
    forall i, j | 0 <= i < j < |out| ensures AccountEmail(out[i]) != AccountEmail(out[j]) {
      assert out[i] in kept && out[j] in kept && out[i] != out[j];
    }
    SortedDistinct(out, AccountEmail);
  }

  /** The list of users, errors included, is the same for every order of arrival. */
  lemma UsersOrder(n: nat, a: seq<Reply<seq<Account>>>, b: seq<Reply<seq<Account>>>, out: seq<Account>, other: seq<Account>)
    requires Complete(n, a) && Complete(n, b) && multiset(a) == multiset(b)
    requires IsUnion(Reported(Answers(n, a)), out) && IsUnion(Reported(Answers(n, b)), other)
    ensures out == other && Failures(Answers(n, a)) == Failures(Answers(n, b))
  {
    ArrivalOrder(n, a, b);
    SortedIsUnique(out, other, AccountEmail);
  }
}
