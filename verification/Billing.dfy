/** Payment status changes and the credit that goes with completion. */
module Billing {
  import opened Common

  type PaymentId = int
  type UserId = string

  datatype Payment = Payment(user: UserId, amount: int, plan: Option<int>, channel: string, status: string)

  datatype Books = Books(payments: map<PaymentId, Payment>, balances: map<UserId, int>)

  const COMPLETED := "completed"

  /** A provider's word for success. */
  predicate Success(status: string) {
    status == "success" || status == "SUCCESS" || status == "CONFIRMED" || status == "COMPLETED"
  }

  function Mapped(status: string): string {
    if Success(status) then COMPLETED else status
  }

  /** Balances never go below zero. */
  function Adjust(balances: map<UserId, int>, user: UserId, amount: int): map<UserId, int> {
    if user !in balances then balances
    else balances[user := if balances[user] + amount < 0 then 0 else balances[user] + amount]
  }

  /** A completed payment credits the balance, unless it pays for a plan or was paid from the balance. */
  predicate Credits(p: Payment) {
    p.plan.None? && p.channel != "balance"
  }

  function SetStatus(b: Books, id: PaymentId, status: string): Books
    requires id in b.payments
  {
    b.(payments := b.payments[id := b.payments[id].(status := status)])
  }

  /** The status change and its credit, in one transaction. */
  function Change(b: Books, id: PaymentId, status: string): Books
    requires id in b.payments
  {
    var p, changed := b.payments[id], SetStatus(b, id, status);
    if status == COMPLETED && Credits(p) then changed.(balances := Adjust(b.balances, p.user, p.amount)) else changed
  }

  /** Which rows a status update applies to. */
  predicate Applies(status: string, expected: seq<string>, current: string) {
    if expected != [] then current in expected else status == COMPLETED ==> current != COMPLETED
  }

  /** A provider callback between its read of the payment and its conditional update. */
  datatype Reading = Reading(id: PaymentId, payment: Payment, status: string)

  /** The books and the callbacks in flight. */
  datatype Desk = Desk(books: Books, pending: seq<Reading>)

  datatype Action =
    | Read(id: PaymentId, status: string)
    | Write(i: nat)
    | RollBack(i: nat)
    | Update(id: PaymentId, status: string, expected: seq<string>)

  /** What a callback goes on with: nothing, if the payment is missing, completed or in that status already. */
  function Noted(b: Books, id: PaymentId, status: string): Option<Reading> {
    if id !in b.payments || b.payments[id].status == Mapped(status) || b.payments[id].status == COMPLETED then None
    else Some(Reading(id, b.payments[id], Mapped(status)))
  }

  /** The conditional update, and the credit of the payment as it was read. */
  function Written(b: Books, r: Reading): Books {
    if r.id !in b.payments || b.payments[r.id].status == COMPLETED then b
    else if r.status == COMPLETED && Credits(r.payment) then
      SetStatus(b, r.id, r.status).(balances := Adjust(b.balances, r.payment.user, r.payment.amount))
    else SetStatus(b, r.id, r.status)
  }

  function Updated(b: Books, id: PaymentId, status: string, expected: seq<string>): Books {
    if id in b.payments && Applies(status, expected, b.payments[id].status) then Change(b, id, status) else b
  }

  function Step(d: Desk, a: Action): Desk {
    match a
    case Read(id, status) =>
      var noted := Noted(d.books, id, status);
      if noted.Some? then d.(pending := d.pending + [noted.value]) else d
    case Write(i) => if i < |d.pending| then Desk(Written(d.books, d.pending[i]), RemoveAt(d.pending, i)) else d
    case RollBack(i) => if i < |d.pending| then d.(pending := RemoveAt(d.pending, i)) else d
    case Update(id, status, expected) => d.(books := Updated(d.books, id, status, expected))
  }

  function Run(d: Desk, actions: seq<Action>): Desk {
    if actions == [] then d else Step(Run(d, actions[..|actions| - 1]), actions[|actions| - 1])
  }

  /** A run of callbacks and updates, interleaved in any way, from these books. */
  function Outcome(b: Books, actions: seq<Action>): Books {
    Run(Desk(b, []), actions).books
  }

  class Ledger {
    var payments: map<PaymentId, Payment>
    var balances: map<UserId, int>

    function Contents(): Books
      reads this
    {
      Books(payments, balances)
    }

    constructor (b: Books)
      ensures Contents() == b
    {
      payments, balances := b.payments, b.balances;
    }

    /** UPDATE ... WHERE id = ? AND status ...; whether a row was affected. */
    method UpdateStatus(id: PaymentId, status: string, expected: seq<string>) returns (updated: bool)
      modifies this`payments
      ensures updated <==> id in old(payments) && Applies(status, expected, old(payments)[id].status)
      ensures payments == if updated then old(payments)[id := old(payments)[id].(status := status)] else old(payments)
    {
      updated := id in payments && Applies(status, expected, payments[id].status);
      if updated { payments := payments[id := payments[id].(status := status)]; }
    }

    method UpdateStatusIfNotCompleted(id: PaymentId, status: string) returns (updated: bool)
      modifies this`payments
      ensures updated <==> id in old(payments) && old(payments)[id].status != COMPLETED
      ensures payments == if updated then old(payments)[id := old(payments)[id].(status := status)] else old(payments)
    {
      updated := id in payments && payments[id].status != COMPLETED;
      if updated { payments := payments[id := payments[id].(status := status)]; }
    }

    method AdjustBalance(user: UserId, amount: int)
      modifies this`balances
      ensures balances == Adjust(old(balances), user, amount)
      ensures balances.Keys == old(balances).Keys && forall u | u in balances ::
                balances[u] == (if u != user then old(balances)[u] else if old(balances)[u] + amount > 0 then old(balances)[u] + amount else 0)
    {
      if user in balances {
        balances := balances[user := if balances[user] + amount < 0 then 0 else balances[user] + amount];
      }
    }

    /** The first half of a callback: the payment is looked up, without a lock. A missing payment is an error. */
    method Lookup(id: PaymentId, status: string) returns (noted: Result<Option<Reading>>)
      ensures noted.Err? <==> id !in payments
      ensures noted.Ok? ==> noted.value == Noted(Contents(), id, status)
    {
      var mapped := if Success(status) then COMPLETED else status;
      if id !in payments {
        return Err;
      }
      var payment := payments[id];
      if payment.status == mapped || payment.status == COMPLETED {
        return Ok(None);
      }
      return Ok(Some(Reading(id, payment, mapped)));
    }

    /** The second half, whatever happened since: only a row that the update affects is credited. */
    method Finish(r: Reading) returns (completed: bool)
      modifies this
      ensures Contents() == Written(old(Contents()), r)
      ensures completed <==> r.id in old(payments) && old(payments)[r.id].status != COMPLETED && r.status == COMPLETED
    {
      var updated := UpdateStatusIfNotCompleted(r.id, r.status);
      if !updated {
        return false;
      }
      if r.status == COMPLETED && Credits(r.payment) { AdjustBalance(r.payment.user, r.payment.amount); }
      return r.status == COMPLETED;
    }

    /** A provider callback for the payment found under its external id, with nothing in between. */
    method ProcessExternalPaymentStatus(id: PaymentId, status: string) returns (completed: Result<bool>)
      modifies this
      ensures completed.Err? <==> id !in old(payments)
      ensures completed == Ok(true) <==>
                && id in old(payments) && old(payments)[id].status != "completed"
                && status in {"success", "SUCCESS", "CONFIRMED", "COMPLETED", "completed"}
      ensures Contents() == Step(Step(Desk(old(Contents()), []), Read(id, status)), Write(0)).books
    {
      var noted := Lookup(id, status);
      if noted.Err? {
        return Err;
      }
      if noted.value.None? {
        return Ok(false);
      }
      var done := Finish(noted.value.value);
      return Ok(done);
    }

    method UpdatePaymentStatus(id: PaymentId, status: string, expected: seq<string>) returns (updated: bool)
      modifies this
      ensures Contents() == Updated(old(Contents()), id, status, expected)
      ensures updated <==> id in old(payments) && Applies(status, expected, old(payments)[id].status)
    {
      updated := UpdateStatus(id, status, expected);
      if updated && status == COMPLETED {
        var payment := payments[id];
        if Credits(payment) { AdjustBalance(payment.user, payment.amount); }
      }
    }
  }

  // ---------------------------------------------------------------- credit exactly once

  /** Keeps completed payments completed. */
  predicate Safe(a: Action) {
    a.Update? ==> COMPLETED !in a.expected && (a.status == COMPLETED || a.expected != [])
  }

  /**
   * What one payment has added to a user's balance between two states of the books: its amount, if it was
   * completed since and is a top-up, neither for a plan nor paid from the balance itself.
   */
  function Share(before: Books, now: Books, id: PaymentId, user: UserId): int {
    if id in before.payments && id in now.payments && before.payments[id].user == user
       && before.payments[id].plan.None? && before.payments[id].channel != "balance"
       && before.payments[id].status != COMPLETED && now.payments[id].status == COMPLETED
    then before.payments[id].amount else 0
  }

  /** The sum over the payments listed. */
  function Due(before: Books, now: Books, ids: seq<PaymentId>, user: UserId): int {
    if ids == [] then 0 else Due(before, now, ids[..|ids| - 1], user) + Share(before, now, ids[|ids| - 1], user)
  }

  /** Balances and amounts are not negative. */
  predicate Solvent(b: Books) {
    && (forall u | u in b.balances :: b.balances[u] >= 0)
    && (forall id | id in b.payments :: b.payments[id].amount >= 0)
  }

  /** Only statuses and balances change. */
  predicate SamePayments(a: Books, b: Books) {
    && a.payments.Keys == b.payments.Keys
    && a.balances.Keys == b.balances.Keys
    && forall id | id in a.payments :: b.payments[id] == a.payments[id].(status := b.payments[id].status)
  }

  predicate StayCompleted(a: Books, b: Books) {
    forall id | id in a.payments && id in b.payments && a.payments[id].status == COMPLETED :: b.payments[id].status == COMPLETED
  }

  /** A callback that brings nothing new leaves nothing to write; any other one goes on with the payment as it read it. */
  lemma NothingNew(d: Desk, id: PaymentId, status: string)
    requires id in d.books.payments
    ensures var p := d.books.payments[id];
            var word := if status in {"success", "SUCCESS", "CONFIRMED", "COMPLETED"} then "completed" else status;
            Step(d, Read(id, status)) ==
              if p.status == "completed" || p.status == word then d else d.(pending := d.pending + [Reading(id, p, word)])
  {
  }

  /** Payments for a plan, and payments from the balance, leave all balances alone, whatever becomes of them. */
  lemma OnlyTopUps(b: Books, r: Reading, id: PaymentId, status: string, expected: seq<string>)
    ensures r.payment.plan.Some? || r.payment.channel == "balance" ==> Written(b, r).balances == b.balances
    ensures id in b.payments && (b.payments[id].plan.Some? || b.payments[id].channel == "balance") ==>
              Updated(b, id, status, expected).balances == b.balances
  {
  }

  lemma {:induction false} DueUnchanged(before: Books, now: Books, next: Books, ids: seq<PaymentId>, user: UserId)
    requires forall id | id in ids :: Share(before, now, id, user) == Share(before, next, id, user)
    ensures Due(before, now, ids, user) == Due(before, next, ids, user)
  {
    if ids != [] {
      assert ids[|ids| - 1] in ids;
      DueUnchanged(before, now, next, ids[..|ids| - 1], user);
    }
  }

  /** One payment's share changes, and only that. */
  lemma {:induction false} DueChanges(before: Books, now: Books, next: Books, ids: seq<PaymentId>, user: UserId, id: PaymentId)
    requires Distinct(ids) && id in ids
    requires forall x | x in ids && x != id :: Share(before, now, x, user) == Share(before, next, x, user)
    ensures Due(before, next, ids, user) == Due(before, now, ids, user) - Share(before, now, id, user) + Share(before, next, id, user)
  {
    var init, last := ids[..|ids| - 1], ids[|ids| - 1];
    assert ids == init + [last];
    if last == id {
      assert id !in init;
      DueUnchanged(before, now, next, init, user);
    } else {
      DueChanges(before, now, next, init, user, id);
    }
  }

  predicate Settled(before: Books, now: Books, ids: seq<PaymentId>) {
    && SamePayments(before, now) && Solvent(now) && StayCompleted(before, now)
    && forall u | u in before.balances && u in now.balances :: now.balances[u] == before.balances[u] + Due(before, now, ids, u)
  }

  lemma ChangeSettles(before: Books, now: Books, ids: seq<PaymentId>, id: PaymentId, status: string)
    requires Settled(before, now, ids) && Distinct(ids) && (forall x :: x in ids <==> x in before.payments)
    requires id in now.payments && now.payments[id].status != COMPLETED
    ensures Settled(before, Change(now, id, status), ids)
  {
    var next := Change(now, id, status);
    forall u | u in before.balances && u in next.balances
      ensures next.balances[u] == before.balances[u] + Due(before, next, ids, u)
    {
      DueChanges(before, now, next, ids, u, id);
    }
  }

  /** What a callback has read is still so, but for the status. */
  predicate Current(b: Books, r: Reading) {
    r.id in b.payments && r.payment == b.payments[r.id].(status := r.payment.status)
  }

  predicate DeskOk(before: Books, d: Desk, ids: seq<PaymentId>) {
    Settled(before, d.books, ids) && forall i | 0 <= i < |d.pending| :: Current(d.books, d.pending[i])
  }

  lemma WriteSettles(before: Books, now: Books, ids: seq<PaymentId>, r: Reading)
    requires Settled(before, now, ids) && Distinct(ids) && (forall x :: x in ids <==> x in before.payments) && Current(now, r)
    ensures Settled(before, Written(now, r), ids)
  {
    if now.payments[r.id].status != COMPLETED {
      assert Written(now, r) == Change(now, r.id, r.status);
      ChangeSettles(before, now, ids, r.id, r.status);
    }
  }

  lemma StaysCurrent(b: Books, c: Books, pending: seq<Reading>)
    requires SamePayments(b, c) && forall i | 0 <= i < |pending| :: Current(b, pending[i])
    ensures forall i | 0 <= i < |pending| :: Current(c, pending[i])
  {
  }

  lemma StepSettles(before: Books, d: Desk, ids: seq<PaymentId>, a: Action)
    requires DeskOk(before, d, ids) && Distinct(ids) && (forall x :: x in ids <==> x in before.payments) && Safe(a)
    ensures DeskOk(before, Step(d, a), ids)
  {
    var e := Step(d, a);
    match a
    case Read(id, status) =>
    case RollBack(i) =>
    case Write(i) =>
      if i < |d.pending| {
        WriteSettles(before, d.books, ids, d.pending[i]);
        StaysCurrent(d.books, e.books, d.pending);
      }
    case Update(id, status, expected) =>
      if e.books != d.books { ChangeSettles(before, d.books, ids, id, status); }
      StaysCurrent(d.books, e.books, d.pending);
  }

  lemma {:induction false} RunSettles(b: Books, actions: seq<Action>, ids: seq<PaymentId>)
    requires Solvent(b) && Distinct(ids) && (forall x :: x in ids <==> x in b.payments) && forall a | a in actions :: Safe(a)
    ensures DeskOk(b, Run(Desk(b, []), actions), ids)
  {
    if actions == [] {
      forall u | u in b.balances ensures Due(b, b, ids, u) == 0 { NothingDue(b, ids, u); }
    } else {
      var init := actions[..|actions| - 1];
      RunSettles(b, init, ids);
      assert actions[|actions| - 1] in actions;
      StepSettles(b, Run(Desk(b, []), init), ids, actions[|actions| - 1]);
    }
  }

  /**
   * Over any interleaving of provider callbacks, read and update apart, with status updates that keep
   * completed payments completed, a balance is its start plus the amounts of the user's payments
   * completed since, each once.
   */
  lemma CreditedOnce(b: Books, actions: seq<Action>, ids: seq<PaymentId>)
    requires Solvent(b) && Distinct(ids) && (forall x :: x in ids <==> x in b.payments) && forall a | a in actions :: Safe(a)
    ensures Settled(b, Outcome(b, actions), ids)
  {
    RunSettles(b, actions, ids);
  }

  /** Of two callbacks that both read the payment open, the second to write finds it completed and does nothing. */
  lemma SecondWriteIsRefused(d: Desk, i: nat, j: nat)
    requires i < j < |d.pending| && d.pending[i].id == d.pending[j].id && d.pending[i].status == COMPLETED
    ensures Step(Step(d, Write(i)), Write(j - 1)).books == Step(d, Write(i)).books
  {
    var e := Step(d, Write(i));
    assert e.pending[j - 1] == d.pending[j];
  }

  lemma {:induction false} NothingDue(b: Books, ids: seq<PaymentId>, user: UserId)
    ensures Due(b, b, ids, user) == 0
  {
    if ids != [] { NothingDue(b, ids[..|ids| - 1], user); }
  }

  // ---------------------------------------------------------------- the condition is exact

  function OnePayment(status: string): Books {
    Books(map[1 := Payment("u", 5, None, "card", status)], map["u" := 0])
  }

  lemma RunOne(d: Desk, actions: seq<Action>, a: Action)
    ensures Run(d, actions + [a]) == Step(Run(d, actions), a)
  {
    assert (actions + [a])[..|actions|] == actions;
  }

  /** One callback, read and written. */
  function Callback(): seq<Action> {
    [Read(1, "success"), Write(0)]
  }

  lemma CallbackRuns(d: Desk, actions: seq<Action>)
    ensures Run(d, actions + Callback()) == Step(Step(Run(d, actions), Read(1, "success")), Write(0))
  {
    RunOne(d, actions, Read(1, "success"));
    RunOne(d, actions + [Read(1, "success")], Write(0));
    assert actions + [Read(1, "success")] + [Write(0)] == actions + Callback();
  }

  lemma CallbackCredits(b: Books, status: string)
    requires status != COMPLETED && b.payments == OnePayment(status).payments && "u" in b.balances && b.balances["u"] >= 0
    ensures Step(Step(Desk(b, []), Read(1, "success")), Write(0))
         == Desk(Books(OnePayment(COMPLETED).payments, b.balances["u" := b.balances["u"] + 5]), [])
  {
    var r := Reading(1, b.payments[1], COMPLETED);
    assert Step(Desk(b, []), Read(1, "success")) == Desk(b, [r]);
    assert RemoveAt([r], 0) == [];
    assert b.payments[1 := b.payments[1].(status := COMPLETED)] == OnePayment(COMPLETED).payments;
  }

  /** With any other update, in the right run, one payment is credited twice. */
  lemma UnsafeCreditsTwice(status: string, expected: seq<string>) returns (actions: seq<Action>)
    requires !Safe(Update(1, status, expected))
    ensures forall a | a in actions :: !a.Update? || a == Update(1, status, expected)
    ensures Outcome(OnePayment("pending"), actions).balances == map["u" := 10]
  {
    var b, d, update := OnePayment("pending"), Desk(OnePayment("pending"), []), Update(1, status, expected);
    assert [] + Callback() == Callback();
    CallbackRuns(d, []);
    CallbackCredits(b, "pending");
    var paid := Desk(Books(OnePayment(COMPLETED).payments, map["u" := 5]), []);
    assert Run(d, Callback()) == paid;
    RunOne(d, Callback(), update);
    if status == COMPLETED {
      actions := Callback() + [update];
      assert paid.books.payments[1].status == COMPLETED;
    } else {
      actions := Callback() + [update] + Callback();
      var open := Run(d, Callback() + [update]);
      Reopens(paid.books, status, expected);
      CallbackRuns(d, Callback() + [update]);
      CallbackCredits(open.books, status);
    }
  }

  /** An update that moves a payment out of "completed". */
  lemma Reopens(b: Books, status: string, expected: seq<string>)
    requires status != COMPLETED && (expected == [] || COMPLETED in expected) && b.payments == OnePayment(COMPLETED).payments
    ensures Updated(b, 1, status, expected) == b.(payments := OnePayment(status).payments)
  {
    assert b.payments[1 := b.payments[1].(status := status)] == OnePayment(status).payments;
  }

  /** Each payment is credited once, in all interleavings of callbacks and updates of this kind. */
  ghost predicate AlwaysOnce(status: string, expected: seq<string>) {
    forall b, actions: seq<Action>, ids
      | Solvent(b) && Distinct(ids) && (forall x :: x in ids <==> x in b.payments)
        && (forall a | a in actions :: !a.Update? || a == Update(a.id, status, expected))
      :: Settled(b, Outcome(b, actions), ids)
  }

  /** That holds exactly for updates that leave completed payments alone. */
  lemma OnceExact(status: string, expected: seq<string>)
    ensures AlwaysOnce(status, expected) <==> Safe(Update(1, status, expected))
  {
    if Safe(Update(1, status, expected)) {
      forall b, actions: seq<Action>, ids
        | Solvent(b) && Distinct(ids) && (forall x :: x in ids <==> x in b.payments)
          && (forall a | a in actions :: !a.Update? || a == Update(a.id, status, expected))
        ensures Settled(b, Outcome(b, actions), ids)
      {
        CreditedOnce(b, actions, ids);
      }
    } else {
      var b, ids := OnePayment("pending"), [1];
      var actions := UnsafeCreditsTwice(status, expected);
      var now := Outcome(b, actions);
      assert ids[..0] == [];
      assert Due(b, now, ids, "u") <= 5;
      assert now.balances["u"] != b.balances["u"] + Due(b, now, ids, "u");
      assert Solvent(b) && Distinct(ids) && forall x :: x in ids <==> x in b.payments;
      assert !Settled(b, now, ids);
    }
  }
}
