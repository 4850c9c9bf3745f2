/** The price of a plan: extra devices, upgrade of a running subscription, and the better of two discounts. */
module Pricing {
  import opened Common

  datatype Plan = Plan(basePrice: int, months: int, globalDiscount: int)

  /** A running subscription and the days it has left. */
  datatype Subscription = Subscription(maxDevices: int, remainingDays: real)

  datatype Promo = Promo(id: int, percent: int, active: bool, expires: Option<int>, target: string)

  /** `plan` is None for a request without plan, Some(None) for a plan that is not found. */
  datatype Request = Request(
    amount: int,
    plan: Option<Option<Plan>>,
    maxDevices: int,
    running: Option<Subscription>,
    promo: Option<Promo>,
    platform: string,
    now: int
  )

  datatype Price = Price(amount: int, promo: Option<int>)

  const INCLUDED_DEVICES := 3
  const DEVICE_PRICE := 40

  /** Go's integer division, which truncates toward zero. */
  function Quotient(a: int, b: int): int
    requires b > 0
  {
    if a >= 0 then a / b else -(-a / b)
  }

  /** math.Ceil. */
  function Ceiling(x: real): int {
    -((-x).Floor)
  }

  function ExtraDevices(plan: Plan, devices: int): int {
    if devices > INCLUDED_DEVICES then (devices - INCLUDED_DEVICES) * DEVICE_PRICE * plan.months else 0
  }

  /** Devices added to a subscription with more than a week left are paid for its remaining months. */
  function Upgrade(running: Option<Subscription>, devices: int): int {
    if running.None? || devices <= running.value.maxDevices || running.value.remainingDays <= 7.0 then 0
    else
      var current := if running.value.maxDevices < INCLUDED_DEVICES then INCLUDED_DEVICES else running.value.maxDevices;
      if devices > current then (devices - current) * DEVICE_PRICE * Ceiling(running.value.remainingDays / 30.0) else 0
  }

  function Undiscounted(plan: Plan, running: Option<Subscription>, devices: int): int {
    plan.basePrice + ExtraDevices(plan, devices) + Upgrade(running, devices)
  }

  function Discounted(amount: int, percent: int): int {
    amount - Quotient(amount * percent, 100)
  }

  /** The promo code exists, is active, has not expired and is for this platform. */
  predicate Eligible(promo: Option<Promo>, platform: string, now: int) {
    && promo.Some? && promo.value.active
    && (promo.value.expires.None? || now < promo.value.expires.value)
    && (promo.value.target == "all" || promo.value.target == platform)
  }

  function GlobalPrice(plan: Plan, amount: int): int {
    if plan.globalDiscount > 0 then Discounted(amount, plan.globalDiscount) else amount
  }

  function PromoPrice(r: Request, amount: int): int {
    if Eligible(r.promo, r.platform, r.now) then Discounted(amount, r.promo.value.percent) else amount
  }

  function PlanPrice(r: Request, plan: Plan): int {
    var amount := Undiscounted(plan, r.running, r.maxDevices);
    if GlobalPrice(plan, amount) < PromoPrice(r, amount) then GlobalPrice(plan, amount) else PromoPrice(r, amount)
  }

  method CalculatePrice(r: Request) returns (result: Result<Price>)
    ensures result.Err? <==> r.plan == Some(None)
    ensures r.plan.None? ==> result == Ok(Price(r.amount, if Eligible(r.promo, r.platform, r.now) then Some(r.promo.value.id) else None))
    ensures result.Ok? && r.plan.Some? ==> result.value.amount == PlanPrice(r, r.plan.value.value)
    ensures result.Ok? && r.plan.Some? ==>
              var amount := Undiscounted(r.plan.value.value, r.running, r.maxDevices);
              result.value.promo ==
                if Eligible(r.promo, r.platform, r.now) && PromoPrice(r, amount) <= GlobalPrice(r.plan.value.value, amount)
                then Some(r.promo.value.id) else None
  {
    var final, promoId := r.amount, None;
    if r.plan.Some? {
      if r.plan.value.None? {
        return Err;
      }
      var plan := r.plan.value.value;
      var extra := 0;
      if r.maxDevices > INCLUDED_DEVICES {
        extra := (r.maxDevices - INCLUDED_DEVICES) * DEVICE_PRICE * plan.months;
      }
      if r.running.Some? && r.maxDevices > r.running.value.maxDevices {
        if r.running.value.remainingDays > 7.0 {
          var months := Ceiling(r.running.value.remainingDays / 30.0);
          var current := r.running.value.maxDevices;
          if current < INCLUDED_DEVICES { current := INCLUDED_DEVICES; }
          var added := r.maxDevices - current;
          if added > 0 { extra := extra + added * DEVICE_PRICE * months; }
        }
      }
      var base := plan.basePrice + extra;
      var global := base;
      if plan.globalDiscount > 0 { global := base - Quotient(base * plan.globalDiscount, 100); }
      var promoPrice := base;
      if Eligible(r.promo, r.platform, r.now) {
        promoPrice := base - Quotient(base * r.promo.value.percent, 100);
        promoId := Some(r.promo.value.id);
      }
      if global < promoPrice {
        final, promoId := global, None;
      } else {
        final := promoPrice;
      }
    } else if Eligible(r.promo, r.platform, r.now) {
      promoId := Some(r.promo.value.id);
    }
    return Ok(Price(final, promoId));
  }

  // ---------------------------------------------------------------- what the price satisfies

  /** Prices, months, devices and percentages as they are meant. */
  predicate Sensible(r: Request, plan: Plan) {
    && plan.basePrice >= 0 && plan.months >= 0 && plan.globalDiscount <= 100
    && (r.promo.Some? ==> 0 <= r.promo.value.percent <= 100)
  }

  lemma ProductAtMost(a: int, b: int, percent: int)
    requires a <= b && 0 <= percent
    ensures a * percent <= b * percent
  {
  }

  lemma ShareGrowsSlowly(a: int, b: int, percent: int)
    requires 0 <= a <= b && 0 <= percent <= 100
    ensures 0 <= a * percent / 100 <= b * percent / 100 <= a * percent / 100 + (b - a)
  {
    ProductAtMost(a, b, percent);
    ProductAtMost(percent, 100, b - a);
    assert b * percent == a * percent + (b - a) * percent;
    assert b * percent <= a * percent + (b - a) * 100;
    assert a * percent >= 0;
  }

  /** A discounted price lies between nothing and the full price, and grows with it. */
  lemma DiscountedMeans(a: int, b: int, percent: int)
    requires 0 <= a <= b && 0 <= percent <= 100
    ensures 0 <= Discounted(a, percent) <= a
    ensures Discounted(a, percent) <= Discounted(b, percent)
  {
    ShareGrowsSlowly(0, a, percent);
    ShareGrowsSlowly(a, b, percent);
    assert a * percent >= 0 && b * percent >= 0;
  }

  /** The discount is the percentage of the amount, rounded down to a whole unit. */
  lemma DiscountedExactly(amount: int, percent: int)
    requires amount >= 0 && percent >= 0
    ensures var off := amount - Discounted(amount, percent);
            100 * off <= amount * percent < 100 * off + 100
  {
    ProductAtMost(0, amount, percent);
  }

  lemma CeilingMeans(x: real)
    ensures Ceiling(x) as real - 1.0 < x <= Ceiling(x) as real
  {
  }

  /** Devices past the third cost 40 a month each. */
  lemma ExtraDevicesMean(plan: Plan, devices: int)
    ensures devices <= 3 ==> ExtraDevices(plan, devices) == 0
    ensures devices > 3 ==> ExtraDevices(plan, devices) == 40 * plan.months * (devices - 3)
  {
    if devices > 3 { assert (devices - 3) * 40 * plan.months == 40 * plan.months * (devices - 3); }
  }

  /**
   * Devices added to a running subscription, past those it has and past the third, cost 40 for every month begun
   * of the time left, if more than seven days are left; otherwise nothing is added.
   */
  lemma UpgradeMeans(sub: Subscription, devices: int) returns (months: int)
    ensures 30.0 * (months as real - 1.0) < sub.remainingDays <= 30.0 * months as real
    ensures var added := if sub.maxDevices > 3 then devices - sub.maxDevices else devices - 3;
            Upgrade(Some(sub), devices) == if added > 0 && sub.remainingDays > 7.0 then 40 * months * added else 0
    ensures Upgrade(None, devices) == 0
  {
    months := Ceiling(sub.remainingDays / 30.0);
    CeilingMeans(sub.remainingDays / 30.0);
    var added := if sub.maxDevices > 3 then devices - sub.maxDevices else devices - 3;
    assert added * 40 * months == 40 * months * added;
  }

  /** A promo code that is inactive, expired or for another platform changes nothing. */
  lemma UnusableCode(r: Request, plan: Plan)
    requires r.promo.Some?
    requires var p := r.promo.value;
             !p.active || (p.expires.Some? && p.expires.value <= r.now) || (p.target != "all" && p.target != r.platform)
    ensures PlanPrice(r, plan) == PlanPrice(r.(promo := None), plan)
  {
  }

  /** Any other one lowers the price by its percentage, unless the plan's own discount is better. */
  lemma UsableCode(r: Request, plan: Plan)
    requires r.promo.Some? && r.promo.value.active && (r.promo.value.target == "all" || r.promo.value.target == r.platform)
    requires r.promo.value.expires.Some? ==> r.now < r.promo.value.expires.value
    ensures var amount := Undiscounted(plan, r.running, r.maxDevices);
            var with := Discounted(amount, r.promo.value.percent);
            var without := if plan.globalDiscount > 0 then Discounted(amount, plan.globalDiscount) else amount;
            PlanPrice(r, plan) == if with < without then with else without
  {
  }

  lemma CeilingPositive(days: real)
    requires days > 7.0
    ensures Ceiling(days / 30.0) >= 1
  {
    assert days / 30.0 > 0.0;
  }

  lemma CostGrows(fewer: int, more: int, months: int)
    requires fewer <= more && months >= 0
    ensures fewer * DEVICE_PRICE * months <= more * DEVICE_PRICE * months
    ensures fewer >= 0 ==> fewer * DEVICE_PRICE * months >= 0
  {
    ProductAtMost(fewer * DEVICE_PRICE, more * DEVICE_PRICE, months);
    if fewer >= 0 { ProductAtMost(0, fewer * DEVICE_PRICE, months); }
  }

  lemma ExtraGrows(plan: Plan, fewer: int, more: int)
    requires fewer <= more && plan.months >= 0
    ensures 0 <= ExtraDevices(plan, fewer) <= ExtraDevices(plan, more)
  {
    CostGrows(0, if fewer > INCLUDED_DEVICES then fewer - INCLUDED_DEVICES else 0, plan.months);
    CostGrows(if fewer > INCLUDED_DEVICES then fewer - INCLUDED_DEVICES else 0, if more > INCLUDED_DEVICES then more - INCLUDED_DEVICES else 0, plan.months);
  }

  lemma UpgradeGrows(running: Option<Subscription>, fewer: int, more: int)
    requires fewer <= more
    ensures 0 <= Upgrade(running, fewer) <= Upgrade(running, more)
  {
    if running.Some? && running.value.remainingDays > 7.0 {
      var months := Ceiling(running.value.remainingDays / 30.0);
      CeilingPositive(running.value.remainingDays);
      var current := if running.value.maxDevices < INCLUDED_DEVICES then INCLUDED_DEVICES else running.value.maxDevices;
      CostGrows(0, if fewer > current then fewer - current else 0, months);
      CostGrows(if fewer > current then fewer - current else 0, if more > current then more - current else 0, months);
    }
  }

  lemma UndiscountedGrows(plan: Plan, running: Option<Subscription>, fewer: int, more: int)
    requires fewer <= more && plan.months >= 0 && plan.basePrice >= 0
    ensures 0 <= Undiscounted(plan, running, fewer) <= Undiscounted(plan, running, more)
  {
    ExtraGrows(plan, fewer, more);
    UpgradeGrows(running, fewer, more);
  }

  /**
   * The price lies between nothing and the undiscounted amount, is the smaller of the two discounted
   * prices, and never falls when devices are added.
   */
  lemma PriceMeans(r: Request, plan: Plan, more: int)
    requires Sensible(r, plan) && r.maxDevices <= more
    ensures var amount := Undiscounted(plan, r.running, r.maxDevices);
            && 0 <= PlanPrice(r, plan) <= amount
            && PlanPrice(r, plan) <= GlobalPrice(plan, amount) && PlanPrice(r, plan) <= PromoPrice(r, amount)
            && (PlanPrice(r, plan) == GlobalPrice(plan, amount) || PlanPrice(r, plan) == PromoPrice(r, amount))
    ensures PlanPrice(r, plan) <= PlanPrice(r.(maxDevices := more), plan)
  {
    UndiscountedGrows(plan, r.running, r.maxDevices, more);
    var a, b := Undiscounted(plan, r.running, r.maxDevices), Undiscounted(plan, r.running, more);
    if plan.globalDiscount > 0 { DiscountedMeans(a, b, plan.globalDiscount); }
    if r.promo.Some? { DiscountedMeans(a, b, r.promo.value.percent); }
  }
}
