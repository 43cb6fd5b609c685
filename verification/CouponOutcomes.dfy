/** Which codes are accepted, and the discount or the cash that they give, by their kind. */
module CouponOutcomes {
  import opened Prelude
  import opened Decimals
  import opened Wallets
  import opened Coupons

  /** d is a whole number of units, and the one nearest to x ten-thousandths; a tie goes up. */
  predicate IsNearest(d: int, x: int, unit: int)
    requires 0 < unit
  {
    d % unit == 0 && -unit * 1_0000 <= 2 * (x - d * 1_0000) < unit * 1_0000
  }

  lemma MultiplesAreApart(d: int, e: int, unit: int)
    requires 0 < unit && d % unit == 0 && e % unit == 0 && -unit < d - e < unit
    ensures d == e
  {
    assert d == d / unit * unit && e == e / unit * unit;
    if d / unit < e / unit { MulLe(d / unit + 1, e / unit, unit); }
    if e / unit < d / unit { MulLe(e / unit + 1, d / unit, unit); }
    assert (d / unit + 1) * unit == d / unit * unit + unit && (e / unit + 1) * unit == e / unit * unit + unit;
  }

  lemma NearestIsUnique(d: int, e: int, x: int, unit: int)
    requires 0 < unit && IsNearest(d, x, unit) && IsNearest(e, x, unit)
    ensures d == e
  {
    MultiplesAreApart(d, e, unit);
  }

  /** What the cap leaves of an order's price. */
  function CappedPrice(c: Coupon, final: int): int {
    if c.cap.Some? && c.cap.value != 0 then Min(final, c.cap.value) else final
  }

  /** The discount of an accepted percentage code: the percentage of the price, at most the
      price and the cap, to the nearest unit. `value` counts hundredths of a percent. */
  lemma PercentageDiscount(coupons: map<nat, Coupon>, d: Desk, bill: Bill, user: nat, order: nat, code: nat, facts: Facts,
                           confirmed: int)
    requires 0 < facts.unit && Apply(coupons, d, bill, user, order, code, facts, confirmed).Some?
    requires coupons[code].kind.Percentage?
    ensures var r := Apply(coupons, d, bill, user, order, code, facts, confirmed).value;
            var percent := bill.final * coupons[code].value;
            0 < coupons[code].value <= 100_00
            && IsNearest(r.bill.couponDiscount, Min(percent, CappedPrice(coupons[code], bill.final) * 1_0000), facts.unit)
  {
    hide SumOf, Rounded, Ideal;
    RoundedIsNear(coupons[code], bill.final, facts.unit);
    IdealByKind(coupons[code], bill.final);
  }

  /** The discount of an accepted fixed code: its value, at most the price and the cap, to the
      nearest unit. */
  lemma FixedDiscount(coupons: map<nat, Coupon>, d: Desk, bill: Bill, user: nat, order: nat, code: nat, facts: Facts,
                      confirmed: int)
    requires 0 < facts.unit && Apply(coupons, d, bill, user, order, code, facts, confirmed).Some?
    requires !coupons[code].kind.Percentage?
    ensures var r := Apply(coupons, d, bill, user, order, code, facts, confirmed).value;
            && coupons[code].kind.FixedAmount?
            && IsNearest(r.bill.couponDiscount, Min(coupons[code].value, CappedPrice(coupons[code], bill.final)) * 1_0000,
                         facts.unit)
  {
    hide SumOf, Rounded, Ideal;
    RoundedIsNear(coupons[code], bill.final, facts.unit);
    IdealByKind(coupons[code], bill.final);
  }

  lemma IdealByKind(c: Coupon, final: int)
    ensures c.kind.Percentage? ==> Ideal(c, final) == Min(final * c.value, CappedPrice(c, final) * 1_0000)
    ensures !c.kind.Percentage? ==> Ideal(c, final) == Min(c.value, CappedPrice(c, final)) * 1_0000
  {
  }

  /** The nearest discount to a worth is positive and leaves what is paid and one unit. */
  ghost predicate CanBear(worth: int, final: int, unit: int, confirmed: int)
    requires 0 < unit
  {
    exists d :: 0 < d && IsNearest(d, worth, unit) && confirmed <= final - d && unit <= final - d
  }

  /** The discount a code would give an order can be borne by it. */
  ghost predicate Discounts(c: Coupon, final: int, unit: int, confirmed: int)
    requires 0 < unit
  {
    CanBear(if c.kind.Percentage? then Min(final * c.value, CappedPrice(c, final) * 1_0000)
            else Min(c.value, CappedPrice(c, final)) * 1_0000,
            final, unit, confirmed)
  }

  /** A code is accepted for an open order exactly when nothing was used for the order yet, the
      code is live, open to this order and customer, within both quotas, and gives a discount
      that the order can bear. */
  lemma CodeGoesThrough(coupons: map<nat, Coupon>, d: Desk, bill: Bill, user: nat, order: nat, code: nat, facts: Facts,
                        confirmed: int)
    requires 0 < facts.unit
    ensures Apply(coupons, d, bill, user, order, code, facts, confirmed).Some? <==>
      && bill.coupon.None? && SumOf(d.usages, ForOrder(order)) == 0 && !facts.quoted
      && code in coupons && var c := coupons[code];
      && c.active && facts.campaign && c.from <= facts.now <= c.until
      && (c.kind.FixedAmount? || (c.kind.Percentage? && 0 < c.value <= 100_00))
      && (c.minimum.Some? && c.minimum.value != 0 ==> c.minimum.value <= bill.final)
      && (c.plans == {} || facts.plan in c.plans) && (c.newUsersOnly ==> !facts.known)
      && (c.maxUses.Some? ==> SumOf(d.usages, Of(code)) < c.maxUses.value)
      && SumOf(d.usages, OfUser(code, user)) < c.perUser
      && Discounts(c, bill.final, facts.unit, confirmed)
  {
    hide SumOf, Discounts, Rounded;
    if code in coupons { DiscountsIs(coupons[code], bill.final, facts.unit, confirmed); }
  }

  lemma DiscountsIs(c: Coupon, final: int, unit: int, confirmed: int)
    requires 0 < unit
    ensures Discounts(c, final, unit, confirmed) <==>
      0 < Rounded(c, final, unit) && Max(confirmed, unit) <= final - Rounded(c, final, unit)
  {
    var r := Rounded(c, final, unit);
    IdealByKind(c, final);
    RoundedIsNearest(c, final, unit);
    hide Rounded, Ideal, CappedPrice, IsNearest;
    var worth := Ideal(c, final);
    assert Discounts(c, final, unit, confirmed) == CanBear(worth, final, unit, confirmed);
    if 0 < r {
      assert IsNearest(r, worth, unit);
    }
    if CanBear(worth, final, unit, confirmed) {
      var d :| 0 < d && IsNearest(d, worth, unit) && confirmed <= final - d && unit <= final - d;
      if 0 < worth { NearestIsUnique(d, r, worth, unit); } else { NothingIsNear(d, worth, unit); }
    }
  }

  lemma RoundedIsNearest(c: Coupon, final: int, unit: int)
    requires 0 < unit
    ensures 0 < Ideal(c, final) ==> IsNearest(Rounded(c, final, unit), Ideal(c, final), unit)
    ensures Ideal(c, final) <= 0 ==> Rounded(c, final, unit) == 0
  {
    hide Ideal;
    if 0 < Ideal(c, final) {
      var r := HalfUp(Ideal(c, final), unit * 1_0000);
      assert r * (unit * 1_0000) == r * unit * 1_0000;
      MultipleOf(r, unit);
    }
  }

  lemma NothingIsNear(d: int, x: int, unit: int)
    requires 0 < unit && 0 < d && x <= 0
    ensures !IsNearest(d, x, unit)
  {
  }

  /** A code becomes wallet cash exactly when it is live, unconditional, within both quotas and
      worth something, and then it is worth its value up to its cap. */
  lemma CashGoesThrough(coupons: map<nat, Coupon>, d: Desk, user: nat, code: nat, facts: Facts)
    ensures Redeem(coupons, d, user, code, facts).Some? <==>
      && code in coupons && var c := coupons[code];
      && c.active && c.from <= facts.now <= c.until && c.kind.FixedAmount? && c.plans == {}
      && (c.minimum.Some? ==> c.minimum.value <= 0) && (c.newUsersOnly ==> !facts.known)
      && (c.maxUses.Some? ==> SumOf(d.usages, Of(code)) < c.maxUses.value)
      && SumOf(d.usages, OfUser(code, user)) < c.perUser
      && 0 < c.value && (c.cap.Some? ==> 0 < c.cap.value)
    ensures Redeem(coupons, d, user, code, facts).Some? ==>
      var r, c := Redeem(coupons, d, user, code, facts).value, coupons[code];
      && (r.amount == c.value || c.cap == Some(r.amount))
      && r.amount <= c.value && (c.cap.Some? ==> r.amount <= c.cap.value)
      && r.desk.usages == d.usages + [Usage(r.usage, code, user, None, r.amount)]
  {
    hide SumOf;
  }
}
