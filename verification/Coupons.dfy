/** Discount codes: their quotas, the discount they give a bill, and their release when an
    order is cancelled. Money is counted in cents. */
module Coupons {
  import opened Prelude
  import opened Decimals
  import opened Wallets

  datatype CouponKind = Percentage | FixedAmount | FreeTrial

  /** `value` is in hundredths: of a percent point or of a currency unit. */
  datatype Coupon = Coupon(kind: CouponKind, value: int, cap: Option<int>, active: bool, from: int, until: int,
                           maxUses: Option<nat>, perUser: nat, minimum: Option<int>, plans: set<nat>,
                           newUsersOnly: bool)

  datatype Usage = Usage(id: nat, coupon: nat, user: nat, order: Option<nat>, amount: int)

  /** The usage rows, and the counter that each coupon keeps of its own usages. */
  datatype Desk = Desk(uses: map<nat, int>, usages: seq<Usage>, nextUsage: nat)

  datatype Bill = Bill(discount: int, final: int, coupon: Option<nat>, couponDiscount: int)

  /** What the surrounding tables say about a request. `unit` is the smallest amount of the
      order's currency, `campaign` that a code bound to a campaign is open to this customer,
      `known` that the customer has other orders that matter for new-customer codes. */
  datatype Facts = Facts(now: int, plan: nat, unit: int, quoted: bool, campaign: bool, known: bool)

  // ----- counts -----

  function Of(coupon: nat): Usage -> int {
    (u: Usage) => if u.coupon == coupon then 1 else 0
  }

  function OfUser(coupon: nat, user: nat): Usage -> int {
    (u: Usage) => if u.coupon == coupon && u.user == user then 1 else 0
  }

  function ForOrder(order: nat): Usage -> int {
    (u: Usage) => if u.order == Some(order) then 1 else 0
  }

  function Without(usages: seq<Usage>, order: nat): (rest: seq<Usage>)
    ensures forall u :: u in rest <==> u in usages && u.order != Some(order)
  {
    if usages == [] then [] else
      (if usages[0].order == Some(order) then [] else [usages[0]]) + Without(usages[1..], order)
  }

  // ----- the discount -----

  /** A cap as an order reads it: a cap of zero is no cap. */
  function OrderCapped(cap: Option<int>, amount: int, scale: int): int {
    if cap.Some? && cap.value != 0 then Min(amount, cap.value * scale) else amount
  }

  /** A cap as a wallet reads it: every cap is one. */
  function WalletCapped(cap: Option<int>, amount: int): int {
    if cap.Some? then Min(amount, cap.value) else amount
  }

  /** The discount before rounding, in ten-thousandths of a cent. */
  function Ideal(c: Coupon, final: int): int {
    var raw := if c.kind.Percentage? then final * c.value else c.value * 1_0000;
    Min(final * 1_0000, OrderCapped(c.cap, raw, 1_0000))
  }

  /** The ideal discount rounded half up to the currency's unit. */
  function Rounded(c: Coupon, final: int, unit: int): int
    requires 0 < unit
  {
    var ideal := Ideal(c, final);
    if ideal <= 0 then 0 else HalfUp(ideal, unit * 1_0000) * unit
  }

  /** A positive discount is a whole number of units within half a unit of the ideal one. */
  lemma RoundedIsNear(c: Coupon, final: int, unit: int)
    requires 0 < unit && 0 < Rounded(c, final, unit)
    ensures var d := Rounded(c, final, unit);
            -unit * 1_0000 <= 2 * (Ideal(c, final) - d * 1_0000) < unit * 1_0000 && d % unit == 0
  {
    hide Ideal;
    var r := HalfUp(Ideal(c, final), unit * 1_0000);
    assert r * (unit * 1_0000) == r * unit * 1_0000;
    assert r * unit % unit == 0 by { MultipleOf(r, unit); }
  }

  lemma MultipleOf(r: int, unit: int)
    requires 0 < unit
    ensures r * unit % unit == 0
  {
    FloorOfBetween(r * unit, r, unit);
  }

  /** The code may be used at all: active, in its period, of a kind for orders, and open to
      this order and customer. */
  predicate Eligible(c: Coupon, final: int, facts: Facts) {
    && c.active && facts.campaign && c.from <= facts.now <= c.until
    && (c.kind.FixedAmount? || c.kind.Percentage?)
    && (c.minimum.Some? && c.minimum.value != 0 ==> c.minimum.value <= final)
    && (c.plans != {} ==> facts.plan in c.plans)
    && (c.newUsersOnly ==> !facts.known)
  }

  predicate QuotaLeft(d: Desk, code: nat, c: Coupon, user: nat) {
    && (c.maxUses.Some? ==> SumOf(d.usages, Of(code)) < c.maxUses.value)
    && SumOf(d.usages, OfUser(code, user)) < c.perUser
  }

  /** A usage row for the code; the counter moves to `count`. */
  function Recorded(d: Desk, code: nat, user: nat, order: Option<nat>, amount: int, count: int): Desk {
    Desk(d.uses[code := count], d.usages + [Usage(d.nextUsage, code, user, order, amount)], d.nextUsage + 1)
  }

  function UsesOf(d: Desk, code: nat): int {
    if code in d.uses then d.uses[code] else 0
  }

  // ----- the operations -----

  datatype Applied = Applied(desk: Desk, bill: Bill)

  /** Using a code on an open order with `confirmed` already paid; None when it is refused. */
  function Apply(coupons: map<nat, Coupon>, d: Desk, bill: Bill, user: nat, order: nat, code: nat, facts: Facts,
                 confirmed: int): Option<Applied>
    requires 0 < facts.unit
  {
    if bill.coupon.Some? || SumOf(d.usages, ForOrder(order)) != 0 || facts.quoted || code !in coupons then None else
    var c := coupons[code];
    if !Eligible(c, bill.final, facts) || !QuotaLeft(d, code, c, user) then None else
    if c.kind.Percentage? && !(0 < c.value <= 100_00) then None else
    var discount := Rounded(c, bill.final, facts.unit);
    if discount <= 0 || bill.final - discount < Max(confirmed, facts.unit) then None else
    Some(Applied(Recorded(d, code, user, Some(order), discount, UsesOf(d, code) + 1),
                 Bill(bill.discount + discount, bill.final - discount, Some(code), discount)))
  }

  datatype Redeemed = Redeemed(desk: Desk, usage: nat, amount: int)

  /** Turning a fixed-value code into wallet credit. */
  function Redeem(coupons: map<nat, Coupon>, d: Desk, user: nat, code: nat, facts: Facts): Option<Redeemed> {
    if code !in coupons then None else
    var c := coupons[code];
    if !c.active || facts.now < c.from || c.until < facts.now || !QuotaLeft(d, code, c, user) then None else
    if (c.newUsersOnly && facts.known) || !c.kind.FixedAmount? || c.plans != {} then None else
    if c.minimum.Some? && 0 < c.minimum.value then None else
    var amount := WalletCapped(c.cap, c.value);
    if amount <= 0 then None else
    Some(Redeemed(Recorded(d, code, user, None, amount, SumOf(d.usages, Of(code)) + 1), d.nextUsage, amount))
  }

  /** The counters after the usages in `gone` were given back one by one. */
  function GiveBack(uses: map<nat, int>, gone: seq<Usage>): map<nat, int> {
    if gone == [] then uses else
      var code := gone[0].coupon;
      GiveBack(if code in uses && 0 < uses[code] then uses[code := uses[code] - 1] else uses, gone[1..])
  }

  function UsagesFor(usages: seq<Usage>, order: nat): (found: seq<Usage>)
    ensures forall u :: u in found <==> u in usages && u.order == Some(order)
  {
    if usages == [] then [] else
      (if usages[0].order == Some(order) then [usages[0]] else []) + UsagesFor(usages[1..], order)
  }

  /** Cancelling an order removes its usages and gives their quota back. */
  function Release(d: Desk, order: nat): Desk {
    Desk(GiveBack(d.uses, UsagesFor(d.usages, order)), Without(d.usages, order), d.nextUsage)
  }

  // ----- two readings of a cap -----

  /** Orders and wallets cap the same amounts alike if and only if the cap is not zero. */
  lemma CapsAgree(cap: Option<int>)
    ensures (forall amount: int :: 0 < amount ==> OrderCapped(cap, amount, 1) == WalletCapped(cap, amount))
            <==> cap != Some(0)
  {
    if cap == Some(0) { assert OrderCapped(cap, 1, 1) != WalletCapped(cap, 1); }
  }

  /** A cap of zero takes nothing off any order's discount, and refuses every wallet. */
  lemma CapOfZero(c: Coupon, final: int, coupons: map<nat, Coupon>, d: Desk, user: nat, code: nat, facts: Facts)
    requires c.cap == Some(0)
    ensures Ideal(c, final) == Ideal(c.(cap := None), final)
    ensures code in coupons && coupons[code] == c ==> Redeem(coupons, d, user, code, facts).None?
  {
  }

  // ----- the invariant -----

  /** Counters equal usage rows, quotas hold, rows have distinct identities and an order has
      one usage at most. */
  ghost predicate DeskOk(coupons: map<nat, Coupon>, d: Desk) {
    && (forall code :: code in d.uses ==> code in coupons)
    && (forall code :: code in coupons ==>
          && UsesOf(d, code) == SumOf(d.usages, Of(code))
          && (coupons[code].maxUses.Some? ==> UsesOf(d, code) <= coupons[code].maxUses.value)
          && (forall user :: SumOf(d.usages, OfUser(code, user)) <= coupons[code].perUser))
    && (forall order :: SumOf(d.usages, ForOrder(order)) <= 1)
    && (forall u :: u in d.usages ==> u.coupon in coupons && u.id < d.nextUsage)
    && (forall i, j :: 0 <= i < j < |d.usages| ==> d.usages[i].id != d.usages[j].id)
  }

  lemma EmptyDeskIsOk(coupons: map<nat, Coupon>)
    ensures DeskOk(coupons, Desk(map[], [], 0))
  {
  }

  lemma RecordedKeepsDesk(coupons: map<nat, Coupon>, d: Desk, code: nat, user: nat, order: Option<nat>, amount: int)
    requires DeskOk(coupons, d) && code in coupons && QuotaLeft(d, code, coupons[code], user)
    requires order.Some? ==> SumOf(d.usages, ForOrder(order.value)) == 0
    ensures DeskOk(coupons, Recorded(d, code, user, order, amount, UsesOf(d, code) + 1))
  {
    var after := Recorded(d, code, user, order, amount, UsesOf(d, code) + 1);
    var usage := Usage(d.nextUsage, code, user, order, amount);
    forall other | other in coupons
      ensures UsesOf(after, other) == SumOf(after.usages, Of(other))
      ensures coupons[other].maxUses.Some? ==> UsesOf(after, other) <= coupons[other].maxUses.value
      ensures forall u :: SumOf(after.usages, OfUser(other, u)) <= coupons[other].perUser
    {
      SumPush(d.usages, usage, Of(other));
      forall u ensures SumOf(after.usages, OfUser(other, u)) <= coupons[other].perUser {
        SumPush(d.usages, usage, OfUser(other, u));
        assert SumOf(d.usages, OfUser(other, u)) <= coupons[other].perUser;
      }
    }
    forall o ensures SumOf(after.usages, ForOrder(o)) <= 1 {
      SumPush(d.usages, usage, ForOrder(o));
    }
  }

  /** A code that was accepted leaves price plus discount as it was, rounds the discount
      within half a unit of the ideal, and never undercuts what is paid or the smallest
      unit. */
  lemma ApplyIsExact(coupons: map<nat, Coupon>, d: Desk, bill: Bill, user: nat, order: nat, code: nat, facts: Facts,
                     confirmed: int)
    requires DeskOk(coupons, d) && 0 < facts.unit
    requires Apply(coupons, d, bill, user, order, code, facts, confirmed).Some?
    ensures var r := Apply(coupons, d, bill, user, order, code, facts, confirmed).value;
            && DeskOk(coupons, r.desk)
            && r.bill.final + r.bill.discount == bill.final + bill.discount
            && r.bill.final == bill.final - r.bill.couponDiscount && 0 < r.bill.couponDiscount
            && -facts.unit * 1_0000 <= 2 * (Ideal(coupons[code], bill.final) - r.bill.couponDiscount * 1_0000)
                 < facts.unit * 1_0000
            && r.bill.couponDiscount % facts.unit == 0
            && confirmed <= r.bill.final && facts.unit <= r.bill.final
            && SumOf(r.desk.usages, ForOrder(order)) == 1
            && r.desk.usages == d.usages + [Usage(d.nextUsage, code, user, Some(order), r.bill.couponDiscount)]
            && r.bill.coupon == Some(code)
  {
    RecordedKeepsDesk(coupons, d, code, user, Some(order), Rounded(coupons[code], bill.final, facts.unit));
    RoundedIsNear(coupons[code], bill.final, facts.unit);
    SumPush(d.usages, Usage(d.nextUsage, code, user, Some(order), Rounded(coupons[code], bill.final, facts.unit)),
            ForOrder(order));
  }

  lemma RedeemKeepsDesk(coupons: map<nat, Coupon>, d: Desk, user: nat, code: nat, facts: Facts)
    requires DeskOk(coupons, d) && Redeem(coupons, d, user, code, facts).Some?
    ensures DeskOk(coupons, Redeem(coupons, d, user, code, facts).value.desk)
  {
    RecordedKeepsDesk(coupons, d, code, user, None, Redeem(coupons, d, user, code, facts).value.amount);
  }

  lemma {:induction false} WithoutCounts(usages: seq<Usage>, order: nat, f: Usage -> int)
    requires forall u :: u in usages ==> 0 <= f(u)
    ensures SumOf(usages, f) == SumOf(Without(usages, order), f) + SumOf(UsagesFor(usages, order), f)
    ensures 0 <= SumOf(UsagesFor(usages, order), f)
  {
    if usages != [] {
      var rest := usages[1..];
      WithoutCounts(rest, order, f);
      var kept := if usages[0].order == Some(order) then [] else [usages[0]];
      var gone := if usages[0].order == Some(order) then [usages[0]] else [];
      SumConcat(kept, Without(rest, order), f);
      SumConcat(gone, UsagesFor(rest, order), f);
    }
  }

  /** Giving usages back lowers each counter by the number of its usages among them. */
  lemma {:induction false} GiveBackCounts(uses: map<nat, int>, gone: seq<Usage>, code: nat)
    requires forall other :: other in uses ==> SumOf(gone, Of(other)) <= uses[other]
    ensures GiveBack(uses, gone).Keys == uses.Keys
    ensures code in uses ==> GiveBack(uses, gone)[code] == uses[code] - SumOf(gone, Of(code))
  {
    if gone != [] {
      var used := gone[0].coupon;
      CountIsNonNegative(gone[1..], used);
      var less := if used in uses && 0 < uses[used] then uses[used := uses[used] - 1] else uses;
      forall other | other in less ensures SumOf(gone[1..], Of(other)) <= less[other] {
        assert SumOf(gone, Of(other)) <= uses[other];
      }
      GiveBackCounts(less, gone[1..], code);
    }
  }

  lemma CountIsNonNegative(usages: seq<Usage>, code: nat)
    ensures 0 <= SumOf(usages, Of(code))
  {
  }

  lemma {:induction false} WithoutKeepsIds(usages: seq<Usage>, order: nat)
    requires forall i, j :: 0 <= i < j < |usages| ==> usages[i].id != usages[j].id
    ensures forall i, j :: 0 <= i < j < |Without(usages, order)| ==>
      Without(usages, order)[i].id != Without(usages, order)[j].id
  {
    if usages != [] {
      var rest := usages[1..];
      WithoutKeepsIds(rest, order);
      if usages[0].order != Some(order) {
        var out := Without(usages, order);
        forall i, j | 0 <= i < j < |out| ensures out[i].id != out[j].id {
          assert out[j] == Without(rest, order)[j - 1] && out[j] in Without(rest, order) && out[j] in rest;
          if i > 0 { assert out[i] == Without(rest, order)[i - 1]; }
        }
      }
    }
  }

  /** After a release the order has no usage, and every counter still equals its rows. */
  lemma ReleaseKeepsDesk(coupons: map<nat, Coupon>, d: Desk, order: nat)
    requires DeskOk(coupons, d)
    ensures DeskOk(coupons, Release(d, order))
    ensures SumOf(Release(d, order).usages, ForOrder(order)) == 0
    ensures forall code :: code in coupons ==>
      UsesOf(Release(d, order), code) == UsesOf(d, code) - SumOf(UsagesFor(d.usages, order), Of(code))
  {
    var after, gone := Release(d, order), UsagesFor(d.usages, order);
    forall code | code in coupons
      ensures SumOf(d.usages, Of(code)) == SumOf(after.usages, Of(code)) + SumOf(gone, Of(code))
      ensures 0 <= SumOf(after.usages, Of(code)) && 0 <= SumOf(gone, Of(code))
    {
      WithoutCounts(d.usages, order, Of(code));
      CountIsNonNegative(after.usages, code);
    }
    forall code | code in coupons
      ensures UsesOf(after, code) == SumOf(after.usages, Of(code)) == UsesOf(d, code) - SumOf(gone, Of(code))
      ensures forall user :: SumOf(after.usages, OfUser(code, user)) <= coupons[code].perUser
    {
      GiveBackCounts(d.uses, gone, code);
      forall user ensures SumOf(after.usages, OfUser(code, user)) <= coupons[code].perUser {
        WithoutCounts(d.usages, order, OfUser(code, user));
        assert SumOf(d.usages, OfUser(code, user)) <= coupons[code].perUser;
      }
    }
    assert after.uses.Keys == d.uses.Keys by { GiveBackCounts(d.uses, gone, 0); }
    forall o ensures SumOf(after.usages, ForOrder(o)) <= 1 {
      WithoutCounts(d.usages, order, ForOrder(o));
      assert SumOf(d.usages, ForOrder(o)) <= 1;
    }
    NoneFor(after.usages, order);
    WithoutKeepsIds(d.usages, order);
  }

  lemma {:induction false} NoneFor(usages: seq<Usage>, order: nat)
    requires forall u :: u in usages ==> u.order != Some(order)
    ensures SumOf(usages, ForOrder(order)) == 0
  {
    if usages != [] { NoneFor(usages[1..], order); }
  }

  // ----- runs of all customers -----

  datatype DeskOp =
    | UseCode(bill: Bill, user: nat, order: nat, code: nat, facts: Facts, confirmed: int)
    | CashIn(user: nat, code: nat, facts: Facts, credited: bool)
    | GiveUp(order: nat)

  predicate OpIsMeaningful(op: DeskOp) {
    op.UseCode? ==> 0 < op.facts.unit
  }

  function DeskStep(coupons: map<nat, Coupon>, d: Desk, op: DeskOp): Desk
    requires OpIsMeaningful(op)
  {
    match op
    case UseCode(bill, user, order, code, facts, confirmed) =>
      (match Apply(coupons, d, bill, user, order, code, facts, confirmed)
       case Some(applied) => applied.desk
       case None => d)
    case CashIn(user, code, facts, credited) =>
      (match Redeem(coupons, d, user, code, facts)
       case Some(redeemed) => if credited then redeemed.desk else d
       case None => d)
    case GiveUp(order) => Release(d, order)
  }

  ghost function DeskRun(coupons: map<nat, Coupon>, d: Desk, ops: seq<DeskOp>): Desk
    requires forall op :: op in ops ==> OpIsMeaningful(op)
    decreases |ops|
  {
    if ops == [] then d else DeskRun(coupons, DeskStep(coupons, d, ops[0]), ops[1..])
  }

  lemma DeskStepKeepsDesk(coupons: map<nat, Coupon>, d: Desk, op: DeskOp)
    requires DeskOk(coupons, d) && OpIsMeaningful(op)
    ensures DeskOk(coupons, DeskStep(coupons, d, op))
  {
    hide DeskOk, Apply, Redeem, Release;
    match op
    case UseCode(bill, user, order, code, facts, confirmed) =>
      if Apply(coupons, d, bill, user, order, code, facts, confirmed).Some? {
        ApplyIsExact(coupons, d, bill, user, order, code, facts, confirmed);
      }
    case CashIn(user, code, facts, credited) =>
      if Redeem(coupons, d, user, code, facts).Some? { RedeemKeepsDesk(coupons, d, user, code, facts); }
    case GiveUp(order) => ReleaseKeepsDesk(coupons, d, order);
  }

  lemma {:induction false} DeskRunKeepsDesk(coupons: map<nat, Coupon>, d: Desk, ops: seq<DeskOp>)
    requires DeskOk(coupons, d) && forall op :: op in ops ==> OpIsMeaningful(op)
    ensures DeskOk(coupons, DeskRun(coupons, d, ops))
    decreases |ops|
  {
    hide DeskOk, DeskStep;
    if ops != [] {
      DeskStepKeepsDesk(coupons, d, ops[0]);
      DeskRunKeepsDesk(coupons, DeskStep(coupons, d, ops[0]), ops[1..]);
    }
  }

  /** Over every run of uses, cash-ins and cancellations by any customers, a coupon's counter
      equals its usage rows and neither its total quota nor anybody's own is exceeded. */
  lemma QuotasHold(coupons: map<nat, Coupon>, ops: seq<DeskOp>, code: nat, user: nat)
    requires code in coupons && forall op :: op in ops ==> OpIsMeaningful(op)
    ensures var d := DeskRun(coupons, Desk(map[], [], 0), ops);
            && UsesOf(d, code) == SumOf(d.usages, Of(code))
            && (coupons[code].maxUses.Some? ==> UsesOf(d, code) <= coupons[code].maxUses.value)
            && SumOf(d.usages, OfUser(code, user)) <= coupons[code].perUser
  {
    EmptyDeskIsOk(coupons);
    DeskRunKeepsDesk(coupons, Desk(map[], [], 0), ops);
  }

  // ----- the desk as an object -----

  class CouponDesk {
    const coupons: map<nat, Coupon>
    var uses: map<nat, int>
    var usages: seq<Usage>
    var nextUsage: nat

    constructor (coupons: map<nat, Coupon>)
      ensures this.coupons == coupons && Table() == Desk(map[], [], 0)
    {
      this.coupons := coupons;
      uses, usages, nextUsage := map[], [], 0;
    }

    function Table(): Desk
      reads this
    {
      Desk(uses, usages, nextUsage)
    }

    method Restore(d: Desk)
      modifies this
      ensures Table() == d
    {
      uses, usages, nextUsage := d.uses, d.usages, d.nextUsage;
    }

    method Record(code: nat, user: nat, order: Option<nat>, amount: int, count: int)
      modifies this
      ensures Table() == Recorded(old(Table()), code, user, order, amount, count)
    {
      usages := usages + [Usage(nextUsage, code, user, order, amount)];
      nextUsage := nextUsage + 1;
      uses := uses[code := count];
    }

    method ApplyPurchaseCoupon(bill: Bill, user: nat, order: nat, code: nat, facts: Facts, confirmed: int)
        returns (billed: Option<Bill>)
      requires 0 < facts.unit
      modifies this
      ensures match Apply(coupons, old(Table()), bill, user, order, code, facts, confirmed)
              case Some(applied) => billed == Some(applied.bill) && Table() == applied.desk
              case None => billed == None && Table() == old(Table())
    {
      hide SumOf, HalfUp;
      if bill.coupon.Some? || SumOf(usages, ForOrder(order)) != 0 || facts.quoted { return None; }
      if code !in coupons { return None; }
      var c := coupons[code];
      if !Eligible(c, bill.final, facts) || !QuotaLeft(Table(), code, c, user) { return None; }
      var discount;
      if c.kind.Percentage? {
        if !(0 < c.value <= 100_00) { return None; }
        discount := bill.final * c.value;
      } else {
        discount := c.value * 1_0000;
      }
      if c.cap.Some? && c.cap.value != 0 { discount := Min(discount, c.cap.value * 1_0000); }
      discount := Min(bill.final * 1_0000, discount);
      discount := if discount <= 0 then 0 else HalfUp(discount, facts.unit * 1_0000) * facts.unit;
      assert discount == Rounded(c, bill.final, facts.unit);
      if discount <= 0 { return None; }
      if bill.final - discount < Max(confirmed, facts.unit) { return None; }
      Record(code, user, Some(order), discount, UsesOf(Table(), code) + 1);
      return Some(Bill(bill.discount + discount, bill.final - discount, Some(code), discount));
    }

    /** Give each usage of the order back, then delete the rows. */
    method ReleaseUsages(order: nat)
      modifies this
      ensures Table() == Release(old(Table()), order)
    {
      hide UsagesFor, Without, SumOf;
      ghost var before := Table();
      var found, i := UsagesFor(usages, order), 0;
      while i < |found|
        invariant i <= |found| && usages == before.usages && nextUsage == before.nextUsage
        invariant GiveBack(uses, found[i..]) == GiveBack(before.uses, found)
      {
        var code := found[i].coupon;
        assert found[i..][1..] == found[i + 1..];
        if code in uses && 0 < uses[code] { uses := uses[code := uses[code] - 1]; }
        i := i + 1;
      }
      usages := Without(usages, order);
    }

    /** Turn a fixed-value code into wallet credit: usage row, counter and credit together. */
    method RedeemWalletCoupon(wallet: Wallet?, sameCurrency: bool, user: nat, code: nat, facts: Facts, at: int)
        returns (ok: bool)
      modifies this, wallet
      ensures ok ==> wallet != null && sameCurrency && Usable(old(wallet.Ledger()))
      ensures !ok ==> Table() == old(Table()) && (wallet != null ==> wallet.Ledger() == old(wallet.Ledger()))
      ensures wallet != null && sameCurrency && Usable(old(wallet.Ledger())) ==>
        match Redeem(coupons, old(Table()), user, code, facts)
        case None => !ok
        case Some(redeemed) =>
          match Credit(old(wallet.Ledger()), Bonus, redeemed.amount * CENT, Some(CouponCash(redeemed.usage)), at)
          case Ok(after) => ok && Table() == redeemed.desk && wallet.Ledger() == after
          case Err(_) => !ok
    {
      hide SumOf;
      if code !in coupons { return false; }
      var c := coupons[code];
      if !c.active || facts.now < c.from || c.until < facts.now { return false; }
      var usageCount := SumOf(usages, Of(code));
      if c.maxUses.Some? && c.maxUses.value <= usageCount { return false; }
      if c.perUser <= SumOf(usages, OfUser(code, user)) { return false; }
      if c.newUsersOnly && facts.known { return false; }
      if !c.kind.FixedAmount? || c.plans != {} || (c.minimum.Some? && 0 < c.minimum.value) { return false; }
      var amount := c.value;
      if c.cap.Some? { amount := Min(amount, c.cap.value); }
      if amount <= 0 || wallet == null || !sameCurrency { return false; }
      if !wallet.active || wallet.frozen { return false; }
      var saved, usage := Table(), nextUsage;
      Record(code, user, None, amount, usageCount + 1);
      var error := wallet.CreditWallet(Bonus, amount * CENT, Some(CouponCash(usage)), at);
      if error.Some? { Restore(saved); }
      return error.None?;
    }
  }
}
