/** A run from an empty shop after which the wallet is refused for an order although money is
    due and available. The refunds in it are an administrator's edits of single payments. */
module RefusedInstalment {
  import opened Prelude
  import opened Decimals
  import opened Wallets
  import opened Coupons
  import opened Checkout

  /** The amount of each payment: 1000 Toman, of an order that costs 3000. */
  const A := 1000_00

  function NoLimits(): Policy {
    Policy(None, None, DayStart)
  }

  function EmptyShop(): Shop {
    Shop(0, Toman, Book(0, 0, true, false, []), Desk(map[], [], 0), map[], [])
  }

  function OrderAt(status: OrderStatus): map<nat, Order> {
    map[1 := Order(status, Bill(0, 3 * A, None, 0), true, Toman, false)]
  }

  /** A top-up is confirmed and at once used for the order. */
  function TopUpAndPay(payment: nat): (ops: seq<ShopOp>)
    ensures forall op :: op in ops ==> OpOk(op)
  {
    [OpenOp(WalletTopUp, A), ConfirmOp(payment, 0), PayOp(1, true, 0, 0, 0)]
  }

  function TwoInstalments(): (ops: seq<ShopOp>)
    ensures forall op :: op in ops ==> OpOk(op)
  {
    [PlaceOp(1, OrderAt(Pending)[1])] + TopUpAndPay(0) + TopUpAndPay(2)
  }

  /** A receipt comes under review, both instalments are refunded, the receipt is confirmed. */
  function LateReceipt(): (ops: seq<ShopOp>)
    ensures forall op :: op in ops ==> OpOk(op)
  {
    [OpenOp(External(1), A), RefundOp(1, 0), RefundOp(3, 0), ConfirmOp(4, 0)]
  }

  // ----- runs of a few steps -----

  lemma {:induction false} RunConcat(s: Shop, coupons: map<nat, Coupon>, xs: seq<ShopOp>, ys: seq<ShopOp>)
    requires forall op :: op in xs + ys ==> OpOk(op)
    ensures (forall op :: op in xs ==> OpOk(op)) && (forall op :: op in ys ==> OpOk(op))
    ensures ShopRun(s, NoLimits(), coupons, xs + ys)
         == ShopRun(ShopRun(s, NoLimits(), coupons, xs), NoLimits(), coupons, ys)
    decreases |xs|
  {
    hide ShopStep;
    assert forall op :: op in xs ==> op in xs + ys;
    assert forall op :: op in ys ==> op in xs + ys;
    if xs == [] {
      assert xs + ys == ys;
    } else {
      assert (xs + ys)[1..] == xs[1..] + ys;
      RunConcat(ShopStep(s, NoLimits(), coupons, xs[0]), coupons, xs[1..], ys);
    }
  }

  lemma RunOfOne(s: Shop, coupons: map<nat, Coupon>, op: ShopOp)
    requires OpOk(op)
    ensures ShopRun(s, NoLimits(), coupons, [op]) == ShopStep(s, NoLimits(), coupons, op)
  {
    hide ShopStep;
    assert [op][1..] == [];
  }

  lemma RunOfThree(s: Shop, coupons: map<nat, Coupon>, x: ShopOp, y: ShopOp, z: ShopOp)
    requires OpOk(x) && OpOk(y) && OpOk(z)
    ensures ShopRun(s, NoLimits(), coupons, [x, y, z])
         == ShopStep(ShopStep(ShopStep(s, NoLimits(), coupons, x), NoLimits(), coupons, y), NoLimits(), coupons, z)
  {
    hide ShopStep;
    assert [x, y, z] == [x] + [y] + [z];
    RunConcat(s, coupons, [x] + [y], [z]);
    RunConcat(s, coupons, [x], [y]);
    RunOfOne(s, coupons, x);
    RunOfOne(ShopStep(s, NoLimits(), coupons, x), coupons, y);
    RunOfOne(ShopStep(ShopStep(s, NoLimits(), coupons, x), NoLimits(), coupons, y), coupons, z);
  }

  // ----- the two instalments -----

  /** An empty wallet, and an order of which `confirmed` is paid. */
  ghost predicate Waits(s: Shop, confirmed: int, status: OrderStatus) {
    && s.currency.Toman? && Usable(s.book) && s.book.balance == 0 && s.orders == OrderAt(status)
    && (status.Pending? || status.AwaitingPayment?)
    && ConfirmedTotal(s, 1) == confirmed && 0 <= confirmed < 2 * A
    && SumOf(s.book.rows, RewardCash) <= SumOf(s.book.rows, Debited)
    && (forall r :: r in s.book.rows ==> r.key != Some(OrderPayment(1, confirmed)) && r.key != Some(TopUp(|s.payments|)))
  }

  function ToppedUp(s: Shop): Shop {
    s.(book := Post(s.book, Deposit, A * CENT, Some(TopUp(|s.payments|)), 0, 0),
       payments := s.payments + [PaymentRow(WalletTopUp, Confirmed, A)])
  }

  function PaidNext(s: Shop, confirmed: int): Shop {
    s.(book := Post(s.book, Kind.Payment, A * CENT, Some(OrderPayment(1, confirmed)), 0, 0),
       payments := s.payments + [PaymentRow(Instalment(1), Confirmed, A)], orders := OrderAt(AwaitingPayment))
  }

  lemma TopUpWorks(s: Shop, confirmed: int, status: OrderStatus, coupons: map<nat, Coupon>)
    requires Waits(s, confirmed, status)
    ensures ShopStep(ShopStep(s, NoLimits(), coupons, OpenOp(WalletTopUp, A)), NoLimits(), coupons,
                     ConfirmOp(|s.payments|, 0)) == ToppedUp(s)
  {
    hide SumOf;
    var waiting := s.payments + [PaymentRow(WalletTopUp, PayPending, A)];
    assert waiting[|s.payments| := PaymentRow(WalletTopUp, Confirmed, A)] == ToppedUp(s).payments;
  }

  lemma ToppedUpStillWaits(s: Shop, confirmed: int, status: OrderStatus)
    requires Waits(s, confirmed, status)
    ensures var t := ToppedUp(s);
            && ConfirmedTotal(t, 1) == confirmed && SumOf(t.book.rows, RewardCash) <= SumOf(t.book.rows, Debited)
            && t.book.balance == A * CENT
  {
    var t := ToppedUp(s);
    var row := t.book.rows[|s.book.rows|];
    SumPush(s.book.rows, row, RewardCash);
    SumPush(s.book.rows, row, Debited);
    PaymentAdded(s, PaymentRow(WalletTopUp, Confirmed, A), 1);
  }

  /** The whole balance becomes an instalment. */
  lemma PayWorks(s: Shop, confirmed: int, status: OrderStatus, coupons: map<nat, Coupon>)
    requires Waits(s, confirmed, status)
    ensures ShopStep(ToppedUp(s), NoLimits(), coupons, PayOp(1, true, 0, 0, 0)) == PaidNext(ToppedUp(s), confirmed)
  {
    hide SumOf;
    ToppedUpStillWaits(s, confirmed, status);
    var t := ToppedUp(s);
    assert Find(t.book.rows, OrderPayment(1, confirmed)).None?;
    assert Spendable(t.book, NoLimits(), 0) == A * CENT;
    PaymentAdded(t, PaymentRow(Instalment(1), Confirmed, A), 1);
  }

  lemma InstalmentRun(s: Shop, confirmed: int, status: OrderStatus, coupons: map<nat, Coupon>)
    requires Waits(s, confirmed, status)
    ensures ShopRun(s, NoLimits(), coupons, TopUpAndPay(|s.payments|)) == PaidNext(ToppedUp(s), confirmed)
  {
    hide ShopStep, Waits, ShopRun;
    TopUpWorks(s, confirmed, status, coupons);
    PayWorks(s, confirmed, status, coupons);
    RunOfThree(s, coupons, OpenOp(WalletTopUp, A), ConfirmOp(|s.payments|, 0), PayOp(1, true, 0, 0, 0));
  }

  function AfterOne(): Shop {
    PaidNext(ToppedUp(EmptyShop().(orders := OrderAt(Pending))), 0)
  }

  /** The order as it stands after two instalments. */
  function AfterTwo(): Shop {
    PaidNext(ToppedUp(AfterOne()), A)
  }

  lemma FirstWaits()
    ensures Waits(EmptyShop().(orders := OrderAt(Pending)), 0, Pending)
    ensures Waits(AfterOne(), A, AwaitingPayment)
  {
    var t := AfterOne();
    var payments := [PaymentRow(WalletTopUp, Confirmed, A), PaymentRow(Instalment(1), Confirmed, A)];
    assert t.payments == payments && payments[1..] == [payments[1]] && payments[1..][1..] == [];
    assert t.book.rows == [t.book.rows[0], t.book.rows[1]] && t.book.rows[1..] == [t.book.rows[1]];
  }

  lemma TwoInstalmentsRun(coupons: map<nat, Coupon>)
    ensures ShopRun(EmptyShop(), NoLimits(), coupons, TwoInstalments()) == AfterTwo()
  {
    hide ShopRun, Waits, TopUpAndPay;
    var place, placed := PlaceOp(1, OrderAt(Pending)[1]), EmptyShop().(orders := OrderAt(Pending));
    FirstWaits();
    RunConcat(EmptyShop(), coupons, [place] + TopUpAndPay(0), TopUpAndPay(2));
    RunConcat(EmptyShop(), coupons, [place], TopUpAndPay(0));
    RunOfOne(EmptyShop(), coupons, place);
    assert ShopStep(EmptyShop(), NoLimits(), coupons, place) == placed;
    InstalmentRun(placed, 0, Pending, coupons);
    InstalmentRun(AfterOne(), A, AwaitingPayment, coupons);
  }

  // ----- the refunds and the receipt -----

  function Receipted(): Shop {
    AfterTwo().(payments := AfterTwo().payments + [PaymentRow(External(1), PayPending, A)], orders := OrderAt(Processing))
  }

  /** Both instalments are refunded. */
  function BothRefunded(): Shop {
    RefundOne(RefundOne(Receipted(), 1, 0), 3, 0)
  }

  lemma BothRefundedIs(s: Shop)
    requires s == BothRefunded()
    ensures s.book.balance == 2 * A * CENT && Usable(s.book) && s.currency.Toman? && s.orders == OrderAt(OrderRefunded)
    ensures |s.book.rows| == 6 && s.book.rows[3].key == Some(OrderPayment(1, A))
    ensures s.payments == [PaymentRow(WalletTopUp, Confirmed, A), PaymentRow(Instalment(1), PayRefunded, A),
                           PaymentRow(WalletTopUp, Confirmed, A), PaymentRow(Instalment(1), PayRefunded, A),
                           PaymentRow(External(1), PayPending, A)]
  {
    hide SumOf, Receipted;
    ReceiptedIs();
    var t := RefundOne(Receipted(), 1, 0);
    assert t.book.rows == Receipted().book.rows + [Row(Kind.Refund, A * CENT, 0, A * CENT, Some(PaymentRefund(1)), 0, 0)];
  }

  lemma ReceiptedIs()
    ensures Receipted() == Shop(0, Toman, Book(0, 0, true, false,
      [Row(Deposit, A * CENT, 0, A * CENT, Some(TopUp(0)), 0, 0),
       Row(Kind.Payment, A * CENT, A * CENT, 0, Some(OrderPayment(1, 0)), 0, 0),
       Row(Deposit, A * CENT, 0, A * CENT, Some(TopUp(2)), 0, 0),
       Row(Kind.Payment, A * CENT, A * CENT, 0, Some(OrderPayment(1, A)), 0, 0)]),
      Desk(map[], [], 0), OrderAt(Processing),
      [PaymentRow(WalletTopUp, Confirmed, A), PaymentRow(Instalment(1), Confirmed, A),
       PaymentRow(WalletTopUp, Confirmed, A), PaymentRow(Instalment(1), Confirmed, A),
       PaymentRow(External(1), PayPending, A)])
  {
    hide SumOf;
  }

  lemma ReceiptedRun(coupons: map<nat, Coupon>)
    ensures Confirm(BothRefunded(), 4, 0).Some?
    ensures ShopRun(AfterTwo(), NoLimits(), coupons, LateReceipt()) == Confirm(BothRefunded(), 4, 0).value
    ensures ConfirmedTotal(Confirm(BothRefunded(), 4, 0).value, 1) == A
  {
    hide SumOf, ShopRun, RefundOne, AfterTwo;
    var s, refund := BothRefunded(), [RefundOp(1, 0), RefundOp(3, 0), ConfirmOp(4, 0)];
    BothRefundedIs(s);
    NothingCounted(s.payments, ConfirmedExternals(1));
    NothingCounted(s.payments, ConfirmedFor(1));
    PaymentMoves(s, 4, Confirmed, 1);
    assert LateReceipt() == [OpenOp(External(1), A)] + refund;
    RunConcat(AfterTwo(), coupons, [OpenOp(External(1), A)], refund);
    RunOfOne(AfterTwo(), coupons, OpenOp(External(1), A));
    RunOfThree(Receipted(), coupons, refund[0], refund[1], refund[2]);
    ReceiptStep(coupons);
    RefundSteps(coupons);
  }

  lemma ReceiptStep(coupons: map<nat, Coupon>)
    ensures ShopStep(AfterTwo(), NoLimits(), coupons, OpenOp(External(1), A)) == Receipted()
  {
    hide SumOf;
  }

  lemma RefundStep(s: Shop, coupons: map<nat, Coupon>, payment: nat)
    requires payment < |s.payments| && s.payments[payment] == PaymentRow(Instalment(1), Confirmed, A)
    ensures ShopStep(s, NoLimits(), coupons, RefundOp(payment, 0)) == RefundOne(s, payment, 0)
  {
    hide SumOf, RefundOne;
  }

  lemma RefundSteps(coupons: map<nat, Coupon>)
    ensures ShopStep(Receipted(), NoLimits(), coupons, RefundOp(1, 0)) == RefundOne(Receipted(), 1, 0)
    ensures ShopStep(RefundOne(Receipted(), 1, 0), NoLimits(), coupons, RefundOp(3, 0)) == BothRefunded()
  {
    hide SumOf, Receipted, ShopStep;
    ReceiptedIs();
    RefundStep(Receipted(), coupons, 1);
    RefundStep(RefundOne(Receipted(), 1, 0), coupons, 3);
  }

  /** At the end 2000 Toman are due and 2000 are in the wallet, yet the wallet is refused: the
      confirmed total is back where the second instalment began, and so is its key. */
  lemma RefundsCanBlockInstalments(coupons: map<nat, Coupon>)
    ensures var s := ShopRun(EmptyShop(), NoLimits(), coupons, TwoInstalments() + LateReceipt());
            && ShopOk(s, NoLimits(), coupons) && Payable(s, NoLimits(), 1, 0)
            && Pay(s, NoLimits(), 1, true, 0, 0, 0) == Err(KeyExists)
  {
    hide ShopRun, SumOf, ShopOk, BothRefunded;
    RunConcat(EmptyShop(), coupons, TwoInstalments(), LateReceipt());
    TwoInstalmentsRun(coupons);
    ReceiptedRun(coupons);
    BothRefundedIs(BothRefunded());
    var t := Confirm(BothRefunded(), 4, 0).value;
    assert t.book.rows[3] in t.book.rows;
    assert Spendable(t.book, NoLimits(), 0) == 2 * A * CENT;
    EmptyShopIsOk(coupons);
    ShopRunKeepsOk(EmptyShop(), NoLimits(), coupons, TwoInstalments() + LateReceipt());
  }

  lemma EmptyShopIsOk(coupons: map<nat, Coupon>)
    ensures ShopOk(EmptyShop(), NoLimits(), coupons)
  {
    DayStartIsPeriod();
    EmptyDeskIsOk(coupons);
  }
}
