/** One customer's orders and payments: paying from the wallet, outside payments, refunds and
    cancellation, together with the coupon usages of the orders. Prices and payments are in
    cents; the wallet counts them as CENT units each. */
module Checkout {
  import opened Prelude
  import opened Decimals
  import opened Wallets
  import opened Coupons

  datatype OrderStatus = Pending | AwaitingPayment | Paid | Processing | Completed | OrderFailed | Cancelled | OrderRefunded

  /** `blocked` says that the plan's duration is temporarily unavailable. */
  datatype Order = Order(status: OrderStatus, bill: Bill, useCredit: bool, currency: Currency, blocked: bool)

  datatype Purpose = Instalment(order: nat) | External(order: nat) | WalletTopUp

  datatype PaymentStatus = PayPending | AwaitingConfirmation | Confirmed | PayFailed | PayCancelled | PayRefunded

  /** An instalment is paid from the wallet; an external payment is not linked to it. */
  datatype PaymentRow = PaymentRow(purpose: Purpose, status: PaymentStatus, amount: int)

  /** Payments are listed in the order of their creation. */
  datatype Shop = Shop(user: nat, currency: Currency, book: Book, desk: Desk, orders: map<nat, Order>,
                       payments: seq<PaymentRow>)

  // ----- columns -----

  predicate IsFor(p: PaymentRow, order: nat) {
    (p.purpose.Instalment? || p.purpose.External?) && p.purpose.order == order
  }

  function ConfirmedFor(order: nat): PaymentRow -> int {
    (p: PaymentRow) => if IsFor(p, order) && p.status.Confirmed? then p.amount else 0
  }

  /** Wallet money that confirmed instalments hold, in cents. */
  function Held(p: PaymentRow): int {
    if p.purpose.Instalment? && p.status.Confirmed? then p.amount else 0
  }

  function HeldFor(order: nat): PaymentRow -> int {
    (p: PaymentRow) => if IsFor(p, order) then Held(p) else 0
  }

  function ConfirmedExternals(order: nat): PaymentRow -> int {
    (p: PaymentRow) => if IsFor(p, order) && p.purpose.External? && p.status.Confirmed? then 1 else 0
  }

  function ConfirmedTotal(s: Shop, order: nat): int {
    SumOf(s.payments, ConfirmedFor(order))
  }

  /** What a ledger row moves between the wallet and the customer's orders. */
  function OrderFlow(r: Row): int {
    match r.key
    case Some(OrderPayment(_, _)) => -r.amount
    case Some(PaymentRefund(_)) => r.amount
    case _ => 0
  }

  // ----- payment side effects -----

  function PriceOf(s: Shop, order: nat): int {
    if order in s.orders then s.orders[order].bill.final else 0
  }

  function WithStatus(s: Shop, order: nat, status: OrderStatus): Shop {
    if order in s.orders then s.(orders := s.orders[order := s.orders[order].(status := status)]) else s
  }

  /** After a payment for the order was confirmed: paid when the total covers the price. */
  function AfterConfirmed(s: Shop, order: nat): Shop {
    WithStatus(s, order, if ConfirmedTotal(s, order) < PriceOf(s, order) then AwaitingPayment else Paid)
  }

  /** After a payment failed or was cancelled: still awaiting when something is confirmed. */
  function AfterDropped(s: Shop, order: nat, otherwise: OrderStatus): Shop {
    WithStatus(s, order, if 0 < ConfirmedTotal(s, order) then AwaitingPayment else otherwise)
  }

  /** A payment-driven ledger row, posted once per key whether or not the wallet is usable. */
  function WalletDelta(b: Book, kind: Kind, amount: int, key: Key, at: int): Book {
    if Find(b.rows, key).Some? then b else Post(b, kind, amount, Some(key), at, 0)
  }

  function WithPayment(s: Shop, payment: nat, status: PaymentStatus): Shop
    requires payment < |s.payments|
  {
    s.(payments := s.payments[payment := s.payments[payment].(status := status)])
  }

  // ----- paying from the wallet -----

  /** Toman prices are paid in whole thousands from the wallet. */
  function CheckoutRounded(amount: int, currency: Currency): int {
    var value := Max(amount, 0);
    if currency.Toman? then value / 1000_00 * 1000_00 else value
  }

  datatype PayError = NotFound | NoAmount | WrongState | CreditDisabled | DurationBlocked | WrongCurrency
                    | TooLittle | KeyExists | DebitFailed(error: WalletError)

  predicate IsOpen(o: Order) {
    o.status.Pending? || o.status.AwaitingPayment?
  }

  /** The part of the order that the wallet pays now. */
  function AmountToApply(s: Shop, policy: Policy, order: nat, now: int): int {
    Min(CheckoutRounded(Spendable(s.book, policy, now) / CENT, s.currency),
        Max(PriceOf(s, order) - ConfirmedTotal(s, order), 0))
  }

  /** Pay an order from the wallet: the spendable cash is read at `read`, the limits are
      checked at `now`, and the row is stamped at `at`. */
  function Pay(s: Shop, policy: Policy, order: nat, partial: bool, read: int, now: int, at: int): Result<Shop, PayError> {
    if order !in s.orders then Err(NotFound) else
    var o, confirmed := s.orders[order], ConfirmedTotal(s, order);
    if o.bill.final <= 0 then Err(NoAmount) else
    var due := Max(o.bill.final - confirmed, 0);
    if due <= 0 then Ok(s) else
    if !IsOpen(o) then Err(WrongState) else
    if !o.useCredit then Err(CreditDisabled) else
    if o.blocked then Err(DurationBlocked) else
    if s.currency != o.currency then Err(WrongCurrency) else
    var amount := AmountToApply(s, policy, order, read);
    if (!partial && amount < due) || amount <= 0 then Err(TooLittle) else
    var key := OrderPayment(order, confirmed);
    if Find(s.book.rows, key).Some? then Err(KeyExists) else
    var reward := Min(ProvableRewardCash(s.book), amount * CENT);
    match Debit(s.book, policy, Kind.Payment, amount * CENT, Some(key), reward, now, at)
    case Err(e) => Err(DebitFailed(e))
    case Ok(book) =>
      Ok(AfterConfirmed(s.(book := book, payments := s.payments + [PaymentRow(Instalment(order), Confirmed, amount)]),
                        order))
  }

  // ----- cancelling -----

  /** One payment of an order is refunded: the order's status follows, and an instalment goes
      back to the wallet. */
  function RefundOne(s: Shop, payment: nat, at: int): Shop
    requires payment < |s.payments| && !s.payments[payment].purpose.WalletTopUp?
  {
    var p := s.payments[payment];
    var marked := WithStatus(WithPayment(s, payment, PayRefunded), p.purpose.order, OrderRefunded);
    if p.purpose.Instalment?
    then marked.(book := WalletDelta(s.book, Kind.Refund, p.amount * CENT, PaymentRefund(payment), at))
    else marked
  }

  /** Refund the confirmed payments of an order among the first n, the newest first. */
  function RefundAll(s: Shop, order: nat, n: nat, at: int): Shop
    requires n <= |s.payments|
    decreases n
  {
    if n == 0 then s
    else if IsFor(s.payments[n - 1], order) && s.payments[n - 1].status.Confirmed? then
      RefundAll(RefundOne(s, n - 1, at), order, n - 1, at)
    else RefundAll(s, order, n - 1, at)
  }

  /** Pending payments of a cancelled order are cancelled with it. */
  function DropPending(payments: seq<PaymentRow>, order: nat): (dropped: seq<PaymentRow>)
    ensures |dropped| == |payments|
    ensures forall i :: 0 <= i < |payments| ==>
      dropped[i] == if IsFor(payments[i], order) && payments[i].status.PayPending?
                    then payments[i].(status := PayCancelled) else payments[i]
  {
    if payments == [] then [] else
      var n := |payments| - 1;
      DropPending(payments[..n], order)
      + [if IsFor(payments[n], order) && payments[n].status.PayPending? then payments[n].(status := PayCancelled)
         else payments[n]]
  }

  predicate IsCancelled(s: Shop, order: nat) {
    order in s.orders && s.orders[order].status.Cancelled?
  }

  datatype CancelOutcome = Returned(shop: Shop, total: int) | NotCancellable

  /** Cancel an unfinished checkout; repeating it returns nothing and changes nothing. */
  function Cancel(s: Shop, order: nat, at: int): CancelOutcome {
    if order !in s.orders then NotCancellable else
    var o := s.orders[order];
    if o.status.Cancelled? then Returned(s, 0) else
    if !IsOpen(o) then NotCancellable else
    var total := ConfirmedTotal(s, order);
    if o.bill.final <= total || 0 < SumOf(s.payments, ConfirmedExternals(order)) then NotCancellable else
    var refunded := RefundAll(s, order, |s.payments|, at);
    Returned(WithStatus(refunded.(payments := DropPending(refunded.payments, order), desk := Release(s.desk, order)),
                        order, Cancelled),
             total)
  }

  // ----- the other steps -----

  /** An administrator or a gateway confirms a payment that waits. A second confirmed outside
      payment for one order violates a database constraint. */
  function Confirm(s: Shop, payment: nat, at: int): Option<Shop> {
    if payment >= |s.payments| then None else
    var p := s.payments[payment];
    if !(p.status.PayPending? || p.status.AwaitingConfirmation?) || p.purpose.Instalment? then None else
    var marked := WithPayment(s, payment, Confirmed);
    match p.purpose
    case WalletTopUp =>
      Some(marked.(book := WalletDelta(s.book, Deposit, p.amount * CENT, TopUp(payment), at)))
    case External(order) =>
      if 0 < SumOf(s.payments, ConfirmedExternals(order)) then None else Some(AfterConfirmed(marked, order))
    case Instalment(_) => None
  }

  /** A waiting payment is rejected or withdrawn. */
  function Drop(s: Shop, payment: nat, failed: bool): Option<Shop> {
    if payment >= |s.payments| then None else
    var p := s.payments[payment];
    if !(p.status.PayPending? || p.status.AwaitingConfirmation?) then None else
    var marked := WithPayment(s, payment, if failed then PayFailed else PayCancelled);
    if p.purpose.WalletTopUp? then Some(marked)
    else Some(AfterDropped(marked, p.purpose.order, if failed then OrderFailed else Cancelled))
  }

  /** A confirmed payment of an order is refunded outside of a cancellation. */
  function RefundPayment(s: Shop, payment: nat, at: int): Option<Shop> {
    if payment >= |s.payments| then None else
    var p := s.payments[payment];
    if !p.status.Confirmed? || p.purpose.WalletTopUp? then None else Some(RefundOne(s, payment, at))
  }

  /** A new payment that waits for its confirmation. A receipt puts its open order under
      review. */
  function Open(s: Shop, purpose: Purpose, amount: int): Option<Shop> {
    if amount <= 0 || purpose.Instalment? then None else
    var waiting := s.(payments := s.payments + [PaymentRow(purpose, PayPending, amount)]);
    if purpose.WalletTopUp? then Some(waiting)
    else if purpose.order !in s.orders || !IsOpen(s.orders[purpose.order]) then None
    else Some(WithStatus(waiting, purpose.order, Processing))
  }

  /** A new order; it has no payments yet. */
  function Place(s: Shop, order: nat, o: Order): Option<Shop> {
    if order in s.orders || !o.status.Pending? || o.bill.coupon.Some? then None
    else Some(s.(orders := s.orders[order := o]))
  }

  /** Use a code on an open order. */
  function Discounted(s: Shop, coupons: map<nat, Coupon>, order: nat, code: nat, facts: Facts): Option<Shop> {
    if order !in s.orders then None else
    var o := s.orders[order];
    if !IsOpen(o) || o.blocked then None else
    match Apply(coupons, s.desk, o.bill, s.user, order, code, facts.(unit := UnitOf(o.currency)), ConfirmedTotal(s, order))
    case None => None
    case Some(applied) => Some(s.(desk := applied.desk, orders := s.orders[order := o.(bill := applied.bill)]))
  }

  /** Turn a code into wallet cash. */
  function CashedIn(s: Shop, coupons: map<nat, Coupon>, code: nat, facts: Facts, at: int): Option<Shop> {
    if !Usable(s.book) then None else
    match Redeem(coupons, s.desk, s.user, code, facts)
    case None => None
    case Some(redeemed) =>
      match Credit(s.book, Bonus, redeemed.amount * CENT, Some(CouponCash(redeemed.usage)), at)
      case Err(_) => None
      case Ok(book) => Some(s.(book := book, desk := redeemed.desk))
  }

  /** The customer withdraws cash. */
  function Withdrawn(s: Shop, policy: Policy, amount: int, name: nat, now: int, at: int): Option<Shop> {
    match Debit(s.book, policy, Withdrawal, amount, Some(Outside(name)), 0, now, at)
    case Err(_) => None
    case Ok(book) => Some(s.(book := book))
  }

  // ----- the invariant -----

  ghost predicate PaymentsOk(s: Shop) {
    forall i :: 0 <= i < |s.payments| ==>
      var p := s.payments[i];
      && 0 < p.amount
      && (!p.purpose.WalletTopUp? ==> p.purpose.order in s.orders)
      && (p.purpose.Instalment? ==> p.status.Confirmed? || p.status.PayRefunded?)
  }

  ghost predicate NeverRefunded(s: Shop, order: nat) {
    forall i :: 0 <= i < |s.payments| && IsFor(s.payments[i], order) ==> !s.payments[i].status.PayRefunded?
  }

  /** Each key names a fact that has happened. An instalment's key carries a total that has
      grown since, as long as nothing of the order was refunded. */
  ghost predicate KeyIsPast(s: Shop, key: Key) {
    match key
    case OrderPayment(order, confirmed) =>
      order in s.orders && (NeverRefunded(s, order) ==> confirmed < ConfirmedTotal(s, order))
    case PaymentRefund(payment) =>
      payment < |s.payments| && s.payments[payment].purpose.Instalment? && s.payments[payment].status.PayRefunded?
    case TopUp(payment) =>
      payment < |s.payments| && s.payments[payment].purpose.WalletTopUp? && s.payments[payment].status.Confirmed?
    case CouponCash(usage) => usage < s.desk.nextUsage
    case _ => true
  }

  ghost predicate KeysArePast(s: Shop) {
    forall r :: r in s.book.rows && r.key.Some? ==> KeyIsPast(s, r.key.value)
  }

  ghost predicate OneExternal(s: Shop) {
    forall order :: SumOf(s.payments, ConfirmedExternals(order)) <= 1
  }

  /** A paid order is covered by confirmed payments; a cancelled one holds none. */
  ghost predicate StatusesOk(s: Shop) {
    forall order :: order in s.orders ==>
      && (s.orders[order].status.Paid? ==> s.orders[order].bill.final <= ConfirmedTotal(s, order))
      && (s.orders[order].status.Cancelled? ==> ConfirmedTotal(s, order) == 0)
  }

  /** The ledger agrees with the payments: what went to orders and did not come back is
      what confirmed instalments hold. */
  ghost predicate FlowsBalance(s: Shop) {
    SumOf(s.book.rows, OrderFlow) == -SumOf(s.payments, Held) * CENT
  }

  ghost predicate ShopOk(s: Shop, policy: Policy, coupons: map<nat, Coupon>) {
    && Sound(s.book, policy) && DeskOk(coupons, s.desk)
    && PaymentsOk(s) && KeysArePast(s) && OneExternal(s) && StatusesOk(s) && FlowsBalance(s)
  }

  // ----- sums over payments -----

  lemma {:induction false} SumPointwise(xs: seq<PaymentRow>, ys: seq<PaymentRow>, f: PaymentRow -> int)
    requires |xs| == |ys| && forall i :: 0 <= i < |xs| ==> f(xs[i]) == f(ys[i])
    ensures SumOf(xs, f) == SumOf(ys, f)
  {
    if xs != [] {
      assert forall i :: 0 <= i < |xs| - 1 ==> xs[1..][i] == xs[i + 1] && ys[1..][i] == ys[i + 1];
      SumPointwise(xs[1..], ys[1..], f);
    }
  }

  lemma {:induction false} NothingCounted(ps: seq<PaymentRow>, f: PaymentRow -> int)
    requires forall i :: 0 <= i < |ps| ==> f(ps[i]) == 0
    ensures SumOf(ps, f) == 0
  {
    if ps != [] {
      assert forall i :: 0 <= i < |ps| - 1 ==> ps[1..][i] == ps[i + 1];
      NothingCounted(ps[1..], f);
    }
  }

  lemma TotalIsNonNegative(s: Shop, order: nat)
    requires PaymentsOk(s)
    ensures 0 <= ConfirmedTotal(s, order) && 0 <= SumOf(s.payments, ConfirmedExternals(order))
  {
    SumNonNegative(s.payments, ConfirmedFor(order));
    SumNonNegative(s.payments, ConfirmedExternals(order));
  }

  /** How one payment's new status moves the sums. */
  lemma PaymentMoves(s: Shop, payment: nat, status: PaymentStatus, order: nat)
    requires payment < |s.payments|
    ensures var p := s.payments[payment]; var q := p.(status := status); var t := WithPayment(s, payment, status);
            && SumOf(t.payments, Held) == SumOf(s.payments, Held) - Held(p) + Held(q)
            && ConfirmedTotal(t, order)
               == ConfirmedTotal(s, order) - ConfirmedFor(order)(p) + ConfirmedFor(order)(q)
            && SumOf(t.payments, ConfirmedExternals(order))
               == SumOf(s.payments, ConfirmedExternals(order)) - ConfirmedExternals(order)(p) + ConfirmedExternals(order)(q)
  {
    var q := s.payments[payment].(status := status);
    SumUpdate(s.payments, payment, q, Held);
    SumUpdate(s.payments, payment, q, ConfirmedFor(order));
    SumUpdate(s.payments, payment, q, ConfirmedExternals(order));
  }

  lemma PaymentAdded(s: Shop, p: PaymentRow, order: nat)
    ensures var t := s.(payments := s.payments + [p]);
            && SumOf(t.payments, Held) == SumOf(s.payments, Held) + Held(p)
            && ConfirmedTotal(t, order) == ConfirmedTotal(s, order) + ConfirmedFor(order)(p)
            && SumOf(t.payments, ConfirmedExternals(order))
               == SumOf(s.payments, ConfirmedExternals(order)) + ConfirmedExternals(order)(p)
  {
    SumPush(s.payments, p, Held);
    SumPush(s.payments, p, ConfirmedFor(order));
    SumPush(s.payments, p, ConfirmedExternals(order));
  }

  // ----- paying -----

  /** A wallet payment that was not refused by its own guards is never refused by the debit,
      even when a day or a month ends between reading the cash and checking the limits. */
  lemma DebitNeverFails(s: Shop, policy: Policy, order: nat, partial: bool, read: int, now: int, at: int)
    requires Sound(s.book, policy) && read <= now
    ensures forall e :: Pay(s, policy, order, partial, read, now, at) != Err(DebitFailed(e))
  {
    hide Sound, Debit, Spendable;
    if order in s.orders {
      var amount, key := AmountToApply(s, policy, order, read), OrderPayment(order, ConfirmedTotal(s, order));
      if 0 < amount && Find(s.book.rows, key).None? {
        AmountIsSpendable(s, policy, order, read);
        SpendableIsAccepted(s.book, policy, amount * CENT, key,
                            Min(ProvableRewardCash(s.book), amount * CENT), read, now, at);
      }
    }
  }

  lemma AmountIsSpendable(s: Shop, policy: Policy, order: nat, read: int)
    ensures AmountToApply(s, policy, order, read) * CENT <= Spendable(s.book, policy, read)
    ensures 0 <= AmountToApply(s, policy, order, read)
  {
  }

  /** A payment that went through is one row and one instalment. */
  ghost predicate PaidInto(s: Shop, t: Shop, policy: Policy, order: nat, amount: int, now: int, at: int) {
    var confirmed := ConfirmedTotal(s, order);
    var reward := Min(ProvableRewardCash(s.book), amount * CENT);
    && order in s.orders && 0 < amount <= s.orders[order].bill.final - confirmed
    && IsOpen(s.orders[order]) && Find(s.book.rows, OrderPayment(order, confirmed)).None?
    && Debit(s.book, policy, Kind.Payment, amount * CENT, Some(OrderPayment(order, confirmed)), reward, now, at)
       == Ok(Post(s.book, Kind.Payment, amount * CENT, Some(OrderPayment(order, confirmed)), at, reward))
    && t == s.(book := Post(s.book, Kind.Payment, amount * CENT, Some(OrderPayment(order, confirmed)), at, reward),
               payments := s.payments + [PaymentRow(Instalment(order), Confirmed, amount)],
               orders := s.orders[order := s.orders[order].(status :=
                 if confirmed + amount < s.orders[order].bill.final then AwaitingPayment else Paid)])
  }

  /** What a wallet payment does: it takes the whole due or the rounded cash, whichever is
      less, and marks the order paid exactly when the due is covered. */
  lemma PayOutcome(s: Shop, policy: Policy, order: nat, partial: bool, read: int, now: int, at: int)
    requires Sound(s.book, policy) && read <= now && Pay(s, policy, order, partial, read, now, at).Ok?
    ensures var t := Pay(s, policy, order, partial, read, now, at).value;
            || (t == s && s.orders[order].bill.final <= ConfirmedTotal(s, order))
            || (var amount := AmountToApply(s, policy, order, read);
                && PaidInto(s, t, policy, order, amount, now, at)
                && (partial || amount == s.orders[order].bill.final - ConfirmedTotal(s, order))
                && (s.currency.Toman? ==>
                      amount == s.orders[order].bill.final - ConfirmedTotal(s, order) || amount % 1000_00 == 0))
  {
    hide Sound, Debit, Spendable, SumOf;
    var o, confirmed := s.orders[order], ConfirmedTotal(s, order);
    if confirmed < o.bill.final {
      var amount, key := AmountToApply(s, policy, order, read), OrderPayment(order, confirmed);
      var reward := Min(ProvableRewardCash(s.book), amount * CENT);
      AmountIsSpendable(s, policy, order, read);
      SpendableIsAccepted(s.book, policy, amount * CENT, key, reward, read, now, at);
      PaymentAdded(s, PaymentRow(Instalment(order), Confirmed, amount), order);
      var mid := s.(book := Post(s.book, Kind.Payment, amount * CENT, Some(key), at, reward),
                    payments := s.payments + [PaymentRow(Instalment(order), Confirmed, amount)]);
      assert ConfirmedTotal(mid, order) == confirmed + amount;
      CheckoutRoundedIsLargest(Spendable(s.book, policy, read) / CENT, s.currency);
    }
  }

  /** The checkout credit is the most that whole thousands of Toman allow. */
  lemma CheckoutRoundedIsLargest(cash: int, currency: Currency)
    ensures var r := CheckoutRounded(cash, currency);
            && 0 <= r <= Max(cash, 0)
            && (if currency.Toman? then r % 1000_00 == 0 && Max(cash, 0) < r + 1000_00 else r == Max(cash, 0))
  {
  }

  // ----- every step keeps the invariant -----

  /** What was past stays past. */
  ghost predicate Later(s: Shop, t: Shop) {
    && (forall order :: order in s.orders ==> order in t.orders)
    && |s.payments| <= |t.payments| && s.desk.nextUsage <= t.desk.nextUsage
    && (forall i :: 0 <= i < |s.payments| ==>
          && t.payments[i].purpose == s.payments[i].purpose
          && (s.payments[i].status.PayRefunded? ==> t.payments[i].status.PayRefunded?)
          && (s.payments[i].status.Confirmed? ==> t.payments[i].status.Confirmed? || t.payments[i].status.PayRefunded?)
          && (s.payments[i].purpose.WalletTopUp? && s.payments[i].status.Confirmed? ==> t.payments[i].status.Confirmed?))
    && (forall order :: NeverRefunded(t, order) ==> ConfirmedTotal(s, order) <= ConfirmedTotal(t, order))
  }

  lemma KeysStayPast(s: Shop, t: Shop, rows: seq<Row>)
    requires KeysArePast(s) && Later(s, t) && t.book.rows == s.book.rows + rows
    requires forall r :: r in rows && r.key.Some? ==> KeyIsPast(t, r.key.value)
    ensures KeysArePast(t)
  {
  }

  lemma PaidKeepsOk(s: Shop, t: Shop, policy: Policy, coupons: map<nat, Coupon>, order: nat, amount: int, now: int, at: int)
    requires ShopOk(s, policy, coupons) && PaidInto(s, t, policy, order, amount, now, at) && now <= at
    ensures ShopOk(t, policy, coupons) && Later(s, t)
    ensures ConfirmedTotal(t, order) == ConfirmedTotal(s, order) + amount
    ensures SumOf(t.payments, HeldFor(order)) == SumOf(s.payments, HeldFor(order)) + amount
  {
    hide Sound, DeskOk, Debit, SumOf, PaidInto;
    var p := PaymentRow(Instalment(order), Confirmed, amount);
    var confirmed, reward := ConfirmedTotal(s, order), Min(ProvableRewardCash(s.book), amount * CENT);
    var key := OrderPayment(order, confirmed);
    PaidIntoParts(s, t, policy, order, amount, now, at);
    var row := t.book.rows[|s.book.rows|];
    DebitKeepsSound(s.book, policy, Kind.Payment, amount * CENT, Some(key), reward, now, at);
    assert SumOf(t.payments, HeldFor(order)) == SumOf(s.payments, HeldFor(order)) + amount by {
      SumPush(s.payments, p, HeldFor(order));
    }
    SumPush(s.book.rows, row, OrderFlow);
    forall other ensures
        && ConfirmedTotal(t, other) == ConfirmedTotal(s, other) + (if other == order then amount else 0)
        && SumOf(t.payments, Held) == SumOf(s.payments, Held) + amount
        && SumOf(t.payments, ConfirmedExternals(other)) == SumOf(s.payments, ConfirmedExternals(other))
    {
      PaymentAdded(s, p, other);
    }
    assert KeyIsPast(t, key);
    KeysStayPast(s, t, [row]);
    TotalIsNonNegative(s, order);
  }

  lemma PaidIntoParts(s: Shop, t: Shop, policy: Policy, order: nat, amount: int, now: int, at: int)
    requires PaidInto(s, t, policy, order, amount, now, at)
    ensures var confirmed := ConfirmedTotal(s, order);
            var reward := Min(ProvableRewardCash(s.book), amount * CENT);
            && order in s.orders && 0 < amount <= s.orders[order].bill.final - confirmed
            && 0 <= reward <= amount * CENT && reward <= ProvableRewardCash(s.book)
            && t == s.(book := t.book, payments := s.payments + [PaymentRow(Instalment(order), Confirmed, amount)],
                       orders := s.orders[order := s.orders[order].(status :=
                         if confirmed + amount < s.orders[order].bill.final then AwaitingPayment else Paid)])
            && t.book.rows == s.book.rows + [t.book.rows[|s.book.rows|]]
            && t.book.rows[|s.book.rows|].key == Some(OrderPayment(order, confirmed))
            && t.book.rows[|s.book.rows|].amount == amount * CENT
            && t.book.balance == s.book.balance - amount * CENT
            && Debit(s.book, policy, Kind.Payment, amount * CENT, Some(OrderPayment(order, confirmed)), reward, now, at)
               == Ok(t.book)
    ensures t.book.stake == s.book.stake && t.book.active == s.book.active && t.book.frozen == s.book.frozen
  {
    hide SumOf, Debit;
  }

  /** Refunding one confirmed payment of an order. */
  lemma RefundOneKeepsOk(s: Shop, policy: Policy, coupons: map<nat, Coupon>, payment: nat, at: int)
    requires ShopOk(s, policy, coupons) && payment < |s.payments| && s.payments[payment].status.Confirmed?
    requires !s.payments[payment].purpose.WalletTopUp?
    ensures var t := RefundOne(s, payment, at); var p := s.payments[payment]; var order := p.purpose.order;
            && ShopOk(t, policy, coupons) && Later(s, t)
            && t == s.(book := t.book, payments := s.payments[payment := p.(status := PayRefunded)],
                       orders := s.orders[order := s.orders[order].(status := OrderRefunded)])
            && t.book == s.book.(balance := t.book.balance, rows := t.book.rows)
            && t.book.balance == s.book.balance + Held(p) * CENT
            && |s.book.rows| <= |t.book.rows| && t.book.rows[..|s.book.rows|] == s.book.rows
            && (forall other :: other != order ==> ConfirmedTotal(t, other) == ConfirmedTotal(s, other))
  {
    hide Sound, DeskOk, SumOf;
    var t, p := RefundOne(s, payment, at), s.payments[payment];
    var key := PaymentRefund(payment);
    forall other ensures
        && SumOf(t.payments, Held) == SumOf(s.payments, Held) - Held(p)
        && (other != p.purpose.order ==> ConfirmedTotal(t, other) == ConfirmedTotal(s, other))
        && SumOf(t.payments, ConfirmedExternals(other)) <= SumOf(s.payments, ConfirmedExternals(other))
    {
      PaymentMoves(s, payment, PayRefunded, other);
    }
    assert !NeverRefunded(t, p.purpose.order) by { assert IsFor(t.payments[payment], p.purpose.order); }
    assert Later(s, t);
    if p.purpose.Instalment? {
      assert Find(s.book.rows, key).None? by { assert !KeyIsPast(s, key); }
      assert t.book == Post(s.book, Kind.Refund, p.amount * CENT, Some(key), at, 0);
      CreditRowKeepsSound(s.book, policy, Kind.Refund, p.amount * CENT, Some(key), at);
      var row := t.book.rows[|s.book.rows|];
      SumPush(s.book.rows, row, OrderFlow);
      assert KeyIsPast(t, key);
      KeysStayPast(s, t, [row]);
    } else {
      KeysStayPast(s, t, []);
    }
  }

  /** The refunded form of an order's confirmed payment. */
  function RefundedForm(p: PaymentRow, order: nat): PaymentRow {
    if IsFor(p, order) && p.status.Confirmed? then p.(status := PayRefunded) else p
  }

  /** What refunding an order's confirmed payments among the first n has changed. */
  ghost predicate Refunded(s: Shop, t: Shop, order: nat, n: nat) {
    && n <= |s.payments| == |t.payments|
    && (forall i :: 0 <= i < n ==> t.payments[i] == RefundedForm(s.payments[i], order))
    && (forall i :: n <= i < |s.payments| ==> t.payments[i] == s.payments[i])
    && OnlyOrderChanged(s, t, order)
    && t.book.balance == s.book.balance + SumOf(s.payments[..n], HeldFor(order)) * CENT
  }

  ghost predicate OnlyOrderChanged(s: Shop, t: Shop, order: nat) {
    && t == s.(book := t.book, payments := t.payments, orders := t.orders)
    && t.orders.Keys == s.orders.Keys
    && (forall other :: other in s.orders ==>
          && t.orders[other] == s.orders[other].(status := t.orders[other].status)
          && (other != order ==> t.orders[other] == s.orders[other]))
    && t.book == s.book.(balance := t.book.balance, rows := t.book.rows)
    && |s.book.rows| <= |t.book.rows| && t.book.rows[..|s.book.rows|] == s.book.rows
    && (forall other :: other != order ==> ConfirmedTotal(t, other) == ConfirmedTotal(s, other))
  }

  lemma OnlyOrderChangedTwice(s: Shop, t: Shop, u: Shop, order: nat)
    requires OnlyOrderChanged(s, t, order) && OnlyOrderChanged(t, u, order)
    ensures OnlyOrderChanged(s, u, order)
  {
  }

  lemma RefundOneChanges(s: Shop, policy: Policy, coupons: map<nat, Coupon>, order: nat, payment: nat, at: int)
    requires ShopOk(s, policy, coupons) && payment < |s.payments| && s.payments[payment].status.Confirmed?
    requires IsFor(s.payments[payment], order)
    ensures var t := RefundOne(s, payment, at);
            && ShopOk(t, policy, coupons) && Later(s, t) && OnlyOrderChanged(s, t, order)
            && t.payments == s.payments[payment := RefundedForm(s.payments[payment], order)]
            && t.book.balance == s.book.balance + HeldFor(order)(s.payments[payment]) * CENT
  {
    hide ShopOk, Later, SumOf, RefundOne;
    RefundOneKeepsOk(s, policy, coupons, payment, at);
    AmountsArePositive(s, policy, coupons);
  }

  lemma {:induction false} RefundAllKeepsOk(s: Shop, policy: Policy, coupons: map<nat, Coupon>, order: nat, n: nat, at: int)
    requires ShopOk(s, policy, coupons) && n <= |s.payments|
    ensures ShopOk(RefundAll(s, order, n, at), policy, coupons)
    ensures Later(s, RefundAll(s, order, n, at))
    ensures Refunded(s, RefundAll(s, order, n, at), order, n)
    decreases n
  {
    hide ShopOk, Later, SumOf, RefundOne, OnlyOrderChanged;
    if n == 0 {
      LaterIsReflexive(s);
      assert OnlyOrderChanged(s, s, order) by { NothingChanged(s, order); }
      assert SumOf(s.payments[..0], HeldFor(order)) == 0 by { NothingCounted(s.payments[..0], HeldFor(order)); }
    } else {
      var p := s.payments[n - 1];
      assert s.payments[..n] == s.payments[..n - 1] + [p];
      SumPush(s.payments[..n - 1], p, HeldFor(order));
      AmountsArePositive(s, policy, coupons);
      if IsFor(p, order) && p.status.Confirmed? {
        var u := RefundOne(s, n - 1, at);
        RefundOneChanges(s, policy, coupons, order, n - 1, at);
        RefundAllKeepsOk(u, policy, coupons, order, n - 1, at);
        assert u.payments[..n - 1] == s.payments[..n - 1];
        LaterIsTransitive(s, u, RefundAll(u, order, n - 1, at));
        OnlyOrderChangedTwice(s, u, RefundAll(u, order, n - 1, at), order);
      } else {
        RefundAllKeepsOk(s, policy, coupons, order, n - 1, at);
      }
    }
  }

  lemma NothingChanged(s: Shop, order: nat)
    ensures OnlyOrderChanged(s, s, order)
  {
    hide SumOf;
  }

  lemma AmountsArePositive(s: Shop, policy: Policy, coupons: map<nat, Coupon>)
    requires ShopOk(s, policy, coupons)
    ensures PaymentsOk(s)
  {
  }

  lemma LaterIsReflexive(s: Shop)
    ensures Later(s, s)
  {
  }

  lemma LaterIsTransitive(s: Shop, t: Shop, u: Shop)
    requires Later(s, t) && Later(t, u)
    ensures Later(s, u)
  {
  }

  /** Dropping what still waits changes no sum. */
  lemma DroppingCountsNothing(payments: seq<PaymentRow>, order: nat, other: nat)
    ensures var dropped := DropPending(payments, order);
            && SumOf(dropped, Held) == SumOf(payments, Held)
            && SumOf(dropped, ConfirmedFor(other)) == SumOf(payments, ConfirmedFor(other))
            && SumOf(dropped, ConfirmedExternals(other)) == SumOf(payments, ConfirmedExternals(other))
  {
    var dropped := DropPending(payments, order);
    SumPointwise(dropped, payments, Held);
    SumPointwise(dropped, payments, ConfirmedFor(other));
    SumPointwise(dropped, payments, ConfirmedExternals(other));
  }

  /** Without a confirmed outside payment, all that is confirmed came from the wallet. */
  lemma {:induction false} AllFromWallet(ps: seq<PaymentRow>, order: nat)
    requires SumOf(ps, ConfirmedExternals(order)) <= 0
    ensures SumOf(ps, ConfirmedFor(order)) == SumOf(ps, HeldFor(order))
  {
    if ps != [] {
      SumNonNegative(ps[1..], ConfirmedExternals(order));
      AllFromWallet(ps[1..], order);
    }
  }

  /** The last steps of a cancellation: pending payments and coupon usages go. */
  lemma ClosingKeepsOk(s: Shop, policy: Policy, coupons: map<nat, Coupon>, order: nat)
    requires ShopOk(s, policy, coupons) && order in s.orders && ConfirmedTotal(s, order) == 0
    ensures var t := WithStatus(s.(payments := DropPending(s.payments, order), desk := Release(s.desk, order)),
                                order, Cancelled);
            ShopOk(t, policy, coupons) && Later(s, t)
            && (forall other :: ConfirmedTotal(t, other) == ConfirmedTotal(s, other))
  {
    hide Sound, DeskOk, SumOf, Release;
    var t := WithStatus(s.(payments := DropPending(s.payments, order), desk := Release(s.desk, order)), order, Cancelled);
    ReleaseKeepsDesk(coupons, s.desk, order);
    ReleaseKeepsCounter(s.desk, order);
    forall other ensures
        && SumOf(t.payments, Held) == SumOf(s.payments, Held)
        && ConfirmedTotal(t, other) == ConfirmedTotal(s, other)
        && SumOf(t.payments, ConfirmedExternals(other)) == SumOf(s.payments, ConfirmedExternals(other))
    {
      DroppingCountsNothing(s.payments, order, other);
    }
    KeysStayPast(s, t, []);
  }

  lemma ReleaseKeepsCounter(d: Desk, order: nat)
    ensures Release(d, order).nextUsage == d.nextUsage
  {
  }

  /** The final form of a cancelled order's payment. */
  function ClosedForm(p: PaymentRow, order: nat): PaymentRow {
    if !IsFor(p, order) then p
    else if p.status.Confirmed? then p.(status := PayRefunded)
    else if p.status.PayPending? then p.(status := PayCancelled)
    else p
  }

  /** Cancelling gives back exactly what the wallet had paid, leaves the order cancelled
      with no live payment and no coupon usage, touches no other order, and repeating it
      changes nothing. */
  lemma CancelReturnsEverything(s: Shop, policy: Policy, coupons: map<nat, Coupon>, order: nat, at: int)
    requires ShopOk(s, policy, coupons) && Cancel(s, order, at).Returned?
    requires !s.orders[order].status.Cancelled?
    ensures var t, total := Cancel(s, order, at).shop, Cancel(s, order, at).total;
            && ShopOk(t, policy, coupons) && Later(s, t)
            && total == ConfirmedTotal(s, order) == SumOf(s.payments, HeldFor(order))
            && t.book == s.book.(balance := s.book.balance + total * CENT, rows := t.book.rows)
            && |s.book.rows| <= |t.book.rows| && t.book.rows[..|s.book.rows|] == s.book.rows
            && t.orders == s.orders[order := s.orders[order].(status := Cancelled)]
            && t.desk == Release(s.desk, order) && SumOf(t.desk.usages, ForOrder(order)) == 0
            && |t.payments| == |s.payments|
            && (forall i :: 0 <= i < |t.payments| ==> t.payments[i] == ClosedForm(s.payments[i], order))
            && ConfirmedTotal(t, order) == 0
            && forall later :: Cancel(t, order, later) == Returned(t, 0)
  {
    hide ShopOk, SumOf, RefundAll, Release, Later, Refunded, DropPending;
    var n, u := |s.payments|, RefundAll(s, order, |s.payments|, at);
    assert s.payments[..n] == s.payments;
    AllFromWallet(s.payments, order);
    RefundAllKeepsOk(s, policy, coupons, order, n, at);
    assert |u.payments| == n && order in u.orders && u.orders[order].(status := Cancelled) == s.orders[order].(status := Cancelled) && u.desk == s.desk
      && (forall other :: other in s.orders && other != order ==> u.orders[other] == s.orders[other])
      && u.orders.Keys == s.orders.Keys
      && u.book == s.book.(balance := s.book.balance + SumOf(s.payments, HeldFor(order)) * CENT, rows := u.book.rows)
      && |s.book.rows| <= |u.book.rows| && u.book.rows[..|s.book.rows|] == s.book.rows
      by { RefundedAll(s, u, order); }
    assert ConfirmedTotal(u, order) == 0 by { NoneConfirmed(s, u, order); }
    ClosingKeepsOk(u, policy, coupons, order);
    assert SumOf(Release(s.desk, order).usages, ForOrder(order)) == 0 by {
      ShopHasDesk(s, policy, coupons);
      ReleaseKeepsDesk(coupons, s.desk, order);
    }
    LaterIsTransitive(s, u, Cancel(s, order, at).shop);
    assert forall i :: 0 <= i < n ==> DropPending(u.payments, order)[i] == ClosedForm(s.payments[i], order) by {
      FormsCompose(s, u, order);
    }
    assert u.orders[order := u.orders[order].(status := Cancelled)] == s.orders[order := s.orders[order].(status := Cancelled)];
  }

  lemma RefundedAll(s: Shop, u: Shop, order: nat)
    requires Refunded(s, u, order, |s.payments|)
    ensures OnlyOrderChanged(s, u, order) && |u.payments| == |s.payments|
    ensures u.book.balance == s.book.balance + SumOf(s.payments, HeldFor(order)) * CENT
  {
    hide SumOf;
    assert s.payments[..|s.payments|] == s.payments;
  }

  lemma NoneConfirmed(s: Shop, u: Shop, order: nat)
    requires Refunded(s, u, order, |s.payments|)
    ensures ConfirmedTotal(u, order) == 0
  {
    hide SumOf;
    NothingCounted(u.payments, ConfirmedFor(order));
  }

  lemma FormsCompose(s: Shop, u: Shop, order: nat)
    requires Refunded(s, u, order, |s.payments|)
    ensures forall i :: 0 <= i < |s.payments| ==> DropPending(u.payments, order)[i] == ClosedForm(s.payments[i], order)
  {
    hide SumOf, DropPending;
  }

  lemma ShopHasDesk(s: Shop, policy: Policy, coupons: map<nat, Coupon>)
    requires ShopOk(s, policy, coupons)
    ensures DeskOk(coupons, s.desk) && Sound(s.book, policy)
  {
  }

  /** Any number of attempts to pay from the wallet, full or partial. */
  datatype Attempt = Attempt(partial: bool, read: int, now: int, at: int)

  function Attempted(s: Shop, policy: Policy, order: nat, attempts: seq<Attempt>): Shop
    decreases |attempts|
  {
    if attempts == [] then s else
      var a := attempts[0];
      match Pay(s, policy, order, a.partial, a.read, a.now, a.at)
      case Ok(t) => Attempted(t, policy, order, attempts[1..])
      case Err(_) => Attempted(s, policy, order, attempts[1..])
  }

  lemma {:induction false} AttemptsKeepOk(s: Shop, policy: Policy, coupons: map<nat, Coupon>, order: nat,
                                          attempts: seq<Attempt>)
    requires ShopOk(s, policy, coupons)
    requires forall a :: a in attempts ==> a.read <= a.now <= a.at
    ensures var t := Attempted(s, policy, order, attempts);
            && ShopOk(t, policy, coupons) && Later(s, t)
            && t.book.balance + SumOf(t.payments, HeldFor(order)) * CENT
               == s.book.balance + SumOf(s.payments, HeldFor(order)) * CENT
            && t.book == s.book.(balance := t.book.balance, rows := t.book.rows) && t.desk == s.desk
            && (order in s.orders ==> order in t.orders && t.orders[order].bill == s.orders[order].bill)
    decreases |attempts|
  {
    hide ShopOk, SumOf, Later, Pay, PaidInto;
    if attempts == [] {
      LaterIsReflexive(s);
    } else {
      var a, rest := attempts[0], attempts[1..];
      match Pay(s, policy, order, a.partial, a.read, a.now, a.at)
      case Ok(t) =>
        ShopHasDesk(s, policy, coupons);
        PayOutcome(s, policy, order, a.partial, a.read, a.now, a.at);
        if t != s {
          var amount := AmountToApply(s, policy, order, a.read);
          PaidKeepsOk(s, t, policy, coupons, order, amount, a.now, a.at);
          PaidIntoParts(s, t, policy, order, amount, a.now, a.at);
          AttemptsKeepOk(t, policy, coupons, order, rest);
          LaterIsTransitive(s, t, Attempted(t, policy, order, rest));
        } else {
          AttemptsKeepOk(s, policy, coupons, order, rest);
        }
      case Err(_) =>
        AttemptsKeepOk(s, policy, coupons, order, rest);
    }
  }

  /** Paying any instalments from the wallet and then cancelling is a round trip: the
      balance is what it was before the first instalment. */
  lemma PayThenCancel(s: Shop, policy: Policy, coupons: map<nat, Coupon>, order: nat, attempts: seq<Attempt>, at: int)
    requires ShopOk(s, policy, coupons) && order in s.orders && SumOf(s.payments, HeldFor(order)) == 0
    requires forall a :: a in attempts ==> a.read <= a.now <= a.at
    requires !IsCancelled(Attempted(s, policy, order, attempts), order)
    requires Cancel(Attempted(s, policy, order, attempts), order, at).Returned?
    ensures var t := Attempted(s, policy, order, attempts);
            var c := Cancel(t, order, at);
            && c.shop.book.balance == s.book.balance
            && c.total * CENT == s.book.balance - t.book.balance
            && IsCancelled(c.shop, order)
            && SumOf(c.shop.desk.usages, ForOrder(order)) == 0
  {
    hide ShopOk, SumOf, Later, Cancel, Release, Attempted;
    AttemptsKeepOk(s, policy, coupons, order, attempts);
    CancelReturnsEverything(Attempted(s, policy, order, attempts), policy, coupons, order, at);
  }

  // ----- the remaining steps -----

  lemma ConfirmKeepsOk(s: Shop, policy: Policy, coupons: map<nat, Coupon>, payment: nat, at: int)
    requires ShopOk(s, policy, coupons) && Confirm(s, payment, at).Some?
    ensures ShopOk(Confirm(s, payment, at).value, policy, coupons) && Later(s, Confirm(s, payment, at).value)
  {
    hide Sound, DeskOk, SumOf;
    var t, p := Confirm(s, payment, at).value, s.payments[payment];
    forall other ensures
        && SumOf(t.payments, Held) == SumOf(s.payments, Held)
        && ConfirmedTotal(t, other) == ConfirmedTotal(s, other) + (if IsFor(p, other) then p.amount else 0)
        && SumOf(t.payments, ConfirmedExternals(other))
           == SumOf(s.payments, ConfirmedExternals(other)) + (if IsFor(p, other) then 1 else 0)
    {
      PaymentMoves(s, payment, Confirmed, other);
    }
    TotalIsNonNegative(s, if p.purpose.External? then p.purpose.order else 0);
    assert Later(s, t);
    if p.purpose.WalletTopUp? {
      var key := TopUp(payment);
      assert Find(s.book.rows, key).None? by { assert !KeyIsPast(s, key); }
      CreditRowKeepsSound(s.book, policy, Deposit, p.amount * CENT, Some(key), at);
      var row := t.book.rows[|s.book.rows|];
      SumPush(s.book.rows, row, OrderFlow);
      assert KeyIsPast(t, key);
      KeysStayPast(s, t, [row]);
    } else {
      KeysStayPast(s, t, []);
    }
  }

  /** A payment that waited and is dropped counts for nothing, before and after. */
  lemma DroppedKeepsOk(s: Shop, policy: Policy, coupons: map<nat, Coupon>, payment: nat, status: PaymentStatus)
    requires ShopOk(s, policy, coupons) && payment < |s.payments|
    requires s.payments[payment].status.PayPending? || s.payments[payment].status.AwaitingConfirmation?
    requires status.PayFailed? || status.PayCancelled?
    ensures ShopOk(WithPayment(s, payment, status), policy, coupons) && Later(s, WithPayment(s, payment, status))
  {
    hide Sound, DeskOk, SumOf;
    var t := WithPayment(s, payment, status);
    PaymentMoves(s, payment, status, 0);
    forall other ensures
        && ConfirmedTotal(t, other) == ConfirmedTotal(s, other)
        && SumOf(t.payments, ConfirmedExternals(other)) == SumOf(s.payments, ConfirmedExternals(other))
    {
      PaymentMoves(s, payment, status, other);
    }
    KeysStayPast(s, t, []);
  }

  lemma StatusKeepsOk(s: Shop, policy: Policy, coupons: map<nat, Coupon>, order: nat, status: OrderStatus)
    requires ShopOk(s, policy, coupons)
    requires status.Paid? ==> PriceOf(s, order) <= ConfirmedTotal(s, order)
    requires status.Cancelled? ==> ConfirmedTotal(s, order) == 0
    ensures ShopOk(WithStatus(s, order, status), policy, coupons) && Later(s, WithStatus(s, order, status))
  {
    hide Sound, DeskOk, SumOf;
    var t := WithStatus(s, order, status);
    assert forall other :: ConfirmedTotal(t, other) == ConfirmedTotal(s, other);
    KeysStayPast(s, t, []);
  }

  lemma DropKeepsOk(s: Shop, policy: Policy, coupons: map<nat, Coupon>, payment: nat, failed: bool)
    requires ShopOk(s, policy, coupons) && Drop(s, payment, failed).Some?
    ensures ShopOk(Drop(s, payment, failed).value, policy, coupons) && Later(s, Drop(s, payment, failed).value)
  {
    hide ShopOk, Later, SumOf;
    var marked, p := WithPayment(s, payment, if failed then PayFailed else PayCancelled), s.payments[payment];
    DroppedKeepsOk(s, policy, coupons, payment, if failed then PayFailed else PayCancelled);
    if !p.purpose.WalletTopUp? {
      AmountsArePositive(marked, policy, coupons);
      TotalIsNonNegative(marked, p.purpose.order);
      var status := if 0 < ConfirmedTotal(marked, p.purpose.order) then AwaitingPayment
                    else if failed then OrderFailed else Cancelled;
      StatusKeepsOk(marked, policy, coupons, p.purpose.order, status);
      LaterIsTransitive(s, marked, Drop(s, payment, failed).value);
    }
  }

  lemma OpenKeepsOk(s: Shop, policy: Policy, coupons: map<nat, Coupon>, purpose: Purpose, amount: int)
    requires ShopOk(s, policy, coupons) && Open(s, purpose, amount).Some?
    ensures ShopOk(Open(s, purpose, amount).value, policy, coupons) && Later(s, Open(s, purpose, amount).value)
  {
    hide Sound, DeskOk, SumOf;
    var t, p := Open(s, purpose, amount).value, PaymentRow(purpose, PayPending, amount);
    PaymentAdded(s, p, 0);
    forall other ensures
        && ConfirmedTotal(t, other) == ConfirmedTotal(s, other)
        && SumOf(t.payments, ConfirmedExternals(other)) == SumOf(s.payments, ConfirmedExternals(other))
    {
      PaymentAdded(s, p, other);
    }
    KeysStayPast(s, t, []);
  }

  /** An order that is being placed, or whose price is lowered, keeps its payments. */
  lemma OrderKeepsOk(s: Shop, t: Shop, policy: Policy, coupons: map<nat, Coupon>, order: nat)
    requires ShopOk(s, policy, coupons) && order in t.orders
    requires t == s.(desk := t.desk, orders := s.orders[order := t.orders[order]])
    requires t.orders[order].status.Pending? || t.orders[order].status.AwaitingPayment?
    requires DeskOk(coupons, t.desk) && s.desk.nextUsage <= t.desk.nextUsage
    ensures ShopOk(t, policy, coupons) && Later(s, t)
  {
    hide Sound, DeskOk, SumOf;
    assert forall other :: ConfirmedTotal(t, other) == ConfirmedTotal(s, other);
    KeysStayPast(s, t, []);
  }

  lemma DiscountedKeepsOk(s: Shop, policy: Policy, coupons: map<nat, Coupon>, order: nat, code: nat, facts: Facts)
    requires ShopOk(s, policy, coupons) && Discounted(s, coupons, order, code, facts).Some?
    ensures var t := Discounted(s, coupons, order, code, facts).value;
            && ShopOk(t, policy, coupons) && Later(s, t)
            && ConfirmedTotal(s, order) <= t.orders[order].bill.final
            && t.orders[order].bill.final + t.orders[order].bill.discount
               == s.orders[order].bill.final + s.orders[order].bill.discount
  {
    hide ShopOk, SumOf, Apply;
    var o := s.orders[order];
    ShopHasDesk(s, policy, coupons);
    ApplyIsExact(coupons, s.desk, o.bill, s.user, order, code, facts.(unit := UnitOf(o.currency)), ConfirmedTotal(s, order));
    ApplyKeepsCounter(coupons, s.desk, o.bill, s.user, order, code, facts.(unit := UnitOf(o.currency)), ConfirmedTotal(s, order));
    OrderKeepsOk(s, Discounted(s, coupons, order, code, facts).value, policy, coupons, order);
  }

  lemma ApplyKeepsCounter(coupons: map<nat, Coupon>, d: Desk, bill: Bill, user: nat, order: nat, code: nat,
                          facts: Facts, confirmed: int)
    requires 0 < facts.unit && Apply(coupons, d, bill, user, order, code, facts, confirmed).Some?
    ensures d.nextUsage <= Apply(coupons, d, bill, user, order, code, facts, confirmed).value.desk.nextUsage
  {
  }

  lemma CashedInKeepsOk(s: Shop, policy: Policy, coupons: map<nat, Coupon>, code: nat, facts: Facts, at: int)
    requires ShopOk(s, policy, coupons) && CashedIn(s, coupons, code, facts, at).Some?
    ensures var t := CashedIn(s, coupons, code, facts, at).value;
            && ShopOk(t, policy, coupons) && Later(s, t)
            && |t.book.rows| == |s.book.rows| + 1
  {
    hide Sound, DeskOk, SumOf;
    var t, redeemed := CashedIn(s, coupons, code, facts, at).value, Redeem(coupons, s.desk, s.user, code, facts).value;
    var key := CouponCash(redeemed.usage);
    assert Find(s.book.rows, key).None? by { assert !KeyIsPast(s, key); }
    RedeemKeepsDesk(coupons, s.desk, s.user, code, facts);
    CreditRowKeepsSound(s.book, policy, Bonus, redeemed.amount * CENT, Some(key), at);
    var row := t.book.rows[|s.book.rows|];
    SumPush(s.book.rows, row, OrderFlow);
    assert forall other :: ConfirmedTotal(t, other) == ConfirmedTotal(s, other);
    assert KeyIsPast(t, key);
    KeysStayPast(s, t, [row]);
  }

  /** Wallet rows that no order and no coupon is behind. */
  ghost predicate IsForeign(key: Option<Key>) {
    key.Some? ==> match key.value
      case OrderPayment(_, _) => false
      case PaymentRefund(_) => false
      case TopUp(_) => false
      case CouponCash(_) => false
      case _ => true
  }

  /** Other wallet activity appends foreign rows and keeps the ledger sound. */
  ghost predicate IsElsewhere(b: Book, c: Book, policy: Policy) {
    && |b.rows| <= |c.rows| && c.rows[..|b.rows|] == b.rows
    && (forall r :: r in c.rows[|b.rows|..] ==> IsForeign(r.key))
    && Sound(c, policy)
  }

  lemma {:induction false} ForeignRowsFlowNowhere(rows: seq<Row>)
    requires forall r :: r in rows ==> IsForeign(r.key)
    ensures SumOf(rows, OrderFlow) == 0
  {
    if rows != [] { ForeignRowsFlowNowhere(rows[1..]); }
  }

  lemma ElsewhereKeepsOk(s: Shop, policy: Policy, coupons: map<nat, Coupon>, book: Book)
    requires ShopOk(s, policy, coupons) && IsElsewhere(s.book, book, policy)
    ensures ShopOk(s.(book := book), policy, coupons) && Later(s, s.(book := book))
  {
    hide Sound, DeskOk, SumOf;
    var t, more := s.(book := book), book.rows[|s.book.rows|..];
    assert book.rows == s.book.rows + more;
    SumConcat(s.book.rows, more, OrderFlow);
    ForeignRowsFlowNowhere(more);
    assert forall other :: ConfirmedTotal(t, other) == ConfirmedTotal(s, other);
    KeysStayPast(s, t, more);
  }

  lemma WithdrawnIsElsewhere(s: Shop, policy: Policy, amount: int, name: nat, now: int, at: int)
    requires Sound(s.book, policy) && now <= at && Withdrawn(s, policy, amount, name, now, at).Some?
    ensures IsElsewhere(s.book, Withdrawn(s, policy, amount, name, now, at).value.book, policy)
  {
    hide Sound, SumOf;
    DebitKeepsSound(s.book, policy, Withdrawal, amount, Some(Outside(name)), 0, now, at);
  }

  // ----- keys of instalments -----

  /** An instalment of this order was taken when the confirmed total was what it is now. */
  ghost predicate TotalSeenBefore(s: Shop, order: nat) {
    exists r :: r in s.book.rows && r.key == Some(OrderPayment(order, ConfirmedTotal(s, order)))
  }

  /** The guards of a partial payment that do not look at the ledger. */
  predicate Payable(s: Shop, policy: Policy, order: nat, read: int) {
    && order in s.orders && IsOpen(s.orders[order]) && s.orders[order].useCredit && !s.orders[order].blocked
    && s.currency == s.orders[order].currency && 0 < AmountToApply(s, policy, order, read)
    && 0 < s.orders[order].bill.final
  }

  /** A payable instalment goes through exactly when the order's confirmed total was never
      seen before at an instalment, and that is so as long as nothing of it was refunded. */
  lemma InstalmentGoesThrough(s: Shop, policy: Policy, coupons: map<nat, Coupon>, order: nat, read: int, now: int, at: int)
    requires ShopOk(s, policy, coupons) && read <= now <= at && Payable(s, policy, order, read)
    ensures Pay(s, policy, order, true, read, now, at).Ok? <==> !TotalSeenBefore(s, order)
    ensures NeverRefunded(s, order) ==> !TotalSeenBefore(s, order)
  {
    hide Sound, SumOf, Spendable, Debit, DeskOk;
    DebitNeverFails(s, policy, order, true, read, now, at);
    if NeverRefunded(s, order) {
      assert !KeyIsPast(s, OrderPayment(order, ConfirmedTotal(s, order)));
    }
  }

  // ----- rewards and discounts -----

  /** The reward-funded part of purchases that still stand. */
  function StandingDiscount(s: Shop): Row -> int {
    (r: Row) =>
      match r.key
      case Some(OrderPayment(order, _)) =>
        if r.kind.Payment? && order in s.orders
           && (s.orders[order].status.Paid? || s.orders[order].status.Processing? || s.orders[order].status.Completed?)
           && 0 < SumOf(s.payments, HeldFor(order))
        then r.discount else 0
      case _ => 0
  }

  function ConfirmedRewardDiscounts(s: Shop): int {
    SumOf(s.book.rows, StandingDiscount(s))
  }

  /** Discounts shown as reward-funded never exceed the reward cash the wallet received. */
  lemma DiscountsAreEarned(s: Shop, policy: Policy, coupons: map<nat, Coupon>)
    requires ShopOk(s, policy, coupons)
    ensures 0 <= ConfirmedRewardDiscounts(s) <= SumOf(s.book.rows, RewardCash)
  {
    SumLe(s.book.rows, StandingDiscount(s), Discount);
    SumNonNegative(s.book.rows, StandingDiscount(s));
  }

  // ----- runs -----

  datatype ShopOp =
    | PayOp(order: nat, partial: bool, read: int, now: int, at: int)
    | CancelOp(order: nat, at: int)
    | ConfirmOp(payment: nat, at: int)
    | DropOp(payment: nat, failed: bool)
    | RefundOp(payment: nat, at: int)
    | OpenOp(purpose: Purpose, amount: int)
    | PlaceOp(order: nat, placed: Order)
    | DiscountOp(order: nat, code: nat, facts: Facts)
    | CashInOp(code: nat, facts: Facts, at: int)
    | WithdrawOp(amount: int, name: nat, now: int, at: int)
    | OthersOp(step: DeskOp)
    | ElsewhereOp(book: Book)

  /** The clock does not run backwards inside a step. */
  ghost predicate OpOk(op: ShopOp) {
    match op
    case PayOp(_, _, read, now, at) => read <= now <= at
    case WithdrawOp(_, _, now, at) => now <= at
    case OthersOp(step) => OpIsMeaningful(step)
    case _ => true
  }

  /** The effect of a step; None when it raises. */
  ghost function Outcome(s: Shop, policy: Policy, coupons: map<nat, Coupon>, op: ShopOp): Option<Shop>
    requires OpOk(op)
  {
    match op
    case PayOp(order, partial, read, now, at) =>
      (match Pay(s, policy, order, partial, read, now, at) case Ok(t) => Some(t) case Err(_) => None)
    case CancelOp(order, at) =>
      (match Cancel(s, order, at) case Returned(t, _) => Some(t) case NotCancellable => None)
    case ConfirmOp(payment, at) => Confirm(s, payment, at)
    case DropOp(payment, failed) => Drop(s, payment, failed)
    case RefundOp(payment, at) => RefundPayment(s, payment, at)
    case OpenOp(purpose, amount) => Open(s, purpose, amount)
    case PlaceOp(order, placed) => Place(s, order, placed)
    case DiscountOp(order, code, facts) => Discounted(s, coupons, order, code, facts)
    case CashInOp(code, facts, at) => CashedIn(s, coupons, code, facts, at)
    case WithdrawOp(amount, name, now, at) => Withdrawn(s, policy, amount, name, now, at)
    case OthersOp(step) => Some(s.(desk := DeskStep(coupons, s.desk, step)))
    case ElsewhereOp(book) => if IsElsewhere(s.book, book, policy) then Some(s.(book := book)) else None
  }

  ghost function ShopStep(s: Shop, policy: Policy, coupons: map<nat, Coupon>, op: ShopOp): Shop
    requires OpOk(op)
  {
    match Outcome(s, policy, coupons, op)
    case Some(t) => t
    case None => s
  }

  ghost function ShopRun(s: Shop, policy: Policy, coupons: map<nat, Coupon>, ops: seq<ShopOp>): Shop
    requires forall op :: op in ops ==> OpOk(op)
    decreases |ops|
  {
    if ops == [] then s else ShopRun(ShopStep(s, policy, coupons, ops[0]), policy, coupons, ops[1..])
  }

  lemma DeskStepKeepsCounter(coupons: map<nat, Coupon>, d: Desk, op: DeskOp)
    requires OpIsMeaningful(op)
    ensures d.nextUsage <= DeskStep(coupons, d, op).nextUsage
  {
    hide SumOf, Eligible, QuotaLeft, Rounded;
  }

  lemma OthersKeepOk(s: Shop, policy: Policy, coupons: map<nat, Coupon>, step: DeskOp)
    requires ShopOk(s, policy, coupons) && OpIsMeaningful(step)
    ensures var t := s.(desk := DeskStep(coupons, s.desk, step)); ShopOk(t, policy, coupons) && Later(s, t)
  {
    hide Sound, DeskOk, SumOf, DeskStep;
    var t := s.(desk := DeskStep(coupons, s.desk, step));
    DeskStepKeepsDesk(coupons, s.desk, step);
    DeskStepKeepsCounter(coupons, s.desk, step);
    assert forall other :: ConfirmedTotal(t, other) == ConfirmedTotal(s, other);
    KeysStayPast(s, t, []);
  }

  lemma PayKeepsOk(s: Shop, policy: Policy, coupons: map<nat, Coupon>, order: nat, partial: bool, read: int, now: int, at: int)
    requires ShopOk(s, policy, coupons) && read <= now <= at
    requires Pay(s, policy, order, partial, read, now, at).Ok?
    ensures var t := Pay(s, policy, order, partial, read, now, at).value; ShopOk(t, policy, coupons) && Later(s, t)
  {
    hide ShopOk, Later, Pay, PaidInto;
    var t := Pay(s, policy, order, partial, read, now, at).value;
    ShopHasDesk(s, policy, coupons);
    PayOutcome(s, policy, order, partial, read, now, at);
    if t != s {
      PaidKeepsOk(s, t, policy, coupons, order, AmountToApply(s, policy, order, read), now, at);
    } else {
      LaterIsReflexive(s);
    }
  }

  lemma CancelKeepsOk(s: Shop, policy: Policy, coupons: map<nat, Coupon>, order: nat, at: int)
    requires ShopOk(s, policy, coupons) && Cancel(s, order, at).Returned?
    ensures ShopOk(Cancel(s, order, at).shop, policy, coupons) && Later(s, Cancel(s, order, at).shop)
  {
    hide ShopOk, Later, RefundAll, SumOf, Release;
    if s.orders[order].status.Cancelled? {
      LaterIsReflexive(s);
    } else {
      CancelReturnsEverything(s, policy, coupons, order, at);
    }
  }

  lemma ShopStepKeepsOk(s: Shop, policy: Policy, coupons: map<nat, Coupon>, op: ShopOp)
    requires ShopOk(s, policy, coupons) && OpOk(op)
    ensures ShopOk(ShopStep(s, policy, coupons, op), policy, coupons)
    ensures Later(s, ShopStep(s, policy, coupons, op))
  {
    hide ShopOk, Later, Pay, Cancel, Confirm, Drop, RefundOne, Discounted, CashedIn, Withdrawn, IsElsewhere, SumOf;
    if Outcome(s, policy, coupons, op).None? {
      LaterIsReflexive(s);
    } else {
      match op
      case PayOp(order, partial, read, now, at) => PayKeepsOk(s, policy, coupons, order, partial, read, now, at);
      case CancelOp(order, at) => CancelKeepsOk(s, policy, coupons, order, at);
      case ConfirmOp(payment, at) => ConfirmKeepsOk(s, policy, coupons, payment, at);
      case DropOp(payment, failed) => DropKeepsOk(s, policy, coupons, payment, failed);
      case RefundOp(payment, at) => RefundOneKeepsOk(s, policy, coupons, payment, at);
      case OpenOp(purpose, amount) => OpenKeepsOk(s, policy, coupons, purpose, amount);
      case PlaceOp(order, placed) =>
        ShopHasDesk(s, policy, coupons);
        OrderKeepsOk(s, s.(orders := s.orders[order := placed]), policy, coupons, order);
      case DiscountOp(order, code, facts) => DiscountedKeepsOk(s, policy, coupons, order, code, facts);
      case CashInOp(code, facts, at) => CashedInKeepsOk(s, policy, coupons, code, facts, at);
      case WithdrawOp(amount, name, now, at) =>
        ShopHasDesk(s, policy, coupons);
        WithdrawnIsElsewhere(s, policy, amount, name, now, at);
        WithdrawnBook(s, policy, amount, name, now, at);
        ElsewhereKeepsOk(s, policy, coupons, Withdrawn(s, policy, amount, name, now, at).value.book);
      case OthersOp(step) => OthersKeepOk(s, policy, coupons, step);
      case ElsewhereOp(book) => ElsewhereKeepsOk(s, policy, coupons, book);
    }
  }

  lemma WithdrawnBook(s: Shop, policy: Policy, amount: int, name: nat, now: int, at: int)
    requires Withdrawn(s, policy, amount, name, now, at).Some?
    ensures var t := Withdrawn(s, policy, amount, name, now, at).value; t == s.(book := t.book)
  {
  }

  /** Over every run of the shop: the ledger is chained, sound and within its limits in every
      day and month, keys never repeat, paid orders are covered, cancelled ones hold nothing,
      quotas hold, and the orders hold exactly what the ledger sent them. */
  lemma {:induction false} ShopRunKeepsOk(s: Shop, policy: Policy, coupons: map<nat, Coupon>, ops: seq<ShopOp>)
    requires ShopOk(s, policy, coupons) && forall op :: op in ops ==> OpOk(op)
    ensures ShopOk(ShopRun(s, policy, coupons, ops), policy, coupons)
    ensures Later(s, ShopRun(s, policy, coupons, ops))
    decreases |ops|
  {
    hide ShopOk, Later, ShopStep;
    if ops == [] {
      LaterIsReflexive(s);
    } else {
      ShopStepKeepsOk(s, policy, coupons, ops[0]);
      ShopRunKeepsOk(ShopStep(s, policy, coupons, ops[0]), policy, coupons, ops[1..]);
      LaterIsTransitive(s, ShopStep(s, policy, coupons, ops[0]), ShopRun(s, policy, coupons, ops));
    }
  }
}
