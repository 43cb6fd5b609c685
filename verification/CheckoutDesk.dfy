/** Orders and payments as an object: the services and the save handlers change its rows step
    by step, each with the effect that Checkout specifies. */
module CheckoutDesk {
  import opened Prelude
  import opened Decimals
  import opened Wallets
  import opened Coupons
  import opened Checkout

  /** No order but one has changed, and that one only in its status. */
  ghost predicate OnlyStatusOf(before: map<nat, Order>, after: map<nat, Order>, order: nat) {
    && after.Keys == before.Keys
    && forall other :: other in before ==> after[other] == before[other].(status := after[other].status)
                                           && (other != order ==> after[other] == before[other])
  }

  /** The change with this key is in the ledger: applying it again, at any time, does nothing. */
  ghost predicate InLedger(b: Book, kind: Kind, amount: int, key: Key) {
    forall at :: WalletDelta(b, kind, amount, key, at) == b
  }

  class CheckoutCounter {
    const user: nat
    const currency: Currency
    const wallet: Wallet
    const desk: CouponDesk
    var orders: map<nat, Order>
    var payments: seq<PaymentRow>

    constructor (user: nat, currency: Currency, wallet: Wallet, desk: CouponDesk)
      ensures this.user == user && this.currency == currency && this.wallet == wallet && this.desk == desk
      ensures State() == Shop(user, currency, wallet.Ledger(), desk.Table(), map[], [])
    {
      this.user, this.currency, this.wallet, this.desk := user, currency, wallet, desk;
      orders, payments := map[], [];
    }

    function State(): Shop
      reads this, wallet, desk
    {
      Shop(user, currency, wallet.Ledger(), desk.Table(), orders, payments)
    }

    method SetStatus(order: nat, status: OrderStatus)
      modifies this`orders
      ensures State() == WithStatus(old(State()), order, status)
    {
      if order in orders { orders := orders[order := orders[order].(status := status)]; }
    }

    /** Apply one payment-driven wallet change once. */
    method ApplyPaymentWalletDelta(kind: Kind, amount: int, key: Key, at: int)
      modifies wallet`balance, wallet`rows
      ensures wallet.Ledger() == WalletDelta(old(wallet.Ledger()), kind, amount, key, at)
    {
      var existing := Find(wallet.rows, key);
      if existing.None? { wallet.CreateRow(kind, amount, Some(key), at, 0); }
    }

    /** The save handler of a payment that has just been confirmed. Its order is paid exactly
        when the confirmed total covers the price, and nothing else changes; a top-up is in the
        ledger afterwards, and handling it again would not add to it. */
    method OnConfirmed(payment: nat, at: int)
      requires payment < |payments|
      modifies this`orders, wallet`balance, wallet`rows
      ensures State() == match payments[payment].purpose
        case WalletTopUp =>
          old(State()).(book := WalletDelta(old(wallet.Ledger()), Deposit, payments[payment].amount * CENT, TopUp(payment), at))
        case External(order) => AfterConfirmed(old(State()), order)
        case Instalment(order) => AfterConfirmed(old(State()), order)
      ensures var purpose := payments[payment].purpose;
              if purpose.WalletTopUp? then
                && orders == old(orders) && Find(wallet.rows, TopUp(payment)).Some?
                && InLedger(wallet.Ledger(), Deposit, payments[payment].amount * CENT, TopUp(payment))
              else
                && wallet.Ledger() == old(wallet.Ledger()) && OnlyStatusOf(old(orders), orders, purpose.order)
                && (purpose.order in orders ==>
                      var o := orders[purpose.order]; var total := SumOf(payments, ConfirmedFor(purpose.order));
                      && (o.status.Paid? <==> o.bill.final <= total)
                      && (o.status.AwaitingPayment? <==> total < o.bill.final))
    {
      hide SumOf;
      var p := payments[payment];
      if p.purpose.WalletTopUp? {
        ApplyPaymentWalletDelta(Deposit, p.amount * CENT, TopUp(payment), at);
      } else {
        var order := p.purpose.order;
        var confirmedTotal := SumOf(payments, ConfirmedFor(order));
        SetStatus(order, if confirmedTotal < PriceOf(State(), order) then AwaitingPayment else Paid);
      }
    }

    /** The save handler of an order's payment that has just been refunded. Its order is
        refunded, and nothing else changes; an instalment is back in the ledger, once. */
    method OnRefunded(payment: nat, at: int)
      requires payment < |payments| && !payments[payment].purpose.WalletTopUp?
      modifies this`orders, wallet`balance, wallet`rows
      ensures var p := payments[payment];
              State() == WithStatus(old(State()), p.purpose.order, OrderRefunded).(
                book := if p.purpose.Instalment?
                        then WalletDelta(old(wallet.Ledger()), Kind.Refund, p.amount * CENT, PaymentRefund(payment), at)
                        else old(wallet.Ledger()))
      ensures var p := payments[payment];
              && OnlyStatusOf(old(orders), orders, p.purpose.order)
              && (p.purpose.order in orders ==> orders[p.purpose.order].status.OrderRefunded?)
              && (p.purpose.External? ==> wallet.Ledger() == old(wallet.Ledger()))
              && (p.purpose.Instalment? ==>
                    && InLedger(wallet.Ledger(), Kind.Refund, p.amount * CENT, PaymentRefund(payment))
                    && wallet.balance - old(wallet.balance)
                       == (if Find(old(wallet.rows), PaymentRefund(payment)).None? then p.amount * CENT else 0))
    {
      var p := payments[payment];
      SetStatus(p.purpose.order, OrderRefunded);
      if p.purpose.Instalment? {
        ApplyPaymentWalletDelta(Kind.Refund, p.amount * CENT, PaymentRefund(payment), at);
      }
    }

    /** The save handler of a payment that has just failed or was cancelled. Its order awaits
        payment exactly when something is confirmed, and nothing else changes. */
    method OnDropped(payment: nat, failed: bool)
      requires payment < |payments|
      modifies this`orders
      ensures State() == if payments[payment].purpose.WalletTopUp? then old(State())
                         else AfterDropped(old(State()), payments[payment].purpose.order,
                                           if failed then OrderFailed else Cancelled)
      ensures var purpose := payments[payment].purpose;
              && (purpose.WalletTopUp? ==> orders == old(orders))
              && (!purpose.WalletTopUp? ==>
                    && OnlyStatusOf(old(orders), orders, purpose.order)
                    && (purpose.order in orders ==>
                          var o := orders[purpose.order]; var total := SumOf(payments, ConfirmedFor(purpose.order));
                          && (o.status.AwaitingPayment? <==> 0 < total)
                          && (o.status.Cancelled? ==> total <= 0 && !failed)))
    {
      hide SumOf;
      var p := payments[payment];
      if !p.purpose.WalletTopUp? {
        var confirmedTotal := SumOf(payments, ConfirmedFor(p.purpose.order));
        SetStatus(p.purpose.order,
                  if 0 < confirmedTotal then AwaitingPayment else if failed then OrderFailed else Cancelled);
      }
    }

    /** Use the wallet for an order, in part or in full; a refusal changes nothing. */
    method PayOrderWithWallet(order: nat, partial: bool, read: int, now: int, at: int)
        returns (error: Option<PayError>)
      modifies this`orders, this`payments, wallet`balance, wallet`rows
      ensures match Pay(old(State()), wallet.policy, order, partial, read, now, at)
              case Ok(after) => error.None? && State() == after
              case Err(e) => error == Some(e) && State() == old(State())
    {
      hide SumOf, Spendable, Debit, ProvableRewardCash;
      if order !in orders { return Some(NotFound); }
      var o := orders[order];
      var confirmedTotal := SumOf(payments, ConfirmedFor(order));
      if o.bill.final <= 0 { return Some(NoAmount); }
      var due := Max(o.bill.final - confirmedTotal, 0);
      if due <= 0 { return None; }
      if !IsOpen(o) { return Some(WrongState); }
      if !o.useCredit { return Some(CreditDisabled); }
      if o.blocked { return Some(DurationBlocked); }
      if currency != o.currency { return Some(WrongCurrency); }
      var cash := Spendable(wallet.Ledger(), wallet.policy, read) / CENT;
      var amount := Min(CheckoutRounded(cash, o.currency), due);
      if !partial && amount < due { return Some(TooLittle); }
      if amount <= 0 { return Some(TooLittle); }
      var key := OrderPayment(order, confirmedTotal);
      var existing := Find(wallet.rows, key);
      if existing.Some? { return Some(KeyExists); }
      var rewardSpent := Min(ProvableRewardCash(wallet.Ledger()), amount * CENT);
      var failure := wallet.DebitWallet(Kind.Payment, amount * CENT, Some(key), rewardSpent, now, at);
      if failure.Some? { return Some(DebitFailed(failure.value)); }
      payments := payments + [PaymentRow(Instalment(order), Confirmed, amount)];
      OnConfirmed(|payments| - 1, at);
      return None;
    }

    /** Refund one confirmed payment of an order. */
    method MarkRefunded(payment: nat, at: int)
      requires payment < |payments| && !payments[payment].purpose.WalletTopUp?
      modifies this`orders, this`payments, wallet`balance, wallet`rows
      ensures State() == RefundOne(old(State()), payment, at)
    {
      payments := payments[payment := payments[payment].(status := PayRefunded)];
      OnRefunded(payment, at);
    }

    /** Cancel the pending payments of an order. */
    method CancelPending(order: nat)
      modifies this`payments
      ensures payments == DropPending(old(payments), order)
    {
      ghost var before := payments;
      var i := 0;
      while i < |payments|
        invariant i <= |payments| == |before|
        invariant forall j :: 0 <= j < i ==> payments[j] == DropPending(before, order)[j]
        invariant forall j :: i <= j < |payments| ==> payments[j] == before[j]
      {
        if IsFor(payments[i], order) && payments[i].status.PayPending? {
          payments := payments[i := payments[i].(status := PayCancelled)];
        }
        i := i + 1;
      }
    }

    /** Cancel an unfinished checkout: refund its payments newest first, drop what waits,
        give the coupon back. */
    method CancelUnpaidOrder(order: nat, at: int) returns (total: Option<int>)
      modifies this`orders, this`payments, wallet`balance, wallet`rows, desk
      ensures match Cancel(old(State()), order, at)
              case Returned(after, amount) => total == Some(amount) && State() == after
              case NotCancellable => total == None && State() == old(State())
    {
      hide SumOf, Release, WalletDelta, DropPending;
      ghost var before := State();
      if order !in orders { return None; }
      var o := orders[order];
      if o.status.Cancelled? { return Some(0); }
      if !IsOpen(o) { return None; }
      var confirmedTotal := SumOf(payments, ConfirmedFor(order));
      if o.bill.final <= confirmedTotal || 0 < SumOf(payments, ConfirmedExternals(order)) { return None; }
      var i := |payments|;
      while 0 < i
        invariant 0 <= i <= |payments|
        invariant RefundAll(State(), order, i, at) == RefundAll(before, order, |before.payments|, at)
        invariant desk.Table() == before.desk
      {
        i := i - 1;
        if IsFor(payments[i], order) && payments[i].status.Confirmed? { MarkRefunded(i, at); }
      }
      CancelPending(order);
      desk.ReleaseUsages(order);
      SetStatus(order, Cancelled);
      return Some(confirmedTotal);
    }

    /** A waiting outside payment is confirmed, unless the order has one already. */
    method ConfirmPayment(payment: nat, at: int) returns (ok: bool)
      modifies this`orders, this`payments, wallet`balance, wallet`rows
      ensures match Confirm(old(State()), payment, at)
              case Some(after) => ok && State() == after
              case None => !ok && State() == old(State())
    {
      hide SumOf, WalletDelta;
      if payment >= |payments| { return false; }
      var p := payments[payment];
      if !(p.status.PayPending? || p.status.AwaitingConfirmation?) || p.purpose.Instalment? { return false; }
      if p.purpose.External? && 0 < SumOf(payments, ConfirmedExternals(p.purpose.order)) { return false; }
      payments := payments[payment := p.(status := Confirmed)];
      OnConfirmed(payment, at);
      return true;
    }

    /** A waiting payment is rejected or withdrawn. */
    method DropPayment(payment: nat, failed: bool) returns (ok: bool)
      modifies this`orders, this`payments
      ensures match Drop(old(State()), payment, failed)
              case Some(after) => ok && State() == after
              case None => !ok && State() == old(State())
    {
      hide SumOf;
      if payment >= |payments| { return false; }
      var p := payments[payment];
      if !(p.status.PayPending? || p.status.AwaitingConfirmation?) { return false; }
      payments := payments[payment := p.(status := if failed then PayFailed else PayCancelled)];
      OnDropped(payment, failed);
      return true;
    }
  }
}
