/** Which payments, cancellations and confirmations go through, and what they then move, told
    from the shop before them. */
module ShopOutcomes {
  import opened Prelude
  import opened Decimals
  import opened Wallets
  import opened Coupons
  import opened Checkout

  // ----- paying from the wallet -----

  /** The amount is all that is due, or all the cash if that is less, without the broken
      thousand in Toman. Amounts are in cents. */
  lemma AmountIsLargest(s: Shop, policy: Policy, order: nat, read: int)
    requires order in s.orders
    ensures var cash := Spendable(s.book, policy, read) / 1_0000_0000;
            var due := s.orders[order].bill.final - ConfirmedTotal(s, order);
            AmountToApply(s, policy, order, read)
              == if due <= 0 then 0 else Min(if s.currency.Toman? then cash - cash % 100_000 else cash, due)
  {
    hide Spendable, SumOf;
  }

  /** A wallet payment goes through exactly for an order with a price that is covered already,
      or that is open, allows credit and fits, when cash is there, all of it where no part
      will do, and when no instalment was taken at the same confirmed total. */
  lemma PaymentGoesThrough(s: Shop, policy: Policy, order: nat, partial: bool, read: int, now: int, at: int)
    requires Sound(s.book, policy) && read <= now
    ensures Pay(s, policy, order, partial, read, now, at).Ok? <==>
      && order in s.orders && 0 < s.orders[order].bill.final
      && (s.orders[order].bill.final <= ConfirmedTotal(s, order) ||
          (&& (s.orders[order].status.Pending? || s.orders[order].status.AwaitingPayment?)
           && s.orders[order].useCredit && !s.orders[order].blocked && s.currency == s.orders[order].currency
           && 0 < AmountToApply(s, policy, order, read)
           && (partial || AmountToApply(s, policy, order, read) == s.orders[order].bill.final - ConfirmedTotal(s, order))
           && forall r :: r in s.book.rows ==> r.key != Some(OrderPayment(order, ConfirmedTotal(s, order)))))
  {
    hide Sound, SumOf, Spendable, Debit, ProvableRewardCash;
    DebitNeverFails(s, policy, order, partial, read, now, at);
    if order in s.orders { AmountIsLargest(s, policy, order, read); }
  }

  /** What a payment takes and records: one debit of the amount, one confirmed instalment, and
      the part of it that earlier reward cash, beyond everything ever debited, still covers. */
  lemma PaymentMoves(s: Shop, policy: Policy, order: nat, partial: bool, read: int, now: int, at: int)
    requires Sound(s.book, policy) && read <= now && Pay(s, policy, order, partial, read, now, at).Ok?
    requires ConfirmedTotal(s, order) < s.orders[order].bill.final
    ensures var t := Pay(s, policy, order, partial, read, now, at).value;
            var amount := AmountToApply(s, policy, order, read);
            && t.book.balance == s.book.balance - amount * 1_0000_0000
            && t.payments == s.payments + [PaymentRow(Instalment(order), Confirmed, amount)]
            && |t.book.rows| == |s.book.rows| + 1 && t.book.rows[..|s.book.rows|] == s.book.rows
            && var row := t.book.rows[|s.book.rows|];
            && row.kind.Payment? && row.amount == amount * 1_0000_0000 && row.at == at
            && row.discount == Min(Max(SumOf(s.book.rows, RewardCash) - SumOf(s.book.rows, Debited), 0),
                                   Min(s.book.balance, row.amount))
            && t.orders[order].bill == s.orders[order].bill
            && t.orders[order].status
               == (if ConfirmedTotal(s, order) + amount < s.orders[order].bill.final then AwaitingPayment else Paid)
  {
    hide Sound, SumOf, Debit, Spendable;
    PayOutcome(s, policy, order, partial, read, now, at);
    BalanceIsNonNegative(s.book, policy);
  }

  lemma BalanceIsNonNegative(b: Book, policy: Policy)
    requires Sound(b, policy)
    ensures 0 <= b.balance
  {
  }

  // ----- cancelling -----

  ghost predicate HasConfirmedExternal(s: Shop, order: nat) {
    exists i :: 0 <= i < |s.payments| && s.payments[i].purpose == External(order) && s.payments[i].status.Confirmed?
  }

  lemma {:induction false} ExternalsAreCounted(ps: seq<PaymentRow>, order: nat)
    ensures 0 < SumOf(ps, ConfirmedExternals(order)) <==>
      exists i :: 0 <= i < |ps| && ps[i].purpose == External(order) && ps[i].status.Confirmed?
    ensures 0 <= SumOf(ps, ConfirmedExternals(order))
  {
    if ps != [] {
      ExternalsAreCounted(ps[1..], order);
      if i :| 0 <= i < |ps| - 1 && ps[1..][i].purpose == External(order) && ps[1..][i].status.Confirmed? {
        assert ps[i + 1] == ps[1..][i];
      }
      assert forall i :: 0 < i < |ps| ==> ps[i] == ps[1..][i - 1];
    }
  }

  /** An order can be cancelled exactly when it is cancelled already, or when it is pending or
      awaits payment, is not covered, and holds no confirmed outside payment. */
  lemma CancelGoesThrough(s: Shop, order: nat, at: int)
    ensures Cancel(s, order, at).Returned? <==>
      && order in s.orders
      && (|| s.orders[order].status.Cancelled?
          || (&& (s.orders[order].status.Pending? || s.orders[order].status.AwaitingPayment?)
              && ConfirmedTotal(s, order) < s.orders[order].bill.final
              && !HasConfirmedExternal(s, order)))
  {
    hide SumOf, RefundAll, Release;
    ExternalsAreCounted(s.payments, order);
  }

  /** What any payments from the wallet leave of an open order without outside payments: it is
      open until it is covered, and still has none. */
  lemma {:induction false} AttemptsKeepOpen(s: Shop, policy: Policy, coupons: map<nat, Coupon>, order: nat,
                                            attempts: seq<Attempt>)
    requires ShopOk(s, policy, coupons) && order in s.orders && forall a :: a in attempts ==> a.read <= a.now <= a.at
    requires ConfirmedTotal(s, order) < s.orders[order].bill.final ==> IsOpen(s.orders[order])
    requires !HasConfirmedExternal(s, order)
    ensures var t := Attempted(s, policy, order, attempts);
            && order in t.orders && t.orders[order].bill == s.orders[order].bill && !HasConfirmedExternal(t, order)
            && (ConfirmedTotal(t, order) < t.orders[order].bill.final ==> IsOpen(t.orders[order]))
    decreases |attempts|
  {
    hide ShopOk, SumOf, Pay, PaidInto, Later;
    if attempts != [] {
      var a, rest := attempts[0], attempts[1..];
      match Pay(s, policy, order, a.partial, a.read, a.now, a.at)
      case Ok(t) =>
        ShopHasDesk(s, policy, coupons);
        PayOutcome(s, policy, order, a.partial, a.read, a.now, a.at);
        if t != s {
          var amount := AmountToApply(s, policy, order, a.read);
          PaidKeepsOk(s, t, policy, coupons, order, amount, a.now, a.at);
          PaidIntoParts(s, t, policy, order, amount, a.now, a.at);
          NoNewExternal(s, t, order, amount);
        }
        AttemptsKeepOpen(t, policy, coupons, order, rest);
      case Err(_) =>
        AttemptsKeepOpen(s, policy, coupons, order, rest);
    }
  }

  lemma NoNewExternal(s: Shop, t: Shop, order: nat, amount: int)
    requires t.payments == s.payments + [PaymentRow(Instalment(order), Confirmed, amount)] && !HasConfirmedExternal(s, order)
    ensures !HasConfirmedExternal(t, order)
  {
  }

  /** Any instalments that do not cover the order can be cancelled, and cancelling them is a
      round trip: the balance is what it was before the first one. */
  lemma InstalmentsComeBack(s: Shop, policy: Policy, coupons: map<nat, Coupon>, order: nat, attempts: seq<Attempt>, at: int)
    requires ShopOk(s, policy, coupons) && order in s.orders && IsOpen(s.orders[order])
    requires !HasConfirmedExternal(s, order) && SumOf(s.payments, HeldFor(order)) == 0
    requires forall a :: a in attempts ==> a.read <= a.now <= a.at
    requires ConfirmedTotal(Attempted(s, policy, order, attempts), order) < s.orders[order].bill.final
    ensures var t := Attempted(s, policy, order, attempts);
            var c := Cancel(t, order, at);
            && c.Returned?
            && c.shop.book.balance == s.book.balance
            && c.total == ConfirmedTotal(t, order) && c.total * 1_0000_0000 == s.book.balance - t.book.balance
            && IsCancelled(c.shop, order) && SumOf(c.shop.desk.usages, ForOrder(order)) == 0
  {
    hide ShopOk, SumOf, Cancel, Attempted, HasConfirmedExternal, Release, Later;
    AttemptsKeepOpen(s, policy, coupons, order, attempts);
    var t := Attempted(s, policy, order, attempts);
    CancelGoesThrough(t, order, at);
    AttemptsKeepOk(s, policy, coupons, order, attempts);
    CancelReturnsEverything(t, policy, coupons, order, at);
  }

  // ----- outside payments -----

  /** A payment is confirmed exactly while it waits, and for an order only without another
      confirmed outside payment; then its order's total or the wallet grows by it. */
  lemma ConfirmationGoesThrough(s: Shop, policy: Policy, coupons: map<nat, Coupon>, payment: nat, at: int)
    requires ShopOk(s, policy, coupons)
    ensures Confirm(s, payment, at).Some? <==>
      && payment < |s.payments| && var p := s.payments[payment];
      && (p.status.PayPending? || p.status.AwaitingConfirmation?)
      && (p.purpose.External? ==> !HasConfirmedExternal(s, p.purpose.order))
    ensures Confirm(s, payment, at).Some? ==>
      var t, p := Confirm(s, payment, at).value, s.payments[payment];
      && t.payments == s.payments[payment := p.(status := Confirmed)]
      && t.book.balance == s.book.balance + (if p.purpose.WalletTopUp? then p.amount * 1_0000_0000 else 0)
      && (p.purpose.WalletTopUp? ==> t.orders == s.orders)
      && (p.purpose.External? ==>
            && ConfirmedTotal(t, p.purpose.order) == ConfirmedTotal(s, p.purpose.order) + p.amount
            && p.purpose.order in t.orders
            && t.orders[p.purpose.order].bill == s.orders[p.purpose.order].bill
            && t.orders[p.purpose.order].status
               == (if ConfirmedTotal(t, p.purpose.order) < t.orders[p.purpose.order].bill.final then AwaitingPayment
                   else Paid))
  {
    hide Sound, SumOf, DeskOk;
    if payment < |s.payments| {
      var p := s.payments[payment];
      if p.purpose.External? {
        ExternalsAreCounted(s.payments, p.purpose.order);
        Checkout.PaymentMoves(s, payment, Confirmed, p.purpose.order);
      }
      if p.purpose.WalletTopUp? && !p.status.Confirmed? {
        assert Find(s.book.rows, TopUp(payment)).None? by { assert !KeyIsPast(s, TopUp(payment)); }
      }
    }
  }

  /** A payment is dropped exactly while it waits. */
  lemma DropGoesThrough(s: Shop, payment: nat, failed: bool)
    ensures Drop(s, payment, failed).Some? <==>
      payment < |s.payments| && (s.payments[payment].status.PayPending? || s.payments[payment].status.AwaitingConfirmation?)
    ensures Drop(s, payment, failed).Some? ==>
      var t := Drop(s, payment, failed).value;
      && t.payments == s.payments[payment := s.payments[payment].(status := if failed then PayFailed else PayCancelled)]
      && t.book == s.book && t.desk == s.desk
  {
  }

  // ----- reward-funded discounts -----

  /** When every discounted purchase stands, all discounts are shown; when nothing is held for
      an order any more, its discounts are not. */
  lemma StandingDiscountsAreShown(s: Shop)
    requires forall r :: r in s.book.rows && r.discount != 0 ==>
      && r.kind.Payment? && r.key.Some? && r.key.value.OrderPayment? && r.key.value.order in s.orders
      && 0 < SumOf(s.payments, HeldFor(r.key.value.order))
      && (s.orders[r.key.value.order].status.Paid? || s.orders[r.key.value.order].status.Processing?
          || s.orders[r.key.value.order].status.Completed?)
    ensures ConfirmedRewardDiscounts(s) == SumOf(s.book.rows, Discount)
  {
    SumSame(s.book.rows, StandingDiscount(s), Discount);
  }

  lemma {:induction false} NothingShown(rows: seq<Row>, s: Shop)
    requires forall r :: r in rows ==> StandingDiscount(s)(r) == 0
    ensures SumOf(rows, StandingDiscount(s)) == 0
  {
    if rows != [] { NothingShown(rows[1..], s); }
  }

  lemma ReturnedDiscountsAreHidden(s: Shop)
    requires forall order :: order in s.orders ==>
      SumOf(s.payments, HeldFor(order)) <= 0 || IsOpen(s.orders[order]) || s.orders[order].status.OrderFailed?
      || s.orders[order].status.Cancelled? || s.orders[order].status.OrderRefunded?
    ensures ConfirmedRewardDiscounts(s) == 0
  {
    NothingShown(s.book.rows, s);
  }
}
