/** One customer's whole money: the reward account, the shop, the pills and the challenges
    share one wallet ledger. Every run of all their steps keeps every invariant at once, and
    no money is made or lost. */
module MoneyRuns {
  import opened Prelude
  import opened Decimals
  import opened Wallets
  import PB = PointBoxes
  import RA = RewardAccounts
  import CO = Coupons
  import SH = Checkout
  import PI = Pills
  import CH = Challenges

  datatype Part = AccountPart | ShopPart | PillPart | ArenaPart | Nobody

  /** Which services write rows with a key. */
  function Owner(key: Option<Key>): Part {
    match key
    case None => Nobody
    case Some(RebaseCash(_)) => AccountPart
    case Some(RebaseRemainder(_)) => AccountPart
    case Some(AchievementCash(_, _)) => AccountPart
    case Some(OrderPayment(_, _)) => ShopPart
    case Some(PaymentRefund(_)) => ShopPart
    case Some(TopUp(_)) => ShopPart
    case Some(CouponCash(_)) => ShopPart
    case Some(StakeEntry(_)) => ArenaPart
    case Some(StakeRelease(_)) => ArenaPart
    case Some(ChallengePrize(_)) => ArenaPart
    case Some(PillCash(_)) => PillPart
    case Some(Outside(_)) => Nobody
  }

  /** Money that leaves for an order or a stake is a debit, money that returns is a credit. */
  predicate KindFits(r: Row) {
    match r.key
    case Some(OrderPayment(_, _)) => IsDebit(r.kind)
    case Some(StakeEntry(_)) => IsDebit(r.kind)
    case Some(PaymentRefund(_)) => !IsDebit(r.kind)
    case Some(StakeRelease(_)) => !IsDebit(r.kind)
    case _ => true
  }

  /** What a row brings in from outside the customer's own accounts, or takes out of them. */
  function OutsideFlow(r: Row): int {
    match r.key
    case Some(OrderPayment(_, _)) => 0
    case Some(StakeEntry(_)) => 0
    case Some(PaymentRefund(_)) => 0
    case Some(StakeRelease(_)) => 0
    case _ => Signed(r)
  }

  /** A part's step appends rows of its own and keeps the ledger sound. */
  ghost predicate Appended(b: Book, c: Book, part: Part, policy: Policy) {
    && |b.rows| <= |c.rows| && c.rows[..|b.rows|] == b.rows
    && (forall r :: r in c.rows[|b.rows|..] ==> (Owner(r.key) == part || Owner(r.key) == Nobody) && KindFits(r))
    && Sound(c, policy)
  }

  lemma AppendedNothing(b: Book, part: Part, policy: Policy)
    requires Sound(b, policy)
    ensures Appended(b, b, part, policy)
  {
  }

  lemma AppendedTwice(b: Book, c: Book, d: Book, part: Part, policy: Policy)
    requires Appended(b, c, part, policy) && Appended(c, d, part, policy)
    ensures Appended(b, d, part, policy)
  {
    hide Sound;
    assert d.rows[..|b.rows|] == c.rows[..|b.rows|];
    forall r | r in d.rows[|b.rows|..]
      ensures (Owner(r.key) == part || Owner(r.key) == Nobody) && KindFits(r)
    {
      assert r in c.rows[|b.rows|..] || r in d.rows[|c.rows|..];
    }
  }

  /** One posted row. */
  lemma AppendedOne(b: Book, c: Book, part: Part, policy: Policy)
    requires Sound(c, policy) && |c.rows| == |b.rows| + 1 && c.rows[..|b.rows|] == b.rows
    requires var r := c.rows[|b.rows|]; (Owner(r.key) == part || Owner(r.key) == Nobody) && KindFits(r)
    ensures Appended(b, c, part, policy)
  {
  }

  // ----- what each part appends -----

  lemma PayOutAppends(b: Book, amount: int, key: Key, at: int, policy: Policy)
    requires Sound(b, policy) && Owner(Some(key)) == AccountPart && RA.PayOut(b, amount, key, at).Some?
    ensures Appended(b, RA.PayOut(b, amount, key, at).value, AccountPart, policy)
  {
    hide Sound;
    var c := RA.PayOut(b, amount, key, at).value;
    if c == b {
      AppendedNothing(b, AccountPart, policy);
    } else {
      CreditKeepsSound(b, policy, Kind.Bonus, amount, Some(key), at);
      AppendedOne(b, c, AccountPart, policy);
    }
  }

  lemma RebasedAppends(a: RA.Account, s: PB.Service, reason: Reason, at: int, policy: Policy)
    requires Sound(a.book, policy) && RA.Rebased(a, s, reason, at).Some?
    ensures Appended(a.book, RA.Rebased(a, s, reason, at).value.book, AccountPart, policy)
  {
    hide Sound, Appended, RA.PayOut, RA.SplitValue;
    AppendedNothing(a.book, AccountPart, policy);
    if a.reference.Some? && a.reference.value.id != s.id {
      var bs := RA.BoxesOf(a.shelf.boxes, a.reference.value.id);
      var remainder := RA.SplitValue(SumOf(bs, PB.IncompleteValue), s.pointValue).value.remainder;
      var first := RA.PayOut(a.book, SumOf(bs, PB.CompletedValue), RebaseCash(reason), at).value;
      PayOutAppends(a.book, SumOf(bs, PB.CompletedValue), RebaseCash(reason), at, policy);
      AppendedIsSound(a.book, first, AccountPart, policy);
      PayOutAppends(first, remainder, Key.RebaseRemainder(reason), at, policy);
      AppendedTwice(a.book, first, RA.Rebased(a, s, reason, at).value.book, AccountPart, policy);
    }
  }

  lemma AppendedIsSound(b: Book, c: Book, part: Part, policy: Policy)
    requires Appended(b, c, part, policy)
    ensures Sound(c, policy)
  {
  }

  lemma ClaimedAppends(a: RA.Account, award: nat, badge: RA.Achievement, metrics: map<nat, int>, program: Option<PB.Service>,
                       at: int, policy: Policy)
    requires Sound(a.book, policy) && RA.Claimed(a, award, badge, metrics, program, at).Some?
    ensures Appended(a.book, RA.Claimed(a, award, badge, metrics, program, at).value.book, AccountPart, policy)
  {
    hide Sound, Appended, RA.PayOut, RA.Rebased, PB.Placed, RA.AwardOf;
    var key := AchievementCash(award, RA.AwardOf(a, award).claims + 1);
    var amount, book := badge.amount * CENT, a.book;
    if badge.points == 0 {
      AppendedNothing(book, AccountPart, policy);
    } else {
      var s := program.value;
      var reason := Reason(OnAchievement, a.id, s.id, a.shelf.nextCycle);
      book := RA.Rebased(a, s, reason, at).value.book;
      RebasedAppends(a, s, reason, at, policy);
      AppendedIsSound(a.book, book, AccountPart, policy);
    }
    PayOutAppends(book, amount, key, at, policy);
    AppendedTwice(a.book, book, RA.PayOut(book, amount, key, at).value, AccountPart, policy);
  }

  lemma AccountStepAppends(a: RA.Account, op: RA.Op, policy: Policy)
    requires Sound(a.book, policy) && !op.Elsewhere?
    ensures Appended(a.book, RA.Step(a, op).book, AccountPart, policy)
  {
    hide Sound, Appended, RA.Claimed, RA.Rebased, PB.Drawn, SumOf;
    AppendedNothing(a.book, AccountPart, policy);
    if RA.Outcome(a, op).Some? {
      match op
      case Claim(award, badge, metrics, program, at) =>
        ClaimedAppends(a, award, badge, metrics, program, at, policy);
      case Switch(service, at) =>
        RebasedAppends(a, service, Reason(BrandWide, a.id, service.id, a.shelf.nextCycle), at, policy);
      case Redeem(request, program, ready, nonce, at) =>
        if request !in a.redemptions {
          RebasedAppends(a, program.value, Reason(OnRedemption, a.id, program.value.id, a.shelf.nextCycle), at, policy);
        }
      case Elsewhere(_) =>
    }
  }

  lemma DeltaAppends(b: Book, kind: Kind, amount: int, key: Key, at: int, policy: Policy)
    requires Sound(b, policy) && 0 < amount && !IsDebit(kind) && Owner(Some(key)) == ShopPart && !key.OrderPayment?
    ensures Appended(b, SH.WalletDelta(b, kind, amount, key, at), ShopPart, policy)
  {
    hide Sound;
    var c := SH.WalletDelta(b, kind, amount, key, at);
    if c == b {
      AppendedNothing(b, ShopPart, policy);
    } else {
      CreditRowKeepsSound(b, policy, kind, amount, Some(key), at);
      AppendedOne(b, c, ShopPart, policy);
    }
  }

  lemma {:induction false} RefundAllAppends(s: SH.Shop, order: nat, n: nat, at: int, policy: Policy)
    requires Sound(s.book, policy) && n <= |s.payments|
    requires forall i :: 0 <= i < |s.payments| ==> 0 < s.payments[i].amount
    ensures Appended(s.book, SH.RefundAll(s, order, n, at).book, ShopPart, policy)
    decreases n
  {
    hide Sound, Appended, SH.WalletDelta;
    if n == 0 {
      AppendedNothing(s.book, ShopPart, policy);
    } else if SH.IsFor(s.payments[n - 1], order) && s.payments[n - 1].status.Confirmed? {
      var t := SH.RefundOne(s, n - 1, at);
      RefundOneAppends(s, n - 1, at, policy);
      AppendedIsSound(s.book, t.book, ShopPart, policy);
      RefundAllAppends(t, order, n - 1, at, policy);
      AppendedTwice(s.book, t.book, SH.RefundAll(t, order, n - 1, at).book, ShopPart, policy);
    } else {
      RefundAllAppends(s, order, n - 1, at, policy);
    }
  }

  lemma RefundOneAppends(s: SH.Shop, payment: nat, at: int, policy: Policy)
    requires Sound(s.book, policy) && payment < |s.payments| && !s.payments[payment].purpose.WalletTopUp?
    requires 0 < s.payments[payment].amount
    ensures Appended(s.book, SH.RefundOne(s, payment, at).book, ShopPart, policy)
  {
    hide Sound, Appended, SH.WalletDelta;
    AppendedNothing(s.book, ShopPart, policy);
    DeltaAppends(s.book, Kind.Refund, s.payments[payment].amount * CENT, PaymentRefund(payment), at, policy);
  }

  lemma PayAppends(s: SH.Shop, policy: Policy, order: nat, partial: bool, read: int, now: int, at: int)
    requires Sound(s.book, policy) && read <= now <= at && SH.Pay(s, policy, order, partial, read, now, at).Ok?
    ensures Appended(s.book, SH.Pay(s, policy, order, partial, read, now, at).value.book, ShopPart, policy)
  {
    hide Sound, SH.Pay, SumOf, Debit;
    var t := SH.Pay(s, policy, order, partial, read, now, at).value;
    SH.PayOutcome(s, policy, order, partial, read, now, at);
    if t == s {
      AppendedNothing(s.book, ShopPart, policy);
    } else {
      var amount, key := SH.AmountToApply(s, policy, order, read), OrderPayment(order, SH.ConfirmedTotal(s, order));
      DebitKeepsSound(s.book, policy, Kind.Payment, amount * CENT, Some(key),
                      Min(ProvableRewardCash(s.book), amount * CENT), now, at);
      AppendedOne(s.book, t.book, ShopPart, policy);
    }
  }

  lemma CashedInAppends(s: SH.Shop, coupons: map<nat, CO.Coupon>, code: nat, facts: CO.Facts, at: int, policy: Policy)
    requires Sound(s.book, policy) && SH.CashedIn(s, coupons, code, facts, at).Some?
    ensures Appended(s.book, SH.CashedIn(s, coupons, code, facts, at).value.book, ShopPart, policy)
  {
    hide Sound, CO.Redeem;
    var t, redeemed := SH.CashedIn(s, coupons, code, facts, at).value, CO.Redeem(coupons, s.desk, s.user, code, facts).value;
    CreditKeepsSound(s.book, policy, Bonus, redeemed.amount * CENT, Some(CouponCash(redeemed.usage)), at);
    if t.book == s.book { AppendedNothing(s.book, ShopPart, policy); } else { AppendedOne(s.book, t.book, ShopPart, policy); }
  }

  lemma WithdrawnAppends(s: SH.Shop, policy: Policy, amount: int, name: nat, now: int, at: int)
    requires Sound(s.book, policy) && now <= at && SH.Withdrawn(s, policy, amount, name, now, at).Some?
    ensures Appended(s.book, SH.Withdrawn(s, policy, amount, name, now, at).value.book, ShopPart, policy)
  {
    hide Sound, SumOf;
    var t := SH.Withdrawn(s, policy, amount, name, now, at).value;
    DebitKeepsSound(s.book, policy, Withdrawal, amount, Some(Outside(name)), 0, now, at);
    if t.book == s.book { AppendedNothing(s.book, ShopPart, policy); } else { AppendedOne(s.book, t.book, ShopPart, policy); }
  }

  lemma ConfirmAppends(s: SH.Shop, payment: nat, at: int, policy: Policy)
    requires Sound(s.book, policy) && SH.Confirm(s, payment, at).Some? && 0 < s.payments[payment].amount
    ensures Appended(s.book, SH.Confirm(s, payment, at).value.book, ShopPart, policy)
  {
    hide Sound, SumOf, Appended, SH.WalletDelta;
    AppendedNothing(s.book, ShopPart, policy);
    DeltaAppends(s.book, Deposit, s.payments[payment].amount * CENT, TopUp(payment), at, policy);
  }

  lemma ShopStepAppends(s: SH.Shop, policy: Policy, coupons: map<nat, CO.Coupon>, op: SH.ShopOp)
    requires SH.ShopOk(s, policy, coupons) && SH.OpOk(op) && !op.ElsewhereOp?
    ensures Appended(s.book, SH.ShopStep(s, policy, coupons, op).book, ShopPart, policy)
    ensures SH.ShopStep(s, policy, coupons, op).book.stake == s.book.stake
  {
    hide SH.ShopOk, Appended, SH.Pay, SumOf, SH.RefundAll, SH.RefundOne, SH.CashedIn, SH.Confirm, SH.Withdrawn, CO.Apply,
         CO.DeskStep, CO.Release;
    SH.ShopHasDesk(s, policy, coupons);
    SH.AmountsArePositive(s, policy, coupons);
    AppendedNothing(s.book, ShopPart, policy);
    StakeIsKept(s, policy, coupons, op);
    if SH.Outcome(s, policy, coupons, op).Some? {
      match op
      case PayOp(order, partial, read, now, at) => PayAppends(s, policy, order, partial, read, now, at);
      case CancelOp(order, at) => RefundAllAppends(s, order, |s.payments|, at, policy);
      case ConfirmOp(payment, at) =>
        ConfirmIsInRange(s, payment, at);
        ConfirmAppends(s, payment, at, policy);
      case RefundOp(payment, at) => RefundOneAppends(s, payment, at, policy);
      case CashInOp(code, facts, at) => CashedInAppends(s, coupons, code, facts, at, policy);
      case WithdrawOp(amount, name, now, at) => WithdrawnAppends(s, policy, amount, name, now, at);
      case _ =>
    }
  }

  lemma ConfirmIsInRange(s: SH.Shop, payment: nat, at: int)
    requires SH.Confirm(s, payment, at).Some?
    ensures payment < |s.payments|
  {
  }

  lemma {:induction false} RefundAllKeepsStake(s: SH.Shop, order: nat, n: nat, at: int)
    requires n <= |s.payments|
    ensures SH.RefundAll(s, order, n, at).book.stake == s.book.stake
    decreases n
  {
    if n > 0 {
      if SH.IsFor(s.payments[n - 1], order) && s.payments[n - 1].status.Confirmed? {
        RefundAllKeepsStake(SH.RefundOne(s, n - 1, at), order, n - 1, at);
      } else {
        RefundAllKeepsStake(s, order, n - 1, at);
      }
    }
  }

  lemma StakeIsKept(s: SH.Shop, policy: Policy, coupons: map<nat, CO.Coupon>, op: SH.ShopOp)
    requires SH.OpOk(op) && !op.ElsewhereOp?
    ensures SH.ShopStep(s, policy, coupons, op).book.stake == s.book.stake
  {
    hide SumOf, SH.RefundAll, Spendable, ProvableRewardCash, CO.Apply, CO.Redeem, CO.DeskStep, CO.Release;
    if op.CancelOp? { RefundAllKeepsStake(s, op.order, |s.payments|, op.at); }
  }

  lemma ExtendedIsAppended(b: Book, c: Book, flow: int, policy: Policy)
    requires PI.Extends(b, c, flow) && Sound(b, policy)
    ensures Appended(b, c, PillPart, policy) && c.stake == b.stake
  {
    hide SumOf, Sound;
  }

  lemma PillStepAppends(s: PI.PillBox, op: PI.PillOp, policy: Policy)
    requires PI.BoxOk(s) && Sound(s.book, policy) && !op.Elsewhere?
    ensures Appended(s.book, PI.PillStep(s, op).book, PillPart, policy)
    ensures PI.PillStep(s, op).book.stake == s.book.stake
  {
    hide SumOf, Sound, PI.CashOut, PI.BoxOk, PI.PillsOk, PI.Extends, Appended, PI.Flagged;
    PI.OkIsPills(s);
    AppendedNothing(s.book, PillPart, policy);
    if op.Cash? && PI.CashOut(s, op.at).Some? {
      PI.CashOutSettles(s, op.at);
      var t := PI.CashOut(s, op.at).value;
      ExtendedIsAppended(s.book, t.book, SumOf(t.book.rows, PI.PillFlow) - SumOf(s.book.rows, PI.PillFlow), policy);
    }
  }

  lemma ReleasedAppends(b: Book, c: nat, amount: int, at: int, policy: Policy)
    requires Sound(b, policy) && CH.Released(b, c, amount, at).Some?
    ensures Appended(b, CH.Released(b, c, amount, at).value, ArenaPart, policy)
  {
    hide Sound;
    var d := CH.Released(b, c, amount, at).value;
    if amount <= 0 {
      AppendedNothing(b, ArenaPart, policy);
    } else {
      var less := b.(stake := b.stake - amount * CENT);
      CH.StakeIsNoMatter(b, less.stake, policy);
      CreditKeepsSound(less, policy, Kind.Refund, amount * CENT, Some(StakeRelease(c)), at);
      if d == less { AppendedNothing(less, ArenaPart, policy); } else { AppendedOne(less, d, ArenaPart, policy); }
    }
  }

  lemma PrizeAppends(b: Book, c: nat, amount: int, at: int, policy: Policy)
    requires Sound(b, policy) && CH.PayPrize(b, c, amount, at).Some?
    ensures Appended(b, CH.PayPrize(b, c, amount, at).value, ArenaPart, policy)
  {
    hide Sound;
    var d := CH.PayPrize(b, c, amount, at).value;
    CreditKeepsSound(b, policy, ReferralReward, amount * CENT, Some(ChallengePrize(c)), at);
    if d == b { AppendedNothing(b, ArenaPart, policy); } else { AppendedOne(b, d, ArenaPart, policy); }
  }

  lemma SettleAppends(s: CH.Arena, c: nat, at: int, policy: Policy)
    requires Sound(s.book, policy) && CH.Settle(s, c, at).Some?
    ensures Appended(s.book, CH.Settle(s, c, at).value.book, ArenaPart, policy)
  {
    hide Sound, Appended, CH.Released, CH.PayPrize, CH.PrizeOf;
    AppendedNothing(s.book, ArenaPart, policy);
    var challenge := s.challenges[c];
    if challenge.stage.Active? {
      var amount := Money(challenge.entry, s.currency);
      var released := CH.Released(s.book, c, amount, at).value;
      ReleasedAppends(s.book, c, amount, at, policy);
      AppendedIsSound(s.book, released, ArenaPart, policy);
      if challenge.target <= challenge.successes {
        PrizeAppends(released, c, CH.PrizeOf(challenge, s.currency), at, policy);
        AppendedTwice(s.book, released, CH.Settle(s, c, at).value.book, ArenaPart, policy);
      }
    }
  }

  lemma ActivateAppends(s: CH.Arena, policy: Policy, program: CH.Program, tierActive: bool, now: int, at: int)
    requires Sound(s.book, policy) && now <= at && CH.Activate(s, policy, program, tierActive, now, at).Some?
    ensures Appended(s.book, CH.Activate(s, policy, program, tierActive, now, at).value.book, ArenaPart, policy)
  {
    hide Sound, SumOf;
    var t, found := CH.Activate(s, policy, program, tierActive, now, at).value, CH.AtStage(s.challenges, CH.AwaitingFunds);
    assert found[0] in found;
    var amount := Money(s.challenges[found[0]].entry, s.currency) * CENT;
    DebitKeepsSound(s.book, policy, Kind.Payment, amount, Some(StakeEntry(found[0])), 0, now, at);
    var book := Debit(s.book, policy, Kind.Payment, amount, Some(StakeEntry(found[0])), 0, now, at).value;
    CH.StakeIsNoMatter(book, t.book.stake, policy);
    if book == s.book { AppendedNothing(t.book, ArenaPart, policy); } else { AppendedOne(s.book, t.book, ArenaPart, policy); }
  }

  lemma ArenaStepAppends(s: CH.Arena, policy: Policy, op: CH.ArenaOp)
    requires Sound(s.book, policy) && !op.ElsewhereOp?
    ensures Appended(s.book, CH.ArenaStep(s, policy, op).book, ArenaPart, policy)
  {
    hide Sound, Appended, CH.Activate, CH.Settle, CH.HasOrder, CH.Counts;
    AppendedNothing(s.book, ArenaPart, policy);
    match op
    case ActivateOp(program, tierActive, now, at) =>
      if now <= at && CH.Activate(s, policy, program, tierActive, now, at).Some? {
        ActivateAppends(s, policy, program, tierActive, now, at);
      }
    case RecordOp(lead, order, value, when, wanted, at) =>
      if CH.Record(s, lead, order, value, when, wanted, at).Reserved? {
        var c := CH.FirstRunning(s.challenges, when, 0).value;
        var t := CH.WithEvent(s, c, CH.Event(lead.referral, order, value, CH.Provisional, false));
        if CH.Settle(t, c, at).Some? { SettleAppends(t, c, at, policy); }
      }
    case SettleOp(c, at) => if CH.Settle(s, c, at).Some? { SettleAppends(s, c, at, policy); }
    case _ =>
  }

  // ----- all parts together -----

  datatype World = World(book: Book, account: RA.Account, shop: SH.Shop, pills: PI.PillBox, arena: CH.Arena)

  /** Constants of a run: limits, coupons, and the one point value of each service. */
  datatype Setting = Setting(policy: Policy, coupons: map<nat, CO.Coupon>, prices: map<nat, int>)

  /** The parts see the same ledger. */
  function Sync(w: World, book: Book): World {
    World(book, w.account.(book := book), w.shop.(book := book), w.pills.(book := book), w.arena.(book := book))
  }

  ghost predicate WorldOk(w: World, g: Setting) {
    && w == Sync(w, w.book) && Sound(w.book, g.policy)
    && RA.Inv(w.account, g.prices)
    && SH.ShopOk(w.shop, g.policy, g.coupons)
    && PI.BoxOk(w.pills)
    && CH.ArenaOk(w.arena, g.policy)
    && (forall r :: r in w.book.rows ==> KindFits(r))
  }

  datatype Op =
    | AccountOp(account: RA.Op)
    | ShopOp(shop: SH.ShopOp)
    | PillOp(pill: PI.PillOp)
    | ArenaOp(arena: CH.ArenaOp)
    | CreditOp(kind: Kind, amount: int, name: nat, at: int)
    | SwitchWallet(active: bool, frozen: bool)

  ghost predicate OpOk(op: Op, g: Setting) {
    match op
    case AccountOp(o) => RA.OpPriced(g.prices, o) && !o.Elsewhere?
    case ShopOp(o) => SH.OpOk(o) && !o.ElsewhereOp?
    case PillOp(o) => !o.Elsewhere?
    case ArenaOp(o) => !o.ElsewhereOp?
    case _ => true
  }

  ghost function WorldStep(w: World, g: Setting, op: Op): World
    requires WorldOk(w, g) && OpOk(op, g)
  {
    match op
    case AccountOp(o) => var t := RA.Step(w.account, o); Sync(w.(account := t), t.book)
    case ShopOp(o) => var t := SH.ShopStep(w.shop, g.policy, g.coupons, o); Sync(w.(shop := t), t.book)
    case PillOp(o) => var t := PI.PillStep(w.pills, o); Sync(w.(pills := t), t.book)
    case ArenaOp(o) => var t := CH.ArenaStep(w.arena, g.policy, o); Sync(w.(arena := t), t.book)
    case CreditOp(kind, amount, name, at) =>
      (match Credit(w.book, kind, amount, Some(Outside(name)), at)
       case Ok(book) => Sync(w, book)
       case Err(_) => w)
    case SwitchWallet(active, frozen) => Sync(w, w.book.(active := active, frozen := frozen))
  }

  lemma ForAccount(a: RA.Account, c: Book, part: Part, g: Setting)
    requires RA.Inv(a, g.prices) && Appended(a.book, c, part, g.policy) && part != AccountPart
    ensures RA.Inv(a.(book := c), g.prices)
  {
    hide Sound, RA.Inv;
    assert RA.IsElsewhere(a.book, c);
    RA.ElsewhereKeepsInv(a, c, g.prices);
  }

  lemma ForShop(s: SH.Shop, c: Book, part: Part, g: Setting)
    requires SH.ShopOk(s, g.policy, g.coupons) && Appended(s.book, c, part, g.policy) && part != ShopPart
    ensures SH.ShopOk(s.(book := c), g.policy, g.coupons)
  {
    hide Sound, SH.ShopOk;
    assert SH.IsElsewhere(s.book, c, g.policy);
    SH.ElsewhereKeepsOk(s, g.policy, g.coupons, c);
  }

  lemma ForPills(s: PI.PillBox, c: Book, part: Part, g: Setting)
    requires PI.BoxOk(s) && Appended(s.book, c, part, g.policy) && part != PillPart
    ensures PI.BoxOk(s.(book := c))
  {
    hide Sound, PI.BoxOk;
    assert PI.IsElsewhere(s.book, c);
    PI.ElsewhereKeepsOk(s, c);
  }

  lemma ForArena(s: CH.Arena, c: Book, part: Part, g: Setting)
    requires CH.ArenaOk(s, g.policy) && Appended(s.book, c, part, g.policy) && part != ArenaPart && c.stake == s.book.stake
    ensures CH.ArenaOk(s.(book := c), g.policy)
  {
    hide Sound, CH.ArenaOk;
    assert CH.IsElsewhere(s.book, c, g.policy);
    CH.ElsewhereKeepsOk(s, g.policy, c);
  }

  lemma KindsStayFit(b: Book, c: Book, part: Part, policy: Policy)
    requires Appended(b, c, part, policy) && forall r :: r in b.rows ==> KindFits(r)
    ensures forall r :: r in c.rows ==> KindFits(r)
  {
  }

  lemma PayOutKeepsStake(b: Book, amount: int, key: Key, at: int)
    ensures RA.PayOut(b, amount, key, at).Some? ==> RA.PayOut(b, amount, key, at).value.stake == b.stake
  {
  }

  lemma RebasedKeepsStake(a: RA.Account, s: PB.Service, reason: Reason, at: int)
    requires RA.Rebased(a, s, reason, at).Some?
    ensures RA.Rebased(a, s, reason, at).value.book.stake == a.book.stake
  {
    hide SumOf, RA.SplitValue, RA.PayOut, PB.Pour, RA.RetiredOf, RA.BoxesOf, PB.CyclesNeeded, PB.NewCycles;
    if a.reference.Some? && a.reference.value.id != s.id {
      var bs := RA.BoxesOf(a.shelf.boxes, a.reference.value.id);
      var remainder := RA.SplitValue(SumOf(bs, PB.IncompleteValue), s.pointValue).value.remainder;
      PayOutKeepsStake(a.book, SumOf(bs, PB.CompletedValue), RebaseCash(reason), at);
      PayOutKeepsStake(RA.PayOut(a.book, SumOf(bs, PB.CompletedValue), RebaseCash(reason), at).value, remainder,
                       Key.RebaseRemainder(reason), at);
    }
  }

  lemma AccountKeepsStake(a: RA.Account, op: RA.Op)
    requires !op.Elsewhere?
    ensures RA.Step(a, op).book.stake == a.book.stake
  {
    hide SumOf, RA.Rebased, RA.PayOut, PB.Placed, PB.Drawn, RA.AwardOf;
    if RA.Outcome(a, op).Some? {
      match op
      case Claim(award, badge, metrics, program, at) =>
        var book := a.book;
        if badge.points != 0 {
          var reason := Reason(OnAchievement, a.id, program.value.id, a.shelf.nextCycle);
          RebasedKeepsStake(a, program.value, reason, at);
          book := RA.Rebased(a, program.value, reason, at).value.book;
        }
        PayOutKeepsStake(book, badge.amount * CENT, AchievementCash(award, RA.AwardOf(a, award).claims + 1), at);
      case Switch(service, at) =>
        RebasedKeepsStake(a, service, Reason(BrandWide, a.id, service.id, a.shelf.nextCycle), at);
      case Redeem(request, program, ready, nonce, at) =>
        if request !in a.redemptions {
          RebasedKeepsStake(a, program.value, Reason(OnRedemption, a.id, program.value.id, a.shelf.nextCycle), at);
        }
      case Elsewhere(_) =>
    }
  }

  lemma WorldStepKeepsOk(w: World, g: Setting, op: Op)
    requires WorldOk(w, g) && OpOk(op, g)
    ensures WorldOk(WorldStep(w, g, op), g)
  {
    hide Sound, Appended, RA.Inv, SH.ShopOk, PI.BoxOk, CH.ArenaOk, RA.Step, SH.ShopStep, PI.PillStep, CH.ArenaStep,
         KindFits, Credit;
    var c := WorldStep(w, g, op).book;
    match op
    case AccountOp(o) =>
      AccountStepAppends(w.account, o, g.policy);
      AccountKeepsStake(w.account, o);
      RA.StepKeepsInv(w.account, o, g.prices);
      OthersKeepOk(w, c, AccountPart, g);
    case ShopOp(o) =>
      ShopStepAppends(w.shop, g.policy, g.coupons, o);
      SH.ShopStepKeepsOk(w.shop, g.policy, g.coupons, o);
      OthersKeepOk(w, c, ShopPart, g);
    case PillOp(o) =>
      PI.OkIsPills(w.pills);
      PillStepAppends(w.pills, o, g.policy);
      PI.PillStepKeepsOk(w.pills, o);
      OthersKeepOk(w, c, PillPart, g);
    case ArenaOp(o) =>
      ArenaStepAppends(w.arena, g.policy, o);
      CH.ArenaStepKeepsOk(w.arena, g.policy, o);
      OthersKeepOk(w, c, ArenaPart, g);
    case CreditOp(kind, amount, name, at) =>
      if Credit(w.book, kind, amount, Some(Outside(name)), at).Ok? {
        OutsideCreditAppends(w.book, kind, amount, name, at, g.policy);
        OthersKeepOk(w, c, Nobody, g);
      }
    case SwitchWallet(active, frozen) =>
      SwitchAppends(w.book, active, frozen, g.policy);
      OthersKeepOk(w, c, Nobody, g);
  }

  lemma OutsideCreditAppends(b: Book, kind: Kind, amount: int, name: nat, at: int, policy: Policy)
    requires Sound(b, policy) && Credit(b, kind, amount, Some(Outside(name)), at).Ok?
    ensures var c := Credit(b, kind, amount, Some(Outside(name)), at).value;
            Appended(b, c, Nobody, policy) && c.stake == b.stake
  {
    hide Sound;
    var c := Credit(b, kind, amount, Some(Outside(name)), at).value;
    CreditKeepsSound(b, policy, kind, amount, Some(Outside(name)), at);
    if c == b { AppendedNothing(b, Nobody, policy); } else { AppendedOne(b, c, Nobody, policy); }
  }

  lemma SwitchAppends(b: Book, active: bool, frozen: bool, policy: Policy)
    requires Sound(b, policy)
    ensures Appended(b, b.(active := active, frozen := frozen), Nobody, policy)
  {
  }

  /** A part's rows disturb no other part. */
  lemma OthersKeepOk(w: World, c: Book, part: Part, g: Setting)
    requires WorldOk(w, g) && Appended(w.book, c, part, g.policy) && (part != ArenaPart ==> c.stake == w.book.stake)
    ensures Sound(c, g.policy) && forall r :: r in c.rows ==> KindFits(r)
    ensures part != AccountPart ==> RA.Inv(w.account.(book := c), g.prices)
    ensures part != ShopPart ==> SH.ShopOk(w.shop.(book := c), g.policy, g.coupons)
    ensures part != PillPart ==> PI.BoxOk(w.pills.(book := c))
    ensures part != ArenaPart ==> CH.ArenaOk(w.arena.(book := c), g.policy)
  {
    hide Sound, Appended, RA.Inv, SH.ShopOk, PI.BoxOk, CH.ArenaOk, KindFits;
    AppendedIsSound(w.book, c, part, g.policy);
    KindsStayFit(w.book, c, part, g.policy);
    if part != AccountPart { ForAccount(w.account, c, part, g); }
    if part != ShopPart { ForShop(w.shop, c, part, g); }
    if part != PillPart { ForPills(w.pills, c, part, g); }
    if part != ArenaPart { ForArena(w.arena, c, part, g); }
  }

  // ----- every run -----

  ghost function WorldRun(w: World, g: Setting, ops: seq<Op>): (u: World)
    requires WorldOk(w, g) && forall op :: op in ops ==> OpOk(op, g)
    ensures WorldOk(u, g)
    decreases |ops|
  {
    if ops == [] then w else
      WorldStepKeepsOk(w, g, ops[0]);
      WorldRun(WorldStep(w, g, ops[0]), g, ops[1..])
  }

  /** Confirmed wallet payments, in cents. */
  function HeldByOrders(w: World): int {
    SumOf(w.shop.payments, SH.Held)
  }

  lemma FlowsAddUp(rows: seq<Row>)
    requires forall r :: r in rows ==> KindFits(r)
    ensures SumOf(rows, Signed) == SumOf(rows, OutsideFlow) + SumOf(rows, SH.OrderFlow) + SumOf(rows, CH.StakeFlow)
  {
    var inner := (r: Row) => SH.OrderFlow(r) + CH.StakeFlow(r);
    SumSplit(rows, Signed, OutsideFlow, inner);
    SumSplit(rows, inner, SH.OrderFlow, CH.StakeFlow);
  }

  lemma PartsOfWorld(w: World, g: Setting)
    requires WorldOk(w, g)
    ensures w.shop.book == w.book && w.arena.book == w.book && w.account.book == w.book && w.pills.book == w.book
    ensures SH.FlowsBalance(w.shop) && CH.StakesMatch(w.arena)
    ensures Chained(w.book) && 0 <= w.book.balance && Sound(w.book, g.policy)
  {
    hide SumOf;
  }

  /** Conservation. Over every run of every step of all parts, what is in the balance, frozen
      for challenges and held by confirmed wallet payments is exactly what came in from
      outside less what went out; the frozen part is the fees of running challenges. */
  lemma MoneyIsConserved(w: World, g: Setting, ops: seq<Op>)
    requires WorldOk(w, g) && forall op :: op in ops ==> OpOk(op, g)
    ensures var u := WorldRun(w, g, ops);
            && u.book.balance + u.book.stake + HeldByOrders(u) * CENT == SumOf(u.book.rows, OutsideFlow)
            && u.book.stake == SumOf(u.arena.challenges, CH.Stake(u.arena.currency))
            && 0 <= u.book.balance
            && Within(u.book.rows, DayStart, g.policy.daily) && Within(u.book.rows, g.policy.monthStart, g.policy.monthly)
            && UniqueKeys(u.book.rows)
            && SH.ConfirmedRewardDiscounts(u.shop) <= SumOf(u.book.rows, RewardCash)
  {
    hide SumOf, SH.ConfirmedRewardDiscounts;
    var u := WorldRun(w, g, ops);
    PartsOfWorld(u, g);
    FlowsAddUp(u.book.rows);
    SH.DiscountsAreEarned(u.shop, g.policy, g.coupons);
  }

  /** A customer without any history. */
  function NewCustomer(id: nat, nonce: nat, currency: Currency): World {
    World(EmptyBook, RA.NewAccount(id, nonce, EmptyBook),
          SH.Shop(id, currency, EmptyBook, CO.Desk(map[], [], 0), map[], []),
          PI.PillBox(currency, [], 0, 0, false, EmptyBook), CH.Arena(currency, [], 0, EmptyBook))
  }

  lemma NewCustomerIsOk(id: nat, nonce: nat, currency: Currency, g: Setting)
    requires IsPeriod(g.policy.monthStart)
    ensures WorldOk(NewCustomer(id, nonce, currency), g)
  {
    hide Sound, SH.ShopOk, CH.ArenaOk, RA.Inv, PI.BoxOk, KindFits;
    var w := NewCustomer(id, nonce, currency);
    NewBookIsSound(g.policy);
    NewShopIsOk(id, currency, g);
    NewArenaIsOk(currency, g.policy);
    NewPillsAreOk(currency);
    assert w.book.rows == [];
    RA.NewAccountIsOk(id, nonce, EmptyBook, g.prices);
  }

  const EmptyBook := Book(0, 0, true, false, [])

  lemma NewBookIsSound(policy: Policy)
    requires IsPeriod(policy.monthStart)
    ensures Sound(EmptyBook, policy)
  {
  }

  lemma NewPillsAreOk(currency: Currency)
    ensures PI.BoxOk(PI.PillBox(currency, [], 0, 0, false, EmptyBook))
  {
  }

  lemma NewArenaIsOk(currency: Currency, policy: Policy)
    requires IsPeriod(policy.monthStart)
    ensures CH.ArenaOk(CH.Arena(currency, [], 0, EmptyBook), policy)
  {
  }

  lemma NewShopIsOk(id: nat, currency: Currency, g: Setting)
    requires IsPeriod(g.policy.monthStart)
    ensures SH.ShopOk(SH.Shop(id, currency, EmptyBook, CO.Desk(map[], [], 0), map[], []), g.policy, g.coupons)
  {
    NewBookIsSound(g.policy);
    CO.EmptyDeskIsOk(g.coupons);
  }

  // ----- lifetime points -----

  /** The lifetime counter that the parts feed, in the point ledger's unit. */
  function Lifetime(w: World): int {
    w.account.lifetime + (w.pills.lifetime + w.arena.lifetime) * RA.POINT
  }

  /** Points that were earned for good: granted with achievements, one for each pill, one for
      each purchase of a challenge that succeeded. */
  function EarnedPoints(w: World): int {
    SumOf(w.account.ledger, RA.GrantedPoints)
    + (|w.pills.pills| + SumOf(w.arena.challenges, CH.ProcessedPoints)) * RA.POINT
  }

  lemma LifetimeOfStep(w: World, g: Setting, op: Op)
    requires WorldOk(w, g) && OpOk(op, g)
    ensures Lifetime(WorldStep(w, g, op)) - EarnedPoints(WorldStep(w, g, op)) == Lifetime(w) - EarnedPoints(w)
  {
    hide SumOf, RA.Inv, RA.Step, SH.ShopOk, SH.ShopStep, PI.BoxOk, PI.PillStep, CH.ArenaOk, CH.ArenaStep, Sound, Credit;
    match op
    case AccountOp(o) => RA.LifetimeOfStep(w.account, o);
    case PillOp(o) =>
      PI.OkIsPills(w.pills);
      PI.StepCreates(w.pills, o);
    case ArenaOp(o) => CH.LifetimeOfStep(w.arena, g.policy, o);
    case _ =>
  }

  /** Lifetime points are the earned points, in every run from a customer's beginning. */
  lemma {:induction false} LifetimeOfRun(w: World, g: Setting, ops: seq<Op>)
    requires WorldOk(w, g) && forall op :: op in ops ==> OpOk(op, g)
    ensures Lifetime(WorldRun(w, g, ops)) - EarnedPoints(WorldRun(w, g, ops)) == Lifetime(w) - EarnedPoints(w)
    decreases |ops|
  {
    hide WorldOk, WorldStep, Lifetime, EarnedPoints;
    if ops != [] {
      WorldStepKeepsOk(w, g, ops[0]);
      LifetimeOfStep(w, g, ops[0]);
      LifetimeOfRun(WorldStep(w, g, ops[0]), g, ops[1..]);
    }
  }

  lemma NewCustomerHasNone(id: nat, nonce: nat, currency: Currency)
    ensures Lifetime(NewCustomer(id, nonce, currency)) == EarnedPoints(NewCustomer(id, nonce, currency)) == 0
  {
  }

  lemma LifetimeIsEarned(id: nat, nonce: nat, currency: Currency, g: Setting, ops: seq<Op>)
    requires IsPeriod(g.policy.monthStart) && forall op :: op in ops ==> OpOk(op, g)
    ensures WorldOk(NewCustomer(id, nonce, currency), g)
    ensures var u := WorldRun(NewCustomer(id, nonce, currency), g, ops); Lifetime(u) == EarnedPoints(u)
  {
    hide WorldOk, WorldRun, OpOk, Lifetime, EarnedPoints, NewCustomer;
    NewCustomerIsOk(id, nonce, currency, g);
    NewCustomerHasNone(id, nonce, currency);
    LifetimeOfRun(NewCustomer(id, nonce, currency), g, ops);
  }
}
