/** When the operations of a reward account go through, and what they then cost and bring,
    told from the account before them. */
module AccountOutcomes {
  import opened Prelude
  import opened Decimals
  import opened Wallets
  import opened PointBoxes
  import opened RewardAccounts

  // ----- a change of service -----

  /** The whole point units that a value buys at a price, and the rest. */
  function Bought(value: int, price: int): int {
    if 0 < value && 0 < price then value / price else 0
  }

  function Rest(value: int, price: int): int {
    if 0 < value && 0 < price then value % price else 0
  }

  /** What an account, the prices and its wallet must be like for a change to the service. */
  predicate CanChange(a: Account, s: Service) {
    var seedable := s.slots != [] && 0 < s.pointValue;
    if a.reference.None? then seedable
    else if a.reference.value.id == s.id then true
    else
      var completed, incomplete := SumOf(a.shelf.boxes, CompletedValue), SumOf(a.shelf.boxes, IncompleteValue);
      var rest := Rest(incomplete, s.pointValue);
      && (incomplete == 0 || (0 < s.pointValue && incomplete < 100_000_000_000_000_000_000_000_000))
      && (seedable || (Bought(incomplete, s.pointValue) == 0 && 0 < rest))
      && (0 < completed || 0 < rest ==> a.book.active && !a.book.frozen)
  }

  lemma SplitIs(value: int, price: int)
    requires 0 <= value
    ensures SplitValue(value, price)
         == if value == 0 || (0 < price && value < 100_000_000_000_000_000_000_000_000)
            then Some(Split(Bought(value, price), Rest(value, price))) else None
  {
    hide QuotientUnits;
    if 0 < value < LEDGER_COLUMN && 0 < price {
      LedgerQuotientIsFloor(value, price);
      assert value == value / price * price + value % price;
    }
  }

  /** A credit under a new key is paid exactly by a usable wallet, if anything is due. */
  lemma PayOutIs(b: Book, amount: int, key: Key, at: int)
    requires Unused(b, key)
    ensures PayOut(b, amount, key, at).Some? <==> (0 < amount ==> b.active && !b.frozen)
  {
  }

  lemma BothArePaid(a: Account, s: Service, route: Route, completed: int, rest: int, at: int)
    requires RowsOk(a) && EntriesOk(a) && a.reference.Some? && a.reference.value.id != s.id
    ensures var reason := Reason(route, a.id, s.id, a.shelf.nextCycle);
            var first := PayOut(a.book, completed, RebaseCash(reason), at);
            (first.Some? && PayOut(first.value, rest, Key.RebaseRemainder(reason), at).Some?)
            <==> (0 < completed || 0 < rest ==> a.book.active && !a.book.frozen)
  {
    var reason := Reason(route, a.id, s.id, a.shelf.nextCycle);
    ReasonIsFresh(a, s, route);
    PayOutIs(a.book, completed, RebaseCash(reason), at);
    var first := PayOut(a.book, completed, RebaseCash(reason), at);
    if first.Some? {
      FreshBonusPosts(a.book, completed, RebaseCash(reason), at);
      PayOutIs(first.value, rest, Key.RebaseRemainder(reason), at);
    }
  }

  /** A change of service goes through exactly for these accounts, whatever the remainder. */
  lemma ChangeGoesThrough(a: Account, s: Service, route: Route, at: int, prices: map<nat, int>)
    requires Inv(a, prices) && Priced(prices, s)
    ensures Rebased(a, s, Reason(route, a.id, s.id, a.shelf.nextCycle), at).Some? <==> CanChange(a, s)
  {
    hide Inv, SumOf, Pour, PayOut, SplitValue, RetiredOf, BoxesOf, NewCycles, CyclesNeeded, Bought, Rest, When;
    if a.reference.Some? && a.reference.value.id != s.id {
      OnlyTheseAreLive(a, prices);
      ValuesAreNonNegative(a, prices);
      KeysAreInInv(a, prices);
      var completed, incomplete := SumOf(a.shelf.boxes, CompletedValue), SumOf(a.shelf.boxes, IncompleteValue);
      var rest := Rest(incomplete, s.pointValue);
      SplitIs(incomplete, s.pointValue);
      BoughtSigns(incomplete, s.pointValue);
      BothArePaid(a, s, route, completed, rest, at);
    }
  }

  lemma BoughtSigns(value: int, price: int)
    ensures 0 <= Bought(value, price) && 0 <= Rest(value, price)
  {
    if 0 < value && 0 < price {
      assert value == value / price * price + value % price;
      if value / price < 0 { MulLe(value / price, -1, price); }
    }
  }

  /** n is the least number of cycles that hold the wanted points. */
  predicate IsLeast(n: int, cycle: int, wanted: int) {
    0 <= n && wanted <= n * cycle && (n == 0 || (n - 1) * cycle < wanted)
  }

  lemma {:induction false} TimesIs(n: nat, cycle: int)
    ensures Times(n, cycle) == n * cycle
  {
    if n > 0 { TimesIs(n - 1, cycle); }
  }

  /** What a change to another service brings: all completed value and the rest in cash, the
      bought points in the fewest cycles that leave an open box unless the rest is paid. */
  lemma ChangeMoves(a: Account, s: Service, route: Route, at: int, prices: map<nat, int>)
    requires Inv(a, prices) && Priced(prices, s) && a.reference.Some? && a.reference.value.id != s.id
    requires Rebased(a, s, Reason(route, a.id, s.id, a.shelf.nextCycle), at).Some?
    ensures var b := Rebased(a, s, Reason(route, a.id, s.id, a.shelf.nextCycle), at).value;
            var completed, incomplete := SumOf(a.shelf.boxes, CompletedValue), SumOf(a.shelf.boxes, IncompleteValue);
            var bought, rest := Bought(incomplete, s.pointValue), Rest(incomplete, s.pointValue);
            && b.book.balance == a.book.balance + completed + rest
            && Outstanding(b.shelf.boxes) == bought
            && (0 < CycleCapacity(s) ==> IsLeast(b.shelf.nextCycle - a.shelf.nextCycle, CycleCapacity(s),
                                                 if 0 < rest then bought else bought + 1))
            && b.lifetime == a.lifetime && b.awards == a.awards && b.redemptions == a.redemptions && b.nonce == a.nonce
  {
    hide Inv, SumOf, Pour, PayOut, RetiredOf, BoxesOf, Retired, NewCycles, CyclesNeeded, RebaseEntries, BonusRow, SplitValue;
    var completed, incomplete, split, cycles := RebasedParts(a, s, route, at, prices);
    var b := Rebased(a, s, Reason(route, a.id, s.id, a.shelf.nextCycle), at).value;
    OnlyTheseAreLive(a, prices);
    SplitIs(incomplete, s.pointValue);
    SameSplit(incomplete, s.pointValue, split);
    assert Outstanding(b.shelf.boxes) == split.points by {
      InvRow(a, prices);
      hide RowOk, Canonical;
      RebasedRowOk(a.shelf.boxes, s, a.shelf.nextCycle, cycles, split.points);
    }
    LeastCycles(s, if 0 < split.remainder then split.points else split.points + 1);
    assert cycles == CyclesNeeded(CycleCapacity(s), if 0 < split.remainder then split.points else split.points + 1);
  }

  lemma LeastCycles(s: Service, wanted: int)
    requires 0 <= wanted
    ensures 0 < CycleCapacity(s) ==> IsLeast(CyclesNeeded(CycleCapacity(s), wanted), CycleCapacity(s), wanted)
  {
    var n := CyclesNeeded(CycleCapacity(s), wanted);
    TimesIs(n, CycleCapacity(s));
    if 0 < n { TimesIs(n - 1, CycleCapacity(s)); }
  }

  /** The division with a remainder below the divisor is unique. */
  lemma SameSplit(value: int, price: int, split: Split)
    requires 0 <= value && 0 < price && 0 <= split.points && 0 <= split.remainder
    requires value == split.points * price + split.remainder && (0 < value ==> split.remainder < price)
    ensures split == Split(Bought(value, price), Rest(value, price))
  {
    if 0 < value {
      assert (split.points + 1) * price == split.points * price + price;
      FloorOfBetween(value, split.points, price);
      assert value == value / price * price + value % price;
    } else {
      if 1 <= split.points { MulLe(1, split.points, price); }
    }
  }

  /** The first reference service of an account creates one cycle and pays nothing. */
  lemma FirstServiceMoves(a: Account, s: Service, reason: Reason, at: int)
    requires a.reference.None? && Rebased(a, s, reason, at).Some?
    ensures var b := Rebased(a, s, reason, at).value;
            b == a.(reference := Some(s), shelf := b.shelf)
            && b.shelf == Shelf(a.shelf.boxes + NewCycle(s, a.shelf.nextCycle), a.shelf.nextCycle + 1)
  {
  }

  // ----- an administrator's change -----

  lemma SwitchGoesThrough(a: Account, s: Service, at: int, prices: map<nat, int>)
    requires Inv(a, prices) && Priced(prices, s)
    ensures Switched(a, s, at).Some? <==>
      && s.isActive && s.planActive && s.hasCurrency && 0 < s.freePoints && s.slots != [] && 0 < s.pointValue
      && CanChange(a, s)
  {
    hide Inv, Rebased, CanChange;
    ChangeGoesThrough(a, s, BrandWide, at, prices);
  }

  // ----- a claim -----

  /** What a claim asks of the program and the account when points are to be granted. */
  predicate CanGrant(a: Account, program: Option<Service>) {
    && program.Some?
    && program.value.isActive && program.value.planActive && program.value.hasCurrency && 0 < program.value.freePoints
    && program.value.slots != [] && 0 < program.value.pointValue
    && CanChange(a, program.value)
  }

  /** A claim goes through exactly for a complete achievement, not granted for good before,
      that gives something, when its points can be granted and its cash can be paid. */
  lemma ClaimGoesThrough(a: Account, award: nat, badge: Achievement, metrics: map<nat, int>, program: Option<Service>,
                         at: int, prices: map<nat, int>)
    requires Inv(a, prices) && (program.Some? ==> Priced(prices, program.value))
    ensures Claimed(a, award, badge, metrics, program, at).Some? <==>
      && badge.targets != map[]
      && (forall key :: key in badge.targets ==>
            && key in metrics && 0 < badge.targets[key]
            && badge.targets[key] * (if badge.repeatable then AwardOf(a, award).claims + 1 else 1) <= metrics[key])
      && (AwardOf(a, award).claimed ==> badge.repeatable)
      && (0 < badge.points || 0 < badge.amount)
      && (0 < badge.points ==> CanGrant(a, program))
      && (0 < badge.amount ==> a.book.active && !a.book.frozen)
  {
    hide Inv, SumOf, Rebased, PayOut, WithPoints, CanChange;
    var n := AwardOf(a, award).claims + 1;
    AwardKeepsInv(a, award, Award(n, !badge.repeatable), prices);
    if badge.points == 0 {
      PayOutIs(a.book, badge.amount * CENT, AchievementCash(award, n), at);
    } else if CanGrant(a, program) {
      var s := program.value;
      ChangeGoesThrough(a, s, OnAchievement, at, prices);
      RebasedKeepsInv(a, s, OnAchievement, at, prices);
      var b := Rebased(a, s, Reason(OnAchievement, a.id, s.id, a.shelf.nextCycle), at).value;
      ChangeKeepsWallet(a, s, Reason(OnAchievement, a.id, s.id, a.shelf.nextCycle), at);
      AwardKeepsInv(b, award, Award(n, !badge.repeatable), prices);
      PointsTouchNoWallet(b, s, badge.points * POINT);
      PayOutIs(b.book, badge.amount * CENT, AchievementCash(award, n), at);
    } else if program.Some? {
      ChangeGoesThrough(a, program.value, OnAchievement, at, prices);
    }
  }

  lemma PointsTouchNoWallet(b: Account, s: Service, points: int)
    ensures WithPoints(b, s, points) == b.(shelf := WithPoints(b, s, points).shelf, liquid := WithPoints(b, s, points).liquid)
  {
  }

  lemma PayOutKeepsUse(b: Book, amount: int, key: Key, at: int)
    ensures PayOut(b, amount, key, at).Some? ==>
      var c := PayOut(b, amount, key, at).value; c.active == b.active && c.frozen == b.frozen
  {
  }

  /** A change of service does not open or freeze a wallet. */
  lemma ChangeKeepsWallet(a: Account, s: Service, reason: Reason, at: int)
    requires Rebased(a, s, reason, at).Some?
    ensures var b := Rebased(a, s, reason, at).value; b.book.active == a.book.active && b.book.frozen == a.book.frozen
  {
    hide SumOf, Pour, PayOut, SplitValue, RetiredOf, BoxesOf, NewCycles, CyclesNeeded, When;
    if a.reference.Some? && a.reference.value.id != s.id {
      var bs := BoxesOf(a.shelf.boxes, a.reference.value.id);
      var rest := SplitValue(SumOf(bs, IncompleteValue), s.pointValue).value.remainder;
      PayOutKeepsUse(a.book, SumOf(bs, CompletedValue), RebaseCash(reason), at);
      PayOutKeepsUse(PayOut(a.book, SumOf(bs, CompletedValue), RebaseCash(reason), at).value, rest,
                     Key.RebaseRemainder(reason), at);
    }
  }

  /** The account on which a claim's grants are booked: after a change of service when points
      are granted for another one. */
  function Base(a: Account, points: nat, program: Option<Service>, at: int): Option<Account> {
    if points == 0 || program.None? then Some(a)
    else Rebased(a, program.value, Reason(OnAchievement, a.id, program.value.id, a.shelf.nextCycle), at)
  }

  /** A claim grants exactly the achievement's points, of eight decimal places, and exactly its
      cash, of ten, beyond what a change of service moved. */
  lemma ClaimMoves(a: Account, award: nat, badge: Achievement, metrics: map<nat, int>, program: Option<Service>,
                   at: int, prices: map<nat, int>)
    requires Inv(a, prices) && (program.Some? ==> Priced(prices, program.value))
    requires Claimed(a, award, badge, metrics, program, at).Some?
    ensures Base(a, badge.points, program, at).Some?
    ensures var b, c := Base(a, badge.points, program, at).value, Claimed(a, award, badge, metrics, program, at).value;
            && c.book.balance == b.book.balance + Max(badge.amount, 0) * 1_0000_0000
            && Outstanding(c.shelf.boxes) == Outstanding(b.shelf.boxes) + badge.points * 1_0000_0000
            && c.lifetime == a.lifetime + badge.points * 1_0000_0000
            && AwardOf(c, award) == Award(AwardOf(a, award).claims + 1, !badge.repeatable)
            && (forall other :: other != award ==> AwardOf(c, other) == AwardOf(a, other))
            && c.redemptions == a.redemptions && c.nonce == a.nonce
  {
    hide Inv, SumOf, Rebased, PayOut, WithPoints, IsComplete, Outstanding;
    var n, points := AwardOf(a, award).claims + 1, badge.points * POINT;
    var b := Base(a, badge.points, program, at).value;
    if badge.points != 0 {
      var s := program.value;
      RebasedKeepsInv(a, s, OnAchievement, at, prices);
      RebasedLifetime(a, s, Reason(OnAchievement, a.id, s.id, a.shelf.nextCycle), at);
      GrantedPointsArrive(b, s, points, prices);
      PointsTouchNoWallet(b, s, points);
    }
    AwardKeepsInv(b, award, Award(n, !badge.repeatable), prices);
    assert Claimed(a, award, badge, metrics, program, at).value.book
        == PayOut(b.book, badge.amount * CENT, AchievementCash(award, n), at).value;
    FreshBonusPosts(b.book, badge.amount * CENT, AchievementCash(award, n), at);
  }

  lemma RebasedLifetime(a: Account, s: Service, reason: Reason, at: int)
    requires Rebased(a, s, reason, at).Some?
    ensures Rebased(a, s, reason, at).value.lifetime == a.lifetime
  {
    hide SumOf, Pour, PayOut, SplitValue, RetiredOf, BoxesOf, NewCycles, CyclesNeeded, When;
  }

  lemma GrantedPointsArrive(b: Account, s: Service, points: int, prices: map<nat, int>)
    requires Inv(b, prices) && b.reference.Some? && b.reference.value.id == s.id && Priced(prices, s)
    requires 0 < points && CanSeed(s)
    ensures Outstanding(WithPoints(b, s, points).shelf.boxes) == Outstanding(b.shelf.boxes) + points
  {
    hide Inv, Outstanding, Placed;
    PlacedMoves(b, s, points, prices);
  }

  // ----- a redemption -----

  /** The account on which a redemption is booked. */
  function AfterChange(a: Account, s: Service, at: int): Option<Account> {
    Rebased(a, s, Reason(OnRedemption, a.id, s.id, a.shelf.nextCycle), at)
  }

  /** A new request is redeemed exactly when it holds the account's nonce, the reference service
      is active and the account can be on it, and its completed points then cover a positive
      price for a plan with a provider. */
  lemma RedemptionGoesThrough(a: Account, request: nat, program: Option<Service>, ready: bool, nonce: nat, at: int,
                              prices: map<nat, int>)
    requires Inv(a, prices) && (program.Some? ==> Priced(prices, program.value)) && request !in a.redemptions
    ensures RedeemedBy(a, request, program, ready, nonce, at).Some? <==>
      && a.nonce == request && program.Some? && program.value.isActive && ready
      && CanChange(a, program.value)
      && 0 < program.value.freePoints
      && AfterChange(a, program.value, at).Some?
      && program.value.freePoints <= AfterChange(a, program.value, at).value.liquid
  {
    hide Inv, Rebased, CanChange;
    if program.Some? { ChangeGoesThrough(a, program.value, OnRedemption, at, prices); }
  }

  /** A redemption costs exactly the service's price in points: redeemable points, outstanding
      points and the point ledger fall by it, at the service's value, and the wallet is not
      touched beyond what a change of service moved. */
  lemma RedemptionCosts(a: Account, request: nat, program: Option<Service>, ready: bool, nonce: nat, at: int,
                        prices: map<nat, int>)
    requires Inv(a, prices) && (program.Some? ==> Priced(prices, program.value)) && request !in a.redemptions
    requires RedeemedBy(a, request, program, ready, nonce, at).Some?
    ensures AfterChange(a, program.value, at).Some?
    ensures var b, c := AfterChange(a, program.value, at).value, RedeemedBy(a, request, program, ready, nonce, at).value;
            var price := program.value.freePoints;
            && 0 < price
            && c.liquid == b.liquid - price
            && Outstanding(c.shelf.boxes) == Outstanding(b.shelf.boxes) - price
            && SumOf(c.shelf.boxes, Unspent) == SumOf(b.shelf.boxes, Unspent) - price
            && SumOf(c.ledger, PointsDelta) == SumOf(b.ledger, PointsDelta) - price
            && SumOf(c.ledger, RedeemedValue) == SumOf(b.ledger, RedeemedValue) + price * program.value.pointValue
            && |c.ledger| == |b.ledger| + 1 && c.ledger[..|b.ledger|] == b.ledger
            && c.book == b.book && c.lifetime == b.lifetime && c.awards == b.awards
            && c.shelf.nextCycle == b.shelf.nextCycle && c.reference == b.reference
            && request in c.redemptions && c.nonce == nonce
  {
    hide Inv, SumOf, Rebased, Drawn, Outstanding, Canonical;
    var s := program.value;
    var b := AfterChange(a, s, at).value;
    RebasedKeepsInv(a, s, OnRedemption, at, prices);
    RedeemKeepsInv(b, s, request, nonce, prices);
    var entry := Entry(Redeemed, s.id, -s.freePoints, -(s.freePoints * s.pointValue), RedemptionOf(|b.redemptions|));
    SumPush(b.ledger, entry, PointsDelta);
    SumPush(b.ledger, entry, RedeemedValue);
    var c := RedeemedBy(a, request, program, ready, nonce, at).value;
    DrawnMoves(b, s, c, prices);
    LiquidIsUnspent(b, prices);
    LiquidIsUnspent(c, prices);
  }

  lemma LiquidIsUnspent(a: Account, prices: map<nat, int>)
    requires Inv(a, prices)
    ensures a.liquid == SumOf(a.shelf.boxes, Unspent)
  {
  }
}
