/** One customer's reward account: claims, changes of the reference service and redemptions,
    as steps on values, with the invariant that every run of them keeps. */
module RewardAccounts {
  import opened Prelude
  import opened Decimals
  import opened Wallets
  import opened PointBoxes

  const POINT := 1_0000_0000

  datatype EntryKind = ServiceRebase | ConvertedToWallet | Redeemed | AchievementBonus

  /** The unique keys of the point ledger, one constructor for each family of strings. */
  datatype EntryKey =
    | CompletedOf(reason: Reason)
    | OldIncompleteOf(reason: Reason)
    | NewIncompleteOf(reason: Reason)
    | RemainderOf(reason: Reason)
    | ClaimOf(award: nat, claim: nat)
    | RedemptionOf(redemption: nat)

  datatype Entry = Entry(kind: EntryKind, service: nat, points: int, value: int, key: EntryKey)

  /** A customer's record of one achievement. */
  datatype Award = Award(claims: nat, claimed: bool)

  /** `targets` names the metrics an achievement asks for and how much of each. */
  datatype Achievement = Achievement(repeatable: bool, points: nat, amount: int, targets: map<nat, int>)

  datatype Account = Account(id: nat, reference: Option<Service>, liquid: int, lifetime: int, shelf: Shelf,
                             ledger: seq<Entry>, awards: map<nat, Award>, redemptions: seq<nat>, nonce: nat,
                             book: Book)

  // ----- what the services do -----

  /** Credit a wallet unless nothing is due; a refused credit aborts the caller. */
  function PayOut(b: Book, amount: int, key: Key, at: int): Option<Book> {
    if amount <= 0 then Some(b) else
      match Credit(b, Kind.Bonus, amount, Some(key), at)
      case Ok(after) => Some(after)
      case Err(_) => None
  }

  function When(condition: bool, entry: Entry): seq<Entry> {
    if condition then [entry] else []
  }

  function Retire(b: Box): Box {
    b.(state := Converted)
  }

  function Retired(bs: seq<Box>): (rs: seq<Box>)
    ensures |rs| == |bs|
  {
    if bs == [] then [] else [Retire(bs[0])] + Retired(bs[1..])
  }

  /** The open and completed boxes of a service: what a change of service works on. */
  function BoxesOf(bs: seq<Box>, service: nat): (found: seq<Box>)
    ensures forall b :: b in found ==> b in bs && b.service == service && IsLive(b)
  {
    if bs == [] then [] else
      (if bs[0].service == service && IsLive(bs[0]) then [bs[0]] else []) + BoxesOf(bs[1..], service)
  }

  /** The row after these boxes were retired. */
  function RetiredOf(bs: seq<Box>, service: nat): (rs: seq<Box>)
    ensures |rs| == |bs|
    ensures forall i :: 0 <= i < |bs| ==>
      rs[i] == if bs[i].service == service && IsLive(bs[i]) then Retire(bs[i]) else bs[i]
  {
    if bs == [] then [] else
      [if bs[0].service == service && IsLive(bs[0]) then Retire(bs[0]) else bs[0]] + RetiredOf(bs[1..], service)
  }

  /** How incomplete value splits at a new price: whole point units, and the rest in cash. */
  datatype Split = Split(points: int, remainder: int)

  function SplitValue(value: int, price: int): Option<Split>
    requires 0 <= value
  {
    if value == 0 then Some(Split(0, 0))
    else if price <= 0 || LEDGER_COLUMN <= value then None
    else match QuotientUnits(value, price)
      case None => None
      case Some(points) => Some(Split(points, value - points * price))
  }

  /** The effect of making `s` the account's reference service; None when the step raises.
      Live boxes retire; completed value is paid out; incomplete value becomes points of
      the new service, poured into as many new cycles as needed, and an open box remains
      unless a remainder was paid. */
  function Rebased(a: Account, s: Service, reason: Reason, at: int): Option<Account> {
    if a.reference.None? then
      if !CanSeed(s) then None else
        Some(a.(reference := Some(s),
                shelf := Shelf(a.shelf.boxes + NewCycle(s, a.shelf.nextCycle), a.shelf.nextCycle + 1)))
    else if a.reference.value.id == s.id then Some(a)
    else
      var former := a.reference.value.id;
      var bs := BoxesOf(a.shelf.boxes, former);
      var completed, incomplete := SumOf(bs, CompletedValue), SumOf(bs, IncompleteValue);
      if incomplete < 0 then None else
      var split := SplitValue(incomplete, s.pointValue);
      if split.None? then None else
      var points, remainder := split.value.points, split.value.remainder;
      var cycles := CyclesNeeded(CycleCapacity(s), if 0 < remainder then points else points + 1);
      if (0 < points || remainder <= 0) && !CanSeed(s) then None else
      var paid := PayOut(a.book, completed, RebaseCash(reason), at);
      if paid.None? then None else
      var paidAll := PayOut(paid.value, remainder, Key.RebaseRemainder(reason), at);
      if paidAll.None? then None else
      var boxes := Pour(NewCycles(s, a.shelf.nextCycle, cycles), points, 0);
      Some(a.(
        reference := Some(s),
        liquid := SumOf(boxes, Unspent),
        shelf := Shelf(RetiredOf(a.shelf.boxes, former) + boxes, a.shelf.nextCycle + cycles),
        ledger := a.ledger
          + When(0 < completed, Entry(ConvertedToWallet, former, -SumOf(bs, Unspent), completed, CompletedOf(reason)))
          + When(0 < incomplete, Entry(ServiceRebase, former, -SumOf(bs, OpenFilled), -incomplete, OldIncompleteOf(reason)))
          + When(0 < points, Entry(ServiceRebase, s.id, points, points * s.pointValue, NewIncompleteOf(reason)))
          + When(0 < remainder, Entry(ConvertedToWallet, former, 0, remainder, RemainderOf(reason))),
        book := paidAll.value))
  }

  predicate IsValidReference(s: Service) {
    s.isActive && s.planActive && s.hasCurrency && 0 < s.freePoints && CanSeed(s)
  }

  /** Placing points into the boxes of the reference service. */
  function WithPoints(a: Account, s: Service, points: int): Account {
    var shelf := Placed(a.shelf, s, points);
    a.(shelf := shelf, liquid := SumOf(shelf.boxes, Unspent))
  }

  function AwardOf(a: Account, award: nat): Award {
    if award in a.awards then a.awards[award] else Award(0, false)
  }

  /** Granting an achievement's points: rebase if needed, place, record. */
  function PointsGranted(a: Account, award: nat, points: nat, program: Option<Service>, at: int): Option<Account> {
    if program.None? || !IsValidReference(program.value) then None else
      var s := program.value;
      var reason := Reason(OnAchievement, a.id, s.id, a.shelf.nextCycle);
      match Rebased(a, s, reason, at)
      case None => None
      case Some(b) =>
        var c := WithPoints(b, s, points);
        Some(c.(lifetime := c.lifetime + points,
                ledger := c.ledger + [Entry(AchievementBonus, s.id, points, points * s.pointValue,
                                            ClaimOf(award, AwardOf(a, award).claims + 1))]))
  }

  /** Completion as it is recomputed before every claim: each target of a repeatable
      achievement is due once more with every claim. */
  predicate IsComplete(badge: Achievement, record: Award, metrics: map<nat, int>) {
    && badge.targets != map[]
    && forall key :: key in badge.targets ==>
         && key in metrics && 0 < badge.targets[key]
         && badge.targets[key] * (if badge.repeatable then record.claims + 1 else 1) <= metrics[key]
  }

  /** Claiming an achievement under the metrics of the moment. */
  function Claimed(a: Account, award: nat, badge: Achievement, metrics: map<nat, int>, program: Option<Service>,
                   at: int): Option<Account>
  {
    var record := AwardOf(a, award);
    if !IsComplete(badge, record, metrics) || (record.claimed && !badge.repeatable) || (badge.points == 0 && badge.amount <= 0) then None else
      var granted := if badge.points == 0 then Some(a)
                     else PointsGranted(a, award, badge.points * POINT, program, at);
      if granted.None? then None else
        var b := granted.value;
        match PayOut(b.book, badge.amount * CENT, AchievementCash(award, record.claims + 1), at)
        case None => None
        case Some(book) =>
          Some(b.(book := book, awards := b.awards[award := Award(record.claims + 1, !badge.repeatable)]))
  }

  /** An administrator makes `s` the reference service of the brand. */
  function Switched(a: Account, s: Service, at: int): Option<Account> {
    if !IsValidReference(s) then None
    else Rebased(a, s, Reason(BrandWide, a.id, s.id, a.shelf.nextCycle), at)
  }

  /** Redeeming completed points for the reference service. A request key seen before
      changes nothing. `ready` says that the plan has an active provider. */
  function RedeemedBy(a: Account, request: nat, program: Option<Service>, ready: bool, nonce: nat,
                      at: int): Option<Account>
  {
    if request in a.redemptions then Some(a)
    else if a.nonce != request || program.None? || !program.value.isActive then None
    else
      var s := program.value;
      match Rebased(a, s, Reason(OnRedemption, a.id, s.id, a.shelf.nextCycle), at)
      case None => None
      case Some(b) =>
        if s.freePoints <= 0 || b.liquid < s.freePoints || !ready then None else
          Some(b.(
            liquid := b.liquid - s.freePoints,
            shelf := b.shelf.(boxes := Drawn(b.shelf.boxes, s.freePoints)),
            redemptions := b.redemptions + [request],
            nonce := nonce,
            ledger := b.ledger + [Entry(Redeemed, s.id, -s.freePoints, -(s.freePoints * s.pointValue),
                                        RedemptionOf(|b.redemptions|))]))
  }

  // ----- the invariant -----

  function PointsDelta(e: Entry): int {
    e.points
  }

  function GrantedValue(e: Entry): int {
    if e.kind.AchievementBonus? then e.value else 0
  }

  function RedeemedValue(e: Entry): int {
    if e.kind.Redeemed? then -e.value else 0
  }

  /** The reason of a rebase credit, if the row is one. */
  function RowReason(r: Row): Option<Reason> {
    match r.key
    case Some(RebaseCash(reason)) => Some(reason)
    case Some(RebaseRemainder(reason)) => Some(reason)
    case _ => None
  }

  function RebasePaid(r: Row): int {
    if RowReason(r).Some? then r.amount else 0
  }

  function EntryReason(e: Entry): Option<Reason> {
    match e.key
    case CompletedOf(reason) => Some(reason)
    case OldIncompleteOf(reason) => Some(reason)
    case NewIncompleteOf(reason) => Some(reason)
    case RemainderOf(reason) => Some(reason)
    case ClaimOf(_, _) => None
    case RedemptionOf(_) => None
  }

  function PriceOf(a: Account): int {
    if a.reference.Some? then a.reference.value.pointValue else 0
  }

  /** What the live boxes are worth. */
  function LiveValue(a: Account): int {
    SumOf(a.shelf.boxes, CompletedValue) + SumOf(a.shelf.boxes, IncompleteValue)
  }

  ghost predicate AllRetired(bs: seq<Box>) {
    forall b :: b in bs ==> !IsLive(b)
  }

  ghost predicate LiveBelongTo(bs: seq<Box>, service: nat, price: int) {
    forall b :: b in bs && IsLive(b) ==> b.service == service && b.price == price
  }

  /** Only the reference service has live boxes, and they carry its price. */
  ghost predicate OnlyReferenceIsLive(a: Account) {
    if a.reference.Some? then LiveBelongTo(a.shelf.boxes, a.reference.value.id, a.reference.value.pointValue)
    else AllRetired(a.shelf.boxes)
  }

  ghost predicate RetiredFirst(bs: seq<Box>) {
    forall i, j :: 0 <= i < j < |bs| && IsLive(bs[i]) ==> IsLive(bs[j])
  }

  ghost predicate BoxesOk(a: Account) {
    && Canonical(a.shelf.boxes)
    && InOrder(a.shelf.boxes) && CyclesBelow(a.shelf.boxes, a.shelf.nextCycle)
    && RetiredFirst(a.shelf.boxes)
    && OnlyReferenceIsLive(a)
    && a.liquid == SumOf(a.shelf.boxes, Unspent)
  }

  /** A reason can not be asked for again: its cycle number has passed, or the account is
      still on that service without having created a box for it. */
  ghost predicate Past(a: Account, reason: Reason) {
    || reason.cycle < a.shelf.nextCycle
    || (reason.cycle == a.shelf.nextCycle && a.reference.Some? && reason.service == a.reference.value.id
        && AllRetired(a.shelf.boxes))
  }

  /** What was past in the first state is past in the second. */
  ghost predicate PastIsKept(a: Account, b: Account) {
    forall reason :: Past(a, reason) ==> Past(b, reason)
  }

  ghost predicate RowsOk(a: Account) {
    forall r :: r in a.book.rows ==>
      && (RowReason(r).Some? ==> RowReason(r).value.account == a.id && Past(a, RowReason(r).value))
      && (r.key.Some? && r.key.value.AchievementCash? ==>
            r.key.value.claim <= AwardOf(a, r.key.value.award).claims)
  }

  ghost predicate EntriesOk(a: Account) {
    forall e :: e in a.ledger ==>
      && (EntryReason(e).Some? ==> EntryReason(e).value.account == a.id && Past(a, EntryReason(e).value))
      && (e.key.ClaimOf? ==> e.key.claim <= AwardOf(a, e.key.award).claims)
      && (e.key.RedemptionOf? ==> e.key.redemption < |a.redemptions|)
  }

  ghost predicate UniqueEntries(ledger: seq<Entry>) {
    forall i, j :: 0 <= i < j < |ledger| ==> ledger[i].key != ledger[j].key
  }

  /** The point ledger replays to the points that boxes still hold. */
  ghost predicate PointsBalance(a: Account) {
    SumOf(a.ledger, PointsDelta) == Outstanding(a.shelf.boxes)
  }

  /** No value is made or lost: what was granted is in live boxes, was paid out by a change
      of service, or was redeemed. */
  ghost predicate ValueBalances(a: Account) {
    SumOf(a.ledger, GrantedValue)
      == PriceOf(a) * Outstanding(a.shelf.boxes) + SumOf(a.book.rows, RebasePaid) + SumOf(a.ledger, RedeemedValue)
  }

  /** `prices` gives each service the one point value it ever had: a stored point value is
      never overwritten. */
  ghost predicate Inv(a: Account, prices: map<nat, int>) {
    && BoxesOk(a)
    && (a.reference.Some? ==> Priced(prices, a.reference.value) && 0 < a.reference.value.pointValue)
    && RowsOk(a) && EntriesOk(a) && UniqueEntries(a.ledger)
    && PointsBalance(a)
    && ValueBalances(a)
  }

  ghost predicate Priced(prices: map<nat, int>, s: Service) {
    s.id in prices && prices[s.id] == s.pointValue
  }

  // ----- values of live boxes -----

  lemma {:induction false} PricedSums(bs: seq<Box>, service: nat, price: int)
    requires LiveBelongTo(bs, service, price)
    ensures SumOf(bs, CompletedValue) == price * SumOf(bs, Unspent)
    ensures SumOf(bs, IncompleteValue) == price * SumOf(bs, OpenFilled)
  {
    if bs != [] {
      assert LiveBelongTo(bs[1..], service, price);
      PricedSums(bs[1..], service, price);
      PricedBox(bs[0], price);
      Distribute(price, Unspent(bs[0]), SumOf(bs[1..], Unspent));
      Distribute(price, OpenFilled(bs[0]), SumOf(bs[1..], OpenFilled));
    }
  }

  lemma PricedBox(b: Box, price: int)
    requires IsLive(b) ==> b.price == price
    ensures CompletedValue(b) == price * Unspent(b) && IncompleteValue(b) == price * OpenFilled(b)
  {
  }

  lemma Distribute(k: int, x: int, y: int)
    ensures k * (x + y) == k * x + k * y
  {
  }

  /** Live value is price times outstanding points. */
  lemma LiveValueIsPriced(a: Account, prices: map<nat, int>)
    requires Inv(a, prices)
    ensures LiveValue(a) == PriceOf(a) * Outstanding(a.shelf.boxes)
    ensures SumOf(a.shelf.boxes, CompletedValue) == PriceOf(a) * SumOf(a.shelf.boxes, Unspent)
    ensures SumOf(a.shelf.boxes, IncompleteValue) == PriceOf(a) * SumOf(a.shelf.boxes, OpenFilled)
    ensures 0 <= SumOf(a.shelf.boxes, Unspent) && 0 <= SumOf(a.shelf.boxes, OpenFilled)
  {
    var bs := a.shelf.boxes;
    PricedSums(bs, if a.reference.Some? then a.reference.value.id else 0, PriceOf(a));
    UnspentIsDifference(bs);
    PouredBoxes(bs, SumOf(bs, LiveFilled), SumOf(bs, LiveSpent));
    SumNonNegative(bs, Unspent);
    SumNonNegative(bs, OpenFilled);
    Distribute(PriceOf(a), SumOf(bs, Unspent), SumOf(bs, OpenFilled));
  }

  // ----- boxes after a step -----

  lemma {:induction false} RetiredFacts(bs: seq<Box>)
    requires Sized(bs)
    ensures AllRetired(Retired(bs)) && Sized(Retired(bs))
    ensures forall i :: 0 <= i < |bs| ==> Retired(bs)[i] == Retire(bs[i])
  {
    if bs != [] {
      assert Sized(bs[1..]);
      RetiredFacts(bs[1..]);
      var rs := Retired(bs);
      assert forall i :: 0 < i < |bs| ==> rs[i] == Retired(bs[1..])[i - 1] && bs[i] == bs[1..][i - 1];
      assert forall b :: b in rs ==> b == rs[0] || b in Retired(bs[1..]);
    }
  }

  lemma {:induction false} NothingLive(bs: seq<Box>)
    requires AllRetired(bs) && Sized(bs)
    ensures SumOf(bs, LiveCapacity) == SumOf(bs, LiveFilled) == SumOf(bs, LiveSpent) == 0
    ensures SumOf(bs, CompleteCapacity) == SumOf(bs, Unspent) == SumOf(bs, OpenFilled) == 0
    ensures forall filled, spent :: Pour(bs, filled, spent) == bs
    ensures Canonical(bs)
  {
    if bs != [] {
      assert AllRetired(bs[1..]) && Sized(bs[1..]);
      NothingLive(bs[1..]);
      forall filled, spent ensures Pour(bs, filled, spent) == bs {
        assert Pour(bs[1..], filled, spent) == bs[1..];
      }
    }
  }

  /** Retiring keeps the order of a row. */
  lemma RetiredInOrder(bs: seq<Box>, cycle: nat)
    requires Sized(bs) && InOrder(bs) && CyclesBelow(bs, cycle)
    ensures InOrder(Retired(bs)) && CyclesBelow(Retired(bs), cycle) && RetiredFirst(Retired(bs))
  {
    RetiredFacts(bs);
    var rs := Retired(bs);
    forall i, j | 0 <= i < j < |rs|
      ensures rs[i].cycle < rs[j].cycle || (rs[i].cycle == rs[j].cycle && rs[i].sequence < rs[j].sequence)
    {
      assert rs[i] == Retire(bs[i]) && rs[j] == Retire(bs[j]);
    }
    forall b | b in rs ensures b.cycle < cycle {
      var i :| 0 <= i < |rs| && rs[i] == b;
      assert bs[i] in bs;
    }
  }

  ghost predicate RowOk(bs: seq<Box>, cycle: nat, service: nat, price: int) {
    && Canonical(bs) && InOrder(bs) && CyclesBelow(bs, cycle) && RetiredFirst(bs)
    && LiveBelongTo(bs, service, price)
  }

  lemma RetiredRowOk(bs: seq<Box>, cycle: nat, service: nat, price: int)
    requires Canonical(bs) && InOrder(bs) && CyclesBelow(bs, cycle)
    ensures RowOk(Retired(bs), cycle, service, price) && AllRetired(Retired(bs))
  {
    RetiredFacts(bs);
    NothingLive(Retired(bs));
    RetiredInOrder(bs, cycle);
  }

  /** Adding empty cycles of the service to its row. */
  lemma CyclesRowOk(bs: seq<Box>, s: Service, cycle: nat, n: nat)
    requires RowOk(bs, cycle, s.id, s.pointValue)
    ensures RowOk(bs + NewCycles(s, cycle, n), cycle + n, s.id, s.pointValue)
    ensures var all := bs + NewCycles(s, cycle, n);
            && SumOf(all, LiveFilled) == SumOf(bs, LiveFilled) && SumOf(all, LiveSpent) == SumOf(bs, LiveSpent)
            && Room(all) == Room(bs) + Times(n, CycleCapacity(s))
  {
    var cs := NewCycles(s, cycle, n);
    CyclesAreEmpty(s, cycle, n);
    SeedingIsCanonical(bs, cs);
    CyclesInOrder(s, cycle, n);
    InOrderConcat(bs, cs, cycle);
    RetiredFirstConcat(bs, cs);
  }

  lemma RetiredFirstConcat(bs: seq<Box>, cs: seq<Box>)
    requires RetiredFirst(bs) && Empty(cs)
    ensures RetiredFirst(bs + cs)
  {
  }

  /** Re-pouring the totals of a row. */
  lemma PouredRowOk(bs: seq<Box>, cycle: nat, service: nat, price: int, filled: int, spent: int)
    requires RowOk(bs, cycle, service, price)
    requires Canonical(Pour(bs, filled, spent))
    ensures RowOk(Pour(bs, filled, spent), cycle, service, price)
  {
    hide Pour, Canonical;
    var ps := Pour(bs, filled, spent);
    PourKeepsIdentity(bs, filled, spent);
    forall b | b in ps
      ensures b.cycle < cycle
      ensures IsLive(b) ==> b.service == service && b.price == price
    {
      var i :| 0 <= i < |ps| && ps[i] == b;
      assert bs[i] in bs;
    }
    forall i, j | 0 <= i < j < |ps|
      ensures ps[i].cycle < ps[j].cycle || (ps[i].cycle == ps[j].cycle && ps[i].sequence < ps[j].sequence)
      ensures IsLive(ps[i]) ==> IsLive(ps[j])
    {
    }
  }

  lemma PlacedRowOk(shelf: Shelf, s: Service, points: int)
    requires RowOk(shelf.boxes, shelf.nextCycle, s.id, s.pointValue)
    requires 0 <= points && CanPlace(shelf, s, points)
    ensures var p := Placed(shelf, s, points); RowOk(p.boxes, p.nextCycle, s.id, s.pointValue)
  {
    hide Pour, Canonical, RowOk, SumOf, NewCycles, CyclesNeeded;
    RowIsCanonical(shelf.boxes, shelf.nextCycle, s.id, s.pointValue);
    var n := CyclesNeeded(CycleCapacity(s), points - Room(shelf.boxes));
    CyclesRowOk(shelf.boxes, s, shelf.nextCycle, n);
    PlacedIsCanonical(shelf, s, points);
    PouredRowOk(shelf.boxes + NewCycles(s, shelf.nextCycle, n), shelf.nextCycle + n, s.id, s.pointValue,
                SumOf(shelf.boxes, LiveFilled) + points, SumOf(shelf.boxes, LiveSpent));
  }

  // ----- a change of the reference service -----

  /** The division at forty digits is the Euclidean one, with a remainder below the price. */
  lemma SplitIsDivision(value: int, price: int)
    requires 0 <= value && SplitValue(value, price).Some?
    ensures var split := SplitValue(value, price).value;
            && value == split.points * price + split.remainder
            && 0 <= split.points && 0 <= split.remainder
            && (0 < value ==> 0 < price && split.points == value / price && split.remainder < price)
            && (value == 0 ==> split == Split(0, 0))
  {
    hide QuotientUnits;
    if 0 < value {
      LedgerQuotientIsFloor(value, price);
      assert value == value / price * price + value % price;
      assert 0 < (value / price + 1) * price;
      MulCancel(0, value / price + 1, price);
    }
  }

  function BonusRow(balance: int, amount: int, key: Key, at: int): seq<Row> {
    if amount <= 0 then [] else [Row(Kind.Bonus, amount, balance, balance + amount, Some(key), at, 0)]
  }

  ghost predicate Unused(b: Book, key: Key) {
    forall r :: r in b.rows ==> r.key != Some(key)
  }

  /** A credit with a fresh key is really posted, never taken for an old one. */
  lemma FreshBonusPosts(b: Book, amount: int, key: Key, at: int)
    requires Unused(b, key) && PayOut(b, amount, key, at).Some?
    ensures PayOut(b, amount, key, at).value
         == b.(balance := b.balance + Max(amount, 0), rows := b.rows + BonusRow(b.balance, amount, key, at))
  {
  }

  /** The reason under which an account is rebased now has never been used. */
  lemma ReasonIsFresh(a: Account, s: Service, route: Route)
    requires RowsOk(a) && EntriesOk(a) && a.reference.Some? && a.reference.value.id != s.id
    ensures var reason := Reason(route, a.id, s.id, a.shelf.nextCycle);
            && !Past(a, reason)
            && Unused(a.book, RebaseCash(reason)) && Unused(a.book, Key.RebaseRemainder(reason))
            && (forall e :: e in a.ledger ==> EntryReason(e) != Some(reason))
  {
  }

  /** The four ledger entries of a rebase. */
  function RebaseEntries(a: Account, s: Service, reason: Reason, completed: int, incomplete: int, split: Split): seq<Entry>
    requires a.reference.Some?
  {
    var former := a.reference.value.id;
    var bs := BoxesOf(a.shelf.boxes, former);
    When(0 < completed, Entry(ConvertedToWallet, former, -SumOf(bs, Unspent), completed, CompletedOf(reason)))
    + When(0 < incomplete, Entry(ServiceRebase, former, -SumOf(bs, OpenFilled), -incomplete, OldIncompleteOf(reason)))
    + When(0 < split.points,
           Entry(ServiceRebase, s.id, split.points, split.points * s.pointValue, NewIncompleteOf(reason)))
    + When(0 < split.remainder, Entry(ConvertedToWallet, former, 0, split.remainder, RemainderOf(reason)))
  }

  /** How a successful change of service moves each part of the account. */
  lemma RebasedParts(a: Account, s: Service, route: Route, at: int, prices: map<nat, int>)
      returns (completed: int, incomplete: int, split: Split, cycles: nat)
    requires Inv(a, prices) && a.reference.Some? && a.reference.value.id != s.id
    requires Rebased(a, s, Reason(route, a.id, s.id, a.shelf.nextCycle), at).Some?
    ensures completed == SumOf(a.shelf.boxes, CompletedValue) && incomplete == SumOf(a.shelf.boxes, IncompleteValue)
    ensures 0 <= completed && 0 <= incomplete
    ensures incomplete == split.points * s.pointValue + split.remainder && 0 <= split.points && 0 <= split.remainder
    ensures 0 < incomplete ==> split.remainder < s.pointValue
    ensures 0 < s.pointValue
    ensures cycles == 0 ==> split.points == 0 && 0 < split.remainder
    ensures split.points <= Times(cycles, CycleCapacity(s))
    ensures var reason := Reason(route, a.id, s.id, a.shelf.nextCycle);
            var b := Rebased(a, s, reason, at).value;
            && b == a.(reference := Some(s), liquid := b.liquid, shelf := b.shelf, ledger := b.ledger, book := b.book)
            && b.shelf == Shelf(Retired(a.shelf.boxes) + Pour(NewCycles(s, a.shelf.nextCycle, cycles), split.points, 0),
                                a.shelf.nextCycle + cycles)
            && b.liquid == SumOf(Pour(NewCycles(s, a.shelf.nextCycle, cycles), split.points, 0), Unspent)
            && b.ledger == a.ledger + RebaseEntries(a, s, reason, completed, incomplete, split)
            && b.book == a.book.(
                 balance := a.book.balance + completed + split.remainder,
                 rows := a.book.rows + BonusRow(a.book.balance, completed, RebaseCash(reason), at)
                   + BonusRow(a.book.balance + completed, split.remainder, Key.RebaseRemainder(reason), at))
  {
    hide Pour, CyclesNeeded, Times, SplitValue, SumOf, Inv, PayOut, RetiredOf, BoxesOf, Retired, NewCycles;
    OnlyTheseAreLive(a, prices);
    completed, incomplete := SumOf(a.shelf.boxes, CompletedValue), SumOf(a.shelf.boxes, IncompleteValue);
    ValuesAreNonNegative(a, prices);
    split := SplitValue(incomplete, s.pointValue).value;
    SplitIsDivision(incomplete, s.pointValue);
    var wanted := if 0 < split.remainder then split.points else split.points + 1;
    cycles := CyclesNeeded(CycleCapacity(s), wanted);
    NoCycleMeansNothingWanted(s, wanted);
    assert RowsOk(a) && EntriesOk(a) by { KeysAreInInv(a, prices); }
    RebaseBonuses(a, s, route, completed, split.remainder, at);
  }

  /** The former service's boxes are all that is live, so nothing of value is missed. */
  lemma {:induction false} AllLiveAreOf(bs: seq<Box>, service: nat, price: int, f: Box -> int)
    requires LiveBelongTo(bs, service, price) && forall b: Box :: !IsLive(b) ==> f(b) == 0
    ensures SumOf(BoxesOf(bs, service), f) == SumOf(bs, f)
  {
    if bs != [] {
      assert LiveBelongTo(bs[1..], service, price);
      AllLiveAreOf(bs[1..], service, price, f);
      var first := if bs[0].service == service && IsLive(bs[0]) then [bs[0]] else [];
      SumConcat(first, BoxesOf(bs[1..], service), f);
      assert bs[0] in bs;
    }
  }

  lemma {:induction false} RetiredOfAll(bs: seq<Box>, service: nat, price: int)
    requires LiveBelongTo(bs, service, price)
    ensures RetiredOf(bs, service) == Retired(bs)
  {
    if bs != [] {
      assert LiveBelongTo(bs[1..], service, price) && bs[0] in bs;
      RetiredOfAll(bs[1..], service, price);
    }
  }

  lemma OnlyTheseAreLive(a: Account, prices: map<nat, int>)
    requires Inv(a, prices) && a.reference.Some?
    ensures var bs, theirs := a.shelf.boxes, BoxesOf(a.shelf.boxes, a.reference.value.id);
            && SumOf(theirs, CompletedValue) == SumOf(bs, CompletedValue)
            && SumOf(theirs, IncompleteValue) == SumOf(bs, IncompleteValue)
            && SumOf(theirs, Unspent) == SumOf(bs, Unspent) && SumOf(theirs, OpenFilled) == SumOf(bs, OpenFilled)
            && RetiredOf(bs, a.reference.value.id) == Retired(bs)
  {
    hide SumOf, Canonical, RowsOk, EntriesOk, PointsBalance, ValueBalances;
    var bs, service, price := a.shelf.boxes, a.reference.value.id, a.reference.value.pointValue;
    AllLiveAreOf(bs, service, price, CompletedValue);
    AllLiveAreOf(bs, service, price, IncompleteValue);
    AllLiveAreOf(bs, service, price, Unspent);
    AllLiveAreOf(bs, service, price, OpenFilled);
    RetiredOfAll(bs, service, price);
  }

  lemma KeysAreInInv(a: Account, prices: map<nat, int>)
    requires Inv(a, prices)
    ensures RowsOk(a) && EntriesOk(a) && UniqueEntries(a.ledger)
  {
  }

  lemma ValuesAreNonNegative(a: Account, prices: map<nat, int>)
    requires Inv(a, prices)
    ensures 0 <= SumOf(a.shelf.boxes, CompletedValue) && 0 <= SumOf(a.shelf.boxes, IncompleteValue)
  {
    LiveValueIsPriced(a, prices);
    MulLe(0, PriceOf(a), SumOf(a.shelf.boxes, Unspent));
    MulLe(0, PriceOf(a), SumOf(a.shelf.boxes, OpenFilled));
  }

  /** The two credits of a rebase, one after the other. */
  lemma RebaseBonuses(a: Account, s: Service, route: Route, completed: int, remainder: int, at: int)
    requires RowsOk(a) && EntriesOk(a) && a.reference.Some? && a.reference.value.id != s.id
    requires 0 <= completed && 0 <= remainder
    ensures var reason := Reason(route, a.id, s.id, a.shelf.nextCycle);
            var first := PayOut(a.book, completed, RebaseCash(reason), at);
            first.Some? ==>
              var second := PayOut(first.value, remainder, Key.RebaseRemainder(reason), at);
              second.Some? ==> second.value == a.book.(
                balance := a.book.balance + completed + remainder,
                rows := a.book.rows + BonusRow(a.book.balance, completed, RebaseCash(reason), at)
                  + BonusRow(a.book.balance + completed, remainder, Key.RebaseRemainder(reason), at))
  {
    var reason := Reason(route, a.id, s.id, a.shelf.nextCycle);
    var first := PayOut(a.book, completed, RebaseCash(reason), at);
    ReasonIsFresh(a, s, route);
    if first.Some? {
      FreshBonusPosts(a.book, completed, RebaseCash(reason), at);
      var second := PayOut(first.value, remainder, Key.RebaseRemainder(reason), at);
      if second.Some? { FreshBonusPosts(first.value, remainder, Key.RebaseRemainder(reason), at); }
    }
  }

  lemma NoCycleMeansNothingWanted(s: Service, wanted: int)
    requires 0 <= wanted && (0 < wanted ==> CanSeed(s))
    ensures wanted <= Times(CyclesNeeded(CycleCapacity(s), wanted), CycleCapacity(s))
    ensures CyclesNeeded(CycleCapacity(s), wanted) == 0 ==> wanted == 0
  {
    CyclesAreEmpty(s, 0, 0);
    TimesNonNegative(CyclesNeeded(CycleCapacity(s), wanted), Max(0, CycleCapacity(s)));
  }

  // ----- a change of service keeps the invariant -----

  lemma RebasedRowOk(bs: seq<Box>, s: Service, cycle: nat, cycles: nat, points: int)
    requires Canonical(bs) && InOrder(bs) && CyclesBelow(bs, cycle)
    requires 0 <= points <= Times(cycles, CycleCapacity(s))
    ensures var created := Pour(NewCycles(s, cycle, cycles), points, 0);
            var all := Retired(bs) + created;
            && RowOk(all, cycle + cycles, s.id, s.pointValue)
            && SumOf(all, LiveFilled) == points && SumOf(all, LiveSpent) == 0
            && SumOf(all, Unspent) == SumOf(created, Unspent)
            && (cycles == 0 ==> AllRetired(all))
  {
    hide Pour, Canonical, RowOk, SumOf, Retired;
    var rs, cs := Retired(bs), NewCycles(s, cycle, cycles);
    RetiredRowOk(bs, cycle, s.id, s.pointValue);
    assert Sized(rs) && AllRetired(rs) by {
      CanonicalIsSized(bs);
      RetiredFacts(bs);
    }
    NothingLive(rs);
    CyclesRowOk(rs, s, cycle, cycles);
    assert Canonical(rs + cs) by { RowIsCanonical(rs + cs, cycle + cycles, s.id, s.pointValue); }
    PouringMoreIsCanonical(rs + cs, points);
    PouredRowOk(rs + cs, cycle + cycles, s.id, s.pointValue, points, 0);
    PourConcat(rs, cs, points, 0);
    assert Pour(rs + cs, points, 0) == rs + Pour(cs, points, 0);
    SumConcat(rs, Pour(cs, points, 0), Unspent);
    assert cycles == 0 ==> cs == [];
  }

  lemma CanonicalIsSized(bs: seq<Box>)
    requires Canonical(bs)
    ensures Sized(bs)
  {
  }

  lemma RowIsCanonical(bs: seq<Box>, cycle: nat, service: nat, price: int)
    requires RowOk(bs, cycle, service, price)
    ensures Canonical(bs)
  {
  }

  lemma SumWhen(condition: bool, e: Entry, f: Entry -> int)
    ensures SumOf(When(condition, e), f) == if condition then f(e) else 0
  {
  }

  lemma RebaseEntrySums(a: Account, s: Service, reason: Reason, completed: int, incomplete: int, split: Split)
    requires a.reference.Some?
    ensures var es := RebaseEntries(a, s, reason, completed, incomplete, split);
            && SumOf(es, GrantedValue) == 0 && SumOf(es, RedeemedValue) == 0
            && SumOf(es, PointsDelta)
              == (if 0 < completed then -SumOf(BoxesOf(a.shelf.boxes, a.reference.value.id), Unspent) else 0)
               + (if 0 < incomplete then -SumOf(BoxesOf(a.shelf.boxes, a.reference.value.id), OpenFilled) else 0)
               + (if 0 < split.points then split.points else 0)
  {
    var former := a.reference.value.id;
    var bs := BoxesOf(a.shelf.boxes, former);
    var e1 := Entry(ConvertedToWallet, former, -SumOf(bs, Unspent), completed, CompletedOf(reason));
    var e2 := Entry(ServiceRebase, former, -SumOf(bs, OpenFilled), -incomplete, OldIncompleteOf(reason));
    var e3 := Entry(ServiceRebase, s.id, split.points, split.points * s.pointValue, NewIncompleteOf(reason));
    var e4 := Entry(ConvertedToWallet, former, 0, split.remainder, RemainderOf(reason));
    FourSums(0 < completed, e1, 0 < incomplete, e2, 0 < split.points, e3, 0 < split.remainder, e4, GrantedValue);
    FourSums(0 < completed, e1, 0 < incomplete, e2, 0 < split.points, e3, 0 < split.remainder, e4, RedeemedValue);
    FourSums(0 < completed, e1, 0 < incomplete, e2, 0 < split.points, e3, 0 < split.remainder, e4, PointsDelta);
  }

  lemma FourSums(c1: bool, e1: Entry, c2: bool, e2: Entry, c3: bool, e3: Entry, c4: bool, e4: Entry, f: Entry -> int)
    ensures SumOf(When(c1, e1) + When(c2, e2) + When(c3, e3) + When(c4, e4), f)
         == (if c1 then f(e1) else 0) + (if c2 then f(e2) else 0)
          + (if c3 then f(e3) else 0) + (if c4 then f(e4) else 0)
  {
    SumConcat(When(c1, e1) + When(c2, e2) + When(c3, e3), When(c4, e4), f);
    SumConcat(When(c1, e1) + When(c2, e2), When(c3, e3), f);
    SumConcat(When(c1, e1), When(c2, e2), f);
    SumWhen(c1, e1, f);
    SumWhen(c2, e2, f);
    SumWhen(c3, e3, f);
    SumWhen(c4, e4, f);
  }

  lemma BonusRowSum(rows: seq<Row>, b1: int, x: int, k1: Key, b2: int, y: int, k2: Key, at: int)
    requires 0 <= x && 0 <= y && k1.RebaseCash? && k2.RebaseRemainder?
    ensures SumOf(rows + BonusRow(b1, x, k1, at) + BonusRow(b2, y, k2, at), RebasePaid)
         == SumOf(rows, RebasePaid) + x + y
  {
    SumConcat(rows + BonusRow(b1, x, k1, at), BonusRow(b2, y, k2, at), RebasePaid);
    SumConcat(rows, BonusRow(b1, x, k1, at), RebasePaid);
  }

  /** A positive price leaves no point without value. */
  lemma NoValueNoPoints(price: int, points: int)
    requires 0 < price && 0 <= points && price * points == 0
    ensures points == 0
  {
  }

  lemma RebaseKeepsInv(a: Account, s: Service, route: Route, at: int, prices: map<nat, int>)
    requires Inv(a, prices) && a.reference.Some? && a.reference.value.id != s.id && Priced(prices, s)
    requires Rebased(a, s, Reason(route, a.id, s.id, a.shelf.nextCycle), at).Some?
    ensures var reason := Reason(route, a.id, s.id, a.shelf.nextCycle);
            var b := Rebased(a, s, reason, at).value;
            Inv(b, prices) && PastIsKept(a, b) && Past(b, reason)
  {
    hide Pour, Times, Rebased, Canonical, RowOk, NewCycles, RebaseEntries, BonusRow, Retired, SumOf;
    var reason := Reason(route, a.id, s.id, a.shelf.nextCycle);
    var b := Rebased(a, s, reason, at).value;
    var completed, incomplete, split, cycles := RebasedParts(a, s, route, at, prices);
    RebasedRowOk(a.shelf.boxes, s, a.shelf.nextCycle, cycles, split.points);
    assert BoxesOk(b) by { RebasedBoxesOk(a, b, s); }
    assert PointsBalance(b) && ValueBalances(b) by {
      RebasedBalances(a, b, s, reason, completed, incomplete, split, at, prices);
    }
    assert RowsOk(b) && EntriesOk(b) && UniqueEntries(b.ledger) && PastIsKept(a, b) && Past(b, reason) by {
      RebasedKeys(a, b, s, route, completed, incomplete, split, cycles, at, prices);
    }
  }

  /** The main lemma about a change of service. Value is conserved exactly: what the live
      boxes were worth is the cash paid out plus what the new live boxes are worth, and the
      cash beyond the completed value is less than one point unit at the new price. */
  lemma RebaseConserves(a: Account, s: Service, route: Route, at: int, prices: map<nat, int>)
    requires Inv(a, prices) && a.reference.Some? && a.reference.value.id != s.id && Priced(prices, s)
    requires Rebased(a, s, Reason(route, a.id, s.id, a.shelf.nextCycle), at).Some?
    ensures var b := Rebased(a, s, Reason(route, a.id, s.id, a.shelf.nextCycle), at).value;
            var cash := b.book.balance - a.book.balance;
            && LiveValue(a) == cash + LiveValue(b)
            && 0 <= cash - SumOf(a.shelf.boxes, CompletedValue) < s.pointValue
            && b.reference == Some(s)
            && a.shelf.nextCycle <= b.shelf.nextCycle
            && |a.shelf.boxes| <= |b.shelf.boxes|
            && (forall i :: 0 <= i < |a.shelf.boxes| ==> b.shelf.boxes[i] == Retire(a.shelf.boxes[i]))
  {
    hide Pour, Times, Rebased, Canonical, RowOk, NewCycles, RebaseEntries, BonusRow, Inv, CyclesNeeded;
    var b := Rebased(a, s, Reason(route, a.id, s.id, a.shelf.nextCycle), at).value;
    var completed, incomplete, split, cycles := RebasedParts(a, s, route, at, prices);
    var bs := a.shelf.boxes;
    RebaseKeepsInv(a, s, route, at, prices);
    assert LiveValue(b) == split.points * s.pointValue by {
      LiveValueIsPriced(b, prices);
      InvRow(a, prices);
      RebasedRowOk(bs, s, a.shelf.nextCycle, cycles, split.points);
    }
    InvRow(a, prices);
    RetiredFacts(bs);
  }

  lemma InvRow(a: Account, prices: map<nat, int>)
    requires Inv(a, prices)
    ensures Canonical(a.shelf.boxes) && Sized(a.shelf.boxes)
    ensures InOrder(a.shelf.boxes) && CyclesBelow(a.shelf.boxes, a.shelf.nextCycle)
  {
  }

  lemma RebasedBoxesOk(a: Account, b: Account, s: Service)
    requires b.reference == Some(s) && b.liquid == SumOf(b.shelf.boxes, Unspent)
    requires RowOk(b.shelf.boxes, b.shelf.nextCycle, s.id, s.pointValue)
    ensures BoxesOk(b)
  {
  }

  lemma RebasedBalances(a: Account, b: Account, s: Service, reason: Reason, completed: int, incomplete: int,
                        split: Split, at: int, prices: map<nat, int>)
    requires Inv(a, prices) && a.reference.Some? && b.reference == Some(s)
    requires completed == SumOf(a.shelf.boxes, CompletedValue) && incomplete == SumOf(a.shelf.boxes, IncompleteValue)
    requires 0 <= completed && 0 <= incomplete && 0 <= split.points && 0 <= split.remainder
    requires incomplete == split.points * s.pointValue + split.remainder
    requires Outstanding(b.shelf.boxes) == split.points
    requires b.ledger == a.ledger + RebaseEntries(a, s, reason, completed, incomplete, split)
    requires b.book.rows == a.book.rows + BonusRow(a.book.balance, completed, RebaseCash(reason), at)
                 + BonusRow(a.book.balance + completed, split.remainder, Key.RebaseRemainder(reason), at)
    ensures PointsBalance(b) && ValueBalances(b)
  {
    hide RebaseEntries, BonusRow, Inv, SumOf, Outstanding;
    var bs, es := a.shelf.boxes, RebaseEntries(a, s, reason, completed, incomplete, split);
    assert PointsBalance(b) by { RebasedPoints(a, s, reason, completed, incomplete, split, prices); }
    assert ValueBalances(b) by {
      RebaseEntrySums(a, s, reason, completed, incomplete, split);
      SumConcat(a.ledger, es, GrantedValue);
      SumConcat(a.ledger, es, RedeemedValue);
      BonusRowSum(a.book.rows, a.book.balance, completed, RebaseCash(reason),
                  a.book.balance + completed, split.remainder, Key.RebaseRemainder(reason), at);
      LiveValueIsPriced(a, prices);
      InvBalances(a, prices);
    }
  }

  lemma InvBalances(a: Account, prices: map<nat, int>)
    requires Inv(a, prices)
    ensures PointsBalance(a) && ValueBalances(a)
  {
  }

  lemma RebasedPoints(a: Account, s: Service, reason: Reason, completed: int, incomplete: int, split: Split,
                      prices: map<nat, int>)
    requires Inv(a, prices) && a.reference.Some? && 0 <= split.points
    requires completed == SumOf(a.shelf.boxes, CompletedValue) && incomplete == SumOf(a.shelf.boxes, IncompleteValue)
    requires 0 <= completed && 0 <= incomplete
    ensures SumOf(a.ledger + RebaseEntries(a, s, reason, completed, incomplete, split), PointsDelta) == split.points
  {
    hide RebaseEntries;
    var bs, es := a.shelf.boxes, RebaseEntries(a, s, reason, completed, incomplete, split);
    LiveValueIsPriced(a, prices);
    OnlyTheseAreLive(a, prices);
    UnspentIsDifference(bs);
    if completed == 0 { NoValueNoPoints(PriceOf(a), SumOf(bs, Unspent)); }
    if incomplete == 0 { NoValueNoPoints(PriceOf(a), SumOf(bs, OpenFilled)); }
    RebaseEntrySums(a, s, reason, completed, incomplete, split);
    SumConcat(a.ledger, es, PointsDelta);
  }

  /** Reasons that were past stay past, and the one just used has become past. */
  lemma RebasedPast(a: Account, b: Account, s: Service, completed: int, incomplete: int, split: Split, cycles: nat,
                    reason: Reason, prices: map<nat, int>)
    requires Inv(a, prices) && a.reference.Some? && a.reference.value.id != s.id
    requires incomplete == SumOf(a.shelf.boxes, IncompleteValue)
    requires incomplete == split.points * s.pointValue + split.remainder && 0 <= split.points && 0 <= split.remainder
    requires 0 < s.pointValue && (cycles == 0 ==> split.points == 0 && 0 < split.remainder)
    requires b.reference == Some(s) && b.shelf.nextCycle == a.shelf.nextCycle + cycles
    requires cycles == 0 ==> AllRetired(b.shelf.boxes)
    requires Past(a, reason) || (reason.service == s.id && reason.cycle == a.shelf.nextCycle)
    ensures Past(b, reason)
  {
    if cycles == 0 && reason.cycle == a.shelf.nextCycle && Past(a, reason) {
      NothingLive(a.shelf.boxes);
      LiveValueIsPriced(a, prices);
      assert false;
    }
  }

  lemma RebasedKeys(a: Account, b: Account, s: Service, route: Route, completed: int, incomplete: int, split: Split,
                    cycles: nat, at: int, prices: map<nat, int>)
    requires Inv(a, prices) && a.reference.Some? && a.reference.value.id != s.id
    requires incomplete == SumOf(a.shelf.boxes, IncompleteValue)
    requires incomplete == split.points * s.pointValue + split.remainder && 0 <= split.points && 0 <= split.remainder
    requires 0 < s.pointValue && (cycles == 0 ==> split.points == 0 && 0 < split.remainder)
    requires b.reference == Some(s) && b.shelf.nextCycle == a.shelf.nextCycle + cycles
    requires cycles == 0 ==> AllRetired(b.shelf.boxes)
    requires b.id == a.id && b.awards == a.awards && b.redemptions == a.redemptions
    requires var reason := Reason(route, a.id, s.id, a.shelf.nextCycle);
             && b.ledger == a.ledger + RebaseEntries(a, s, reason, completed, incomplete, split)
             && b.book.rows == a.book.rows + BonusRow(a.book.balance, completed, RebaseCash(reason), at)
                  + BonusRow(a.book.balance + completed, split.remainder, Key.RebaseRemainder(reason), at)
    ensures RowsOk(b) && EntriesOk(b) && UniqueEntries(b.ledger)
    ensures PastIsKept(a, b) && Past(b, Reason(route, a.id, s.id, a.shelf.nextCycle))
  {
    hide SumOf, Inv, BonusRow, RebaseEntries;
    var reason := Reason(route, a.id, s.id, a.shelf.nextCycle);
    var es := RebaseEntries(a, s, reason, completed, incomplete, split);
    KeysAreInInv(a, prices);
    ReasonIsFresh(a, s, route);
    RebaseEntryKeys(a, s, reason, completed, incomplete, split);
    BonusRowKeys(a.book.balance, completed, RebaseCash(reason), at);
    BonusRowKeys(a.book.balance + completed, split.remainder, Key.RebaseRemainder(reason), at);
    forall past | Past(a, past) || past == reason ensures Past(b, past) {
      RebasedPast(a, b, s, completed, incomplete, split, cycles, past, prices);
    }
    RebasedRows(a, b, reason, BonusRow(a.book.balance, completed, RebaseCash(reason), at)
                              + BonusRow(a.book.balance + completed, split.remainder, Key.RebaseRemainder(reason), at));
    RebasedEntries(a, b, reason, es);
  }

  lemma RebaseEntryKeys(a: Account, s: Service, reason: Reason, completed: int, incomplete: int, split: Split)
    requires a.reference.Some?
    ensures var es := RebaseEntries(a, s, reason, completed, incomplete, split);
            UniqueEntries(es) && forall e :: e in es ==> EntryReason(e) == Some(reason)
  {
    hide SumOf, BoxesOf, When, UniqueEntries;
    var former := a.reference.value.id;
    var bs := BoxesOf(a.shelf.boxes, former);
    FourUnique(
      0 < completed, Entry(ConvertedToWallet, former, -SumOf(bs, Unspent), completed, CompletedOf(reason)),
      0 < incomplete, Entry(ServiceRebase, former, -SumOf(bs, OpenFilled), -incomplete, OldIncompleteOf(reason)),
      0 < split.points, Entry(ServiceRebase, s.id, split.points, split.points * s.pointValue, NewIncompleteOf(reason)),
      0 < split.remainder, Entry(ConvertedToWallet, former, 0, split.remainder, RemainderOf(reason)));
  }

  lemma FourUnique(c1: bool, e1: Entry, c2: bool, e2: Entry, c3: bool, e3: Entry, c4: bool, e4: Entry)
    requires e1.key != e2.key && e1.key != e3.key && e1.key != e4.key
    requires e2.key != e3.key && e2.key != e4.key && e3.key != e4.key
    ensures var es := When(c1, e1) + When(c2, e2) + When(c3, e3) + When(c4, e4);
            UniqueEntries(es) && forall e :: e in es ==> e == e1 || e == e2 || e == e3 || e == e4
  {
    hide When;
    WhenKey(c1, e1);
    WhenKey(c2, e2);
    WhenKey(c3, e3);
    WhenKey(c4, e4);
    UniqueConcat(When(c1, e1), When(c2, e2));
    UniqueConcat(When(c1, e1) + When(c2, e2), When(c3, e3));
    UniqueConcat(When(c1, e1) + When(c2, e2) + When(c3, e3), When(c4, e4));
  }

  lemma WhenKey(condition: bool, e: Entry)
    ensures UniqueEntries(When(condition, e)) && forall x :: x in When(condition, e) ==> x == e
  {
  }

  lemma BonusRowKeys(balance: int, amount: int, key: Key, at: int)
    ensures forall r :: r in BonusRow(balance, amount, key, at) ==> r.key == Some(key)
  {
  }

  lemma RebasedRows(a: Account, b: Account, reason: Reason, rows: seq<Row>)
    requires RowsOk(a) && reason.account == a.id && b.id == a.id && b.awards == a.awards
    requires forall past :: Past(a, past) || past == reason ==> Past(b, past)
    requires b.book.rows == a.book.rows + rows
    requires forall r :: r in rows ==>
      r.key == Some(RebaseCash(reason)) || r.key == Some(Key.RebaseRemainder(reason))
    ensures RowsOk(b)
  {
  }

  lemma RebasedEntries(a: Account, b: Account, reason: Reason, es: seq<Entry>)
    requires EntriesOk(a) && UniqueEntries(a.ledger) && reason.account == a.id
    requires b.id == a.id && b.awards == a.awards && b.redemptions == a.redemptions
    requires forall past :: Past(a, past) || past == reason ==> Past(b, past)
    requires b.ledger == a.ledger + es && UniqueEntries(es)
    requires forall e :: e in es ==> EntryReason(e) == Some(reason)
    requires forall e :: e in a.ledger ==> EntryReason(e) != Some(reason)
    ensures EntriesOk(b) && UniqueEntries(b.ledger)
  {
  }

  lemma UniqueConcat(xs: seq<Entry>, ys: seq<Entry>)
    requires UniqueEntries(xs) && UniqueEntries(ys)
    requires forall x, y :: x in xs && y in ys ==> x.key != y.key
    ensures UniqueEntries(xs + ys)
  {
  }

  // ----- the other steps keep the invariant -----

  lemma KeysAreKept(a: Account, b: Account)
    requires RowsOk(a) && EntriesOk(a) && PastIsKept(a, b) && b.id == a.id
    requires b.book == a.book && b.ledger == a.ledger && b.awards == a.awards && b.redemptions == a.redemptions
    ensures RowsOk(b) && EntriesOk(b)
  {
  }

  /** The first reference service of an account. */
  lemma FirstReferenceKeepsInv(a: Account, s: Service, reason: Reason, at: int, prices: map<nat, int>)
    requires Inv(a, prices) && a.reference.None? && Priced(prices, s) && Rebased(a, s, reason, at).Some?
    ensures Inv(Rebased(a, s, reason, at).value, prices)
    ensures PastIsKept(a, Rebased(a, s, reason, at).value)
    ensures a.shelf.nextCycle < Rebased(a, s, reason, at).value.shelf.nextCycle
    ensures LiveValue(Rebased(a, s, reason, at).value) == LiveValue(a) == 0
  {
    hide Pour, Canonical, SumOf, NewCycle, RowOk;
    var b := Rebased(a, s, reason, at).value;
    InvRow(a, prices);
    NothingLive(a.shelf.boxes);
    assert RowOk(a.shelf.boxes, a.shelf.nextCycle, s.id, s.pointValue) by {
      RetiredIsRow(a.shelf.boxes, a.shelf.nextCycle, s.id, s.pointValue);
    }
    CyclesRowOk(a.shelf.boxes, s, a.shelf.nextCycle, 1);
    assert NewCycles(s, a.shelf.nextCycle, 1) == NewCycle(s, a.shelf.nextCycle);
    assert SumOf(b.shelf.boxes, Unspent) == 0 && Outstanding(b.shelf.boxes) == 0 && BoxesOk(b) by {
      FirstRowIsEmpty(b.shelf.boxes, b.shelf.nextCycle, s.id, s.pointValue);
    }
    KeysAreKept(a, b);
    LiveValueIsPriced(a, prices);
    LiveValueIsPriced(b, prices);
  }

  lemma RetiredIsRow(bs: seq<Box>, cycle: nat, service: nat, price: int)
    requires AllRetired(bs) && Canonical(bs) && InOrder(bs) && CyclesBelow(bs, cycle)
    ensures RowOk(bs, cycle, service, price)
  {
  }

  lemma FirstRowIsEmpty(bs: seq<Box>, cycle: nat, service: nat, price: int)
    requires RowOk(bs, cycle, service, price) && SumOf(bs, LiveFilled) == SumOf(bs, LiveSpent) == 0
    ensures SumOf(bs, Unspent) == 0 && Outstanding(bs) == 0
  {
    UnspentIsDifference(bs);
    PouredBoxes(bs, SumOf(bs, LiveFilled), SumOf(bs, LiveSpent));
    SumNonNegative(bs, Unspent);
    SumNonNegative(bs, OpenFilled);
  }

  /** Any outcome of a rebase keeps the invariant and leaves the account on the service. */
  lemma RebasedKeepsInv(a: Account, s: Service, route: Route, at: int, prices: map<nat, int>)
    requires Inv(a, prices) && Priced(prices, s)
    requires Rebased(a, s, Reason(route, a.id, s.id, a.shelf.nextCycle), at).Some?
    ensures var b := Rebased(a, s, Reason(route, a.id, s.id, a.shelf.nextCycle), at).value;
            && Inv(b, prices) && PastIsKept(a, b)
            && b.reference.Some? && b.reference.value.id == s.id && b.reference.value.pointValue == s.pointValue
            && b.id == a.id && b.awards == a.awards && b.redemptions == a.redemptions && b.nonce == a.nonce
            && LiveValue(a) == b.book.balance - a.book.balance + LiveValue(b)
  {
    hide Inv, Pour, SumOf, CyclesNeeded, SplitValue, PayOut, RebaseEntries, LiveValue, NewCycles;
    var reason := Reason(route, a.id, s.id, a.shelf.nextCycle);
    if a.reference.None? {
      FirstReferenceKeepsInv(a, s, reason, at, prices);
    } else if a.reference.value.id == s.id {
      InvPrice(a, prices);
    } else {
      RebaseKeepsInv(a, s, route, at, prices);
      RebaseConserves(a, s, route, at, prices);
    }
  }

  lemma InvPrice(a: Account, prices: map<nat, int>)
    requires Inv(a, prices) && a.reference.Some?
    ensures Priced(prices, a.reference.value) && 0 < a.reference.value.pointValue
  {
  }

  lemma AwardKeepsInv(a: Account, award: nat, record: Award, prices: map<nat, int>)
    requires Inv(a, prices) && record.claims == AwardOf(a, award).claims + 1
    ensures Inv(a.(awards := a.awards[award := record]), prices)
    ensures forall e :: e in a.ledger ==> e.key != ClaimOf(award, record.claims)
    ensures Unused(a.book, AchievementCash(award, record.claims))
  {
    hide SumOf, Canonical, InOrder, CyclesBelow, RetiredFirst;
  }

  /** A row that is no rebase credit and names a claim already counted. */
  lemma ClaimRowKeepsInv(a: Account, award: nat, claim: nat, amount: int, at: int, prices: map<nat, int>)
    requires Inv(a, prices) && claim <= AwardOf(a, award).claims
    requires Unused(a.book, AchievementCash(award, claim))
    requires PayOut(a.book, amount, AchievementCash(award, claim), at).Some?
    ensures Inv(a.(book := PayOut(a.book, amount, AchievementCash(award, claim), at).value), prices)
  {
    hide Canonical, InOrder, CyclesBelow, RetiredFirst, PayOut;
    var key := AchievementCash(award, claim);
    FreshBonusPosts(a.book, amount, key, at);
    var rows := BonusRow(a.book.balance, amount, key, at);
    SumConcat(a.book.rows, rows, RebasePaid);
    assert SumOf(rows, RebasePaid) == 0;
  }

  /** Placing newly granted points. */
  lemma PointsKeepInv(a: Account, s: Service, points: int, lifetime: int, key: EntryKey, prices: map<nat, int>)
    requires Inv(a, prices) && a.reference.Some? && a.reference.value.id == s.id && Priced(prices, s)
    requires 0 < points && CanPlace(a.shelf, s, points)
    requires key.ClaimOf? && key.claim <= AwardOf(a, key.award).claims
    requires forall e :: e in a.ledger ==> e.key != key
    ensures var b := WithPoints(a, s, points).(lifetime := lifetime,
                  ledger := a.ledger + [Entry(AchievementBonus, s.id, points, points * s.pointValue, key)]);
            Inv(b, prices) && PastIsKept(a, b)
  {
    hide Pour, Canonical, RowOk, SumOf, Placed;
    var entry := Entry(AchievementBonus, s.id, points, points * s.pointValue, key);
    var b := WithPoints(a, s, points).(lifetime := lifetime, ledger := a.ledger + [entry]);
    InvRow(a, prices);
    InvPrice(a, prices);
    PlacedMoves(a, s, points, prices);
    SumPush(a.ledger, entry, PointsDelta);
    SumPush(a.ledger, entry, GrantedValue);
    SumPush(a.ledger, entry, RedeemedValue);
    Distribute(s.pointValue, Outstanding(a.shelf.boxes), points);
    assert PastIsKept(a, b);
    UniqueConcat(a.ledger, [entry]);
  }

  lemma PlacedMoves(a: Account, s: Service, points: int, prices: map<nat, int>)
    requires Inv(a, prices) && a.reference.Some? && a.reference.value.id == s.id && Priced(prices, s)
    requires 0 < points && CanPlace(a.shelf, s, points)
    ensures BoxesOk(WithPoints(a, s, points))
    ensures Outstanding(Placed(a.shelf, s, points).boxes) == Outstanding(a.shelf.boxes) + points
    ensures a.shelf.nextCycle <= Placed(a.shelf, s, points).nextCycle
    ensures AllRetired(a.shelf.boxes) ==> a.shelf.nextCycle < Placed(a.shelf, s, points).nextCycle
  {
    hide Pour, Canonical;
    PlacedRowOk(a.shelf, s, points);
    PlacedIsCanonical(a.shelf, s, points);
    CyclesAreEmpty(s, 0, 0);
    if AllRetired(a.shelf.boxes) {
      InvRow(a, prices);
      NothingLive(a.shelf.boxes);
    }
  }

  /** Spending redeemable points. */
  lemma RedeemKeepsInv(a: Account, s: Service, request: nat, nonce: nat, prices: map<nat, int>)
    requires Inv(a, prices) && a.reference.Some? && a.reference.value.id == s.id && Priced(prices, s)
    requires 0 < s.freePoints <= a.liquid
    ensures var b := a.(liquid := a.liquid - s.freePoints,
                        shelf := a.shelf.(boxes := Drawn(a.shelf.boxes, s.freePoints)),
                        redemptions := a.redemptions + [request], nonce := nonce,
                        ledger := a.ledger + [Entry(Redeemed, s.id, -s.freePoints, -(s.freePoints * s.pointValue),
                                                    RedemptionOf(|a.redemptions|))]);
            Inv(b, prices) && PastIsKept(a, b)
  {
    hide Pour, Canonical, RowOk, SumOf, Drawn;
    var entry := Entry(Redeemed, s.id, -s.freePoints, -(s.freePoints * s.pointValue), RedemptionOf(|a.redemptions|));
    var b := a.(liquid := a.liquid - s.freePoints, shelf := a.shelf.(boxes := Drawn(a.shelf.boxes, s.freePoints)),
                redemptions := a.redemptions + [request], nonce := nonce, ledger := a.ledger + [entry]);
    DrawnMoves(a, s, b, prices);
    InvPrice(a, prices);
    SumPush(a.ledger, entry, PointsDelta);
    SumPush(a.ledger, entry, GrantedValue);
    SumPush(a.ledger, entry, RedeemedValue);
    Distribute(s.pointValue, Outstanding(a.shelf.boxes), -s.freePoints);
    UniqueConcat(a.ledger, [entry]);
    assert PastIsKept(a, b);
  }

  lemma DrawnMoves(a: Account, s: Service, b: Account, prices: map<nat, int>)
    requires Inv(a, prices) && a.reference.Some? && a.reference.value.id == s.id && Priced(prices, s)
    requires 0 < s.freePoints <= a.liquid
    requires b.liquid == a.liquid - s.freePoints && b.reference == a.reference
    requires b.shelf == a.shelf.(boxes := Drawn(a.shelf.boxes, s.freePoints))
    ensures BoxesOk(b) && Outstanding(b.shelf.boxes) == Outstanding(a.shelf.boxes) - s.freePoints
    ensures !AllRetired(a.shelf.boxes)
  {
    hide Pour, Canonical;
    var bs := a.shelf.boxes;
    InvRow(a, prices);
    DrawnIsCanonical(bs, s.freePoints);
    PouredRowOk(bs, a.shelf.nextCycle, s.id, s.pointValue, SumOf(bs, LiveFilled), SumOf(bs, LiveSpent) + s.freePoints);
    if AllRetired(bs) { NothingLive(bs); }
  }

  // ----- runs -----

  datatype Op =
    | Claim(award: nat, badge: Achievement, metrics: map<nat, int>, program: Option<Service>, at: int)
    | Switch(service: Service, at: int)
    | Redeem(request: nat, program: Option<Service>, ready: bool, nonce: nat, at: int)
    | Elsewhere(book: Book)

  /** Other wallet activity: it appends rows that belong to no rebase and to no achievement. */
  ghost predicate IsElsewhere(b: Book, c: Book) {
    && |b.rows| <= |c.rows| && c.rows[..|b.rows|] == b.rows
    && (forall r :: r in c.rows[|b.rows|..] ==>
          RowReason(r).None? && (r.key.Some? ==> !r.key.value.AchievementCash?))
  }

  /** The outcome of a step; None when it raises. */
  ghost function Outcome(a: Account, op: Op): Option<Account> {
    match op
    case Claim(award, badge, metrics, program, at) => Claimed(a, award, badge, metrics, program, at)
    case Switch(service, at) => Switched(a, service, at)
    case Redeem(request, program, ready, nonce, at) => RedeemedBy(a, request, program, ready, nonce, at)
    case Elsewhere(book) => if IsElsewhere(a.book, book) then Some(a.(book := book)) else None
  }

  /** A step that raises leaves the account as it was. */
  ghost function Step(a: Account, op: Op): Account {
    match Outcome(a, op)
    case Some(b) => b
    case None => a
  }

  ghost function Run(a: Account, ops: seq<Op>): Account
    decreases |ops|
  {
    if ops == [] then a else Run(Step(a, ops[0]), ops[1..])
  }

  /** Every service that a step names has its one recorded price. */
  ghost predicate OpPriced(prices: map<nat, int>, op: Op) {
    match op
    case Claim(_, _, _, program, _) => program.Some? ==> Priced(prices, program.value)
    case Switch(service, _) => Priced(prices, service)
    case Redeem(_, program, _, _, _) => program.Some? ==> Priced(prices, program.value)
    case Elsewhere(_) => true
  }

  function NewAccount(id: nat, nonce: nat, book: Book): Account {
    Account(id, None, 0, 0, Shelf([], 1), [], map[], [], nonce, book)
  }

  lemma NewAccountIsOk(id: nat, nonce: nat, book: Book, prices: map<nat, int>)
    requires forall r :: r in book.rows ==> RowReason(r).None? && (r.key.Some? ==> !r.key.value.AchievementCash?)
    ensures Inv(NewAccount(id, nonce, book), prices)
  {
    SumSame(book.rows, RebasePaid, (r: Row) => 0);
    ZeroSum(book.rows);
  }

  lemma {:induction false} ZeroSum(rows: seq<Row>)
    requires forall r :: r in rows ==> RowReason(r).None?
    ensures SumOf(rows, RebasePaid) == 0
  {
    if rows != [] { ZeroSum(rows[1..]); }
  }

  lemma ClaimKeepsInv(a: Account, award: nat, badge: Achievement, metrics: map<nat, int>, program: Option<Service>, at: int,
                      prices: map<nat, int>)
    requires Inv(a, prices) && (program.Some? ==> Priced(prices, program.value))
    requires Claimed(a, award, badge, metrics, program, at).Some?
    ensures Inv(Claimed(a, award, badge, metrics, program, at).value, prices)
    ensures PastIsKept(a, Claimed(a, award, badge, metrics, program, at).value)
  {
    hide Inv, WithPoints, Rebased, PayOut;
    var n := AwardOf(a, award).claims + 1;
    var record := Award(n, !badge.repeatable);
    if badge.points == 0 {
      AwardKeepsInv(a, award, record, prices);
      var b := a.(awards := a.awards[award := record]);
      ClaimRowKeepsInv(b, award, n, badge.amount * CENT, at, prices);
    } else {
      var s, points := program.value, badge.points * POINT;
      RebasedKeepsInv(a, s, OnAchievement, at, prices);
      var b := Rebased(a, s, Reason(OnAchievement, a.id, s.id, a.shelf.nextCycle), at).value;
      AwardKeepsInv(b, award, record, prices);
      var c := b.(awards := b.awards[award := record]);
      WithPointsFrame(b, c, s, points);
      PointsKeepInv(c, s, points, c.lifetime + points, ClaimOf(award, n), prices);
      var entry := Entry(AchievementBonus, s.id, points, points * s.pointValue, ClaimOf(award, n));
      var d := WithPoints(c, s, points).(lifetime := c.lifetime + points, ledger := c.ledger + [entry]);
      ClaimRowKeepsInv(d, award, n, badge.amount * CENT, at, prices);
      forall past | Past(a, past) ensures Past(Claimed(a, award, badge, metrics, program, at).value, past) {
        assert Past(b, past) && Past(c, past) && Past(d, past);
      }
    }
  }

  lemma WithPointsFrame(b: Account, c: Account, s: Service, points: int)
    requires c == b.(awards := c.awards)
    ensures WithPoints(c, s, points) == WithPoints(b, s, points).(awards := c.awards)
    ensures var w := WithPoints(b, s, points);
            w.book == b.book && w.ledger == b.ledger && w.awards == b.awards && w.lifetime == b.lifetime
  {
  }

  lemma ElsewhereKeepsInv(a: Account, book: Book, prices: map<nat, int>)
    requires Inv(a, prices) && IsElsewhere(a.book, book)
    ensures Inv(a.(book := book), prices)
  {
    hide Canonical, InOrder, CyclesBelow, RetiredFirst;
    var more := book.rows[|a.book.rows|..];
    assert book.rows == a.book.rows + more;
    SumConcat(a.book.rows, more, RebasePaid);
    ZeroSum(more);
  }

  lemma StepKeepsInv(a: Account, op: Op, prices: map<nat, int>)
    requires Inv(a, prices) && OpPriced(prices, op)
    ensures Inv(Step(a, op), prices) && PastIsKept(a, Step(a, op))
  {
    hide Inv, Rebased, Claimed, Drawn;
    if Outcome(a, op).Some? {
      match op
      case Claim(award, badge, metrics, program, at) =>
        ClaimKeepsInv(a, award, badge, metrics, program, at, prices);
      case Switch(service, at) =>
        RebasedKeepsInv(a, service, BrandWide, at, prices);
      case Redeem(request, program, ready, nonce, at) =>
        if request !in a.redemptions {
          var s := program.value;
          RebasedKeepsInv(a, s, OnRedemption, at, prices);
          var b := Rebased(a, s, Reason(OnRedemption, a.id, s.id, a.shelf.nextCycle), at).value;
          RedeemKeepsInv(b, s, request, nonce, prices);
        }
      case Elsewhere(book) =>
        ElsewhereKeepsInv(a, book, prices);
    }
  }

  /** Over every run of claims, changes of service, redemptions and other wallet activity:
      the boxes stay in canonical order and belong to the reference service, the point ledger
      replays to the points outstanding, the liquid points are what completed boxes offer,
      value is conserved and no key is ever repeated. */
  lemma {:induction false} RunKeepsInv(a: Account, ops: seq<Op>, prices: map<nat, int>)
    requires Inv(a, prices) && forall op :: op in ops ==> OpPriced(prices, op)
    ensures Inv(Run(a, ops), prices) && PastIsKept(a, Run(a, ops))
    decreases |ops|
  {
    hide Inv, Step;
    if ops != [] {
      StepKeepsInv(a, ops[0], prices);
      RunKeepsInv(Step(a, ops[0]), ops[1..], prices);
    }
  }

  /** The same in plain terms, for a new account: what the point ledger, the liquid points
      and the wallet say about the boxes after any run. */
  lemma ReachableAccounts(id: nat, nonce: nat, book: Book, ops: seq<Op>, prices: map<nat, int>)
    requires forall r :: r in book.rows ==> RowReason(r).None? && (r.key.Some? ==> !r.key.value.AchievementCash?)
    requires forall op :: op in ops ==> OpPriced(prices, op)
    ensures var a := Run(NewAccount(id, nonce, book), ops);
            && SumOf(a.ledger, PointsDelta) == Outstanding(a.shelf.boxes)
            && a.liquid == SumOf(a.shelf.boxes, CompleteCapacity) - SumOf(a.shelf.boxes, LiveSpent)
            && SumOf(a.ledger, GrantedValue)
               == LiveValue(a) + SumOf(a.book.rows, RebasePaid) + SumOf(a.ledger, RedeemedValue)
            && OnlyReferenceIsLive(a)
            && UniqueEntries(a.ledger)
  {
    var a := Run(NewAccount(id, nonce, book), ops);
    NewAccountIsOk(id, nonce, book, prices);
    RunKeepsInv(NewAccount(id, nonce, book), ops, prices);
    LiveValueIsPriced(a, prices);
    InvRow(a, prices);
    UnspentIsDifference(a.shelf.boxes);
  }

  /** Two changes of one account into the same service never share a reason: whatever
      happened in between, the cycle counter has grown, even when the first change created
      no box at all. */
  lemma ReasonsNeverRepeat(a: Account, s: Service, route: Route, at: int, ops: seq<Op>, prices: map<nat, int>)
    requires Inv(a, prices) && Priced(prices, s) && forall op :: op in ops ==> OpPriced(prices, op)
    requires a.reference.Some? ==> a.reference.value.id != s.id
    requires Rebased(a, s, Reason(route, a.id, s.id, a.shelf.nextCycle), at).Some?
    ensures var b := Rebased(a, s, Reason(route, a.id, s.id, a.shelf.nextCycle), at).value;
            var c := Run(b, ops);
            c.reference.Some? && c.reference.value.id != s.id ==> a.shelf.nextCycle < c.shelf.nextCycle
  {
    hide Inv, Rebased, Run;
    var reason := Reason(route, a.id, s.id, a.shelf.nextCycle);
    var b := Rebased(a, s, reason, at).value;
    if a.reference.None? {
      FirstReferenceKeepsInv(a, s, reason, at, prices);
    } else {
      RebaseKeepsInv(a, s, route, at, prices);
    }
    assert Past(b, reason);
    RunKeepsInv(b, ops, prices);
    assert Past(Run(b, ops), reason);
  }

  // ----- all accounts of a brand -----

  function Worth(a: Account): int {
    LiveValue(a) + a.book.balance
  }

  /** An administrator's change of the reference service moves every account of the brand, and
      makes or loses value for none of them. */
  lemma {:induction false} BrandConserves(before: seq<Account>, after: seq<Account>, s: Service, at: int,
                                          prices: map<nat, int>)
    requires |after| == |before| && Priced(prices, s)
    requires forall i :: 0 <= i < |before| ==> Inv(before[i], prices) && Switched(before[i], s, at) == Some(after[i])
    ensures SumOf(after, Worth) == SumOf(before, Worth)
    ensures forall i :: 0 <= i < |after| ==>
      && Inv(after[i], prices) && Worth(after[i]) == Worth(before[i])
      && after[i].reference.Some? && after[i].reference.value.id == s.id
  {
    hide Inv, Rebased, LiveValue, IsValidReference;
    if before != [] {
      var a := before[0];
      RebasedKeepsInv(a, s, BrandWide, at, prices);
      assert forall i :: 0 <= i < |before| - 1 ==> before[1..][i] == before[i + 1] && after[1..][i] == after[i + 1];
      BrandConserves(before[1..], after[1..], s, at, prices);
      assert forall i :: 0 < i < |after| ==> after[i] == after[1..][i - 1] && before[i] == before[1..][i - 1];
    }
  }

  // ----- lifetime points -----

  function GrantedPoints(e: Entry): int {
    if e.kind.AchievementBonus? then e.points else 0
  }

  /** The lifetime counter moves by exactly the points that the ledger says were granted. */
  ghost predicate LifetimeFollows(a: Account, b: Account) {
    b.lifetime - SumOf(b.ledger, GrantedPoints) == a.lifetime - SumOf(a.ledger, GrantedPoints)
  }

  lemma RebaseEntriesGrantNothing(a: Account, s: Service, reason: Reason, completed: int, incomplete: int, split: Split)
    requires a.reference.Some?
    ensures SumOf(RebaseEntries(a, s, reason, completed, incomplete, split), GrantedPoints) == 0
  {
    var former := a.reference.value.id;
    var bs := BoxesOf(a.shelf.boxes, former);
    FourSums(0 < completed, Entry(ConvertedToWallet, former, -SumOf(bs, Unspent), completed, CompletedOf(reason)),
             0 < incomplete, Entry(ServiceRebase, former, -SumOf(bs, OpenFilled), -incomplete, OldIncompleteOf(reason)),
             0 < split.points, Entry(ServiceRebase, s.id, split.points, split.points * s.pointValue, NewIncompleteOf(reason)),
             0 < split.remainder, Entry(ConvertedToWallet, former, 0, split.remainder, RemainderOf(reason)), GrantedPoints);
  }

  lemma RebasedLedger(a: Account, s: Service, reason: Reason, at: int)
    requires Rebased(a, s, reason, at).Some? && a.reference.Some? && a.reference.value.id != s.id
    ensures 0 <= SumOf(BoxesOf(a.shelf.boxes, a.reference.value.id), IncompleteValue)
    ensures var theirs := BoxesOf(a.shelf.boxes, a.reference.value.id);
            var completed, incomplete := SumOf(theirs, CompletedValue), SumOf(theirs, IncompleteValue);
            var split, b := SplitValue(incomplete, s.pointValue), Rebased(a, s, reason, at).value;
            && split.Some? && b.lifetime == a.lifetime
            && b.ledger == a.ledger + RebaseEntries(a, s, reason, completed, incomplete, split.value)
  {
    hide Pour, SumOf, PayOut, SplitValue, NewCycles, CyclesNeeded, RetiredOf, BoxesOf, When;
  }

  lemma RebaseGrantsNothing(a: Account, s: Service, reason: Reason, at: int)
    requires Rebased(a, s, reason, at).Some?
    ensures LifetimeFollows(a, Rebased(a, s, reason, at).value)
  {
    hide SumOf, SplitValue, RebaseEntries;
    if a.reference.Some? && a.reference.value.id != s.id {
      hide Rebased;
      RebasedLedger(a, s, reason, at);
      var theirs := BoxesOf(a.shelf.boxes, a.reference.value.id);
      var completed, incomplete := SumOf(theirs, CompletedValue), SumOf(theirs, IncompleteValue);
      var split := SplitValue(incomplete, s.pointValue).value;
      RebaseEntriesGrantNothing(a, s, reason, completed, incomplete, split);
      SumConcat(a.ledger, RebaseEntries(a, s, reason, completed, incomplete, split), GrantedPoints);
    }
  }

  lemma LifetimeOfStep(a: Account, op: Op)
    ensures LifetimeFollows(a, Step(a, op))
  {
    hide SumOf, Rebased, PayOut, Placed, Drawn;
    if Outcome(a, op).Some? {
      match op
      case Claim(award, badge, metrics, program, at) =>
        if badge.points != 0 { LifetimeOfGrant(a, award, badge.points * POINT, program, at); }
      case Switch(service, at) => RebaseGrantsNothing(a, service, Reason(BrandWide, a.id, service.id, a.shelf.nextCycle), at);
      case Redeem(request, program, ready, nonce, at) =>
        if request !in a.redemptions {
          var s := program.value;
          var reason := Reason(OnRedemption, a.id, s.id, a.shelf.nextCycle);
          RebaseGrantsNothing(a, s, reason, at);
          var b := Rebased(a, s, reason, at).value;
          SumPush(b.ledger, Entry(Redeemed, s.id, -s.freePoints, -(s.freePoints * s.pointValue),
                                  RedemptionOf(|b.redemptions|)), GrantedPoints);
        }
      case Elsewhere(_) =>
    }
  }

  lemma LifetimeOfGrant(a: Account, award: nat, points: nat, program: Option<Service>, at: int)
    requires PointsGranted(a, award, points, program, at).Some?
    ensures LifetimeFollows(a, PointsGranted(a, award, points, program, at).value)
  {
    hide SumOf, Rebased, Placed;
    var s := program.value;
    var reason := Reason(OnAchievement, a.id, s.id, a.shelf.nextCycle);
    RebaseGrantsNothing(a, s, reason, at);
    var c := WithPoints(Rebased(a, s, reason, at).value, s, points);
    SumPush(c.ledger, Entry(AchievementBonus, s.id, points, points * s.pointValue,
                            ClaimOf(award, AwardOf(a, award).claims + 1)), GrantedPoints);
  }

  // ----- once only -----

  /** What was claimed for good or redeemed is remembered. */
  ghost predicate Remembers(a: Account, b: Account, award: nat) {
    && (AwardOf(a, award).claimed ==> AwardOf(b, award).claimed)
    && (forall request :: request in a.redemptions ==> request in b.redemptions)
  }

  lemma RebasedRemembers(a: Account, s: Service, reason: Reason, at: int, award: nat)
    requires Rebased(a, s, reason, at).Some?
    ensures Rebased(a, s, reason, at).value.awards == a.awards
    ensures Rebased(a, s, reason, at).value.redemptions == a.redemptions
  {
    hide SumOf, Pour, PayOut, SplitValue, NewCycles, CyclesNeeded, RetiredOf, BoxesOf, When;
  }

  /** A step that does not turn the award into a repeatable one. */
  predicate KeepsAward(op: Op, award: nat) {
    op.Claim? && op.award == award ==> !op.badge.repeatable
  }

  lemma StepRemembers(a: Account, op: Op, award: nat)
    requires KeepsAward(op, award)
    ensures Remembers(a, Step(a, op), award)
  {
    hide SumOf, Rebased, PayOut, Placed, Drawn;
    if Outcome(a, op).Some? {
      match op
      case Claim(other, badge, metrics, program, at) =>
        if badge.points != 0 {
          RebasedRemembers(a, program.value, Reason(OnAchievement, a.id, program.value.id, a.shelf.nextCycle), at, award);
        }
      case Switch(service, at) =>
        RebasedRemembers(a, service, Reason(BrandWide, a.id, service.id, a.shelf.nextCycle), at, award);
      case Redeem(request, program, ready, nonce, at) =>
        if request !in a.redemptions {
          RebasedRemembers(a, program.value, Reason(OnRedemption, a.id, program.value.id, a.shelf.nextCycle), at, award);
        }
      case Elsewhere(_) =>
    }
  }

  lemma {:induction false} RunRemembers(a: Account, ops: seq<Op>, award: nat)
    requires forall op :: op in ops ==> KeepsAward(op, award)
    ensures Remembers(a, Run(a, ops), award)
    decreases |ops|
  {
    hide Step;
    if ops != [] {
      StepRemembers(a, ops[0], award);
      RunRemembers(Step(a, ops[0]), ops[1..], award);
    }
  }

  /** An achievement that can not be repeated is granted once: after a claim that went
      through, every later claim of it raises, whatever happened in between. */
  lemma ClaimedOnce(a: Account, op: Op, ops: seq<Op>, again: Op)
    requires op.Claim? && !op.badge.repeatable && Outcome(a, op).Some?
    requires forall o :: o in ops ==> KeepsAward(o, op.award)
    requires again.Claim? && again.award == op.award && !again.badge.repeatable
    ensures Outcome(Run(Step(a, op), ops), again).None?
  {
    hide SumOf, Rebased, PayOut, Placed, Run;
    assert AwardOf(Step(a, op), op.award).claimed;
    RunRemembers(Step(a, op), ops, op.award);
  }

  /** Every claim needs progress of its own: the claims of a repeatable achievement made so far,
      this one included, are covered by each metric. */
  lemma ClaimNeedsProgress(a: Account, award: nat, badge: Achievement, metrics: map<nat, int>, program: Option<Service>,
                           at: int)
    requires Claimed(a, award, badge, metrics, program, at).Some?
    ensures var b := Claimed(a, award, badge, metrics, program, at).value;
            && AwardOf(b, award).claims == AwardOf(a, award).claims + 1
            && forall key :: key in badge.targets ==>
                 && key in metrics && 0 < badge.targets[key] <= metrics[key]
                 && (badge.repeatable ==> badge.targets[key] * AwardOf(b, award).claims <= metrics[key])
  {
    hide SumOf, Rebased, PayOut, Placed;
    var n := AwardOf(a, award).claims + 1;
    forall key | key in badge.targets ensures badge.targets[key] <= metrics[key] {
      if badge.repeatable { MulLe(1, n, badge.targets[key]); }
    }
  }

  /** A request is redeemed once: asked again later, it answers without any change. */
  lemma RedeemedOnce(a: Account, op: Op, ops: seq<Op>, again: Op)
    requires op.Redeem? && Outcome(a, op).Some? && again.Redeem? && again.request == op.request
    ensures Step(Run(Step(a, op), ops), again) == Run(Step(a, op), ops)
  {
    hide SumOf, Rebased, PayOut, Drawn, Run;
    assert op.request in Step(a, op).redemptions;
    RunKeepsRedemptions(Step(a, op), ops, op.request);
  }

  lemma {:induction false} RunKeepsRedemptions(a: Account, ops: seq<Op>, request: nat)
    requires request in a.redemptions
    ensures request in Run(a, ops).redemptions
    decreases |ops|
  {
    hide Step;
    if ops != [] {
      StepKeepsRedemptions(a, ops[0], request);
      RunKeepsRedemptions(Step(a, ops[0]), ops[1..], request);
    }
  }

  lemma StepKeepsRedemptions(a: Account, op: Op, request: nat)
    requires request in a.redemptions
    ensures request in Step(a, op).redemptions
  {
    var otherAward := if op.Claim? then op.award + 1 else 0;
    StepRemembers(a, op, otherAward);
  }
}
