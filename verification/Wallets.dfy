/** The wallet ledger: every change of a balance is one appended row.
    Money is counted in units of the tenth decimal place; one cent is CENT units. */
module Wallets {
  import opened Prelude

  const CENT := 1_0000_0000
  const DAY := 86_400

  datatype Kind = Deposit | Withdrawal | Payment | Refund | Bonus | ReferralReward | AdminAdjustment

  predicate IsDebit(kind: Kind) {
    kind.Withdrawal? || kind.Payment?
  }

  /** What a rebase was asked for; its parts are the parts of the reason string. */
  datatype Route = BrandWide | OnRedemption | OnAchievement
  datatype Reason = Reason(route: Route, account: nat, service: nat, cycle: nat)

  /** The idempotency keys, one constructor for each family of key strings. */
  datatype Key =
    | RebaseCash(reason: Reason)
    | RebaseRemainder(reason: Reason)
    | AchievementCash(award: nat, claim: nat)
    | OrderPayment(order: nat, confirmed: int)
    | PaymentRefund(payment: nat)
    | TopUp(payment: nat)
    | StakeEntry(challenge: nat)
    | StakeRelease(challenge: nat)
    | ChallengePrize(challenge: nat)
    | PillCash(rewards: seq<nat>)
    | CouponCash(usage: nat)
    | Outside(name: nat)

  /** `discount` is the reward-funded part that a wallet payment records for its order. */
  datatype Row = Row(kind: Kind, amount: int, before: int, after: int, key: Option<Key>, at: int,
                     discount: int)

  datatype Book = Book(balance: int, stake: int, active: bool, frozen: bool, rows: seq<Row>)

  datatype WalletError = InvalidAmount | KeyReused | Unavailable | Insufficient | DailyLimit | MonthlyLimit

  /** Spending limits, and the instant at which the calendar month of an instant began. */
  datatype Policy = Policy(daily: Option<int>, monthly: Option<int>, monthStart: int -> int)

  function DayStart(t: int): int {
    t - t % DAY
  }

  /** What replacing the clock fields of an instant by their first values yields: an
      instant that is not later, and that never moves backwards. */
  ghost predicate IsPeriod(start: int -> int) {
    && (forall t :: start(t) <= t)
    && (forall s, t :: s <= t ==> start(s) <= start(t))
  }

  lemma DayStartIsPeriod()
    ensures IsPeriod(DayStart)
  {
  }

  function Max(x: int, y: int): int {
    if x < y then y else x
  }

  function Min(x: int, y: int): int {
    if x < y then x else y
  }

  // ----- columns of a row that the services add up -----

  function Signed(r: Row): int {
    if IsDebit(r.kind) then -r.amount else r.amount
  }

  function Debited(r: Row): int {
    if IsDebit(r.kind) then r.amount else 0
  }

  function RewardCash(r: Row): int {
    if r.kind.ReferralReward? then r.amount else 0
  }

  function Discount(r: Row): int {
    r.discount
  }

  function DebitedSince(start: int): Row -> int {
    (r: Row) => if start <= r.at then Debited(r) else 0
  }

  /** The debits of the period that contains the instant t. */
  function DebitedWithin(start: int -> int, t: int): Row -> int {
    (r: Row) => if start(r.at) == start(t) then Debited(r) else 0
  }

  // ----- the operations -----

  function Find(rows: seq<Row>, key: Key): (found: Option<Row>)
    ensures found.None? <==> forall r :: r in rows ==> r.key != Some(key)
    ensures found.Some? ==> found.value in rows && found.value.key == Some(key)
  {
    if rows == [] then None
    else if rows[|rows| - 1].key == Some(key) then Some(rows[|rows| - 1])
    else Find(rows[..|rows| - 1], key)
  }

  /** Creating a row: the save handlers compute the new balance and store it. */
  function Post(b: Book, kind: Kind, amount: int, key: Option<Key>, at: int, discount: int): Book {
    var after := if IsDebit(kind) then b.balance - amount else b.balance + amount;
    b.(balance := after, rows := b.rows + [Row(kind, amount, b.balance, after, key, at, discount)])
  }

  function Usable(b: Book): bool {
    b.active && !b.frozen
  }

  function Credit(b: Book, kind: Kind, amount: int, key: Option<Key>, at: int): Result<Book, WalletError> {
    if amount <= 0 || IsDebit(kind) then Err(InvalidAmount) else
      var existing := if key.Some? then Find(b.rows, key.value) else None;
      if existing.Some? then
        if existing.value.amount != amount then Err(KeyReused) else Ok(b)
      else if !Usable(b) then Err(Unavailable)
      else Ok(Post(b, kind, amount, key, at, 0))
  }

  function Exceeds(limit: Option<int>, spent: int, amount: int): bool {
    limit.Some? && limit.value < spent + amount
  }

  /** `now` is when the limits are read and `at` when the row is stamped. */
  function Debit(b: Book, policy: Policy, kind: Kind, amount: int, key: Option<Key>, discount: int,
                 now: int, at: int): Result<Book, WalletError>
  {
    if amount <= 0 || !IsDebit(kind) then Err(InvalidAmount) else
      var existing := if key.Some? then Find(b.rows, key.value) else None;
      if existing.Some? then
        if existing.value.amount != amount then Err(KeyReused) else Ok(b)
      else if !Usable(b) then Err(Unavailable)
      else if b.balance < amount then Err(Insufficient)
      else if Exceeds(policy.daily, SumOf(b.rows, DebitedSince(DayStart(now))), amount) then Err(DailyLimit)
      else if Exceeds(policy.monthly, SumOf(b.rows, DebitedSince(policy.monthStart(now))), amount)
        then Err(MonthlyLimit)
      else Ok(Post(b, kind, amount, key, at, discount))
  }

  function Narrow(available: int, limit: Option<int>, spent: int): int {
    if limit.Some? then Min(available, Max(limit.value - spent, 0)) else available
  }

  /** The cash a purchase may use at the instant `now`, cut to whole cents. */
  function Spendable(b: Book, policy: Policy, now: int): (cash: int)
    ensures 0 <= cash && cash % CENT == 0
  {
    if !Usable(b) then 0 else
      var day := Narrow(Max(b.balance, 0), policy.daily, SumOf(b.rows, DebitedSince(DayStart(now))));
      var month := Narrow(day, policy.monthly, SumOf(b.rows, DebitedSince(policy.monthStart(now))));
      month / CENT * CENT
  }

  // ----- the invariant of a ledger -----

  /** Each row continues from the balance its predecessors left. */
  ghost predicate Chained(b: Book) {
    && b.balance == SumOf(b.rows, Signed)
    && (forall i :: 0 <= i < |b.rows| ==>
          && b.rows[i].before == SumOf(b.rows[..i], Signed)
          && b.rows[i].after == b.rows[i].before + Signed(b.rows[i]))
  }

  ghost predicate UniqueKeys(rows: seq<Row>) {
    forall i, j :: 0 <= i < j < |rows| && rows[i].key.Some? ==> rows[i].key != rows[j].key
  }

  ghost predicate Within(rows: seq<Row>, start: int -> int, limit: Option<int>) {
    limit.Some? ==> forall t :: SumOf(rows, DebitedWithin(start, t)) <= Max(limit.value, 0)
  }

  /** The reward-funded discounts handed out so far are backed by reward cash received,
      and by money that really left the wallet. */
  ghost predicate Backed(rows: seq<Row>) {
    && SumOf(rows, Discount) <= SumOf(rows, RewardCash)
    && SumOf(rows, Discount) <= SumOf(rows, Debited)
  }

  ghost predicate Sound(b: Book, policy: Policy) {
    && Chained(b)
    && 0 <= b.balance
    && UniqueKeys(b.rows)
    && (forall r :: r in b.rows ==> 0 < r.amount && 0 <= r.discount)
    && IsPeriod(policy.monthStart)
    && Within(b.rows, DayStart, policy.daily)
    && Within(b.rows, policy.monthStart, policy.monthly)
    && Backed(b.rows)
  }

  /** Consecutive rows meet: where one row ends the next begins. */
  lemma RowsMeet(b: Book, i: nat)
    requires Chained(b) && i + 1 < |b.rows|
    ensures b.rows[i].after == b.rows[i + 1].before
    ensures b.rows[|b.rows| - 1].after == b.balance
  {
    assert b.rows[..i + 1] == b.rows[..i] + [b.rows[i]];
    SumPush(b.rows[..i], b.rows[i], Signed);
    var n := |b.rows| - 1;
    assert b.rows == b.rows[..n] + [b.rows[n]];
    SumPush(b.rows[..n], b.rows[n], Signed);
  }

  lemma PostKeepsChain(b: Book, kind: Kind, amount: int, key: Option<Key>, at: int, discount: int)
    requires Chained(b)
    ensures Chained(Post(b, kind, amount, key, at, discount))
  {
    var c := Post(b, kind, amount, key, at, discount);
    var n := |b.rows|;
    SumPush(b.rows, c.rows[n], Signed);
    forall i | 0 <= i < |c.rows|
      ensures c.rows[i].before == SumOf(c.rows[..i], Signed)
      ensures c.rows[i].after == c.rows[i].before + Signed(c.rows[i])
    {
      assert c.rows[..i] == b.rows[..i];
      if i == n { assert b.rows[..i] == b.rows; }
    }
  }

  lemma PostKeepsKeys(rows: seq<Row>, row: Row)
    requires UniqueKeys(rows)
    requires row.key.Some? ==> Find(rows, row.key.value).None?
    ensures UniqueKeys(rows + [row])
  {
  }

  /** What was spent in the period of t is counted by a limit check in that period
      or in an earlier one. */
  lemma PeriodIsCounted(rows: seq<Row>, start: int -> int, now: int, t: int)
    requires IsPeriod(start) && start(now) <= start(t)
    requires forall r :: r in rows ==> 0 < r.amount
    ensures SumOf(rows, DebitedWithin(start, t)) <= SumOf(rows, DebitedSince(start(now)))
  {
  }

  /** A debit checked at `now` and stamped at `at` keeps a limit in every period, also
      when a period ends between the two instants. */
  lemma DebitKeepsLimit(rows: seq<Row>, start: int -> int, limit: Option<int>, row: Row, now: int)
    requires IsPeriod(start) && Within(rows, start, limit)
    requires forall r :: r in rows ==> 0 < r.amount
    requires IsDebit(row.kind) && now <= row.at
    requires !Exceeds(limit, SumOf(rows, DebitedSince(start(now))), row.amount)
    ensures Within(rows + [row], start, limit)
  {
    if limit.Some? {
      assert start(now) <= start(row.at);
      forall t ensures SumOf(rows + [row], DebitedWithin(start, t)) <= Max(limit.value, 0) {
        SumPush(rows, row, DebitedWithin(start, t));
        assert SumOf(rows, DebitedWithin(start, t)) <= Max(limit.value, 0);
        if start(row.at) == start(t) {
          PeriodIsCounted(rows, start, now, t);
          assert DebitedWithin(start, t)(row) == row.amount;
        } else {
          assert DebitedWithin(start, t)(row) == 0;
        }
      }
    }
  }

  lemma DebitKeepsDayLimit(rows: seq<Row>, limit: Option<int>, row: Row, now: int)
    requires Within(rows, DayStart, limit)
    requires forall r :: r in rows ==> 0 < r.amount
    requires IsDebit(row.kind) && now <= row.at
    requires !Exceeds(limit, SumOf(rows, DebitedSince(DayStart(now))), row.amount)
    ensures Within(rows + [row], DayStart, limit)
  {
    DayStartIsPeriod();
    DebitKeepsLimit(rows, DayStart, limit, row, now);
  }

  lemma CreditKeepsLimit(rows: seq<Row>, start: int -> int, limit: Option<int>, row: Row)
    requires Within(rows, start, limit) && !IsDebit(row.kind)
    ensures Within(rows + [row], start, limit)
  {
    if limit.Some? {
      forall t ensures SumOf(rows + [row], DebitedWithin(start, t)) <= Max(limit.value, 0) {
        SumPush(rows, row, DebitedWithin(start, t));
        assert Debited(row) == 0;
        assert DebitedWithin(start, t)(row) == if start(row.at) == start(t) then Debited(row) else 0;
      }
    }
  }

  /** What a wallet payment may book as reward-funded: at most what rewards brought in
      beyond everything ever debited. */
  function ProvableRewardCash(b: Book): int {
    Min(Max(SumOf(b.rows, RewardCash) - SumOf(b.rows, Debited), 0), Max(b.balance, 0))
  }

  lemma PostKeepsBacking(rows: seq<Row>, row: Row)
    requires Backed(rows) && 0 < row.amount && 0 <= row.discount
    requires !IsDebit(row.kind) ==> row.discount == 0
    requires IsDebit(row.kind) ==> row.discount <= row.amount
    requires row.discount <= Max(SumOf(rows, RewardCash) - SumOf(rows, Debited), 0)
    ensures Backed(rows + [row])
  {
    SumPush(rows, row, Discount);
    SumPush(rows, row, RewardCash);
    SumPush(rows, row, Debited);
  }

  /** Posting a credit, whether or not the wallet is usable, keeps the ledger sound. */
  lemma CreditRowKeepsSound(b: Book, policy: Policy, kind: Kind, amount: int, key: Option<Key>, at: int)
    requires Sound(b, policy) && 0 < amount && !IsDebit(kind)
    requires key.Some? ==> Find(b.rows, key.value).None?
    ensures Sound(Post(b, kind, amount, key, at, 0), policy)
  {
    var c := Post(b, kind, amount, key, at, 0);
    var row := c.rows[|b.rows|];
    assert Chained(c) by { PostKeepsChain(b, kind, amount, key, at, 0); }
    assert UniqueKeys(c.rows) by { PostKeepsKeys(b.rows, row); }
    assert Within(c.rows, DayStart, policy.daily) by { CreditKeepsLimit(b.rows, DayStart, policy.daily, row); }
    assert Within(c.rows, policy.monthStart, policy.monthly) by {
      CreditKeepsLimit(b.rows, policy.monthStart, policy.monthly, row);
    }
    assert Backed(c.rows) by { PostKeepsBacking(b.rows, row); }
  }

  lemma CreditKeepsSound(b: Book, policy: Policy, kind: Kind, amount: int, key: Option<Key>, at: int)
    requires Sound(b, policy)
    ensures Credit(b, kind, amount, key, at).Ok? ==> Sound(Credit(b, kind, amount, key, at).value, policy)
  {
    var c := Credit(b, kind, amount, key, at);
    if c.Ok? && c.value != b { CreditRowKeepsSound(b, policy, kind, amount, key, at); }
  }

  lemma DebitKeepsSound(b: Book, policy: Policy, kind: Kind, amount: int, key: Option<Key>, discount: int,
                        now: int, at: int)
    requires Sound(b, policy) && now <= at
    requires 0 <= discount <= Min(ProvableRewardCash(b), amount)
    ensures var c := Debit(b, policy, kind, amount, key, discount, now, at);
            c.Ok? ==> Sound(c.value, policy)
  {
    var c := Debit(b, policy, kind, amount, key, discount, now, at);
    if c.Ok? && c.value != b {
      DebitRowKeepsSound(b, policy, kind, amount, key, discount, now, at);
    }
  }

  lemma DebitRowKeepsSound(b: Book, policy: Policy, kind: Kind, amount: int, key: Option<Key>, discount: int,
                           now: int, at: int)
    requires Sound(b, policy) && now <= at && IsDebit(kind) && 0 < amount <= b.balance
    requires 0 <= discount <= amount && discount <= ProvableRewardCash(b)
    requires key.Some? ==> Find(b.rows, key.value).None?
    requires !Exceeds(policy.daily, SumOf(b.rows, DebitedSince(DayStart(now))), amount)
    requires !Exceeds(policy.monthly, SumOf(b.rows, DebitedSince(policy.monthStart(now))), amount)
    ensures Sound(Post(b, kind, amount, key, at, discount), policy)
  {
    var c := Post(b, kind, amount, key, at, discount);
    var row := c.rows[|b.rows|];
    assert Chained(c) by { PostKeepsChain(b, kind, amount, key, at, discount); }
    assert UniqueKeys(c.rows) by { PostKeepsKeys(b.rows, row); }
    assert Within(c.rows, DayStart, policy.daily) by { DebitKeepsDayLimit(b.rows, policy.daily, row, now); }
    assert Within(c.rows, policy.monthStart, policy.monthly) by {
      DebitKeepsLimit(b.rows, policy.monthStart, policy.monthly, row, now);
    }
    assert Backed(c.rows) by { DebitKeepsBacking(b, row); }
  }

  lemma DebitKeepsBacking(b: Book, row: Row)
    requires Backed(b.rows) && IsDebit(row.kind) && 0 < row.amount
    requires 0 <= row.discount <= row.amount && row.discount <= ProvableRewardCash(b)
    ensures Backed(b.rows + [row])
  {
    PostKeepsBacking(b.rows, row);
  }

  /** Less is spent since a later instant. */
  lemma SpentShrinks(rows: seq<Row>, start: int, later: int)
    requires start <= later
    requires forall r :: r in rows ==> 0 < r.amount
    ensures SumOf(rows, DebitedSince(later)) <= SumOf(rows, DebitedSince(start))
  {
  }

  /** An amount taken from the spendable cash is accepted by a debit made any time later,
      even when a day or a month ends in between. */
  lemma SpendableIsAccepted(b: Book, policy: Policy, amount: int, key: Key, discount: int,
                            read: int, now: int, at: int)
    requires Sound(b, policy) && read <= now
    requires 0 < amount <= Spendable(b, policy, read)
    requires Find(b.rows, key).None?
    ensures Debit(b, policy, Payment, amount, Some(key), discount, now, at)
         == Ok(Post(b, Payment, amount, Some(key), at, discount))
  {
    DayStartIsPeriod();
    assert policy.monthStart(read) <= policy.monthStart(now);
    SpentShrinks(b.rows, DayStart(read), DayStart(now));
    SpentShrinks(b.rows, policy.monthStart(read), policy.monthStart(now));
  }

  /** The spendable cash is exact: a payment of whole cents with a new key is accepted at the
      same instant if and only if it is not more. */
  lemma SpendableIsExact(b: Book, policy: Policy, amount: int, key: Key, discount: int, now: int, at: int)
    requires Sound(b, policy) && 0 < amount && amount % CENT == 0 && Find(b.rows, key).None?
    ensures Debit(b, policy, Payment, amount, Some(key), discount, now, at).Ok? <==> amount <= Spendable(b, policy, now)
  {
    hide Sound, SumOf;
    if amount <= Spendable(b, policy, now) {
      SpendableIsAccepted(b, policy, amount, key, discount, now, now, at);
    } else if Debit(b, policy, Payment, amount, Some(key), discount, now, at).Ok? {
      var month := Narrow(Narrow(Max(b.balance, 0), policy.daily, SumOf(b.rows, DebitedSince(DayStart(now)))),
                          policy.monthly, SumOf(b.rows, DebitedSince(policy.monthStart(now))));
      assert amount <= month;
      WholeCentsFit(amount, month);
      assert false;
    }
  }

  lemma WholeCentsFit(amount: int, available: int)
    requires amount <= available && amount % CENT == 0
    ensures amount <= available / CENT * CENT
  {
  }

  // ----- exactly which credits and debits are made -----

  /** The row that already carries the key, if one does, has this amount. */
  predicate KeyMatches(rows: seq<Row>, key: Key, amount: int) {
    forall r :: r in rows && r.key == Some(key) ==> r.amount == amount
  }

  predicate KeyUsed(rows: seq<Row>, key: Key) {
    exists r :: r in rows && r.key == Some(key)
  }

  lemma FoundIsTheOne(rows: seq<Row>, key: Key, amount: int)
    requires UniqueKeys(rows)
    ensures Find(rows, key).Some? <==> KeyUsed(rows, key)
    ensures Find(rows, key).Some? ==> (Find(rows, key).value.amount == amount <==> KeyMatches(rows, key, amount))
  {
    if Find(rows, key).Some? {
      var found := Find(rows, key).value;
      forall r | r in rows && r.key == Some(key) ensures r == found {
        var i :| 0 <= i < |rows| && rows[i] == r;
        var j :| 0 <= j < |rows| && rows[j] == found;
        assert !(i < j) && !(j < i);
      }
    }
  }

  /** A credit is accepted exactly for a positive amount of a credit kind, when its key is in
      the ledger with this amount, or is new and the wallet can be used; only a new one is a
      row. */
  lemma CreditGoesThrough(b: Book, kind: Kind, amount: int, key: Key, at: int)
    requires UniqueKeys(b.rows)
    ensures var c := Credit(b, kind, amount, Some(key), at);
            && (c.Ok? <==> 0 < amount && !kind.Withdrawal? && !kind.Payment? && KeyMatches(b.rows, key, amount)
                           && (KeyUsed(b.rows, key) || (b.active && !b.frozen)))
            && (c.Ok? ==> c.value.balance == b.balance + if KeyUsed(b.rows, key) then 0 else amount)
            && (c.Ok? ==> |c.value.rows| == |b.rows| + if KeyUsed(b.rows, key) then 0 else 1)
  {
    FoundIsTheOne(b.rows, key, amount);
  }

  /** What was debited since an instant. */
  function Spent(rows: seq<Row>, start: int): int {
    SumOf(rows, (r: Row) => if start <= r.at && (r.kind.Withdrawal? || r.kind.Payment?) then r.amount else 0)
  }

  lemma SpentIs(rows: seq<Row>, start: int)
    ensures Spent(rows, start) == SumOf(rows, DebitedSince(start))
  {
    SumSame(rows, (r: Row) => if start <= r.at && (r.kind.Withdrawal? || r.kind.Payment?) then r.amount else 0,
            DebitedSince(start));
  }

  /** Days are 86400 seconds long and begin at midnight. */
  lemma DayBegins(t: int)
    ensures DayStart(t) % 86_400 == 0 && DayStart(t) <= t < DayStart(t) + 86_400
  {
    assert t == t / 86_400 * 86_400 + t % 86_400;
  }

  /** A debit is accepted exactly for a positive amount of a debit kind, when its key is in the
      ledger with this amount, or is new, the wallet can be used and holds it, and neither the
      day's nor the month's limit is passed. */
  lemma DebitGoesThrough(b: Book, policy: Policy, kind: Kind, amount: int, key: Key, discount: int, now: int, at: int)
    requires UniqueKeys(b.rows)
    ensures var c := Debit(b, policy, kind, amount, Some(key), discount, now, at);
            && (c.Ok? <==> (
                  && 0 < amount && (kind.Withdrawal? || kind.Payment?) && KeyMatches(b.rows, key, amount)
                  && (|| KeyUsed(b.rows, key)
                      || (&& b.active && !b.frozen && amount <= b.balance
                          && (policy.daily.Some? ==> Spent(b.rows, DayStart(now)) + amount <= policy.daily.value)
                          && (policy.monthly.Some? ==>
                                Spent(b.rows, policy.monthStart(now)) + amount <= policy.monthly.value)))))
            && (c.Ok? ==> c.value.balance == b.balance - if KeyUsed(b.rows, key) then 0 else amount)
  {
    hide SumOf, Spent;
    FoundIsTheOne(b.rows, key, amount);
    SpentIs(b.rows, DayStart(now));
    SpentIs(b.rows, policy.monthStart(now));
  }

  // ----- the wallet object -----

  class Wallet {
    const policy: Policy
    var balance: int
    var stake: int
    var active: bool
    var frozen: bool
    var rows: seq<Row>

    constructor (policy: Policy)
      ensures this.policy == policy && Ledger() == Book(0, 0, true, false, [])
    {
      this.policy := policy;
      balance, stake, active, frozen, rows := 0, 0, true, false, [];
    }

    function Ledger(): Book
      reads this
    {
      Book(balance, stake, active, frozen, rows)
    }

    /** Undo everything since `b` was read: the rollback of a transaction. */
    method Restore(b: Book)
      modifies this
      ensures Ledger() == b
    {
      balance, stake, active, frozen, rows := b.balance, b.stake, b.active, b.frozen, b.rows;
    }

    /** Append a row; the save handlers fill in and store the new balance. Earlier rows stay,
        the new one continues from the balance before and ends at the balance after, and a
        chained ledger stays chained. */
    method CreateRow(kind: Kind, amount: int, key: Option<Key>, at: int, discount: int)
      modifies this`balance, this`rows
      ensures Ledger() == Post(old(Ledger()), kind, amount, key, at, discount)
      ensures |rows| == |old(rows)| + 1 && rows[..|old(rows)|] == old(rows)
      ensures rows[|old(rows)|].before == old(balance) && rows[|old(rows)|].after == balance
      ensures balance - old(balance) == Signed(rows[|old(rows)|])
      ensures old(Chained(Ledger())) ==> Chained(Ledger())
    {
      ghost var before := Ledger();
      if Chained(before) { PostKeepsChain(before, kind, amount, key, at, discount); }
      var after := if IsDebit(kind) then balance - amount else balance + amount;
      rows := rows + [Row(kind, amount, balance, after, key, at, discount)];
      balance := after;
    }

    /** A repeated key answers with the old row and changes nothing. */
    method CreditWallet(kind: Kind, amount: int, key: Option<Key>, at: int) returns (error: Option<WalletError>)
      modifies this`balance, this`rows
      ensures match Credit(old(Ledger()), kind, amount, key, at)
              case Ok(after) => error.None? && Ledger() == after
              case Err(e) => error == Some(e) && Ledger() == old(Ledger())
    {
      if amount <= 0 || IsDebit(kind) { return Some(InvalidAmount); }
      if key.Some? {
        var existing := Find(rows, key.value);
        if existing.Some? {
          return if existing.value.amount != amount then Some(KeyReused) else None;
        }
      }
      if !active || frozen { return Some(Unavailable); }
      CreateRow(kind, amount, key, at, 0);
      return None;
    }

    method DebitWallet(kind: Kind, amount: int, key: Option<Key>, discount: int, now: int, at: int)
        returns (error: Option<WalletError>)
      modifies this`balance, this`rows
      ensures match Debit(old(Ledger()), policy, kind, amount, key, discount, now, at)
              case Ok(after) => error.None? && Ledger() == after
              case Err(e) => error == Some(e) && Ledger() == old(Ledger())
    {
      if amount <= 0 || !IsDebit(kind) { return Some(InvalidAmount); }
      if key.Some? {
        var existing := Find(rows, key.value);
        if existing.Some? {
          return if existing.value.amount != amount then Some(KeyReused) else None;
        }
      }
      if !active || frozen { return Some(Unavailable); }
      if balance < amount { return Some(Insufficient); }
      var dailySpent := SumOf(rows, DebitedSince(DayStart(now)));
      var monthlySpent := SumOf(rows, DebitedSince(policy.monthStart(now)));
      if policy.daily.Some? && policy.daily.value < dailySpent + amount { return Some(DailyLimit); }
      if policy.monthly.Some? && policy.monthly.value < monthlySpent + amount { return Some(MonthlyLimit); }
      CreateRow(kind, amount, key, at, discount);
      return None;
    }
  }
}
