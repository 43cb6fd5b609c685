/** Referral challenges: a frozen entry fee, provisional rewards for distinct people, and a
    settlement that pays or cancels them all. Fees and values are in cents. */
module Challenges {
  import opened Prelude
  import opened Decimals
  import opened Wallets

  datatype Stage = Offered | Declined | AwaitingFunds | Active | Succeeded | Failed

  datatype RewardState = Provisional | Processed | Withheld

  /** One referred purchase and its reward of one point. */
  datatype Event = Event(referral: nat, order: nat, value: int, reward: RewardState, cashed: bool)

  datatype Tier = Tier(fee: int, target: nat, active: bool)

  /** `tiered` says that a tier was chosen. */
  datatype Challenge = Challenge(stage: Stage, tiered: bool, entry: int, target: nat, percent: int, join: bool,
                                 starts: int, ends: int, successes: nat, prize: int, events: seq<Event>)

  datatype Program = Program(active: bool, percent: int, days: nat, join: bool)

  /** The challenges of one customer, each identified by its position. */
  datatype Arena = Arena(currency: Currency, challenges: seq<Challenge>, lifetime: int, book: Book)

  /** What the other tables say about a referred purchase: when the referral was created and
      first converted, and whether the person had bought before a given start. */
  datatype Lead = Lead(referral: nat, created: int, converted: Option<int>, boughtBefore: int -> bool)

  // ----- columns -----

  function Stake(currency: Currency): Challenge -> int {
    (c: Challenge) => if c.stage.Active? then Money(c.entry, currency) * CENT else 0
  }

  function Prize(c: Challenge): int {
    c.prize * CENT
  }

  function ProcessedPoints(c: Challenge): int {
    if c.stage.Succeeded? then |c.events| else 0
  }

  function EventValue(e: Event): int {
    e.value
  }

  function StakeFlow(r: Row): int {
    match r.key
    case Some(StakeEntry(_)) => -r.amount
    case Some(StakeRelease(_)) => r.amount
    case _ => 0
  }

  function PrizeFlow(r: Row): int {
    match r.key
    case Some(ChallengePrize(_)) => r.amount
    case _ => 0
  }

  // ----- the operations -----

  /** A customer is offered the challenge of a program. */
  function Offer(s: Arena): Arena {
    s.(challenges := s.challenges + [Challenge(Offered, false, 0, 0, 0, true, 0, 0, 0, 0, [])])
  }

  function Choose(s: Arena, c: nat, program: Program, tier: Tier): Option<Arena> {
    if !program.active || !tier.active || c >= |s.challenges| then None else
    var chosen := s.challenges[c];
    if !chosen.stage.Offered? && !chosen.stage.AwaitingFunds? then None else
    Some(s.(challenges := s.challenges[c := chosen.(tiered := true, entry := tier.fee, target := tier.target,
                                                  percent := program.percent, stage := AwaitingFunds)]))
  }

  /** The positions of the challenges at a stage. */
  function AtStage(challenges: seq<Challenge>, stage: Stage): (found: seq<nat>)
    ensures forall i: nat :: i in found <==> i < |challenges| && challenges[i].stage == stage
  {
    if challenges == [] then [] else
      var n := |challenges| - 1;
      AtStage(challenges[..n], stage) + (if challenges[n].stage == stage then [n] else [])
  }

  /** Declining needs exactly one open offer. */
  function Decline(s: Arena): Option<Arena> {
    var found := AtStage(s.challenges, Offered);
    if |found| != 1 then None else
      assert found[0] in found;
      Some(s.(challenges := s.challenges[found[0] := s.challenges[found[0]].(stage := Declined)]))
  }

  /** Entering the one challenge that awaits funds: the fee leaves the balance and is frozen. */
  function Activate(s: Arena, policy: Policy, program: Program, tierActive: bool, now: int, at: int): Option<Arena> {
    var found := AtStage(s.challenges, AwaitingFunds);
    if |found| != 1 then None else
    assert found[0] in found;
    var c, challenge := found[0], s.challenges[found[0]];
    if !program.active || !challenge.tiered || !tierActive then None else
    if challenge.target <= 0 || challenge.percent <= 0 then None else
    var amount := Money(challenge.entry, s.currency);
    if amount <= 0 then None else
    match Debit(s.book, policy, Kind.Payment, amount * CENT, Some(StakeEntry(c)), 0, now, at)
    case Err(_) => None
    case Ok(book) =>
      Some(s.(book := book.(stake := book.stake + amount * CENT),
              challenges := s.challenges[c := challenge.(stage := Active, join := program.join, starts := at,
                                                         ends := at + program.days * DAY)]))
  }

  /** Unfreeze the entry fee of a challenge and return it to the balance. */
  function Released(b: Book, c: nat, amount: int, at: int): Option<Book> {
    if amount <= 0 then Some(b) else
    if b.stake < amount * CENT then None else
    match Credit(b.(stake := b.stake - amount * CENT), Kind.Refund, amount * CENT, Some(StakeRelease(c)), at)
    case Ok(book) => Some(book)
    case Err(_) => None
  }

  function PayPrize(b: Book, c: nat, amount: int, at: int): Option<Book> {
    if amount <= 0 then Some(b) else
    match Credit(b, ReferralReward, amount * CENT, Some(ChallengePrize(c)), at)
    case Ok(book) => Some(book)
    case Err(_) => None
  }

  function MarkAll(events: seq<Event>, reward: RewardState, cashed: bool): (marked: seq<Event>)
    ensures |marked| == |events|
    ensures forall i :: 0 <= i < |events| ==> marked[i] == events[i].(reward := reward, cashed := cashed)
  {
    if events == [] then [] else
      [events[0].(reward := reward, cashed := cashed)] + MarkAll(events[1..], reward, cashed)
  }

  function PrizeOf(c: Challenge, currency: Currency): int {
    Money(SumOf(c.events, EventValue), currency)
  }

  /** Settle an active challenge: once its target is met, or once its time is over. Settling
      a settled challenge changes nothing. */
  function Settle(s: Arena, c: nat, at: int): Option<Arena> {
    if c >= |s.challenges| then None else
    var challenge := s.challenges[c];
    if challenge.stage.Succeeded? || challenge.stage.Failed? then Some(s) else
    if !challenge.stage.Active? || !challenge.tiered then None else
    var success := challenge.target <= challenge.successes;
    if !success && at < challenge.ends then None else
    match Released(s.book, c, Money(challenge.entry, s.currency), at)
    case None => None
    case Some(released) =>
      if success then
        match PayPrize(released, c, PrizeOf(challenge, s.currency), at)
        case None => None
        case Some(paid) =>
          Some(s.(book := paid, lifetime := s.lifetime + |challenge.events|,
                  challenges := s.challenges[c := challenge.(
                    stage := Succeeded, prize := PrizeOf(challenge, s.currency),
                    events := MarkAll(challenge.events, Processed, true))]))
      else
        Some(s.(book := released,
                challenges := s.challenges[c := challenge.(
                  stage := Failed, prize := 0, events := MarkAll(challenge.events, Withheld, false))]))
  }

  predicate IsRunningAt(c: Challenge, at: int) {
    c.stage.Active? && c.tiered && c.starts <= at <= c.ends
  }

  /** The first challenge that runs at an instant. */
  function FirstRunning(challenges: seq<Challenge>, at: int, from: nat): (found: Option<nat>)
    requires from <= |challenges|
    ensures found.Some? ==>
      && from <= found.value < |challenges|
      && IsRunningAt(challenges[found.value], at)
      && forall c :: from <= c < found.value ==> !IsRunningAt(challenges[c], at)
    ensures found.None? ==> forall c :: from <= c < |challenges| ==> !IsRunningAt(challenges[c], at)
    decreases |challenges| - from
  {
    if from == |challenges| then None
    else if IsRunningAt(challenges[from], at) then Some(from)
    else FirstRunning(challenges, at, from + 1)
  }

  predicate HasOrder(s: Arena, order: nat) {
    exists c, i :: 0 <= c < |s.challenges| && 0 <= i < |s.challenges[c].events| && s.challenges[c].events[i].order == order
  }

  predicate HasPerson(c: Challenge, referral: nat) {
    exists i :: 0 <= i < |c.events| && c.events[i].referral == referral
  }

  /** The purchase counts for the challenge: a new person, joined in time where that is
      asked for, and no earlier conversion or purchase. */
  predicate Counts(c: Challenge, lead: Lead) {
    && c.successes < c.target
    && !HasPerson(c, lead.referral)
    && (c.join ==> c.starts <= lead.created)
    && (lead.converted.Some? ==> c.starts <= lead.converted.value)
    && !lead.boughtBefore(c.starts)
  }

  function WithEvent(s: Arena, c: nat, e: Event): Arena
    requires c < |s.challenges|
  {
    var challenge := s.challenges[c];
    s.(challenges := s.challenges[c := challenge.(successes := challenge.successes + 1, events := challenge.events + [e])])
  }

  datatype Recording = Ordinary | Known | Reserved(arena: Arena) | Raised

  /** Reserve one purchase for the challenge that runs at `when`; the purchase that meets the
      target settles the challenge in the same transaction. */
  function Record(s: Arena, lead: Lead, order: nat, value: int, when: int, wanted: Option<nat>, at: int): Recording {
    var running := FirstRunning(s.challenges, when, 0);
    if running.None? || (wanted.Some? && wanted != running) then Ordinary else
    var c, challenge := running.value, s.challenges[running.value];
    if challenge.target <= challenge.successes then Ordinary else
    if HasOrder(s, order) then Known else
    if !Counts(challenge, lead) then Ordinary else
    var t := WithEvent(s, c, Event(lead.referral, order, value, Provisional, false));
    if t.challenges[c].successes < t.challenges[c].target then Reserved(t) else
      match Settle(t, c, at)
      case Some(u) => Reserved(u)
      case None => Raised
  }

  // ----- the invariant -----

  predicate DistinctPeople(events: seq<Event>) {
    forall i, j :: 0 <= i < j < |events| ==> events[i].referral != events[j].referral
  }

  /** The stage of a challenge determines its rewards, and while it runs its target is open. */
  predicate ChallengeOk(c: Challenge, currency: Currency) {
    && c.successes == |c.events| && DistinctPeople(c.events)
    && (c.stage.Offered? || c.stage.Declined? || c.stage.AwaitingFunds? ==> c.events == [])
    && (c.stage.Active? ==> c.tiered && c.successes < c.target && 0 < Money(c.entry, currency))
    && (c.stage.Succeeded? ==> c.successes == c.target)
    && (c.stage.Failed? ==> c.successes < c.target)
    && c.prize == (if c.stage.Succeeded? then PrizeOf(c, currency) else 0)
    && forall i :: 0 <= i < |c.events| ==>
         match c.stage
         case Active => c.events[i].reward.Provisional? && !c.events[i].cashed
         case Succeeded => c.events[i].reward.Processed? && c.events[i].cashed
         case _ => c.events[i].reward.Withheld? && !c.events[i].cashed
  }

  /** Each key names a stage that its challenge has passed. */
  predicate KeyIsPast(s: Arena, key: Key) {
    match key
    case StakeEntry(c) =>
      c < |s.challenges| && (s.challenges[c].stage.Active? || s.challenges[c].stage.Succeeded? || s.challenges[c].stage.Failed?)
    case StakeRelease(c) => c < |s.challenges| && (s.challenges[c].stage.Succeeded? || s.challenges[c].stage.Failed?)
    case ChallengePrize(c) => c < |s.challenges| && s.challenges[c].stage.Succeeded?
    case _ => true
  }

  ghost predicate KeysArePast(s: Arena) {
    forall r :: r in s.book.rows && r.key.Some? ==> KeyIsPast(s, r.key.value)
  }

  /** What is frozen is the fees of the running challenges, which the ledger took and has
      not returned; prizes were paid once for each success. */
  ghost predicate StakesMatch(s: Arena) {
    && s.book.stake == SumOf(s.challenges, Stake(s.currency))
    && SumOf(s.book.rows, StakeFlow) == -s.book.stake
    && SumOf(s.book.rows, PrizeFlow) == SumOf(s.challenges, Prize)
  }

  ghost predicate ArenaOk(s: Arena, policy: Policy) {
    && Sound(s.book, policy) && StakesMatch(s) && KeysArePast(s)
    && forall c :: c in s.challenges ==> ChallengeOk(c, s.currency)
  }

  // ----- every step keeps the invariant -----

  lemma StakeIsNoMatter(b: Book, stake: int, policy: Policy)
    requires Sound(b, policy)
    ensures Sound(b.(stake := stake), policy)
  {
  }

  lemma StakesAreNonNegative(challenges: seq<Challenge>, currency: Currency)
    ensures 0 <= SumOf(challenges, Stake(currency))
    ensures forall c :: c in challenges ==> Stake(currency)(c) <= SumOf(challenges, Stake(currency))
  {
  }

  /** One challenge is replaced and rows are appended. */
  lemma ReplaceKeepsOk(s: Arena, t: Arena, policy: Policy, c: nat, challenge: Challenge, rows: seq<Row>)
    requires ArenaOk(s, policy) && c < |s.challenges| && ChallengeOk(challenge, s.currency)
    requires t.currency == s.currency && t.challenges == s.challenges[c := challenge]
    requires t.book.rows == s.book.rows + rows && Sound(t.book, policy)
    requires t.book.stake - s.book.stake == Stake(s.currency)(challenge) - Stake(s.currency)(s.challenges[c])
    requires SumOf(rows, StakeFlow) == s.book.stake - t.book.stake
    requires SumOf(rows, PrizeFlow) == Prize(challenge) - Prize(s.challenges[c])
    requires forall r :: r in rows && r.key.Some? ==> KeyIsPast(t, r.key.value)
    requires StageMovesOn(s.challenges[c].stage, challenge.stage)
    ensures ArenaOk(t, policy)
  {
    hide SumOf, Sound, ChallengeOk;
    SumUpdate(s.challenges, c, challenge, Stake(s.currency));
    SumUpdate(s.challenges, c, challenge, Prize);
    SumConcat(s.book.rows, rows, StakeFlow);
    SumConcat(s.book.rows, rows, PrizeFlow);
    forall r | r in t.book.rows && r.key.Some? ensures KeyIsPast(t, r.key.value) {
      if r in s.book.rows { assert KeyIsPast(s, r.key.value); }
    }
  }

  /** Running and settled stages are left only towards settlement. */
  predicate StageMovesOn(from: Stage, to: Stage) {
    && (from.Active? ==> to.Active? || to.Succeeded? || to.Failed?)
    && (from.Succeeded? ==> to.Succeeded?) && (from.Failed? ==> to.Failed?)
  }

  lemma OfferKeepsOk(s: Arena, policy: Policy)
    requires ArenaOk(s, policy)
    ensures ArenaOk(Offer(s), policy)
  {
    hide SumOf, Sound;
    var t := Offer(s);
    var offered := t.challenges[|s.challenges|];
    SumPush(s.challenges, offered, Stake(s.currency));
    SumPush(s.challenges, offered, Prize);
    assert ChallengeOk(offered, s.currency);
    forall r | r in t.book.rows && r.key.Some? ensures KeyIsPast(t, r.key.value) {
      assert KeyIsPast(s, r.key.value);
    }
  }

  lemma OneIsOk(s: Arena, policy: Policy, c: nat)
    requires ArenaOk(s, policy) && c < |s.challenges|
    ensures ChallengeOk(s.challenges[c], s.currency) && Sound(s.book, policy) && StakesMatch(s)
    ensures Stake(s.currency)(s.challenges[c]) <= s.book.stake
  {
    StakesAreNonNegative(s.challenges, s.currency);
  }

  lemma ChooseKeepsOk(s: Arena, policy: Policy, c: nat, program: Program, tier: Tier)
    requires ArenaOk(s, policy) && Choose(s, c, program, tier).Some?
    ensures ArenaOk(Choose(s, c, program, tier).value, policy)
  {
    hide SumOf, Sound, ArenaOk;
    OneIsOk(s, policy, c);
    var t := Choose(s, c, program, tier).value;
    assert SumOf<Row>([], StakeFlow) == 0 && SumOf<Row>([], PrizeFlow) == 0 by { NoRows(); }
    ReplaceKeepsOk(s, t, policy, c, t.challenges[c], []);
  }

  lemma NoRows()
    ensures SumOf<Row>([], StakeFlow) == 0 && SumOf<Row>([], PrizeFlow) == 0
  {
  }

  lemma DeclineKeepsOk(s: Arena, policy: Policy)
    requires ArenaOk(s, policy) && Decline(s).Some?
    ensures ArenaOk(Decline(s).value, policy)
  {
    hide SumOf, Sound, ArenaOk;
    var found := AtStage(s.challenges, Offered);
    assert found[0] in found;
    OneIsOk(s, policy, found[0]);
    NoRows();
    ReplaceKeepsOk(s, Decline(s).value, policy, found[0], Decline(s).value.challenges[found[0]], []);
  }

  /** Entering freezes exactly the rounded fee that leaves the balance. */
  lemma ActivateKeepsOk(s: Arena, policy: Policy, program: Program, tierActive: bool, now: int, at: int)
    requires ArenaOk(s, policy) && now <= at && Activate(s, policy, program, tierActive, now, at).Some?
    ensures var t := Activate(s, policy, program, tierActive, now, at).value;
            && ArenaOk(t, policy)
            && t.book.balance + t.book.stake == s.book.balance + s.book.stake
            && s.book.stake < t.book.stake
  {
    hide SumOf, Sound, ArenaOk, Debit;
    var t, found := Activate(s, policy, program, tierActive, now, at).value, AtStage(s.challenges, AwaitingFunds);
    assert found[0] in found;
    var c, challenge := found[0], s.challenges[found[0]];
    OneIsOk(s, policy, c);
    var amount := Money(challenge.entry, s.currency);
    assert ChallengeOk(t.challenges[c], s.currency);
    var book := EntryIsPosted(s, policy, c, amount, now, at);
    var row := book.rows[|s.book.rows|];
    StakeIsNoMatter(book, t.book.stake, policy);
    SumOfOne(row);
    ReplaceKeepsOk(s, t, policy, c, t.challenges[c], [row]);
  }

  lemma SumOfOne(row: Row)
    ensures SumOf([row], StakeFlow) == StakeFlow(row) && SumOf([row], PrizeFlow) == PrizeFlow(row)
  {
  }

  lemma EntryIsPosted(s: Arena, policy: Policy, c: nat, amount: int, now: int, at: int) returns (book: Book)
    requires ArenaOk(s, policy) && now <= at && 0 < amount
    requires c < |s.challenges| && s.challenges[c].stage.AwaitingFunds?
    requires Debit(s.book, policy, Kind.Payment, amount * CENT, Some(StakeEntry(c)), 0, now, at).Ok?
    ensures book == Post(s.book, Kind.Payment, amount * CENT, Some(StakeEntry(c)), at, 0)
    ensures Debit(s.book, policy, Kind.Payment, amount * CENT, Some(StakeEntry(c)), 0, now, at) == Ok(book)
    ensures Sound(book, policy)
  {
    hide SumOf, Sound;
    book := Post(s.book, Kind.Payment, amount * CENT, Some(StakeEntry(c)), at, 0);
    assert Find(s.book.rows, StakeEntry(c)).None? by { assert !KeyIsPast(s, StakeEntry(c)); }
    DebitKeepsSound(s.book, policy, Kind.Payment, amount * CENT, Some(StakeEntry(c)), 0, now, at);
  }

  /** Returning the fee of a running challenge: it fails only when the wallet is unusable. */
  lemma ReleaseGoesThrough(s: Arena, policy: Policy, c: nat, at: int)
    requires ArenaOk(s, policy) && c < |s.challenges| && s.challenges[c].stage.Active?
    ensures var amount := Money(s.challenges[c].entry, s.currency);
            var released := Released(s.book, c, amount, at);
            && 0 < amount
            && (released.Some? <==> Usable(s.book))
            && (released.Some? ==>
                  && released.value == Post(s.book.(stake := s.book.stake - amount * CENT), Kind.Refund, amount * CENT,
                                            Some(StakeRelease(c)), at, 0)
                  && Sound(released.value, policy))
  {
    hide SumOf, Sound;
    OneIsOk(s, policy, c);
    var amount := Money(s.challenges[c].entry, s.currency);
    var b := s.book.(stake := s.book.stake - amount * CENT);
    assert Find(b.rows, StakeRelease(c)).None? by { assert !KeyIsPast(s, StakeRelease(c)); }
    StakeIsNoMatter(s.book, b.stake, policy);
    CreditRowKeepsSound(b, policy, Kind.Refund, amount * CENT, Some(StakeRelease(c)), at);
  }

  /** The prize of a running challenge has not been paid yet. */
  lemma PrizeGoesThrough(s: Arena, policy: Policy, c: nat, b: Book, amount: int, at: int)
    requires ArenaOk(s, policy) && c < |s.challenges| && s.challenges[c].stage.Active?
    requires Sound(b, policy) && Usable(b)
    requires |s.book.rows| < |b.rows| && b.rows == s.book.rows + [b.rows[|s.book.rows|]]
    requires b.rows[|s.book.rows|].key == Some(StakeRelease(c))
    ensures PayPrize(b, c, amount, at).Some?
    ensures 0 < amount ==>
      PayPrize(b, c, amount, at).value == Post(b, ReferralReward, amount * CENT, Some(ChallengePrize(c)), at, 0)
    ensures Sound(PayPrize(b, c, amount, at).value, policy)
  {
    hide SumOf, Sound;
    if 0 < amount {
      assert Find(b.rows, ChallengePrize(c)).None? by { assert !KeyIsPast(s, ChallengePrize(c)); }
      CreditRowKeepsSound(b, policy, ReferralReward, amount * CENT, Some(ChallengePrize(c)), at);
    }
  }

  lemma {:induction false} MarkedValues(events: seq<Event>, reward: RewardState, cashed: bool)
    ensures SumOf(MarkAll(events, reward, cashed), EventValue) == SumOf(events, EventValue)
  {
    if events != [] { MarkedValues(events[1..], reward, cashed); }
  }

  /** The settled form of a challenge. */
  function Settled(c: Challenge, currency: Currency, success: bool): Challenge {
    if success
    then c.(stage := Succeeded, prize := PrizeOf(c, currency), events := MarkAll(c.events, Processed, true))
    else c.(stage := Failed, prize := 0, events := MarkAll(c.events, Withheld, false))
  }

  lemma SettledIsOk(c: Challenge, currency: Currency, success: bool)
    requires c.successes == |c.events| && DistinctPeople(c.events)
    requires if success then c.successes == c.target else c.successes < c.target
    ensures ChallengeOk(Settled(c, currency, success), currency)
  {
    hide SumOf;
    MarkedValues(c.events, Processed, true);
  }

  /** Settlement of a challenge `now`, which differs from the one in a sound arena at most by
      the purchase that met its target. It fails only when the wallet is unusable, returns
      exactly the frozen fee and pays the prize of a success once. */
  lemma SettlePays(s: Arena, policy: Policy, c: nat, now: Challenge, at: int)
    requires ArenaOk(s, policy) && c < |s.challenges| && s.challenges[c].stage.Active?
    requires now == s.challenges[c].(successes := now.successes, events := now.events)
    requires now.successes == |now.events| <= now.target && DistinctPeople(now.events)
    requires now.successes == now.target || now.ends <= at
    ensures var t := Settle(s.(challenges := s.challenges[c := now]), c, at);
            var amount := Money(now.entry, s.currency);
            var success := now.successes == now.target;
            && (t.Some? <==> Usable(s.book))
            && (t.Some? ==>
                  && ArenaOk(t.value, policy)
                  && t.value.challenges == s.challenges[c := Settled(now, s.currency, success)]
                  && t.value.book.stake == s.book.stake - amount * CENT
                  && t.value.book.balance
                     == s.book.balance + amount * CENT + (if success then PrizeOf(now, s.currency) * CENT else 0)
                  && t.value.lifetime == s.lifetime + (if success then |now.events| else 0))
  {
    hide SumOf, Sound, ArenaOk, Released, PayPrize, ChallengeOk;
    OneIsOk(s, policy, c);
    var u := s.(challenges := s.challenges[c := now]);
    var amount, success := Money(now.entry, s.currency), now.successes == now.target;
    assert s.challenges[c].tiered by { RunningIsTiered(s.challenges[c], s.currency); }
    ReleaseGoesThrough(s, policy, c, at);
    var released := Released(s.book, c, amount, at);
    assert Settle(u, c, at).Some? ==> released.Some?;
    if released.Some? {
      var row := released.value.rows[|s.book.rows|];
      SumOfOne(row);
      SettledIsOk(now, s.currency, success);
      if success {
        var prize := PrizeOf(now, s.currency);
        PrizeGoesThrough(s, policy, c, released.value, prize, at);
        var t := Settle(u, c, at).value;
        var rows := if 0 < prize then [row, t.book.rows[|s.book.rows| + 1]] else [row];
        if 0 < prize { SumOfTwo(rows[0], rows[1]); }
        if prize <= 0 { NoPrize(released.value, c, prize, at); }
        assert t.book.rows == s.book.rows + rows;
        assert RunningHasNoPrize(s.challenges[c], s.currency) by { RunningIsTiered(s.challenges[c], s.currency); }
        ReplaceKeepsOk(s, t, policy, c, t.challenges[c], rows);
      } else {
        var t := Settle(u, c, at).value;
        assert RunningHasNoPrize(s.challenges[c], s.currency) by { RunningIsTiered(s.challenges[c], s.currency); }
        ReplaceKeepsOk(s, t, policy, c, t.challenges[c], [row]);
      }
    }
  }

  lemma NoPrize(b: Book, c: nat, amount: int, at: int)
    requires amount <= 0
    ensures PayPrize(b, c, amount, at) == Some(b)
  {
  }

  lemma SumOfTwo(x: Row, y: Row)
    ensures SumOf([x, y], StakeFlow) == StakeFlow(x) + StakeFlow(y)
    ensures SumOf([x, y], PrizeFlow) == PrizeFlow(x) + PrizeFlow(y)
  {
    assert [x, y] == [x] + [y];
    SumOfOne(x);
    SumPush([x], y, StakeFlow);
    SumPush([x], y, PrizeFlow);
  }

  predicate RunningHasNoPrize(c: Challenge, currency: Currency) {
    c.prize == 0 && 0 < Money(c.entry, currency)
  }

  lemma RunningIsTiered(c: Challenge, currency: Currency)
    requires ChallengeOk(c, currency) && c.stage.Active?
    ensures c.tiered && RunningHasNoPrize(c, currency) && c.successes == |c.events| < c.target
    ensures DistinctPeople(c.events)
  {
  }

  lemma SettleKeepsOk(s: Arena, policy: Policy, c: nat, at: int)
    requires ArenaOk(s, policy) && Settle(s, c, at).Some?
    ensures ArenaOk(Settle(s, c, at).value, policy)
    ensures ProgressOk(s, Settle(s, c, at).value)
  {
    hide ArenaOk, Released, PayPrize, SumOf;
    var challenge := s.challenges[c];
    OneIsOk(s, policy, c);
    if challenge.stage.Active? {
      assert s.challenges[c := challenge] == s.challenges;
      SettlePays(s, policy, c, challenge, at);
    }
  }

  /** A running challenge can be settled exactly when its time is over and the wallet is
      usable; then nothing stays frozen for it. */
  lemma SettlementIsPossible(s: Arena, policy: Policy, c: nat, at: int)
    requires ArenaOk(s, policy) && c < |s.challenges| && s.challenges[c].stage.Active?
    ensures Settle(s, c, at).Some? <==> s.challenges[c].ends <= at && Usable(s.book)
    ensures Settle(s, c, at).Some? ==>
      var t := Settle(s, c, at).value;
      && t.challenges[c].stage.Failed?
      && t.book.balance - s.book.balance == s.book.stake - t.book.stake == Stake(s.currency)(s.challenges[c])
      && t.lifetime == s.lifetime
  {
    hide ArenaOk, Released, PayPrize, SumOf;
    OneIsOk(s, policy, c);
    assert s.challenges[c := s.challenges[c]] == s.challenges;
    if s.challenges[c].ends <= at { SettlePays(s, policy, c, s.challenges[c], at); }
  }

  /** Offers may be taken or declined, running challenges collect events; a declined or
      settled challenge never changes again. */
  predicate ProgressOk(s: Arena, t: Arena) {
    && |s.challenges| <= |t.challenges|
    && forall c :: 0 <= c < |s.challenges| ==>
         && StageMovesOn(s.challenges[c].stage, t.challenges[c].stage)
         && (s.challenges[c].stage.Declined? || s.challenges[c].stage.Succeeded? || s.challenges[c].stage.Failed? ==>
               t.challenges[c] == s.challenges[c])
         && (s.challenges[c].stage.Active? && t.challenges[c].stage.Active? ==>
               && t.challenges[c].target == s.challenges[c].target && t.challenges[c].entry == s.challenges[c].entry
               && |s.challenges[c].events| <= |t.challenges[c].events|
               && t.challenges[c].events[..|s.challenges[c].events|] == s.challenges[c].events)
  }

  lemma ProgressTwice(s: Arena, t: Arena, u: Arena)
    requires ProgressOk(s, t) && ProgressOk(t, u)
    ensures ProgressOk(s, u)
  {
  }

  /** Recording a purchase: the new event's person is new to the challenge, and reaching the
      target settles it at once, so a running challenge always has room. */
  lemma RecordKeepsOk(s: Arena, policy: Policy, lead: Lead, order: nat, value: int, when: int, wanted: Option<nat>, at: int)
    requires ArenaOk(s, policy) && Record(s, lead, order, value, when, wanted, at).Reserved?
    ensures var t := Record(s, lead, order, value, when, wanted, at).arena;
            var c := FirstRunning(s.challenges, when, 0).value;
            && ArenaOk(t, policy) && ProgressOk(s, t)
            && |t.challenges[c].events| == |s.challenges[c].events| + 1
            && t.challenges[c].events[|s.challenges[c].events|].referral == lead.referral
            && !HasPerson(s.challenges[c], lead.referral)
            && (t.challenges[c].stage.Succeeded? <==> |t.challenges[c].events| == s.challenges[c].target)
  {
    hide ArenaOk, Released, PayPrize, SumOf, HasOrder, Sound, ChallengeOk, Settle;
    var c := FirstRunning(s.challenges, when, 0).value;
    OneIsOk(s, policy, c);
    RunningIsTiered(s.challenges[c], s.currency);
    var e := Event(lead.referral, order, value, Provisional, false);
    var now := WithEvent(s, c, e).challenges[c];
    assert DistinctPeople(now.events);
    if now.successes < now.target {
      assert ChallengeOk(now, s.currency) by { OneMoreIsOk(s.challenges[c], s.currency, e); }
      NoRows();
      ReplaceKeepsOk(s, WithEvent(s, c, e), policy, c, now, []);
    } else {
      SettlePays(s, policy, c, now, at);
    }
  }

  lemma OneMoreIsOk(c: Challenge, currency: Currency, e: Event)
    requires ChallengeOk(c, currency) && c.stage.Active? && c.successes + 1 < c.target
    requires !HasPerson(c, e.referral) && e.reward.Provisional? && !e.cashed
    ensures ChallengeOk(c.(successes := c.successes + 1, events := c.events + [e]), currency)
  {
    hide SumOf;
  }

  // ----- runs -----

  /** Other wallet activity: no challenge rows, and the frozen part stays. */
  ghost predicate IsElsewhere(b: Book, c: Book, policy: Policy) {
    && |b.rows| <= |c.rows| && c.rows[..|b.rows|] == b.rows
    && (forall r :: r in c.rows[|b.rows|..] && r.key.Some? ==>
          !r.key.value.StakeEntry? && !r.key.value.StakeRelease? && !r.key.value.ChallengePrize?)
    && c.stake == b.stake && Sound(c, policy)
  }

  lemma {:induction false} NoChallengeFlow(rows: seq<Row>)
    requires forall r :: r in rows && r.key.Some? ==>
      !r.key.value.StakeEntry? && !r.key.value.StakeRelease? && !r.key.value.ChallengePrize?
    ensures SumOf(rows, StakeFlow) == 0 && SumOf(rows, PrizeFlow) == 0
  {
    if rows != [] { NoChallengeFlow(rows[1..]); }
  }

  lemma ElsewhereKeepsOk(s: Arena, policy: Policy, book: Book)
    requires ArenaOk(s, policy) && IsElsewhere(s.book, book, policy)
    ensures ArenaOk(s.(book := book), policy) && ProgressOk(s, s.(book := book))
  {
    hide SumOf, Sound, ChallengeOk;
    var more := book.rows[|s.book.rows|..];
    assert book.rows == s.book.rows + more;
    SumConcat(s.book.rows, more, StakeFlow);
    SumConcat(s.book.rows, more, PrizeFlow);
    NoChallengeFlow(more);
    forall r | r in book.rows && r.key.Some? ensures KeyIsPast(s.(book := book), r.key.value) {
      if r in s.book.rows { assert KeyIsPast(s, r.key.value); }
    }
  }

  datatype ArenaOp =
    | OfferOp
    | ChooseOp(c: nat, program: Program, tier: Tier)
    | DeclineOp
    | ActivateOp(program: Program, tierActive: bool, now: int, at: int)
    | RecordOp(lead: Lead, order: nat, value: int, when: int, wanted: Option<nat>, at: int)
    | SettleOp(c: nat, at: int)
    | ElsewhereOp(book: Book)

  /** A step that raises leaves everything as it was. */
  ghost function ArenaStep(s: Arena, policy: Policy, op: ArenaOp): Arena {
    match op
    case OfferOp => Offer(s)
    case ChooseOp(c, program, tier) => (match Choose(s, c, program, tier) case Some(t) => t case None => s)
    case DeclineOp => (match Decline(s) case Some(t) => t case None => s)
    case ActivateOp(program, tierActive, now, at) =>
      if at < now then s else
      (match Activate(s, policy, program, tierActive, now, at) case Some(t) => t case None => s)
    case RecordOp(lead, order, value, when, wanted, at) =>
      (match Record(s, lead, order, value, when, wanted, at) case Reserved(t) => t case _ => s)
    case SettleOp(c, at) => (match Settle(s, c, at) case Some(t) => t case None => s)
    case ElsewhereOp(book) => if IsElsewhere(s.book, book, policy) then s.(book := book) else s
  }

  ghost function ArenaRun(s: Arena, policy: Policy, ops: seq<ArenaOp>): Arena
    decreases |ops|
  {
    if ops == [] then s else ArenaRun(ArenaStep(s, policy, ops[0]), policy, ops[1..])
  }

  lemma ActivateProgress(s: Arena, policy: Policy, program: Program, tierActive: bool, now: int, at: int)
    requires Activate(s, policy, program, tierActive, now, at).Some?
    ensures ProgressOk(s, Activate(s, policy, program, tierActive, now, at).value)
  {
  }

  lemma DeclineProgress(s: Arena)
    requires Decline(s).Some?
    ensures ProgressOk(s, Decline(s).value)
  {
  }

  lemma ArenaStepKeepsOk(s: Arena, policy: Policy, op: ArenaOp)
    requires ArenaOk(s, policy)
    ensures ArenaOk(ArenaStep(s, policy, op), policy) && ProgressOk(s, ArenaStep(s, policy, op))
  {
    hide ArenaOk, Activate, Record, Settle, Decline, IsElsewhere;
    match op
    case OfferOp => OfferKeepsOk(s, policy);
    case ChooseOp(c, program, tier) =>
      if Choose(s, c, program, tier).Some? { ChooseKeepsOk(s, policy, c, program, tier); }
    case DeclineOp =>
      if Decline(s).Some? {
        DeclineKeepsOk(s, policy);
        DeclineProgress(s);
      }
    case ActivateOp(program, tierActive, now, at) =>
      if now <= at && Activate(s, policy, program, tierActive, now, at).Some? {
        ActivateKeepsOk(s, policy, program, tierActive, now, at);
        ActivateProgress(s, policy, program, tierActive, now, at);
      }
    case RecordOp(lead, order, value, when, wanted, at) =>
      if Record(s, lead, order, value, when, wanted, at).Reserved? {
        RecordKeepsOk(s, policy, lead, order, value, when, wanted, at);
      }
    case SettleOp(c, at) => if Settle(s, c, at).Some? { SettleKeepsOk(s, policy, c, at); }
    case ElsewhereOp(book) => if IsElsewhere(s.book, book, policy) { ElsewhereKeepsOk(s, policy, book); }
  }

  /** The main lemma about challenges. In every run the frozen balance is the sum of the
      rounded fees of running challenges, each challenge counts distinct people and stays
      below its target while it runs, its rewards are provisional, paid or withheld as it
      runs, succeeds or fails, and a settled or declined challenge never changes again. */
  lemma {:induction false} ArenaRunKeepsOk(s: Arena, policy: Policy, ops: seq<ArenaOp>)
    requires ArenaOk(s, policy)
    ensures ArenaOk(ArenaRun(s, policy, ops), policy) && ProgressOk(s, ArenaRun(s, policy, ops))
    decreases |ops|
  {
    hide ArenaOk, ArenaStep, ProgressOk;
    if ops == [] {
      ProgressOnce(s);
    } else {
      ArenaStepKeepsOk(s, policy, ops[0]);
      ArenaRunKeepsOk(ArenaStep(s, policy, ops[0]), policy, ops[1..]);
      ProgressTwice(s, ArenaStep(s, policy, ops[0]), ArenaRun(s, policy, ops));
    }
  }

  lemma ProgressOnce(s: Arena)
    ensures ProgressOk(s, s)
  {
  }

  // ----- lifetime points -----

  /** The lifetime counter moved by exactly the points that became processed. */
  predicate LifetimeFollows(s: Arena, t: Arena) {
    t.lifetime - SumOf(t.challenges, ProcessedPoints) == s.lifetime - SumOf(s.challenges, ProcessedPoints)
  }

  lemma LifetimeWithSettled(s: Arena, t: Arena, c: nat, now: Challenge, success: bool)
    requires c < |s.challenges| && s.challenges[c].stage.Active?
    requires t.challenges == s.challenges[c := Settled(now, s.currency, success)]
    requires t.lifetime == s.lifetime + (if success then |now.events| else 0)
    ensures LifetimeFollows(s, t)
  {
    hide SumOf, PrizeOf;
    SumUpdate(s.challenges, c, Settled(now, s.currency, success), ProcessedPoints);
  }

  lemma LifetimeOfStep(s: Arena, policy: Policy, op: ArenaOp)
    requires ArenaOk(s, policy)
    ensures LifetimeFollows(s, ArenaStep(s, policy, op))
  {
    hide ArenaOk, SumOf, Released, PayPrize, HasOrder, Counts, IsElsewhere, Debit, PrizeOf, ChallengeOk, Settle;
    var t := ArenaStep(s, policy, op);
    match op
    case OfferOp => SumPush(s.challenges, t.challenges[|s.challenges|], ProcessedPoints);
    case ChooseOp(c, program, tier) =>
      if t != s { SumUpdate(s.challenges, c, t.challenges[c], ProcessedPoints); }
    case DeclineOp =>
      if Decline(s).Some? {
        var found := AtStage(s.challenges, Offered);
        assert found[0] in found;
        SumUpdate(s.challenges, found[0], t.challenges[found[0]], ProcessedPoints);
      }
    case ActivateOp(program, tierActive, now, at) =>
      if t != s {
        var found := AtStage(s.challenges, AwaitingFunds);
        assert found[0] in found;
        SumUpdate(s.challenges, found[0], t.challenges[found[0]], ProcessedPoints);
      }
    case RecordOp(lead, order, value, when, wanted, at) =>
      if Record(s, lead, order, value, when, wanted, at).Reserved? {
        LifetimeOfRecord(s, policy, lead, order, value, when, wanted, at);
      }
    case SettleOp(c, at) =>
      if Settle(s, c, at).Some? { LifetimeOfSettle(s, policy, c, at); }
    case ElsewhereOp(book) =>
  }

  lemma LifetimeOfSettle(s: Arena, policy: Policy, c: nat, at: int)
    requires ArenaOk(s, policy) && Settle(s, c, at).Some?
    ensures LifetimeFollows(s, Settle(s, c, at).value)
  {
    hide ArenaOk, SumOf, Released, PayPrize, PrizeOf;
    if s.challenges[c].stage.Active? {
      LifetimeWithSettled(s, Settle(s, c, at).value, c, s.challenges[c], s.challenges[c].target <= s.challenges[c].successes);
    }
  }

  lemma LifetimeOfRecord(s: Arena, policy: Policy, lead: Lead, order: nat, value: int, when: int, wanted: Option<nat>,
                         at: int)
    requires ArenaOk(s, policy) && Record(s, lead, order, value, when, wanted, at).Reserved?
    ensures LifetimeFollows(s, Record(s, lead, order, value, when, wanted, at).arena)
  {
    hide ArenaOk, SumOf, Released, PayPrize, PrizeOf, HasOrder, Counts, ChallengeOk;
    var c := FirstRunning(s.challenges, when, 0).value;
    var u := WithEvent(s, c, Event(lead.referral, order, value, Provisional, false));
    var t := Record(s, lead, order, value, when, wanted, at).arena;
    if t == u {
      SumUpdate(s.challenges, c, u.challenges[c], ProcessedPoints);
    } else {
      assert t.challenges == s.challenges[c := Settled(u.challenges[c], s.currency, true)];
      LifetimeWithSettled(s, t, c, u.challenges[c], true);
    }
  }

  /** Challenge points reach the lifetime counter exactly when a challenge succeeds. */
  lemma {:induction false} LifetimeOfRun(s: Arena, policy: Policy, ops: seq<ArenaOp>)
    requires ArenaOk(s, policy)
    ensures LifetimeFollows(s, ArenaRun(s, policy, ops))
    decreases |ops|
  {
    hide ArenaOk, ArenaStep;
    if ops != [] {
      LifetimeOfStep(s, policy, ops[0]);
      ArenaStepKeepsOk(s, policy, ops[0]);
      LifetimeOfRun(ArenaStep(s, policy, ops[0]), policy, ops[1..]);
    }
  }

  // ----- the challenges as an object -----

  /** A tier can be chosen for the challenge, for the first time or again. */
  predicate IsChoosable(c: Challenge) {
    c.stage.Offered? || c.stage.AwaitingFunds?
  }

  class ChallengeBoard {
    const wallet: Wallet
    const currency: Currency
    var challenges: seq<Challenge>
    var lifetime: int

    constructor (wallet: Wallet, currency: Currency)
      ensures this.wallet == wallet && State() == Arena(currency, [], 0, wallet.Ledger())
    {
      this.wallet, this.currency := wallet, currency;
      challenges, lifetime := [], 0;
    }

    function State(): Arena
      reads this, wallet
    {
      Arena(currency, challenges, lifetime, wallet.Ledger())
    }

    method Rollback(saved: Arena)
      requires saved.currency == currency
      modifies this, wallet
      ensures State() == saved
    {
      challenges, lifetime := saved.challenges, saved.lifetime;
      wallet.Restore(saved.book);
    }

    /** Take a tier, or take another one while nothing has been paid. A refusal is exactly a
        closed program or tier, or a challenge that is not open; running, settled and declined
        challenges and the wallet are never touched. */
    method ChooseTier(c: nat, program: Program, tier: Tier) returns (ok: bool)
      modifies this`challenges
      ensures match Choose(old(State()), c, program, tier)
              case Some(after) => ok && State() == after
              case None => !ok && State() == old(State())
      ensures ok <==> program.active && tier.active && c < |old(challenges)| && IsChoosable(old(challenges)[c])
      ensures |challenges| == |old(challenges)|
      ensures forall other :: 0 <= other < |challenges| && (other != c || !IsChoosable(old(challenges)[other])) ==>
        challenges[other] == old(challenges)[other]
      ensures ok ==> IsChoosable(challenges[c]) && challenges[c].tiered && challenges[c].entry == tier.fee
      ensures ok ==> challenges[c].target == tier.target && challenges[c].events == old(challenges)[c].events
    {
      if !program.active || !tier.active || c >= |challenges| { return false; }
      var challenge := challenges[c];
      if !challenge.stage.Offered? && !challenge.stage.AwaitingFunds? { return false; }
      challenge := challenge.(tiered := true, entry := tier.fee, target := tier.target, percent := program.percent);
      challenge := challenge.(stage := AwaitingFunds);
      challenges := challenges[c := challenge];
      return true;
    }

    method DeclineChallenge() returns (ok: bool)
      modifies this`challenges
      ensures match Decline(old(State()))
              case Some(after) => ok && State() == after
              case None => !ok && State() == old(State())
    {
      var found := AtStage(challenges, Offered);
      if |found| != 1 { return false; }
      assert found[0] in found;
      challenges := challenges[found[0] := challenges[found[0]].(stage := Declined)];
      return true;
    }

    /** Debit the entry fee, freeze it and start the clock. */
    method ActivateFromWallet(program: Program, tierActive: bool, now: int, at: int) returns (ok: bool)
      modifies this`challenges, wallet`balance, wallet`rows, wallet`stake
      ensures match Activate(old(State()), wallet.policy, program, tierActive, now, at)
              case Some(after) => ok && State() == after
              case None => !ok && State() == old(State())
    {
      var found := AtStage(challenges, AwaitingFunds);
      if |found| != 1 { return false; }
      assert found[0] in found;
      var c, challenge := found[0], challenges[found[0]];
      if !program.active || !challenge.tiered || !tierActive { return false; }
      if challenge.target <= 0 || challenge.percent <= 0 { return false; }
      var amount := Money(challenge.entry, currency);
      if amount <= 0 { return false; }
      var error := wallet.DebitWallet(Kind.Payment, amount * CENT, Some(StakeEntry(c)), 0, now, at);
      if error.Some? { return false; }
      wallet.stake := wallet.stake + amount * CENT;
      challenge := challenge.(stage := Active, join := program.join, starts := at, ends := at + program.days * DAY);
      challenges := challenges[c := challenge];
      return true;
    }

    /** Unfreeze the fee and return it; a refusal is undone by the caller's transaction. */
    method ReleaseFrozenEntry(c: nat, entry: int, at: int) returns (ok: bool)
      modifies wallet`balance, wallet`rows, wallet`stake
      ensures match Released(old(wallet.Ledger()), c, Money(entry, currency), at)
              case Some(after) => ok && wallet.Ledger() == after
              case None => !ok
    {
      var amount := Money(entry, currency);
      if amount <= 0 { return true; }
      if wallet.stake < amount * CENT { return false; }
      wallet.stake := wallet.stake - amount * CENT;
      var error := wallet.CreditWallet(Kind.Refund, amount * CENT, Some(StakeRelease(c)), at);
      return error.None?;
    }

    /** Give every reward of a challenge its final state. */
    method MarkRewards(c: nat, reward: RewardState, cashed: bool)
      requires c < |challenges|
      modifies this`challenges
      ensures var marked := MarkAll(old(challenges)[c].events, reward, cashed);
              challenges == old(challenges)[c := old(challenges)[c].(events := marked)]
    {
      var events, i := challenges[c].events, 0;
      while i < |events|
        invariant i <= |events| == |challenges[c].events|
        invariant forall j :: 0 <= j < i ==> events[j] == MarkAll(challenges[c].events, reward, cashed)[j]
        invariant forall j :: i <= j < |events| ==> events[j] == challenges[c].events[j]
      {
        events := events[i := events[i].(reward := reward, cashed := cashed)];
        i := i + 1;
      }
      assert events == MarkAll(challenges[c].events, reward, cashed);
      challenges := challenges[c := challenges[c].(events := events)];
    }

    method SettleChallenge(c: nat, at: int) returns (ok: bool)
      modifies this, wallet
      ensures match Settle(old(State()), c, at)
              case Some(after) => ok && State() == after
              case None => !ok && State() == old(State())
    {
      hide SumOf, Released, MarkAll;
      if c >= |challenges| { return false; }
      var challenge := challenges[c];
      if challenge.stage.Succeeded? || challenge.stage.Failed? { return true; }
      if !challenge.stage.Active? || !challenge.tiered { return false; }
      var success := challenge.target <= challenge.successes;
      if !success && at < challenge.ends { return false; }
      var saved := State();
      ok := ReleaseFrozenEntry(c, challenge.entry, at);
      if ok && success {
        var prize := Money(SumOf(challenge.events, EventValue), currency);
        if 0 < prize {
          var error := wallet.CreditWallet(ReferralReward, prize * CENT, Some(ChallengePrize(c)), at);
          ok := error.None?;
        }
        MarkRewards(c, Processed, true);
        lifetime := lifetime + |challenge.events|;
        challenges := challenges[c := challenges[c].(stage := Succeeded, prize := prize)];
      } else if ok {
        MarkRewards(c, Withheld, false);
        challenges := challenges[c := challenges[c].(stage := Failed, prize := 0)];
      }
      if !ok { Rollback(saved); }
    }

    /** Reserve a purchase, and settle the challenge when it was the last one needed. */
    method MaybeRecordReferral(lead: Lead, order: nat, value: int, when: int, wanted: Option<nat>, at: int)
        returns (recorded: bool, ok: bool)
      modifies this, wallet
      ensures match Record(old(State()), lead, order, value, when, wanted, at)
              case Reserved(after) => recorded && ok && State() == after
              case Raised => !ok && State() == old(State())
              case Known => recorded && ok && State() == old(State())
              case Ordinary => !recorded && ok && State() == old(State())
    {
      hide Settle, SumOf;
      var running := FirstRunning(challenges, when, 0);
      if running.None? || (wanted.Some? && wanted != running) { return false, true; }
      var c := running.value;
      var challenge := challenges[c];
      if challenge.target <= challenge.successes { return false, true; }
      if HasOrder(State(), order) { return true, true; }
      if HasPerson(challenge, lead.referral) { return false, true; }
      if challenge.join && lead.created < challenge.starts { return false, true; }
      if lead.converted.Some? && lead.converted.value < challenge.starts { return false, true; }
      if lead.boughtBefore(challenge.starts) { return false, true; }
      var saved := State();
      challenge := challenge.(successes := challenge.successes + 1,
                              events := challenge.events + [Event(lead.referral, order, value, Provisional, false)]);
      challenges := challenges[c := challenge];
      if challenge.target <= challenge.successes {
        ok := SettleChallenge(c, at);
        if !ok { Rollback(saved); }
        return true, ok;
      }
      return true, true;
    }
  }
}
