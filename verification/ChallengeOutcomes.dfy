/** When challenges are declined, entered, fed and settled, and what that moves, told from the
    challenges before it. */
module ChallengeOutcomes {
  import opened Prelude
  import opened Decimals
  import opened Wallets
  import opened Challenges

  /** The challenge is the only one at the stage. */
  predicate IsOnly(challenges: seq<Challenge>, stage: Stage, c: nat) {
    && c < |challenges| && challenges[c].stage == stage
    && forall other :: 0 <= other < |challenges| && other != c ==> challenges[other].stage != stage
  }

  lemma {:induction false} AtStageAscends(challenges: seq<Challenge>, stage: Stage)
    ensures forall i, j :: 0 <= i < j < |AtStage(challenges, stage)| ==>
      AtStage(challenges, stage)[i] < AtStage(challenges, stage)[j]
  {
    if challenges != [] {
      var front := AtStage(challenges[..|challenges| - 1], stage);
      AtStageAscends(challenges[..|challenges| - 1], stage);
      forall i | 0 <= i < |front| ensures front[i] < |challenges| - 1 { assert front[i] in front; }
    }
  }

  lemma OnlyOneFound(challenges: seq<Challenge>, stage: Stage)
    ensures var found := AtStage(challenges, stage);
            && (|found| == 1 <==> exists c: nat :: IsOnly(challenges, stage, c))
            && (|found| == 1 ==> IsOnly(challenges, stage, found[0]))
            && forall c: nat :: IsOnly(challenges, stage, c) ==> |found| == 1 && found[0] == c
  {
    var found := AtStage(challenges, stage);
    AtStageAscends(challenges, stage);
    assert forall i :: 0 <= i < |found| ==> found[i] in found;
    assert 1 < |found| ==> found[0] < found[1];
    forall c: nat | IsOnly(challenges, stage, c) ensures |found| == 1 && found[0] == c {
      assert c in found;
    }
    if |found| == 1 {
      forall other: nat | other < |challenges| && challenges[other].stage == stage ensures other == found[0] {
        assert other in found;
      }
      assert IsOnly(challenges, stage, found[0]);
    }
  }

  /** An offer can be declined exactly while it is the only one. */
  lemma DeclineGoesThrough(s: Arena)
    ensures Decline(s).Some? <==> exists c: nat :: IsOnly(s.challenges, Offered, c)
    ensures forall c: nat :: IsOnly(s.challenges, Offered, c) ==>
      Decline(s) == Some(s.(challenges := s.challenges[c := s.challenges[c].(stage := Declined)]))
  {
    OnlyOneFound(s.challenges, Offered);
  }

  /** What entering asks of the only challenge that awaits funds, its program and the wallet. */
  predicate CanEnter(s: Arena, policy: Policy, program: Program, tierActive: bool, now: int, c: nat) {
    && IsOnly(s.challenges, AwaitingFunds, c)
    && program.active && s.challenges[c].tiered && tierActive
    && 0 < s.challenges[c].target && 0 < s.challenges[c].percent
    && var fee := Money(s.challenges[c].entry, s.currency) * 1_0000_0000;
    && 0 < fee && s.book.active && !s.book.frozen && fee <= s.book.balance
    && (policy.daily.Some? ==> Spent(s.book.rows, DayStart(now)) + fee <= policy.daily.value)
    && (policy.monthly.Some? ==> Spent(s.book.rows, policy.monthStart(now)) + fee <= policy.monthly.value)
  }

  lemma NoEntryYet(s: Arena, policy: Policy, c: nat)
    requires ArenaOk(s, policy) && c < |s.challenges| && s.challenges[c].stage.AwaitingFunds?
    ensures !KeyUsed(s.book.rows, StakeEntry(c)) && UniqueKeys(s.book.rows)
  {
    hide SumOf;
    assert !KeyIsPast(s, StakeEntry(c));
  }

  /** Entering goes through exactly then. The rounded fee leaves the balance and is frozen, and
      the challenge runs from this instant for the program's days. */
  lemma EntryGoesThrough(s: Arena, policy: Policy, program: Program, tierActive: bool, now: int, at: int)
    requires ArenaOk(s, policy)
    ensures Activate(s, policy, program, tierActive, now, at).Some?
       <==> exists c: nat :: CanEnter(s, policy, program, tierActive, now, c)
    ensures Activate(s, policy, program, tierActive, now, at).Some? ==>
      forall c: nat :: CanEnter(s, policy, program, tierActive, now, c) ==>
      var t, fee := Activate(s, policy, program, tierActive, now, at).value, Money(s.challenges[c].entry, s.currency) * 1_0000_0000;
      && t.book.balance == s.book.balance - fee && t.book.stake == s.book.stake + fee
      && t.challenges == s.challenges[c := s.challenges[c].(stage := Active, join := program.join, starts := at,
                                                            ends := at + program.days * 86_400)]
  {
    hide ArenaOk, Debit, Spent, SumOf;
    var found := AtStage(s.challenges, AwaitingFunds);
    OnlyOneFound(s.challenges, AwaitingFunds);
    if |found| == 1 {
      var c := found[0];
      NoEntryYet(s, policy, c);
      DebitGoesThrough(s.book, policy, Kind.Payment, Money(s.challenges[c].entry, s.currency) * CENT, StakeEntry(c), 0, now, at);
      DebitKeepsStake(s.book, policy, Money(s.challenges[c].entry, s.currency) * CENT, StakeEntry(c), now, at);
      assert Activate(s, policy, program, tierActive, now, at).Some? <==> CanEnter(s, policy, program, tierActive, now, c);
    }
  }

  lemma DebitKeepsStake(b: Book, policy: Policy, amount: int, key: Key, now: int, at: int)
    ensures var c := Debit(b, policy, Kind.Payment, amount, Some(key), 0, now, at);
            c.Ok? ==> c.value.stake == b.stake
  {
    hide SumOf;
  }

  /** The purchase belongs to a running challenge with room: the first that runs when it was
      paid, the wanted one if one is wanted, of a new person who joined in time where that is
      asked for, was not converted before and had bought nothing before. */
  predicate Belongs(s: Arena, lead: Lead, order: nat, when: int, wanted: Option<nat>, c: nat) {
    && c < |s.challenges| && IsRunningAt(s.challenges[c], when)
    && (forall earlier :: 0 <= earlier < c ==> !IsRunningAt(s.challenges[earlier], when))
    && (wanted.None? || wanted == Some(c))
    && s.challenges[c].successes < s.challenges[c].target
    && !HasOrder(s, order)
    && (forall i :: 0 <= i < |s.challenges[c].events| ==> s.challenges[c].events[i].referral != lead.referral)
    && (s.challenges[c].join ==> s.challenges[c].starts <= lead.created)
    && (lead.converted.Some? ==> s.challenges[c].starts <= lead.converted.value)
    && !lead.boughtBefore(s.challenges[c].starts)
  }

  /** The purchase completes the target of the challenge. */
  predicate Completes(s: Arena, c: nat)
    requires c < |s.challenges|
  {
    s.challenges[c].successes + 1 == s.challenges[c].target
  }

  lemma FirstToBelong(s: Arena, lead: Lead, order: nat, when: int, wanted: Option<nat>, c: nat)
    requires Belongs(s, lead, order, when, wanted, c)
    ensures FirstRunning(s.challenges, when, 0) == Some(c)
  {
    var running := FirstRunning(s.challenges, when, 0);
    assert running.Some? && !(running.value < c) && !(c < running.value);
  }

  /** A purchase that belongs to a challenge is reserved, unless it completes the target and the
      wallet cannot be used: then the step raises. */
  lemma PurchaseIsReserved(s: Arena, policy: Policy, lead: Lead, order: nat, value: int, when: int, wanted: Option<nat>,
                           at: int, c: nat)
    requires ArenaOk(s, policy) && Belongs(s, lead, order, when, wanted, c)
    ensures var r := Record(s, lead, order, value, when, wanted, at);
            && (r.Reserved? <==> (Completes(s, c) ==> s.book.active && !s.book.frozen))
            && (r.Raised? <==> Completes(s, c) && !(s.book.active && !s.book.frozen))
  {
    FirstToBelong(s, lead, order, when, wanted, c);
    hide ArenaOk, SumOf, HasOrder, Settle, FirstRunning;
    OneIsOk(s, policy, c);
    RunningIsTiered(s.challenges[c], s.currency);
    var now := WithEvent(s, c, Event(lead.referral, order, value, Provisional, false)).challenges[c];
    if Completes(s, c) { SettlePays(s, policy, c, now, at); }
  }

  /** Any other purchase is not: an order known to a challenge stays as it is, the rest are
      rewarded in the ordinary way. */
  lemma OtherPurchaseIsNot(s: Arena, lead: Lead, order: nat, value: int, when: int, wanted: Option<nat>, at: int)
    requires forall c: nat :: !Belongs(s, lead, order, when, wanted, c)
    ensures var r := Record(s, lead, order, value, when, wanted, at); r.Ordinary? || (r.Known? && HasOrder(s, order))
  {
    hide HasOrder, Settle;
    var running := FirstRunning(s.challenges, when, 0);
    if running.Some? { assert !Belongs(s, lead, order, when, wanted, running.value); }
  }

  /** What a reserved purchase adds: one event of its person, order and value. The one that
      completes the target brings the fee back and pays the rounded sum of all values. */
  lemma ReservedMoves(s: Arena, policy: Policy, lead: Lead, order: nat, value: int, when: int, wanted: Option<nat>, at: int)
    requires ArenaOk(s, policy) && Record(s, lead, order, value, when, wanted, at).Reserved?
    ensures var t, c := Record(s, lead, order, value, when, wanted, at).arena, FirstRunning(s.challenges, when, 0).value;
            var events := s.challenges[c].events + [Event(lead.referral, order, value, Provisional, false)];
            var fee, prize := Money(s.challenges[c].entry, s.currency), Money(SumOf(events, EventValue), s.currency);
            && |t.challenges| == |s.challenges|
            && (forall other :: 0 <= other < |s.challenges| && other != c ==> t.challenges[other] == s.challenges[other])
            && (!Completes(s, c) ==> t.challenges[c] == s.challenges[c].(successes := |events|, events := events)
                                     && t.book == s.book && t.lifetime == s.lifetime)
            && (Completes(s, c) ==>
                  && t.challenges[c].stage.Succeeded? && t.challenges[c].prize == prize
                  && t.book.balance == s.book.balance + (fee + prize) * 1_0000_0000
                  && t.book.stake == s.book.stake - fee * 1_0000_0000
                  && t.lifetime == s.lifetime + |events|)
  {
    hide ArenaOk, SumOf, HasOrder, Settle;
    var c := FirstRunning(s.challenges, when, 0).value;
    OneIsOk(s, policy, c);
    RunningIsTiered(s.challenges[c], s.currency);
    var now := WithEvent(s, c, Event(lead.referral, order, value, Provisional, false)).challenges[c];
    if Completes(s, c) { SettlePays(s, policy, c, now, at); }
  }

  /** A prize is the sum of the events' values, each as recorded. */
  lemma {:induction false} PrizeSums(events: seq<Event>)
    ensures events == [] ==> SumOf(events, EventValue) == 0
    ensures events != [] ==> SumOf(events, EventValue) == SumOf(events[..|events| - 1], EventValue) + events[|events| - 1].value
  {
    if events != [] {
      assert events == events[..|events| - 1] + [events[|events| - 1]];
      SumPush(events[..|events| - 1], events[|events| - 1], EventValue);
    }
  }
}
