/** When pills are cashed and awarded, and what they bring, told from the pills before. */
module PillOutcomes {
  import opened Prelude
  import opened Decimals
  import opened Wallets
  import opened Pills

  /** A group is three pills, and worth the rounded sum of their values. */
  lemma GroupIsThree(pills: seq<Pill>, c: Currency, g: nat)
    requires 3 * (g + 1) <= |pills|
    ensures GroupAmount(pills, c, g) == Money(pills[3 * g].value + pills[3 * g + 1].value + pills[3 * g + 2].value, c)
    ensures GroupKey(pills, g).rewards == [pills[3 * g].id, pills[3 * g + 1].id, pills[3 * g + 2].id]
  {
    var group := Group(pills, g);
    assert group == [pills[3 * g], pills[3 * g + 1], pills[3 * g + 2]];
    assert group[1..] == [group[1], group[2]] && group[1..][1..] == [group[2]] && group[1..][1..][1..] == [];
    assert SumOf(group[1..][1..], Value) == group[2].value;
    assert SumOf(group[1..], Value) == group[1].value + group[2].value;
  }

  /** Some group that is complete and not cashed yet is worth something. */
  predicate IsDue(pills: seq<Pill>, c: Currency, from: nat, k: nat)
    requires GROUP * k <= |pills|
  {
    exists g :: from <= g < k && 0 < GroupAmount(pills, c, g)
  }

  lemma {:induction false} GroupsGoThrough(b: Book, pills: seq<Pill>, c: Currency, from: nat, k: nat, at: int)
    requires IdsGrow(pills) && from <= k && GROUP * k <= |pills| && RowsBelow(b, pills, from)
    ensures PayGroups(b, pills, c, from, k, at).Some? <==> (IsDue(pills, c, from, k) ==> b.active && !b.frozen)
    decreases k - from
  {
    hide SumOf, Sound, GroupAmount, IdsGrow, RowsBelow, Extends, PayGroup, IsDue;
    DueSplits(pills, c, from, k);
    if from < k {
      GroupGoesThrough(b, pills, c, from, at);
      var paid := PayGroup(b, pills, c, from, at);
      if paid.Some? {
        PayGroupPosts(b, pills, c, from, at);
        GroupsGoThrough(paid.value, pills, c, from + 1, k, at);
      }
    }
  }

  lemma DueSplits(pills: seq<Pill>, c: Currency, from: nat, k: nat)
    requires GROUP * k <= |pills|
    ensures k <= from ==> !IsDue(pills, c, from, k)
    ensures from < k ==> (IsDue(pills, c, from, k) <==> 0 < GroupAmount(pills, c, from) || IsDue(pills, c, from + 1, k))
  {
    hide GroupAmount;
  }

  lemma GroupGoesThrough(b: Book, pills: seq<Pill>, c: Currency, g: nat, at: int)
    requires IdsGrow(pills) && GROUP * (g + 1) <= |pills| && RowsBelow(b, pills, g)
    ensures PayGroup(b, pills, c, g, at).Some? <==> (0 < GroupAmount(pills, c, g) ==> b.active && !b.frozen)
    ensures PayGroup(b, pills, c, g, at).Some? ==>
      PayGroup(b, pills, c, g, at).value.active == b.active && PayGroup(b, pills, c, g, at).value.frozen == b.frozen
  {
    hide SumOf, GroupKey, GroupAmount;
    forall r | r in b.rows ensures r.key != Some(GroupKey(pills, g)) {
      if r.key == Some(GroupKey(pills, g)) {
        var h :| 0 <= h < g && GroupKey(pills, g) == GroupKey(pills, h);
        KeysDiffer(pills, h, g);
      }
    }
  }

  /** A cash-out fails exactly when something is due and the wallet cannot be used. */
  lemma CashOutGoesThrough(s: PillBox, at: int)
    requires BoxOk(s)
    ensures CashOut(s, at).Some? <==>
      (IsDue(s.pills, s.currency, Whole(CashedCount(s.pills)), |s.pills| / 3) ==> s.book.active && !s.book.frozen)
  {
    hide SumOf, RowsBelow, PayGroups, IsDue, GroupAmount;
    OkMeansBelow(s);
    GroupsGoThrough(s.book, s.pills, s.currency, Whole(CashedCount(s.pills)), |s.pills| / 3, at);
  }

  /** An award fails exactly when it completes something due that the wallet cannot take, and
      otherwise is one pill and one lifetime point. */
  lemma AwardGoesThrough(s: PillBox, id: nat, value: int, at: int)
    requires BoxOk(s) && IsNew(s, id) && 0 <= value
    ensures var all := s.pills + [Pill(id, value, false)];
            && (AwardPill(s, id, value, at).Some? <==>
                  (IsDue(all, s.currency, Whole(CashedCount(s.pills)), |all| / 3) ==> s.book.active && !s.book.frozen))
            && (AwardPill(s, id, value, at).Some? ==>
                  var t := AwardPill(s, id, value, at).value;
                  t.lifetime == s.lifetime + 1 && t.pills == Flagged(all, 3 * (|all| / 3)))
  {
    hide SumOf, CashOut, BoxOk, IsDue;
    AddedKeepsOk(s, id, value);
    OkIsPills(s);
    AddedIsOk(s, id, value);
    CashOutGoesThrough(Added(s, id, value), at);
    if AwardPill(s, id, value, at).Some? { CashOutSettles(Added(s, id, value), at); }
  }

  /** The profile pill is worth 10000 Toman, and is awarded exactly once, to a complete profile
      of a customer who is paid in Toman. */
  lemma ProfilePillIsGranted(s: PillBox, id: nat, complete: bool, at: int)
    requires PillsOk(s) && IsNew(s, id)
    ensures var granted := GrantProfilePill(s, id, complete, at);
            if !s.profileDone && complete && s.currency.Toman? then
              && (granted.Some? <==> AwardPill(s, id, 1_000_000, at).Some?)
              && (granted.Some? ==> granted.value == AwardPill(s, id, 1_000_000, at).value.(profileDone := true))
            else granted == Some(s)
  {
    hide AwardPill;
  }
}
