/** The reward account as an object whose methods update its rows step by step, each proved
    to have the effect that RewardAccounts specifies. */
module RewardDesk {
  import opened Prelude
  import opened Decimals
  import opened Wallets
  import opened PointBoxes
  import opened RewardAccounts

  /** The boxes that are full, in list order: one audit row is written for each. */
  function FullBoxes(bs: seq<Box>): (full: seq<nat>)
    ensures forall i :: i in full ==> i < |bs|
  {
    if bs == [] then [] else
      var n := |bs| - 1;
      FullBoxes(bs[..n]) + (if bs[n].filled == bs[n].capacity then [n] else [])
  }

  lemma {:induction false} FullBoxesConcat(bs: seq<Box>, cs: seq<Box>)
    requires forall c :: c in cs ==> c.filled != c.capacity
    ensures FullBoxes(bs + cs) == FullBoxes(bs)
  {
    if cs == [] {
      assert bs + cs == bs;
    } else {
      var n := |bs + cs| - 1;
      assert (bs + cs)[..n] == bs + cs[..|cs| - 1];
      FullBoxesConcat(bs, cs[..|cs| - 1]);
      assert cs[|cs| - 1] in cs;
    }
  }

  /** Boxes whose fill level did not change are full or not as before. */
  lemma {:induction false} FullBoxesSame(bs: seq<Box>, cs: seq<Box>)
    requires |bs| == |cs|
    requires forall i :: 0 <= i < |bs| ==> bs[i].filled == cs[i].filled && bs[i].capacity == cs[i].capacity
    ensures FullBoxes(bs) == FullBoxes(cs)
  {
    if bs != [] { FullBoxesSame(bs[..|bs| - 1], cs[..|cs| - 1]); }
  }

  /** Filling the first box that can be open adds one audit row at most. */
  lemma FullBoxesStep(bs: seq<Box>, i: nat, box: Box)
    requires i < |bs| && bs[i].filled != bs[i].capacity
    requires forall j :: i < j < |bs| ==> bs[j].filled != bs[j].capacity
    ensures FullBoxes(bs[i := box]) == FullBoxes(bs) + (if box.filled == box.capacity then [i] else [])
  {
    var front, back := bs[..i], bs[i + 1..];
    assert bs == (front + [bs[i]]) + back && bs[i := box] == (front + [box]) + back;
    FullBoxesConcat(front + [bs[i]], back);
    FullBoxesConcat(front + [box], back);
    assert (front + [bs[i]])[..i] == front && (front + [box])[..i] == front;
  }

  // ----- one turn of the placing loop -----

  /** Adding to the first open box is placing that many points. */
  lemma PlaceIntoOpenBox(shelf: Shelf, s: Service, i: nat, added: int)
    requires RowOk(shelf.boxes, shelf.nextCycle, s.id, s.pointValue)
    requires FirstOpen(shelf.boxes, s.id) == Some(i)
    requires 0 < added <= shelf.boxes[i].capacity - shelf.boxes[i].filled
    ensures added <= Room(shelf.boxes)
    ensures Placed(shelf, s, added) == Shelf(shelf.boxes[i := AddTo(shelf.boxes[i], added)], shelf.nextCycle)
    ensures shelf.boxes[i].spent == 0 && 0 <= shelf.boxes[i].filled
    ensures forall j :: i < j < |shelf.boxes| ==> shelf.boxes[j].filled != shelf.boxes[j].capacity
  {
    hide Pour;
    var bs, F, S := shelf.boxes, SumOf(shelf.boxes, LiveFilled), SumOf(shelf.boxes, LiveSpent);
    var box := AddTo(bs[i], added);
    OpenBoxesBelong(bs, shelf.nextCycle, s.id, s.pointValue, i);
    UnspentIsDifference(bs);
    PouredBoxes(bs, F, S);
    assert bs[i] in bs;
    FillStep(bs, F, S, i, added);
    SumUpdate(bs, i, box, LiveFilled);
    PouredTotals(bs, F + added, S);
    assert bs + NewCycles(s, shelf.nextCycle, 0) == bs;
    forall j | i < j < |bs| ensures bs[j].filled != bs[j].capacity {
      assert IsLive(bs[i]) && IsLive(bs[j]) && bs[j] in bs;
      OnlyFirstOpenIsPartlyFilled(bs, F, S, i, j);
    }
  }

  lemma OpenBoxesBelong(bs: seq<Box>, cycle: nat, service: nat, price: int, i: nat)
    requires RowOk(bs, cycle, service, price) && FirstOpen(bs, service) == Some(i)
    ensures i < |bs| && bs[i].state.Open? && forall j :: 0 <= j < i ==> !bs[j].state.Open?
  {
  }

  /** When no box is open there is no room, and the next cycle begins with an empty box. */
  lemma NoOpenBoxMeansNoRoom(bs: seq<Box>, cycle: nat, service: nat, price: int)
    requires RowOk(bs, cycle, service, price) && FirstOpen(bs, service).None?
    ensures Room(bs) == 0
  {
    FullWhenNoneIsOpen(bs, SumOf(bs, LiveFilled), SumOf(bs, LiveSpent));
  }

  lemma OpenBoxMeansRoom(bs: seq<Box>, cycle: nat, service: nat, price: int)
    requires RowOk(bs, cycle, service, price) && FirstOpen(bs, service).Some?
    ensures 0 < Room(bs)
  {
    var i := FirstOpen(bs, service).value;
    PouredBoxes(bs, SumOf(bs, LiveFilled), SumOf(bs, LiveSpent));
    assert bs[i] in bs;
    SumLess(bs, i);
  }

  lemma {:induction false} SumLess(bs: seq<Box>, i: nat)
    requires forall b :: b in bs ==> LiveFilled(b) <= LiveCapacity(b)
    requires i < |bs| && LiveFilled(bs[i]) < LiveCapacity(bs[i])
    ensures SumOf(bs, LiveFilled) < SumOf(bs, LiveCapacity)
  {
    if i == 0 { SumLe(bs[1..], LiveFilled, LiveCapacity); } else { SumLess(bs[1..], i - 1); }
  }

  /** One more cycle keeps the row in order and changes no total. */
  lemma SeededRow(shelf: Shelf, s: Service)
    requires RowOk(shelf.boxes, shelf.nextCycle, s.id, s.pointValue) && CanSeed(s)
    ensures var boxes := shelf.boxes + NewCycle(s, shelf.nextCycle);
            && RowOk(boxes, shelf.nextCycle + 1, s.id, s.pointValue)
            && Room(boxes) == Room(shelf.boxes) + CycleCapacity(s) && 0 < CycleCapacity(s)
            && SumOf(boxes, LiveFilled) == SumOf(shelf.boxes, LiveFilled)
            && SumOf(boxes, LiveSpent) == SumOf(shelf.boxes, LiveSpent)
            && SumOf(boxes, Unspent) == SumOf(shelf.boxes, Unspent)
            && (forall b :: b in NewCycle(s, shelf.nextCycle) ==> b.filled != b.capacity)
            && NewCycles(s, shelf.nextCycle, 1) == NewCycle(s, shelf.nextCycle)
  {
    hide Pour, RowOk, Canonical, SumOf, NewCycle;
    var one := NewCycle(s, shelf.nextCycle);
    assert NewCycles(s, shelf.nextCycle, 1) == one by { assert NewCycles(s, shelf.nextCycle, 0) == []; }
    assert Times(1, CycleCapacity(s)) == CycleCapacity(s);
    CyclesRowOk(shelf.boxes, s, shelf.nextCycle, 1);
    CyclesAreEmpty(s, shelf.nextCycle, 1);
    EmptyUnspent(one);
    SumConcat(shelf.boxes, one, Unspent);
  }

  /** One more cycle is what placing anything into a full row begins with. */
  lemma SeedThenPlace(shelf: Shelf, s: Service, points: int)
    requires RowOk(shelf.boxes, shelf.nextCycle, s.id, s.pointValue) && CanSeed(s)
    requires Room(shelf.boxes) == 0 && 0 < points
    ensures var seeded := Shelf(shelf.boxes + NewCycle(s, shelf.nextCycle), shelf.nextCycle + 1);
            && RowOk(seeded.boxes, seeded.nextCycle, s.id, s.pointValue)
            && Room(seeded.boxes) == CycleCapacity(s) && 0 < CycleCapacity(s)
            && SumOf(seeded.boxes, Unspent) == SumOf(shelf.boxes, Unspent)
            && Placed(seeded, s, points) == Placed(shelf, s, points)
            && (forall b :: b in NewCycle(s, shelf.nextCycle) ==> b.filled != b.capacity)
  {
    hide Pour, RowOk, Canonical, SumOf, NewCycle, NewCycles, Room;
    SeededRow(shelf, s);
    var per, cycle := CycleCapacity(s), shelf.nextCycle;
    var rest := CyclesNeeded(per, points - per);
    assert CyclesNeeded(per, points) == 1 + rest;
    CyclesSplit(s, cycle, 1, rest);
    assert shelf.boxes + NewCycles(s, cycle, 1 + rest) == shelf.boxes + NewCycle(s, cycle) + NewCycles(s, cycle + 1, rest);
  }

  lemma {:induction false} EmptyUnspent(bs: seq<Box>)
    requires Empty(bs)
    ensures SumOf(bs, Unspent) == 0
  {
    if bs != [] { EmptyUnspent(bs[1..]); }
  }

  lemma PlacingNothing(shelf: Shelf, s: Service)
    requires Canonical(shelf.boxes)
    ensures Placed(shelf, s, 0) == shelf
  {
    UnspentIsDifference(shelf.boxes);
    assert shelf.boxes + NewCycles(s, shelf.nextCycle, 0) == shelf.boxes;
  }

  /** The turn of the loop that starts from `now` after `placed` points went in. */
  lemma PlacingGoesOn(before: Shelf, now: Shelf, s: Service, placed: int, added: int)
    requires Canonical(before.boxes) && 0 <= placed && 0 <= added
    requires CanPlace(before, s, placed) && now == Placed(before, s, placed) && CanPlace(now, s, added)
    ensures CanPlace(before, s, placed + added) && Placed(now, s, added) == Placed(before, s, placed + added)
  {
    hide Pour, Canonical;
    PlacedIsCanonical(before, s, placed);
    if !CanSeed(s) { assert CyclesNeeded(CycleCapacity(s), placed - Room(before.boxes)) == 0; }
    BatchesDoNotMatter(before, s, placed, added);
  }

  /** A full shelf of a service that can not be seeded had no room for more points. */
  lemma NoSeedNoPlace(before: Shelf, s: Service, placed: int, points: int)
    requires Canonical(before.boxes) && 0 <= placed < points && CanPlace(before, s, placed) && !CanSeed(s)
    requires Room(Placed(before, s, placed).boxes) == 0
    ensures !CanPlace(before, s, points)
  {
    hide Pour, Canonical;
    PlacedIsCanonical(before, s, placed);
    assert CyclesNeeded(CycleCapacity(s), placed - Room(before.boxes)) == 0;
  }

  class RewardAccount {
    const id: nat
    const wallet: Wallet
    ghost const prices: map<nat, int>
    var reference: Option<Service>
    var liquid: int
    var lifetime: int
    var nextCycle: nat
    var boxes: seq<Box>
    var completions: seq<nat>
    var ledger: seq<Entry>
    var awards: map<nat, Award>
    var redemptions: seq<nat>
    var nonce: nat

    function ShelfNow(): Shelf
      reads this
    {
      Shelf(boxes, nextCycle)
    }

    function State(): Account
      reads this, wallet
    {
      Account(id, reference, liquid, lifetime, ShelfNow(), ledger, awards, redemptions, nonce, wallet.Ledger())
    }

    /** The invariant of every reachable account, and one audit row for each full box. */
    ghost predicate Valid()
      reads this, wallet
    {
      Inv(State(), prices) && completions == FullBoxes(boxes)
    }

    constructor (id: nat, nonce: nat, wallet: Wallet, ghost prices: map<nat, int>)
      requires forall r :: r in wallet.rows ==> RowReason(r).None? && (r.key.Some? ==> !r.key.value.AchievementCash?)
      ensures this.wallet == wallet && this.prices == prices
      ensures State() == NewAccount(id, nonce, wallet.Ledger()) && Valid()
    {
      this.id, this.wallet, this.prices := id, wallet, prices;
      reference, liquid, lifetime, nextCycle := None, 0, 0, 1;
      boxes, completions, ledger, awards, redemptions := [], [], [], map[], [];
      this.nonce := nonce;
      new;
      NewAccountIsOk(id, nonce, wallet.Ledger(), prices);
    }

    /** Create the boxes of the next cycle; a service without boxes or value is refused. */
    method SeedBoxCycle(s: Service) returns (ok: bool)
      modifies this`boxes, this`nextCycle
      ensures ok <==> CanSeed(s)
      ensures ok ==> boxes == old(boxes) + NewCycle(s, old(nextCycle)) && nextCycle == old(nextCycle) + 1
      ensures !ok ==> boxes == old(boxes) && nextCycle == old(nextCycle)
    {
      if s.slots == [] || s.pointValue <= 0 { return false; }
      boxes := boxes + NewCycle(s, nextCycle);
      nextCycle := nextCycle + 1;
      return true;
    }

    /** The first open box, after creating a cycle when there is none. */
    method OpenBox(s: Service) returns (open: Option<nat>)
      requires RowOk(boxes, nextCycle, s.id, s.pointValue) && completions == FullBoxes(boxes)
      modifies this`boxes, this`nextCycle
      ensures RowOk(boxes, nextCycle, s.id, s.pointValue) && completions == FullBoxes(boxes)
      ensures SumOf(boxes, Unspent) == SumOf(old(boxes), Unspent)
      ensures open.Some? <==> 0 < Room(old(boxes)) || CanSeed(s)
      ensures open == FirstOpen(boxes, s.id)
      ensures open.None? ==> ShelfNow() == old(ShelfNow())
      ensures open.Some? ==> forall points :: 0 < points ==>
        Placed(ShelfNow(), s, points) == Placed(old(ShelfNow()), s, points)
      ensures 0 < Room(old(boxes)) ==> ShelfNow() == old(ShelfNow())
    {
      hide Pour, Canonical, RowOk;
      ghost var before := ShelfNow();
      open := FirstOpen(boxes, s.id);
      if open.Some? {
        OpenBoxMeansRoom(boxes, nextCycle, s.id, s.pointValue);
      } else {
        NoOpenBoxMeansNoRoom(boxes, nextCycle, s.id, s.pointValue);
        var seeded := SeedBoxCycle(s);
        if seeded {
          SeedThenPlace(before, s, 1);
          FullBoxesConcat(before.boxes, NewCycle(s, before.nextCycle));
          open := FirstOpen(boxes, s.id);
          if open.None? { NoOpenBoxMeansNoRoom(boxes, nextCycle, s.id, s.pointValue); }
          forall points | 0 < points ensures Placed(ShelfNow(), s, points) == Placed(before, s, points) {
            SeedThenPlace(before, s, points);
          }
        }
      }
    }

    /** Fill the first open box, and complete it when it becomes full. */
    method FillBox(s: Service, i: nat, added: int)
      requires RowOk(boxes, nextCycle, s.id, s.pointValue) && completions == FullBoxes(boxes)
      requires FirstOpen(boxes, s.id) == Some(i) && 0 < added <= boxes[i].capacity - boxes[i].filled
      modifies this`boxes, this`liquid, this`completions
      ensures ShelfNow() == Placed(old(ShelfNow()), s, added) && added <= Room(old(boxes))
      ensures RowOk(boxes, nextCycle, s.id, s.pointValue) && completions == FullBoxes(boxes)
      ensures liquid - old(liquid) == SumOf(boxes, Unspent) - SumOf(old(boxes), Unspent)
    {
      hide Pour, Canonical, RowOk, Placed;
      ghost var before := ShelfNow();
      var box := boxes[i];
      PlaceIntoOpenBox(before, s, i, added);
      PlacedRowOk(before, s, added);
      SumUpdate(boxes, i, AddTo(box, added), Unspent);
      FullBoxesStep(boxes, i, AddTo(box, added));
      box := box.(filled := box.filled + added);
      if box.filled == box.capacity {
        box := box.(state := Complete);
        liquid := liquid + box.capacity;
        completions := completions + [i];
      }
      boxes := boxes[i := box];
      assert box == AddTo(before.boxes[i], added);
    }

    /** Pour points into the first open box until none remain, creating cycles on the way. */
    method PlacePoints(s: Service, points: int) returns (ok: bool)
      requires RowOk(boxes, nextCycle, s.id, s.pointValue) && 0 <= points
      requires completions == FullBoxes(boxes)
      modifies this`boxes, this`nextCycle, this`liquid, this`completions
      ensures ok <==> CanPlace(old(ShelfNow()), s, points)
      ensures ok ==> ShelfNow() == Placed(old(ShelfNow()), s, points)
      ensures ok ==> liquid - old(liquid) == SumOf(boxes, Unspent) - SumOf(old(boxes), Unspent)
      ensures ok ==> completions == FullBoxes(boxes) && RowOk(boxes, nextCycle, s.id, s.pointValue)
    {
      hide Pour, Canonical, RowOk, Placed, SumOf, CyclesNeeded;
      ghost var before := ShelfNow();
      RowIsCanonical(boxes, nextCycle, s.id, s.pointValue);
      PlacingNothing(before, s);
      assert 0 <= Room(boxes) by { UnspentIsDifference(boxes); }
      var remaining := points;
      while 0 < remaining
        invariant 0 <= remaining <= points
        invariant RowOk(boxes, nextCycle, s.id, s.pointValue) && completions == FullBoxes(boxes)
        invariant CanPlace(before, s, points - remaining)
        invariant ShelfNow() == Placed(before, s, points - remaining)
        invariant liquid - old(liquid) == SumOf(boxes, Unspent) - SumOf(old(boxes), Unspent)
      {
        ghost var now := ShelfNow();
        assert 0 <= Room(now.boxes) by { PlacedIsCanonical(before, s, points - remaining); }
        var open := OpenBox(s);
        if open.None? {
          NoSeedNoPlace(before, s, points - remaining, points);
          return false;
        }
        var i := open.value;
        OpenBoxHasRoom(boxes, nextCycle, s.id, s.pointValue, i);
        var added := Min(remaining, boxes[i].capacity - boxes[i].filled);
        FillBox(s, i, added);
        PlacingGoesOn(before, now, s, points - remaining, added);
        remaining := remaining - added;
      }
      return true;
    }

    /** Convert the open and completed boxes of the former service. */
    method ConvertBoxes(former: nat)
      modifies this`boxes
      ensures boxes == RetiredOf(old(boxes), former)
    {
      ghost var before, retired := boxes, RetiredOf(boxes, former);
      hide RetiredOf;
      var i := 0;
      while i < |boxes|
        invariant i <= |boxes| == |before|
        invariant forall j :: 0 <= j < i ==> boxes[j] == retired[j]
        invariant forall j :: i <= j < |boxes| ==> boxes[j] == before[j]
      {
        var box := boxes[i];
        if box.service == former && !box.state.Converted? {
          boxes := boxes[i := box.(state := Converted)];
        }
        i := i + 1;
      }
    }

    /** Pay cash into the wallet unless the amount is not positive. */
    method CreditOnce(amount: int, key: Key, at: int) returns (ok: bool)
      modifies wallet`balance, wallet`rows
      ensures match PayOut(old(wallet.Ledger()), amount, key, at)
              case Some(after) => ok && wallet.Ledger() == after
              case None => !ok && wallet.Ledger() == old(wallet.Ledger())
    {
      if amount <= 0 { return true; }
      var error := wallet.CreditWallet(Kind.Bonus, amount, Some(key), at);
      return error.None?;
    }

    /** The first half of a rebase: completed value is paid out, the boxes retire, and the
        incomplete value is divided at the new price. */
    method SettleOldBoxes(price: int, reason: Reason, at: int) returns (split: Option<Split>)
      requires Valid() && reference.Some?
      modifies this`boxes, this`liquid, this`ledger, wallet`balance, wallet`rows
      ensures var former := reference.value.id; var bs := BoxesOf(old(boxes), former);
              var completed, incomplete := SumOf(bs, CompletedValue), SumOf(bs, IncompleteValue);
              var paid := PayOut(old(wallet.Ledger()), completed, RebaseCash(reason), at);
              && 0 <= incomplete
              && split == (if paid.None? then None else SplitValue(incomplete, price))
              && (split.Some? ==>
                    && wallet.Ledger() == paid.value
                    && boxes == RetiredOf(old(boxes), former) && liquid == 0
                    && ledger == old(ledger)
                       + When(0 < completed, Entry(ConvertedToWallet, former, -SumOf(bs, Unspent), completed,
                                                   CompletedOf(reason)))
                       + When(0 < incomplete, Entry(ServiceRebase, former, -SumOf(bs, OpenFilled), -incomplete,
                                                    OldIncompleteOf(reason))))
    {
      hide Inv, SumOf, SplitValue, PayOut, RetiredOf, BoxesOf, FullBoxes, When;
      var former := reference.value.id;
      var oldBoxes := BoxesOf(boxes, former);
      var completedValue, incompleteValue := SumOf(oldBoxes, CompletedValue), SumOf(oldBoxes, IncompleteValue);
      var completedPoints, incompletePoints := SumOf(oldBoxes, Unspent), SumOf(oldBoxes, OpenFilled);
      OnlyTheseAreLive(State(), prices);
      var sold := Entry(ConvertedToWallet, former, -completedPoints, completedValue, CompletedOf(reason));
      var moved := Entry(ServiceRebase, former, -incompletePoints, -incompleteValue, OldIncompleteOf(reason));
      ValuesAreNonNegative(State(), prices);
      RebaseDetails(State(), prices);
      WhenIs(0 < completedValue, sold);
      WhenIs(0 < incompleteValue, moved);
      var paid := CreditOnce(completedValue, RebaseCash(reason), at);
      if !paid { return None; }
      if 0 < completedValue {
        ledger := ledger + [sold];
        liquid := Max(0, liquid - completedPoints);
      }
      ConvertBoxes(former);
      split := SplitValue(incompleteValue, price);
      if split.Some? && 0 < incompleteValue { ledger := ledger + [moved]; }
    }

    /** Change the reference service, step by step. A refused step leaves the rest undone;
        the calling transaction then rolls back. */
    method RebaseAccount(s: Service, route: Route, at: int) returns (ok: bool)
      requires Valid() && Priced(prices, s)
      modifies this, wallet`balance, wallet`rows
      ensures var spec := Rebased(old(State()), s, Reason(route, id, s.id, old(nextCycle)), at);
              && (ok <==> spec.Some?)
              && (ok ==> State() == spec.value && Valid())
    {
      hide Pour, Canonical, RowOk, Placed, Inv, SumOf, CyclesNeeded, SplitValue, PayOut, Retired, RetiredOf, BoxesOf, FullBoxes, When,
           NewCycle, NewCycles, Outstanding, LiveValue;
      ghost var a := State();
      var reason := Reason(route, id, s.id, nextCycle);
      if reference.None? {
        reference := Some(s);
        ok := SeedBoxCycle(s);
        if ok {
          NewCycleNotFull(s, a.shelf.nextCycle);
          FullBoxesConcat(a.shelf.boxes, NewCycle(s, a.shelf.nextCycle));
          FirstReferenceKeepsInv(a, s, reason, at, prices);
        }
        return;
      }
      if reference.value.id == s.id { return true; }
      var former := reference.value.id;
      var split := SettleOldBoxes(s.pointValue, reason, at);
      if split.None? { return false; }
      SplitIsDivision(SumOf(BoxesOf(a.shelf.boxes, former), IncompleteValue), s.pointValue);
      OnlyTheseAreLive(a, prices);
      RetiredState(a, s, prices);
      RetiredEach(a.shelf.boxes);
      FullBoxesSame(a.shelf.boxes, boxes);
      ok := AdoptService(s, former, reason, split.value.points, split.value.remainder, at);
      if ok { RebaseKeepsInv(a, s, route, at, prices); }
    }

    /** The second half of a rebase: all boxes are retired, the new service takes over. */
    method AdoptService(s: Service, former: nat, reason: Reason, points: int, remainder: int, at: int)
        returns (ok: bool)
      requires RowOk(boxes, nextCycle, s.id, s.pointValue) && AllRetired(boxes) && completions == FullBoxes(boxes)
      requires liquid == 0 && 0 <= points && 0 <= remainder
      modifies this`reference, this`boxes, this`nextCycle, this`liquid, this`completions, this`ledger
      modifies wallet`balance, wallet`rows
      ensures var cycles := CyclesNeeded(CycleCapacity(s), if 0 < remainder then points else points + 1);
              var paid := PayOut(old(wallet.Ledger()), remainder, Key.RebaseRemainder(reason), at);
              var poured := Pour(NewCycles(s, old(nextCycle), cycles), points, 0);
              && (ok <==> paid.Some? && (CanSeed(s) || (points == 0 && 0 < remainder)))
              && (ok ==>
                    && reference == Some(s) && wallet.Ledger() == paid.value
                    && ShelfNow() == Shelf(old(boxes) + poured, old(nextCycle) + cycles)
                    && liquid == SumOf(poured, Unspent)
                    && completions == FullBoxes(boxes)
                    && ledger == old(ledger)
                       + When(0 < points, Entry(ServiceRebase, s.id, points, points * s.pointValue, NewIncompleteOf(reason)))
                       + When(0 < remainder, Entry(ConvertedToWallet, former, 0, remainder, RemainderOf(reason))))
    {
      hide Pour, Canonical, RowOk, Placed, Inv, SumOf, CyclesNeeded, PayOut, FullBoxes, When, NewCycle, FirstOpen, Room,
           Outstanding, LiveValue;
      ghost var before := ShelfNow();
      RowIsCanonical(boxes, nextCycle, s.id, s.pointValue);
      PlacedOnRetired(before, s, points);
      WhenIs(0 < points, Entry(ServiceRebase, s.id, points, points * s.pointValue, NewIncompleteOf(reason)));
      WhenIs(0 < remainder, Entry(ConvertedToWallet, former, 0, remainder, RemainderOf(reason)));
      reference := Some(s);
      if 0 < points {
        ok := SeedBoxCycle(s);
        if !ok { return; }
        SeedThenPlace(before, s, points);
        FullBoxesConcat(before.boxes, NewCycle(s, before.nextCycle));
        ok := PlacePoints(s, points);
        ledger := ledger + [Entry(ServiceRebase, s.id, points, points * s.pointValue, NewIncompleteOf(reason))];
      }
      assert ShelfNow() == Placed(before, s, points);
      if 0 < remainder {
        ok := CreditOnce(remainder, Key.RebaseRemainder(reason), at);
        if !ok { return; }
        ledger := ledger + [Entry(ConvertedToWallet, former, 0, remainder, RemainderOf(reason))];
      } else {
        PayNothing(wallet.Ledger(), remainder, Key.RebaseRemainder(reason), at);
        ghost var placed := ShelfNow();
        if FirstOpen(boxes, s.id).None? {
          NoOpenBoxMeansNoRoom(boxes, nextCycle, s.id, s.pointValue);
          ok := SeedBoxCycle(s);
          if !ok { return; }
          NewCycleNotFull(s, placed.nextCycle);
          FullBoxesConcat(placed.boxes, NewCycle(s, placed.nextCycle));
        } else {
          OpenBoxMeansRoom(boxes, nextCycle, s.id, s.pointValue);
          ok := true;
        }
        OpenBoxRemains(before, s, points);
      }
      ghost var n := CyclesNeeded(CycleCapacity(s), if 0 < remainder then points else points + 1);
      LiquidOfPoured(before.boxes, Pour(NewCycles(s, before.nextCycle, n), points, 0));
      return true;
    }

    /** Spend completed boxes in order. The boxes fall short exactly when less is redeemable
        than was asked for, so with the liquid balance checked this never refuses. */
    method SpendCompletedPoints(s: Service, points: int) returns (ok: bool)
      requires RowOk(boxes, nextCycle, s.id, s.pointValue) && completions == FullBoxes(boxes) && 0 < points
      modifies this`boxes
      ensures ok <==> points <= SumOf(old(boxes), Unspent)
      ensures ok ==> boxes == Drawn(old(boxes), points) && completions == FullBoxes(boxes)
    {
      hide Pour, Canonical, RowOk, Drawn, SumOf, FullBoxes;
      ghost var before := boxes;
      var remaining, i := points, 0;
      DrawingNothing(before, nextCycle, s);
      while i < |boxes|
        invariant 0 < remaining <= points && i <= |boxes|
        invariant boxes == Drawn(before, points - remaining)
        invariant RowOk(boxes, nextCycle, s.id, s.pointValue) && completions == FullBoxes(boxes)
        invariant points - remaining <= SumOf(before, Unspent)
        invariant forall j :: 0 <= j < i ==> UsedUp(boxes[j])
      {
        ghost var now := boxes;
        var box := boxes[i];
        if box.service == s.id && box.state.Complete? {
          var spent := Min(remaining, box.capacity - box.spent);
          if 0 < spent {
            boxes := boxes[i := box.(spent := box.spent + spent)];
            DrawMore(before, now, nextCycle, s, points - remaining, i, spent);
            FullBoxesSame(now, boxes);
            remaining := remaining - spent;
            if remaining == 0 { return true; }
          }
        }
        UsedUpOrForeign(now, nextCycle, s, i);
        i := i + 1;
      }
      NothingLeftToSpend(before, boxes, nextCycle, s, points - remaining);
      return false;
    }

    /** Put every row back as it was: the rollback of a transaction. */
    method Rollback(saved: Account, savedCompletions: seq<nat>)
      requires saved.id == id
      modifies this, wallet
      ensures State() == saved && completions == savedCompletions
    {
      reference, liquid, lifetime := saved.reference, saved.liquid, saved.lifetime;
      boxes, nextCycle := saved.shelf.boxes, saved.shelf.nextCycle;
      ledger, awards, redemptions, nonce := saved.ledger, saved.awards, saved.redemptions, saved.nonce;
      completions := savedCompletions;
      wallet.Restore(saved.book);
    }

    /** An administrator's change of the reference service, as it meets this account. */
    method SetActiveReferenceService(s: Service, at: int) returns (ok: bool)
      requires Valid() && Priced(prices, s)
      modifies this, wallet
      ensures Valid()
      ensures match Switched(old(State()), s, at)
              case Some(after) => ok && State() == after
              case None => !ok && State() == old(State())
    {
      hide Inv, Rebased, FullBoxes;
      if !IsValidReference(s) { return false; }
      var saved, savedCompletions := State(), completions;
      ok := RebaseAccount(s, BrandWide, at);
      if !ok { Rollback(saved, savedCompletions); }
    }

    /** Place and record an achievement's points, after a rebase where the reference
        service has changed. */
    method GrantPoints(award: nat, points: nat, program: Option<Service>, at: int) returns (ok: bool)
      requires Valid() && (program.Some? ==> Priced(prices, program.value)) && 0 < points
      modifies this, wallet`balance, wallet`rows
      ensures var spec := PointsGranted(old(State()), award, points, program, at);
              && (ok <==> spec.Some?)
              && (ok ==> State() == spec.value && completions == FullBoxes(boxes))
    {
      hide Pour, Canonical, RowOk, Placed, Inv, SumOf, FullBoxes, Rebased, LiveValue;
      ghost var a := State();
      if program.None? || !IsValidReference(program.value) { return false; }
      var s, claim := program.value, AwardOf(State(), award).claims + 1;
      ok := RebaseAccount(s, OnAchievement, at);
      if !ok { return; }
      RebasedKeepsInv(a, s, OnAchievement, at, prices);
      RowOfReference(State(), s, prices);
      ok := PlacePoints(s, points);
      lifetime := lifetime + points;
      ledger := ledger + [Entry(AchievementBonus, s.id, points, points * s.pointValue, ClaimOf(award, claim))];
    }

    /** Claim a completed achievement: its points, its cash and the new claim count. */
    method ClaimUserAchievement(award: nat, badge: Achievement, metrics: map<nat, int>, program: Option<Service>, at: int)
        returns (ok: bool)
      requires Valid() && (program.Some? ==> Priced(prices, program.value))
      modifies this, wallet
      ensures Valid()
      ensures match Claimed(old(State()), award, badge, metrics, program, at)
              case Some(after) => ok && State() == after
              case None => !ok && State() == old(State())
    {
      hide Inv, PointsGranted, FullBoxes, PayOut;
      ghost var a := State();
      var record := AwardOf(State(), award);
      if !IsComplete(badge, record, metrics) || (record.claimed && !badge.repeatable) { return false; }
      if badge.points == 0 && badge.amount <= 0 { return false; }
      var saved, savedCompletions := State(), completions;
      ok := true;
      if 0 < badge.points { ok := GrantPoints(award, badge.points * POINT, program, at); }
      if ok { ok := CreditOnce(badge.amount * CENT, AchievementCash(award, record.claims + 1), at); }
      if ok {
        awards := awards[award := Award(record.claims + 1, !badge.repeatable)];
        ClaimKeepsInv(a, award, badge, metrics, program, at, prices);
      } else {
        Rollback(saved, savedCompletions);
      }
    }

    /** Redeem completed points for the reference service; a request seen before changes
        nothing. */
    method RedeemRewardService(request: nat, program: Option<Service>, ready: bool, newNonce: nat, at: int)
        returns (ok: bool)
      requires Valid() && (program.Some? ==> Priced(prices, program.value))
      modifies this, wallet
      ensures Valid()
      ensures match RedeemedBy(old(State()), request, program, ready, newNonce, at)
              case Some(after) => ok && State() == after
              case None => !ok && State() == old(State())
    {
      hide Pour, Canonical, RowOk, Inv, SumOf, FullBoxes, Rebased, Drawn, LiveValue, Outstanding, Priced;
      ghost var a := State();
      if request in redemptions { return true; }
      if nonce != request || program.None? || !program.value.isActive { return false; }
      var s := program.value;
      var saved, savedCompletions := State(), completions;
      ok := RebaseAccount(s, OnRedemption, at);
      if ok && 0 < s.freePoints <= liquid && ready {
        ghost var b := State();
        RebasedKeepsInv(a, s, OnRedemption, at, prices);
        RowOfReference(b, s, prices);
        redemptions := redemptions + [request];
        liquid := liquid - s.freePoints;
        ok := SpendCompletedPoints(s, s.freePoints);
        nonce := newNonce;
        ledger := ledger + [Entry(Redeemed, s.id, -s.freePoints, -(s.freePoints * s.pointValue),
                                  RedemptionOf(|redemptions| - 1))];
        RedeemKeepsInv(b, s, request, newNonce, prices);
      } else {
        Rollback(saved, savedCompletions);
        ok := false;
      }
    }
  }

  lemma DrawingNothing(bs: seq<Box>, cycle: nat, s: Service)
    requires RowOk(bs, cycle, s.id, s.pointValue)
    ensures Drawn(bs, 0) == bs && 0 <= SumOf(bs, Unspent)
  {
    RowIsCanonical(bs, cycle, s.id, s.pointValue);
    PouredBoxes(bs, SumOf(bs, LiveFilled), SumOf(bs, LiveSpent));
    SumNonNegative(bs, Unspent);
  }

  /** One turn of the spending loop. */
  lemma DrawMore(before: seq<Box>, now: seq<Box>, cycle: nat, s: Service, drawn: int, i: nat, spent: int)
    requires RowOk(before, cycle, s.id, s.pointValue) && RowOk(now, cycle, s.id, s.pointValue)
    requires 0 <= drawn <= SumOf(before, Unspent) && now == Drawn(before, drawn)
    requires i < |now| && now[i].state.Complete? && 0 < spent <= now[i].capacity - now[i].spent
    requires forall j :: 0 <= j < i ==> UsedUp(now[j])
    ensures var after := now[i := now[i].(spent := now[i].spent + spent)];
            && after == Drawn(before, drawn + spent) && drawn + spent <= SumOf(before, Unspent)
            && RowOk(after, cycle, s.id, s.pointValue)
  {
    hide Pour, Canonical, RowOk;
    RowIsCanonical(before, cycle, s.id, s.pointValue);
    RowIsCanonical(now, cycle, s.id, s.pointValue);
    DrawnIsCanonical(before, drawn);
    assert spent <= SumOf(now, Unspent) && 0 <= SumOf(now, LiveSpent) by { OneOfUnspent(now, i); }
    UsedUpToAll(now, i);
    assert PouredFrom(now, SumOf(now, LiveFilled), SumOf(now, LiveSpent)) by { CanonicalIsPoured(now); }
    SpendStep(now, SumOf(now, LiveFilled), SumOf(now, LiveSpent), i, spent);
    DrawsDoNotMatter(before, drawn, spent);
    DrawnIsCanonical(now, spent);
    PouredRowOk(now, cycle, s.id, s.pointValue, SumOf(now, LiveFilled), SumOf(now, LiveSpent) + spent);
  }

  lemma CanonicalIsPoured(bs: seq<Box>)
    requires Canonical(bs)
    ensures PouredFrom(bs, SumOf(bs, LiveFilled), SumOf(bs, LiveSpent))
  {
  }

  lemma OneOfUnspent(bs: seq<Box>, i: nat)
    requires Canonical(bs) && i < |bs|
    ensures Unspent(bs[i]) <= SumOf(bs, Unspent) && 0 <= SumOf(bs, LiveSpent)
  {
    PouredBoxes(bs, SumOf(bs, LiveFilled), SumOf(bs, LiveSpent));
    UnspentIsDifference(bs);
    SumNonNegative(bs, Unspent);
    assert bs[i] in bs;
  }

  /** A box that the query does not return offers nothing, and neither does one just passed. */
  lemma UsedUpOrForeign(bs: seq<Box>, cycle: nat, s: Service, i: nat)
    requires RowOk(bs, cycle, s.id, s.pointValue) && i < |bs|
    ensures bs[i].state.Complete? ==> bs[i].service == s.id && bs[i].spent <= bs[i].capacity
  {
    PouredBoxes(bs, SumOf(bs, LiveFilled), SumOf(bs, LiveSpent));
    assert bs[i] in bs;
  }

  lemma NothingLeftToSpend(before: seq<Box>, now: seq<Box>, cycle: nat, s: Service, drawn: int)
    requires RowOk(before, cycle, s.id, s.pointValue) && RowOk(now, cycle, s.id, s.pointValue)
    requires 0 <= drawn <= SumOf(before, Unspent) && now == Drawn(before, drawn)
    requires forall j :: 0 <= j < |now| ==> UsedUp(now[j])
    ensures drawn == SumOf(before, Unspent)
  {
    hide Pour, Canonical, RowOk;
    RowIsCanonical(before, cycle, s.id, s.pointValue);
    DrawnIsCanonical(before, drawn);
    AllUsedUp(now);
  }

  lemma {:induction false} AllUsedUp(bs: seq<Box>)
    requires forall j :: 0 <= j < |bs| ==> UsedUp(bs[j])
    ensures SumOf(bs, Unspent) == 0
  {
    if bs != [] { AllUsedUp(bs[1..]); }
  }

  lemma RowOfReference(a: Account, s: Service, prices: map<nat, int>)
    requires Inv(a, prices) && a.reference.Some? && a.reference.value.id == s.id && Priced(prices, s)
    ensures RowOk(a.shelf.boxes, a.shelf.nextCycle, s.id, s.pointValue)
    ensures a.liquid == SumOf(a.shelf.boxes, Unspent)
    ensures a.reference.value.pointValue == s.pointValue
  {
  }

  /** An open box remains after a rebase without a cash remainder: the cycles created are
      those that one more point would need. */
  lemma OpenBoxRemains(before: Shelf, s: Service, points: int)
    requires AllRetired(before.boxes) && Canonical(before.boxes) && 0 <= points && CanSeed(s)
    ensures var placed := Placed(before, s, points);
            var m := CyclesNeeded(CycleCapacity(s), points + 1);
            var wanted := Shelf(before.boxes + Pour(NewCycles(s, before.nextCycle, m), points, 0), before.nextCycle + m);
            && 0 <= Room(placed.boxes)
            && (Room(placed.boxes) == 0 ==>
                  && wanted == Shelf(placed.boxes + NewCycle(s, placed.nextCycle), placed.nextCycle + 1)
                  && SumOf(wanted.boxes, Unspent) == SumOf(placed.boxes, Unspent))
            && (0 < Room(placed.boxes) ==> wanted == placed)
  {
    hide Pour, Canonical, Placed, NewCycles;
    var per, n := CycleCapacity(s), CyclesNeeded(CycleCapacity(s), points);
    PlacedIsCanonical(before, s, points);
    PlacedOnRetired(before, s, points);
    CyclesAreEmpty(s, before.nextCycle, n);
    CyclesNeededSplit(per, points, points + 1);
    if Times(n, per) == points {
      assert CyclesNeeded(per, 1) == 1;
      OneMoreCycle(before, s, points, n);
    }
  }

  lemma OneMoreCycle(before: Shelf, s: Service, points: int, n: nat)
    requires Times(n, CycleCapacity(s)) == points && 0 <= points
    ensures var front := before.boxes + Pour(NewCycles(s, before.nextCycle, n), points, 0);
            var all := before.boxes + Pour(NewCycles(s, before.nextCycle, n + 1), points, 0);
            && all == front + NewCycle(s, before.nextCycle + n)
            && SumOf(all, Unspent) == SumOf(front, Unspent)
  {
    hide Pour;
    var front, last := NewCycles(s, before.nextCycle, n), NewCycle(s, before.nextCycle + n);
    CyclesAreEmpty(s, before.nextCycle, n);
    CycleIsEmpty(s.slots, s.id, s.pointValue, before.nextCycle + n);
    PourConcat(front, last, points, 0);
    EmptyStaysEmpty(last, 0, -points);
    EmptyUnspent(last);
    SumConcat(before.boxes + Pour(front, points, 0), last, Unspent);
  }

  lemma LiquidOfPoured(bs: seq<Box>, poured: seq<Box>)
    requires SumOf(bs, Unspent) == 0
    ensures SumOf(bs + poured, Unspent) == SumOf(poured, Unspent)
  {
    SumConcat(bs, poured, Unspent);
  }

  lemma WhenIs(condition: bool, e: Entry)
    ensures When(condition, e) == if condition then [e] else []
  {
  }

  lemma PayNothing(b: Book, amount: int, key: Key, at: int)
    requires amount <= 0
    ensures PayOut(b, amount, key, at) == Some(b)
  {
  }

  lemma RetiredState(a: Account, s: Service, prices: map<nat, int>)
    requires Inv(a, prices)
    ensures RowOk(Retired(a.shelf.boxes), a.shelf.nextCycle, s.id, s.pointValue) && AllRetired(Retired(a.shelf.boxes))
  {
    RetiredRowOk(a.shelf.boxes, a.shelf.nextCycle, s.id, s.pointValue);
  }

  /** Placing points on a retired shelf is pouring them into new cycles. */
  lemma PlacedOnRetired(shelf: Shelf, s: Service, points: int)
    requires AllRetired(shelf.boxes) && Canonical(shelf.boxes) && 0 <= points
    ensures var n := CyclesNeeded(CycleCapacity(s), points);
            Placed(shelf, s, points)
              == Shelf(shelf.boxes + Pour(NewCycles(s, shelf.nextCycle, n), points, 0), shelf.nextCycle + n)
    ensures Room(shelf.boxes) == 0 && SumOf(shelf.boxes, Unspent) == 0
    ensures points == 0 ==> Placed(shelf, s, points) == shelf
  {
    hide Pour, Canonical, NewCycles, CyclesNeeded;
    CanonicalIsSized(shelf.boxes);
    var cs := NewCycles(s, shelf.nextCycle, CyclesNeeded(CycleCapacity(s), points));
    NothingLive(shelf.boxes);
    PourConcat(shelf.boxes, cs, points, 0);
    if points == 0 { PlacingNothing(shelf, s); }
  }

  lemma {:induction false} RetiredEach(bs: seq<Box>)
    ensures forall i :: 0 <= i < |bs| ==> Retired(bs)[i] == Retire(bs[i])
  {
    if bs != [] { RetiredEach(bs[1..]); }
  }

  lemma NewCycleNotFull(s: Service, cycle: nat)
    ensures forall b :: b in NewCycle(s, cycle) ==> b.filled != b.capacity
  {
    CycleIsEmpty(s.slots, s.id, s.pointValue, cycle);
  }

  /** What the old boxes contribute: nothing liquid remains once completed value is paid. */
  lemma RebaseDetails(a: Account, prices: map<nat, int>)
    requires Inv(a, prices) && a.reference.Some?
    ensures a.liquid == SumOf(a.shelf.boxes, Unspent) && 0 <= a.liquid
    ensures SumOf(a.shelf.boxes, CompletedValue) == 0 ==> a.liquid == 0
  {
    LiveValueIsPriced(a, prices);
    if SumOf(a.shelf.boxes, CompletedValue) == 0 { NoValueNoPoints(PriceOf(a), a.liquid); }
  }

  lemma OpenBoxHasRoom(bs: seq<Box>, cycle: nat, service: nat, price: int, i: nat)
    requires RowOk(bs, cycle, service, price) && i < |bs| && bs[i].state.Open?
    ensures bs[i].filled < bs[i].capacity
  {
    PouredBoxes(bs, SumOf(bs, LiveFilled), SumOf(bs, LiveSpent));
    assert bs[i] in bs;
  }
}
