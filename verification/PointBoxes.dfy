/** Capacity-bounded point boxes and the two running totals that determine them.
    Points are counted in units of the eighth decimal place, prices in cents, so a point
    amount times a price is an exact amount of wallet money. */
module PointBoxes {
  import opened Prelude

  datatype BoxState = Open | Complete | Converted

  datatype Box = Box(service: nat, cycle: nat, sequence: nat, capacity: int, filled: int, spent: int,
                     price: int, state: BoxState)

  datatype Slot = Slot(sequence: nat, capacity: int)

  datatype ServiceRow = ServiceRow(id: nat, pointValue: int, slots: seq<Slot>, freePoints: int,
                                   isActive: bool, planActive: bool, hasCurrency: bool)

  /** The database constraints on a service's box layout, read in sequence order. */
  predicate IsLayout(slots: seq<Slot>) {
    && (forall i :: 0 <= i < |slots| ==> 0 < slots[i].capacity)
    && (forall i, j :: 0 <= i < j < |slots| ==> slots[i].sequence < slots[j].sequence)
  }

  type Service = s: ServiceRow | IsLayout(s.slots) witness ServiceRow(0, 0, [], 0, false, false, false)

  // ----- columns -----

  predicate IsLive(b: Box) {
    !b.state.Converted?
  }

  function LiveCapacity(b: Box): int {
    if IsLive(b) then b.capacity else 0
  }

  function LiveFilled(b: Box): int {
    if IsLive(b) then b.filled else 0
  }

  function LiveSpent(b: Box): int {
    if IsLive(b) then b.spent else 0
  }

  function CompleteCapacity(b: Box): int {
    if b.state.Complete? then b.capacity else 0
  }

  /** What a completed box still offers for redemption. */
  function Unspent(b: Box): int {
    if b.state.Complete? then b.capacity - b.spent else 0
  }

  function OpenFilled(b: Box): int {
    if b.state.Open? then b.filled else 0
  }

  function CompletedValue(b: Box): int {
    Unspent(b) * b.price
  }

  function IncompleteValue(b: Box): int {
    OpenFilled(b) * b.price
  }

  function SlotCapacity(s: Slot): int {
    s.capacity
  }

  /** Points that live boxes hold and that no redemption has used. */
  function Outstanding(bs: seq<Box>): int {
    SumOf(bs, LiveFilled) - SumOf(bs, LiveSpent)
  }

  /** Free room in the live boxes. */
  function Room(bs: seq<Box>): int {
    SumOf(bs, LiveCapacity) - SumOf(bs, LiveFilled)
  }

  // ----- boxes determined by running totals -----

  function Clamp(x: int, high: int): int {
    if x <= 0 then 0 else if high <= x then high else x
  }

  /** A live box whose predecessors leave it `fill` of the filled total and `spend` of the
      spent total. */
  function Shape(b: Box, fill: int, spend: int): Box {
    if !IsLive(b) then b else
      var filled := Clamp(fill, b.capacity);
      b.(filled := filled, spent := Clamp(spend, b.capacity),
         state := if filled == b.capacity then Complete else Open)
  }

  /** The reference layout: two running totals poured from the left into the live boxes. */
  function Pour(bs: seq<Box>, filled: int, spent: int): (poured: seq<Box>)
    ensures |poured| == |bs|
  {
    if bs == [] then [] else
      [Shape(bs[0], filled, spent)]
      + Pour(bs[1..], filled - LiveCapacity(bs[0]), spent - LiveCapacity(bs[0]))
  }

  ghost predicate Sized(bs: seq<Box>) {
    forall b :: b in bs ==> 0 < b.capacity
  }

  /** Boxes are exactly what the totals pour to, and only completed boxes are spent. */
  ghost predicate PouredFrom(bs: seq<Box>, filled: int, spent: int) {
    && Sized(bs)
    && bs == Pour(bs, filled, spent)
    && spent <= SumOf(bs, CompleteCapacity)
  }

  ghost predicate Canonical(bs: seq<Box>) {
    PouredFrom(bs, SumOf(bs, LiveFilled), SumOf(bs, LiveSpent))
  }

  lemma PourTail(bs: seq<Box>, filled: int, spent: int)
    requires bs != []
    ensures Pour(bs, filled, spent)[0] == Shape(bs[0], filled, spent)
    ensures Pour(bs, filled, spent)[1..]
         == Pour(bs[1..], filled - LiveCapacity(bs[0]), spent - LiveCapacity(bs[0]))
  {
  }

  /** Pouring depends only on the layout, not on what the boxes held before. */
  lemma {:induction false} PourTwice(bs: seq<Box>, filled: int, spent: int, filled': int, spent': int)
    ensures Pour(Pour(bs, filled, spent), filled', spent') == Pour(bs, filled', spent')
  {
    if bs != [] {
      var c := LiveCapacity(bs[0]);
      PourTail(bs, filled, spent);
      PourTwice(bs[1..], filled - c, spent - c, filled' - c, spent' - c);
    }
  }

  lemma {:induction false} PourConcat(bs: seq<Box>, cs: seq<Box>, filled: int, spent: int)
    ensures Pour(bs + cs, filled, spent)
         == Pour(bs, filled, spent)
          + Pour(cs, filled - SumOf(bs, LiveCapacity), spent - SumOf(bs, LiveCapacity))
  {
    if bs == [] {
      assert bs + cs == cs;
    } else {
      var c := LiveCapacity(bs[0]);
      assert (bs + cs)[1..] == bs[1..] + cs;
      PourConcat(bs[1..], cs, filled - c, spent - c);
    }
  }

  /** A poured total is found again in the boxes, up to their capacity. */
  lemma {:induction false} PouredTotals(bs: seq<Box>, filled: int, spent: int)
    requires Sized(bs)
    ensures 0 <= SumOf(bs, LiveCapacity)
    ensures SumOf(Pour(bs, filled, spent), LiveFilled) == Clamp(filled, SumOf(bs, LiveCapacity))
    ensures SumOf(Pour(bs, filled, spent), LiveSpent) == Clamp(spent, SumOf(bs, LiveCapacity))
    ensures SumOf(Pour(bs, filled, spent), LiveCapacity) == SumOf(bs, LiveCapacity)
    ensures Sized(Pour(bs, filled, spent))
  {
    if bs != [] {
      var c := LiveCapacity(bs[0]);
      PourTail(bs, filled, spent);
      assert Sized(bs[1..]);
      PouredTotals(bs[1..], filled - c, spent - c);
      var ps := Pour(bs, filled, spent);
      assert forall b :: b in ps ==> b == ps[0] || b in ps[1..];
    }
  }

  /** Completed capacity never exceeds the filled total and only grows with it. */
  lemma {:induction false} CompletedTotals(bs: seq<Box>, filled: int, spent: int, filled': int, spent': int)
    requires Sized(bs) && filled <= filled'
    ensures 0 <= SumOf(Pour(bs, filled, spent), CompleteCapacity)
              <= SumOf(Pour(bs, filled', spent'), CompleteCapacity)
    ensures SumOf(Pour(bs, filled, spent), CompleteCapacity) <= Clamp(filled, SumOf(bs, LiveCapacity))
  {
    PouredTotals(bs, filled, spent);
    if bs != [] {
      var c := LiveCapacity(bs[0]);
      PourTail(bs, filled, spent);
      PourTail(bs, filled', spent');
      assert Sized(bs[1..]);
      CompletedTotals(bs[1..], filled - c, spent - c, filled' - c, spent' - c);
      PouredTotals(bs[1..], filled - c, spent - c);
    }
  }

  /** A poured row splits into its first box and a poured tail. */
  lemma PouredFromTail(bs: seq<Box>, filled: int, spent: int)
    requires PouredFrom(bs, filled, spent) && bs != []
    ensures bs[0] == Shape(bs[0], filled, spent)
    ensures PouredFrom(bs[1..], filled - LiveCapacity(bs[0]), spent - LiveCapacity(bs[0]))
    ensures bs[0].state.Open? ==> spent <= 0
  {
    var c := LiveCapacity(bs[0]);
    PourTail(bs, filled, spent);
    assert Sized(bs[1..]);
    if bs[0].state.Open? {
      CompletedTotals(bs[1..], filled - c, spent - c, filled - c, spent - c);
    }
  }

  /** The facts that a poured row gives about each single box. */
  lemma {:induction false} PouredBoxes(bs: seq<Box>, filled: int, spent: int)
    requires PouredFrom(bs, filled, spent)
    ensures forall b :: b in bs && IsLive(b) ==>
      && 0 <= b.spent <= b.filled <= b.capacity
      && (b.state.Complete? <==> b.filled == b.capacity)
      && (b.state.Open? ==> b.spent == 0)
  {
    if bs != [] {
      PouredFromTail(bs, filled, spent);
      PouredBoxes(bs[1..], filled - LiveCapacity(bs[0]), spent - LiveCapacity(bs[0]));
      assert forall b :: b in bs ==> b == bs[0] || b in bs[1..];
    }
  }

  /** At most the first open box is partly filled; no box after it is complete. */
  lemma {:induction false} OnlyFirstOpenIsPartlyFilled(bs: seq<Box>, filled: int, spent: int, i: nat, j: nat)
    requires PouredFrom(bs, filled, spent) && i < j < |bs| && bs[i].state.Open? && IsLive(bs[j])
    ensures bs[j].state.Open? && bs[j].filled == 0
  {
    PouredFromTail(bs, filled, spent);
    var c := LiveCapacity(bs[0]);
    if i > 0 {
      OnlyFirstOpenIsPartlyFilled(bs[1..], filled - c, spent - c, i - 1, j - 1);
    } else {
      EmptyWhenNothingIsLeft(bs[1..], filled - c, spent - c, j - 1);
    }
  }

  lemma {:induction false} EmptyWhenNothingIsLeft(bs: seq<Box>, filled: int, spent: int, j: nat)
    requires PouredFrom(bs, filled, spent) && filled <= 0 && j < |bs| && IsLive(bs[j])
    ensures bs[j].state.Open? && bs[j].filled == 0
  {
    PouredFromTail(bs, filled, spent);
    if j > 0 {
      EmptyWhenNothingIsLeft(bs[1..], filled - LiveCapacity(bs[0]), spent - LiveCapacity(bs[0]), j - 1);
    }
  }

  /** Completed boxes feed exactly the redeemable points, and open boxes hold the rest. */
  lemma UnspentIsDifference(bs: seq<Box>)
    requires Canonical(bs)
    ensures SumOf(bs, Unspent) == SumOf(bs, CompleteCapacity) - SumOf(bs, LiveSpent)
    ensures SumOf(bs, Unspent) + SumOf(bs, OpenFilled) == Outstanding(bs)
    ensures 0 <= SumOf(bs, LiveSpent) <= SumOf(bs, LiveFilled) <= SumOf(bs, LiveCapacity)
  {
    PouredBoxes(bs, SumOf(bs, LiveFilled), SumOf(bs, LiveSpent));
    SumSplit(bs, CompleteCapacity, Unspent, LiveSpent);
    SumSplit(bs, LiveFilled, CompleteCapacity, OpenFilled);
    SumNonNegative(bs, LiveSpent);
    SumLe(bs, LiveSpent, LiveFilled);
    SumLe(bs, LiveFilled, LiveCapacity);
  }

  /** Any poured layout whose spent total stays inside completed boxes is canonical. */
  lemma PourIsCanonical(bs: seq<Box>, filled: int, spent: int)
    requires Sized(bs) && 0 <= spent <= filled <= SumOf(bs, LiveCapacity)
    requires spent <= SumOf(Pour(bs, filled, spent), CompleteCapacity)
    ensures Canonical(Pour(bs, filled, spent))
    ensures SumOf(Pour(bs, filled, spent), LiveFilled) == filled
    ensures SumOf(Pour(bs, filled, spent), LiveSpent) == spent
  {
    PouredTotals(bs, filled, spent);
    PourTwice(bs, filled, spent, filled, spent);
  }

  // ----- one step of filling and one step of spending -----

  function AddTo(b: Box, added: int): Box {
    b.(filled := b.filled + added, state := if b.filled + added == b.capacity then Complete else Open)
  }

  /** Filling or completing the first open box moves the filled total and nothing else. */
  lemma {:induction false} FillStep(bs: seq<Box>, filled: int, spent: int, i: nat, added: int)
    requires PouredFrom(bs, filled, spent) && 0 <= filled
    requires i < |bs| && bs[i].state.Open?
    requires forall j :: 0 <= j < i ==> !bs[j].state.Open?
    requires 0 <= added <= bs[i].capacity - bs[i].filled
    ensures Pour(bs, filled + added, spent) == bs[i := AddTo(bs[i], added)]
  {
    hide Pour, SumOf;
    if i == 0 {
      FillHead(bs, filled, spent, added);
    } else {
      var c, box := LiveCapacity(bs[0]), AddTo(bs[i], added);
      assert c <= filled && Shape(bs[0], filled + added, spent) == bs[0] by {
        PouredFromTail(bs, filled, spent);
      }
      assert Pour(bs[1..], filled + added - c, spent - c) == bs[1..][i - 1 := box] by {
        PouredFromTail(bs, filled, spent);
        FillStep(bs[1..], filled - c, spent - c, i - 1, added);
        assert filled - c + added == filled + added - c;
      }
      ChangeInTail(bs, filled + added, spent, i, box);
    }
  }

  lemma FillHead(bs: seq<Box>, filled: int, spent: int, added: int)
    requires PouredFrom(bs, filled, spent) && 0 <= filled
    requires bs != [] && bs[0].state.Open?
    requires 0 <= added <= bs[0].capacity - bs[0].filled
    ensures Pour(bs, filled + added, spent) == bs[0 := AddTo(bs[0], added)]
  {
    var c := LiveCapacity(bs[0]);
    PouredFromTail(bs, filled, spent);
    PourNothingMore(bs[1..], filled - c, filled + added - c, spent - c);
    UpdateSplits(bs, 0, AddTo(bs[0], added));
  }

  lemma UpdateSplits(bs: seq<Box>, i: nat, box: Box)
    requires i < |bs|
    ensures bs[i := box] == if i == 0 then [box] + bs[1..] else [bs[0]] + bs[1..][i - 1 := box]
  {
  }

  /** Boxes that no poured point reaches do not depend on the filled total. */
  lemma {:induction false} PourNothingMore(bs: seq<Box>, filled: int, filled': int, spent: int)
    requires Sized(bs) && filled <= 0 && filled' <= 0
    ensures Pour(bs, filled', spent) == Pour(bs, filled, spent)
  {
    if bs != [] {
      var c := LiveCapacity(bs[0]);
      assert Sized(bs[1..]);
      PourNothingMore(bs[1..], filled - c, filled' - c, spent - c);
    }
  }

  lemma {:induction false} SpendNothingMore(bs: seq<Box>, filled: int, spent: int, spent': int)
    requires Sized(bs) && spent <= 0 && spent' <= 0
    ensures Pour(bs, filled, spent') == Pour(bs, filled, spent)
  {
    if bs != [] {
      var c := LiveCapacity(bs[0]);
      assert Sized(bs[1..]);
      SpendNothingMore(bs[1..], filled - c, spent - c, spent' - c);
    }
  }

  /** The box offers nothing to a redemption. */
  predicate UsedUp(b: Box) {
    b.state.Complete? ==> b.spent == b.capacity
  }

  predicate UsedUpTo(bs: seq<Box>, i: nat)
    requires i <= |bs|
  {
    i == 0 || (UsedUp(bs[0]) && UsedUpTo(bs[1..], i - 1))
  }

  lemma {:induction false} UsedUpToAll(bs: seq<Box>, i: nat)
    requires i <= |bs| && forall j :: 0 <= j < i ==> UsedUp(bs[j])
    ensures UsedUpTo(bs, i)
  {
    if i > 0 { UsedUpToAll(bs[1..], i - 1); }
  }

  /** Spending from the first completed box that still offers something moves the spent
      total and nothing else. */
  lemma {:induction false} SpendStep(bs: seq<Box>, filled: int, spent: int, i: nat, used: int)
    requires PouredFrom(bs, filled, spent) && 0 <= spent
    requires i < |bs| && bs[i].state.Complete?
    requires UsedUpTo(bs, i)
    requires 0 < used <= bs[i].capacity - bs[i].spent
    ensures Pour(bs, filled, spent + used) == bs[i := bs[i].(spent := bs[i].spent + used)]
  {
    hide Pour, Shape, SumOf, PouredFrom;
    if i == 0 {
      SpendHead(bs, filled, spent, used);
    } else {
      var c, box := LiveCapacity(bs[0]), bs[i].(spent := bs[i].spent + used);
      assert c <= spent && Shape(bs[0], filled, spent + used) == bs[0] by {
        SpentThrough(bs, filled, spent, i, used);
      }
      assert Pour(bs[1..], filled - c, spent + used - c) == bs[1..][i - 1 := box] by {
        PouredFromTail(bs, filled, spent);
        SpendStep(bs[1..], filled - c, spent - c, i - 1, used);
        assert spent - c + used == spent + used - c;
      }
      ChangeInTail(bs, filled, spent + used, i, box);
    }
  }

  /** A row whose first box keeps its shape pours to a change inside its tail. */
  lemma ChangeInTail(bs: seq<Box>, filled: int, spent: int, i: nat, box: Box)
    requires 0 < i < |bs| && Shape(bs[0], filled, spent) == bs[0]
    requires Pour(bs[1..], filled - LiveCapacity(bs[0]), spent - LiveCapacity(bs[0])) == bs[1..][i - 1 := box]
    ensures Pour(bs, filled, spent) == bs[i := box]
  {
  }

  lemma SpendHead(bs: seq<Box>, filled: int, spent: int, used: int)
    requires PouredFrom(bs, filled, spent) && 0 <= spent
    requires bs != [] && bs[0].state.Complete?
    requires 0 < used <= bs[0].capacity - bs[0].spent
    ensures Pour(bs, filled, spent + used) == bs[0 := bs[0].(spent := bs[0].spent + used)]
  {
    hide SumOf;
    var c, box := LiveCapacity(bs[0]), bs[0].(spent := bs[0].spent + used);
    assert Pour(bs[1..], filled - c, spent + used - c) == bs[1..] by {
      PouredFromTail(bs, filled, spent);
      SpendNothingMore(bs[1..], filled - c, spent - c, spent + used - c);
    }
    assert Shape(bs[0], filled, spent + used) == box by { PouredFromTail(bs, filled, spent); }
    UpdateSplits(bs, 0, box);
  }

  /** A fully spent or converted first box stays as it is when more is spent. */
  lemma SpentThrough(bs: seq<Box>, filled: int, spent: int, i: nat, used: int)
    requires PouredFrom(bs, filled, spent) && 0 <= spent && 0 <= used
    requires 0 < i < |bs| && bs[i].state.Complete?
    requires UsedUp(bs[0])
    ensures LiveCapacity(bs[0]) <= spent && Shape(bs[0], filled, spent + used) == bs[0]
  {
    PouredFromTail(bs, filled, spent);
    if bs[0].state.Open? { OnlyFirstOpenIsPartlyFilled(bs, filled, spent, 0, i); }
  }

  /** When every box in front is complete or converted, the totals reach box i. */
  lemma {:induction false} FullWhenNoneIsOpen(bs: seq<Box>, filled: int, spent: int)
    requires PouredFrom(bs, filled, spent)
    requires forall b :: b in bs ==> !b.state.Open?
    ensures SumOf(bs, LiveFilled) == SumOf(bs, LiveCapacity)
  {
    PouredBoxes(bs, filled, spent);
    SumSame(bs, LiveFilled, LiveCapacity);
  }

  // ----- cycles of new boxes -----

  /** The boxes of one account, and the number of the next cycle to create. */
  datatype Shelf = Shelf(boxes: seq<Box>, nextCycle: nat)

  /** The boxes of one cycle, one for each slot of the service's layout. */
  function CycleOf(slots: seq<Slot>, service: nat, price: int, cycle: nat): (bs: seq<Box>)
    ensures |bs| == |slots|
  {
    if slots == [] then [] else
      [Box(service, cycle, slots[0].sequence, slots[0].capacity, 0, 0, price, Open)]
      + CycleOf(slots[1..], service, price, cycle)
  }

  function NewCycle(s: Service, cycle: nat): seq<Box> {
    CycleOf(s.slots, s.id, s.pointValue, cycle)
  }

  function NewCycles(s: Service, cycle: nat, n: nat): seq<Box> {
    if n == 0 then [] else NewCycles(s, cycle, n - 1) + NewCycle(s, cycle + n - 1)
  }

  function CycleCapacity(s: Service): int {
    SumOf(s.slots, SlotCapacity)
  }

  /** The room that n cycles offer. */
  function Times(n: nat, perCycle: int): int {
    if n == 0 then 0 else Times(n - 1, perCycle) + perCycle
  }

  lemma {:induction false} TimesNonNegative(n: nat, perCycle: int)
    requires 0 <= perCycle
    ensures 0 <= Times(n, perCycle)
  {
    if n > 0 { TimesNonNegative(n - 1, perCycle); }
  }

  /** The least number of cycles that makes room for `missing` more points. */
  function CyclesNeeded(perCycle: int, missing: int): (n: nat)
    ensures 0 < perCycle ==> missing <= Times(n, perCycle) && (n == 0 || Times(n - 1, perCycle) < missing)
    decreases if missing < 0 then 0 else missing
  {
    if missing <= 0 || perCycle <= 0 then 0 else 1 + CyclesNeeded(perCycle, missing - perCycle)
  }

  /** A new cycle can be created: the service has boxes and a positive point value. */
  predicate CanSeed(s: Service) {
    s.slots != [] && 0 < s.pointValue
  }

  predicate CanPlace(shelf: Shelf, s: Service, points: int) {
    points <= Room(shelf.boxes) || CanSeed(s)
  }

  /** What placing points must produce: the fewest extra cycles, and all live boxes poured
      from a filled total that is larger by exactly the placed points. */
  function Placed(shelf: Shelf, s: Service, points: int): Shelf {
    var n := CyclesNeeded(CycleCapacity(s), points - Room(shelf.boxes));
    Shelf(Pour(shelf.boxes + NewCycles(s, shelf.nextCycle, n),
               SumOf(shelf.boxes, LiveFilled) + points, SumOf(shelf.boxes, LiveSpent)),
          shelf.nextCycle + n)
  }

  /** Boxes just created: open and empty. */
  ghost predicate Empty(bs: seq<Box>) {
    forall b :: b in bs ==> 0 < b.capacity && b.filled == b.spent == 0 && b.state.Open?
  }

  lemma {:induction false} EmptyTotals(bs: seq<Box>)
    requires Empty(bs)
    ensures Sized(bs) && 0 <= SumOf(bs, LiveCapacity)
    ensures SumOf(bs, LiveFilled) == SumOf(bs, LiveSpent) == SumOf(bs, CompleteCapacity) == 0
  {
    if bs != [] { EmptyTotals(bs[1..]); }
  }

  lemma {:induction false} EmptyStaysEmpty(bs: seq<Box>, filled: int, spent: int)
    requires Empty(bs) && filled <= 0 && spent <= 0
    ensures Pour(bs, filled, spent) == bs
  {
    if bs != [] {
      EmptyStaysEmpty(bs[1..], filled - LiveCapacity(bs[0]), spent - LiveCapacity(bs[0]));
    }
  }

  lemma {:induction false} CycleIsEmpty(slots: seq<Slot>, service: nat, price: int, cycle: nat)
    requires IsLayout(slots)
    ensures Empty(CycleOf(slots, service, price, cycle))
    ensures SumOf(CycleOf(slots, service, price, cycle), LiveCapacity) == SumOf(slots, SlotCapacity)
    ensures slots != [] ==> 0 < SumOf(slots, SlotCapacity)
  {
    if slots != [] { CycleIsEmpty(slots[1..], service, price, cycle); }
  }

  lemma NoBoxes()
    ensures SumOf<Box>([], LiveCapacity) == 0
  {
  }

  lemma {:induction false} CyclesAreEmpty(s: Service, cycle: nat, n: nat)
    ensures Empty(NewCycles(s, cycle, n))
    ensures SumOf(NewCycles(s, cycle, n), LiveCapacity) == Times(n, CycleCapacity(s))
    ensures s.slots != [] ==> 0 < CycleCapacity(s)
  {
    hide CycleOf, SumOf;
    CycleIsEmpty(s.slots, s.id, s.pointValue, cycle + n);
    assert n == 0 ==> SumOf(NewCycles(s, cycle, n), LiveCapacity) == 0 by { NoBoxes(); }
    if n > 0 {
      CyclesAreEmpty(s, cycle, n - 1);
      CycleIsEmpty(s.slots, s.id, s.pointValue, cycle + n - 1);
      SumConcat(NewCycles(s, cycle, n - 1), NewCycle(s, cycle + n - 1), LiveCapacity);
    }
  }

  lemma {:induction false} CyclesSplit(s: Service, cycle: nat, m: nat, n: nat)
    ensures NewCycles(s, cycle, m + n) == NewCycles(s, cycle, m) + NewCycles(s, cycle + m, n)
  {
    if n > 0 { CyclesSplit(s, cycle, m, n - 1); }
  }

  lemma {:induction false} CyclesNeededSplit(per: int, first: int, both: int)
    requires 0 < per && first <= both
    ensures CyclesNeeded(per, both)
         == CyclesNeeded(per, first) + CyclesNeeded(per, both - Times(CyclesNeeded(per, first), per))
    decreases if first < 0 then 0 else first
  {
    if first > 0 { CyclesNeededSplit(per, first - per, both - per); }
  }

  /** Creating empty boxes leaves a canonical shelf canonical. */
  lemma SeedingIsCanonical(bs: seq<Box>, cs: seq<Box>)
    requires Canonical(bs) && Empty(cs)
    ensures Canonical(bs + cs)
    ensures SumOf(bs + cs, LiveCapacity) == SumOf(bs, LiveCapacity) + SumOf(cs, LiveCapacity)
    ensures SumOf(bs + cs, LiveFilled) == SumOf(bs, LiveFilled)
    ensures SumOf(bs + cs, LiveSpent) == SumOf(bs, LiveSpent)
  {
    var F, S, C := SumOf(bs, LiveFilled), SumOf(bs, LiveSpent), SumOf(bs, LiveCapacity);
    EmptyTotals(cs);
    SumConcat(bs, cs, LiveCapacity);
    SumConcat(bs, cs, LiveFilled);
    SumConcat(bs, cs, LiveSpent);
    SumConcat(bs, cs, CompleteCapacity);
    assert F <= C && S <= C by { UnspentIsDifference(bs); }
    SeedingPours(bs, cs, F, S);
  }

  lemma SeedingPours(bs: seq<Box>, cs: seq<Box>, filled: int, spent: int)
    requires bs == Pour(bs, filled, spent) && Empty(cs)
    requires filled <= SumOf(bs, LiveCapacity) && spent <= SumOf(bs, LiveCapacity)
    ensures Pour(bs + cs, filled, spent) == bs + cs
  {
    var room := SumOf(bs, LiveCapacity);
    PourConcat(bs, cs, filled, spent);
    EmptyStaysEmpty(cs, filled - room, spent - room);
  }

  /** Pouring more into a canonical row that has the room. */
  lemma PouringMoreIsCanonical(bs: seq<Box>, points: int)
    requires Canonical(bs) && 0 <= points <= Room(bs)
    ensures var ps := Pour(bs, SumOf(bs, LiveFilled) + points, SumOf(bs, LiveSpent));
            && Canonical(ps)
            && SumOf(ps, LiveFilled) == SumOf(bs, LiveFilled) + points
            && SumOf(ps, LiveSpent) == SumOf(bs, LiveSpent)
            && SumOf(ps, LiveCapacity) == SumOf(bs, LiveCapacity)
  {
    hide Pour;
    var F, S := SumOf(bs, LiveFilled), SumOf(bs, LiveSpent);
    UnspentIsDifference(bs);
    CompletedTotals(bs, F, S, F + points, S);
    PouredTotals(bs, F + points, S);
    PourIsCanonical(bs, F + points, S);
  }

  /** Placing keeps the boxes canonical, fills exactly the placed points and spends none. */
  lemma PlacedIsCanonical(shelf: Shelf, s: Service, points: int)
    requires Canonical(shelf.boxes) && 0 <= points && CanPlace(shelf, s, points)
    ensures Canonical(Placed(shelf, s, points).boxes)
    ensures SumOf(Placed(shelf, s, points).boxes, LiveFilled) == SumOf(shelf.boxes, LiveFilled) + points
    ensures SumOf(Placed(shelf, s, points).boxes, LiveSpent) == SumOf(shelf.boxes, LiveSpent)
    ensures Room(Placed(shelf, s, points).boxes)
         == Room(shelf.boxes) - points
          + Times(CyclesNeeded(CycleCapacity(s), points - Room(shelf.boxes)), CycleCapacity(s))
    ensures 0 <= Room(Placed(shelf, s, points).boxes)
  {
    var n := CyclesNeeded(CycleCapacity(s), points - Room(shelf.boxes));
    var cs := NewCycles(s, shelf.nextCycle, n);
    CyclesAreEmpty(s, shelf.nextCycle, n);
    SeedingIsCanonical(shelf.boxes, cs);
    PouringMoreIsCanonical(shelf.boxes + cs, points);
  }

  /** Placing p points and then q is placing p + q points at once: same boxes, same states,
      same cycle counter. */
  lemma BatchesDoNotMatter(shelf: Shelf, s: Service, p: int, q: int)
    requires Canonical(shelf.boxes) && 0 <= p && 0 <= q && CanPlace(shelf, s, p + q)
    ensures CanPlace(shelf, s, p) && CanPlace(Placed(shelf, s, p), s, q)
    ensures Placed(Placed(shelf, s, p), s, q) == Placed(shelf, s, p + q)
  {
    PlacedIsCanonical(shelf, s, p);
    BatchesFromTotals(shelf, s, p, q);
  }

  lemma BatchesFromTotals(shelf: Shelf, s: Service, p: int, q: int)
    requires Sized(shelf.boxes) && 0 <= q
    requires SumOf(Placed(shelf, s, p).boxes, LiveFilled) == SumOf(shelf.boxes, LiveFilled) + p
    requires SumOf(Placed(shelf, s, p).boxes, LiveSpent) == SumOf(shelf.boxes, LiveSpent)
    requires Room(Placed(shelf, s, p).boxes)
          == Room(shelf.boxes) - p + Times(CyclesNeeded(CycleCapacity(s), p - Room(shelf.boxes)), CycleCapacity(s))
    ensures Placed(Placed(shelf, s, p), s, q) == Placed(shelf, s, p + q)
  {
    hide Pour, NewCycles, CyclesNeeded, Times, SumOf;
    var mid := Placed(shelf, s, p);
    var first, both := SumOf(shelf.boxes, LiveFilled) + p, SumOf(shelf.boxes, LiveFilled) + p + q;
    var S, missing, missing' := SumOf(shelf.boxes, LiveSpent), p - Room(shelf.boxes), p + q - Room(shelf.boxes);
    var m, n := CyclesAddUp(s, shelf.nextCycle, missing, missing', q - Room(mid.boxes));
    var front, back := NewCycles(s, shelf.nextCycle, m), NewCycles(s, shelf.nextCycle + m, n);
    assert mid == Shelf(Pour(shelf.boxes + front, first, S), shelf.nextCycle + m) by {
      PlacedAs(shelf, s, p, missing, m, first, S);
    }
    var left, right := Placed(mid, s, q), Placed(shelf, s, p + q);
    assert left == Shelf(Pour(mid.boxes + back, both, S), shelf.nextCycle + m + n) by {
      PlacedAs(mid, s, q, q - Room(mid.boxes), n, both, S);
    }
    assert right == Shelf(Pour(shelf.boxes + (front + back), both, S), shelf.nextCycle + m + n) by {
      PlacedAs(shelf, s, p + q, missing', m + n, both, S);
    }
    assert left.boxes == right.boxes by {
      PlacedInTwoParts(shelf.boxes, front, back, first, S, both);
    }
  }

  lemma PlacedAs(shelf: Shelf, s: Service, points: int, missing: int, n: nat, filled: int, spent: int)
    requires filled == SumOf(shelf.boxes, LiveFilled) + points && spent == SumOf(shelf.boxes, LiveSpent)
    requires missing == points - Room(shelf.boxes) && n == CyclesNeeded(CycleCapacity(s), missing)
    ensures Placed(shelf, s, points)
         == Shelf(Pour(shelf.boxes + NewCycles(s, shelf.nextCycle, n), filled, spent), shelf.nextCycle + n)
  {
  }

  /** The cycles created for two demands in turn are those created for both at once. */
  lemma CyclesAddUp(s: Service, cycle: nat, missing: int, missing': int, rest: int) returns (m: nat, n: nat)
    requires missing <= missing'
    requires rest == missing' - Times(CyclesNeeded(CycleCapacity(s), missing), CycleCapacity(s))
    ensures m == CyclesNeeded(CycleCapacity(s), missing) && n == CyclesNeeded(CycleCapacity(s), rest)
    ensures m + n == CyclesNeeded(CycleCapacity(s), missing')
    ensures NewCycles(s, cycle, m + n) == NewCycles(s, cycle, m) + NewCycles(s, cycle + m, n)
    ensures Sized(NewCycles(s, cycle, m))
  {
    var per := CycleCapacity(s);
    m, n := CyclesNeeded(per, missing), CyclesNeeded(per, rest);
    if 0 < per { CyclesNeededSplit(per, missing, missing'); }
    CyclesSplit(s, cycle, m, n);
    CyclesAreEmpty(s, cycle, m);
  }

  lemma PlacedInTwoParts(bs: seq<Box>, front: seq<Box>, back: seq<Box>, filled: int, spent: int, filled': int)
    requires Sized(bs) && Sized(front)
    ensures Pour(Pour(bs + front, filled, spent) + back, filled', spent)
         == Pour(bs + (front + back), filled', spent)
  {
    var all := bs + front;
    assert bs + (front + back) == all + back;
    PourTwice(all, filled, spent, filled', spent);
    PourConcat(all, back, filled', spent);
    PourConcat(Pour(all, filled, spent), back, filled', spent);
    PouredTotals(all, filled, spent);
  }

  // ----- spending completed boxes -----

  /** What spending points must produce: the same layout poured from a larger spent total. */
  function Drawn(bs: seq<Box>, points: int): seq<Box> {
    Pour(bs, SumOf(bs, LiveFilled), SumOf(bs, LiveSpent) + points)
  }

  /** Spending what completed boxes offer keeps the row canonical and uses exactly that. */
  lemma DrawnIsCanonical(bs: seq<Box>, points: int)
    requires Canonical(bs) && 0 <= points <= SumOf(bs, Unspent)
    ensures Canonical(Drawn(bs, points))
    ensures SumOf(Drawn(bs, points), LiveFilled) == SumOf(bs, LiveFilled)
    ensures SumOf(Drawn(bs, points), LiveSpent) == SumOf(bs, LiveSpent) + points
    ensures SumOf(Drawn(bs, points), Unspent) == SumOf(bs, Unspent) - points
  {
    hide Pour;
    var F, S := SumOf(bs, LiveFilled), SumOf(bs, LiveSpent);
    UnspentIsDifference(bs);
    assert Pour(bs, F, S) == bs;
    CompletedTotals(bs, F, S, F, S + points);
    CompletedTotals(bs, F, S + points, F, S);
    PourIsCanonical(bs, F, S + points);
    UnspentIsDifference(Drawn(bs, points));
  }

  /** Spending p points and then q is spending p + q points at once. */
  lemma DrawsDoNotMatter(bs: seq<Box>, p: int, q: int)
    requires Canonical(bs) && 0 <= p && 0 <= q && p + q <= SumOf(bs, Unspent)
    ensures Drawn(Drawn(bs, p), q) == Drawn(bs, p + q)
  {
    hide Pour;
    var F, S := SumOf(bs, LiveFilled), SumOf(bs, LiveSpent);
    DrawnIsCanonical(bs, p);
    PourTwice(bs, F, S + p, F, S + p + q);
  }

  // ----- the order in which the queries see the boxes -----

  /** The rows of one account, service and cycle are numbered apart, and list order is the
      order by cycle and sequence. */
  ghost predicate InOrder(bs: seq<Box>) {
    forall i, j :: 0 <= i < j < |bs| ==>
      bs[i].cycle < bs[j].cycle || (bs[i].cycle == bs[j].cycle && bs[i].sequence < bs[j].sequence)
  }

  ghost predicate CyclesBelow(bs: seq<Box>, cycle: nat) {
    forall b :: b in bs ==> b.cycle < cycle
  }

  /** The first open box of a service, in list order. */
  function FirstOpen(bs: seq<Box>, service: nat): (found: Option<nat>)
    ensures found.Some? ==>
      && found.value < |bs| && bs[found.value].state.Open? && bs[found.value].service == service
      && forall j :: 0 <= j < found.value ==> !(bs[j].state.Open? && bs[j].service == service)
    ensures found.None? ==> forall b :: b in bs ==> !(b.state.Open? && b.service == service)
  {
    if bs == [] then None
    else if bs[0].state.Open? && bs[0].service == service then Some(0)
    else match FirstOpen(bs[1..], service)
      case None => None
      case Some(i) => Some(i + 1)
  }

  /** That box is the one the ordered query returns. */
  lemma FirstOpenIsEarliest(bs: seq<Box>, service: nat, j: nat)
    requires InOrder(bs) && FirstOpen(bs, service).Some?
    requires j < |bs| && j != FirstOpen(bs, service).value && bs[j].state.Open? && bs[j].service == service
    ensures var b := bs[FirstOpen(bs, service).value];
            b.cycle < bs[j].cycle || (b.cycle == bs[j].cycle && b.sequence < bs[j].sequence)
  {
  }

  lemma {:induction false} CycleInOrder(slots: seq<Slot>, service: nat, price: int, cycle: nat)
    requires IsLayout(slots)
    ensures InOrder(CycleOf(slots, service, price, cycle))
    ensures forall i :: 0 <= i < |slots| ==>
      var b := CycleOf(slots, service, price, cycle)[i];
      b.cycle == cycle && b.sequence == slots[i].sequence && b.service == service && b.price == price
  {
    if slots != [] {
      assert IsLayout(slots[1..]);
      CycleInOrder(slots[1..], service, price, cycle);
      var bs, rest := CycleOf(slots, service, price, cycle), CycleOf(slots[1..], service, price, cycle);
      forall i, j | 0 <= i < j < |bs|
        ensures bs[i].cycle < bs[j].cycle || (bs[i].cycle == bs[j].cycle && bs[i].sequence < bs[j].sequence)
      {
        assert bs[j] == rest[j - 1];
        if i > 0 { assert bs[i] == rest[i - 1]; }
      }
    }
  }

  lemma InOrderConcat(bs: seq<Box>, cs: seq<Box>, cycle: nat)
    requires InOrder(bs) && InOrder(cs) && CyclesBelow(bs, cycle)
    requires forall b :: b in cs ==> cycle <= b.cycle
    ensures InOrder(bs + cs)
  {
  }

  lemma {:induction false} CyclesInOrder(s: Service, cycle: nat, n: nat)
    ensures InOrder(NewCycles(s, cycle, n)) && CyclesBelow(NewCycles(s, cycle, n), cycle + n)
    ensures forall b :: b in NewCycles(s, cycle, n) ==>
      cycle <= b.cycle && b.service == s.id && b.price == s.pointValue
  {
    if n > 0 {
      var front, last := NewCycles(s, cycle, n - 1), NewCycle(s, cycle + n - 1);
      CyclesInOrder(s, cycle, n - 1);
      CycleInOrder(s.slots, s.id, s.pointValue, cycle + n - 1);
      InOrderConcat(front, last, cycle + n - 1);
    }
  }

  /** Pouring changes neither identity nor price of a box. */
  lemma {:induction false} PourKeepsIdentity(bs: seq<Box>, filled: int, spent: int)
    ensures forall i :: 0 <= i < |bs| ==>
      var b := Pour(bs, filled, spent)[i];
      && b.service == bs[i].service && b.cycle == bs[i].cycle && b.sequence == bs[i].sequence
      && b.capacity == bs[i].capacity && b.price == bs[i].price && IsLive(b) == IsLive(bs[i])
      && (!IsLive(b) ==> b == bs[i])
  {
    if bs != [] {
      var c := LiveCapacity(bs[0]);
      PourTail(bs, filled, spent);
      PourKeepsIdentity(bs[1..], filled - c, spent - c);
      var ps, rest := Pour(bs, filled, spent), Pour(bs[1..], filled - c, spent - c);
      assert forall i :: 0 < i < |bs| ==> ps[i] == rest[i - 1] && bs[i] == bs[1..][i - 1];
    }
  }
}
