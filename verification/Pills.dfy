/** Referral pills: one point each, cashed to the wallet in groups of three. Values are in
    cents. */
module Pills {
  import opened Prelude
  import opened Decimals
  import opened Wallets

  const GROUP := 3

  /** A processed referral or profile point, in the order of creation. */
  datatype Pill = Pill(id: nat, value: int, cashed: bool)

  /** One customer's pills and the counters and wallet that they feed. */
  datatype PillBox = PillBox(currency: Currency, pills: seq<Pill>, lifetime: int, liquid: int, profileDone: bool,
                             book: Book)

  // ----- what a cash-out must achieve -----

  function CashedCount(pills: seq<Pill>): (n: nat)
    ensures n <= |pills|
  {
    if pills == [] then 0 else (if pills[0].cashed then 1 else 0) + CashedCount(pills[1..])
  }

  function Value(p: Pill): int {
    p.value
  }

  function Group(pills: seq<Pill>, g: nat): seq<Pill>
    requires GROUP * (g + 1) <= |pills|
  {
    pills[GROUP * g..GROUP * (g + 1)]
  }

  function Ids(pills: seq<Pill>): (ids: seq<nat>)
    ensures |ids| == |pills| && forall i :: 0 <= i < |ids| ==> ids[i] == pills[i].id
  {
    if pills == [] then [] else [pills[0].id] + Ids(pills[1..])
  }

  function GroupAmount(pills: seq<Pill>, c: Currency, g: nat): int
    requires GROUP * (g + 1) <= |pills|
  {
    Money(SumOf(Group(pills, g), Value), c)
  }

  function GroupKey(pills: seq<Pill>, g: nat): (key: Key)
    requires GROUP * (g + 1) <= |pills|
    ensures key.PillCash?
  {
    PillCash(Ids(Group(pills, g)))
  }

  /** What the first k groups are worth. */
  function PaidFor(pills: seq<Pill>, c: Currency, k: nat): int
    requires GROUP * k <= |pills|
  {
    if k == 0 then 0 else PaidFor(pills, c, k - 1) + GroupAmount(pills, c, k - 1)
  }

  /** Credit one group; a group without value is not credited. */
  function PayGroup(b: Book, pills: seq<Pill>, c: Currency, g: nat, at: int): Option<Book>
    requires GROUP * (g + 1) <= |pills|
  {
    var amount := GroupAmount(pills, c, g);
    if amount <= 0 then Some(b) else
      match Credit(b, ReferralReward, amount * CENT, Some(GroupKey(pills, g)), at)
      case Ok(after) => Some(after)
      case Err(_) => None
  }

  /** Credit the groups from the given one up to k; one refused credit refuses all. */
  function PayGroups(b: Book, pills: seq<Pill>, c: Currency, from: nat, k: nat, at: int): Option<Book>
    requires from <= k && GROUP * k <= |pills|
    decreases k - from
  {
    if from == k then Some(b) else
      match PayGroup(b, pills, c, from, at)
      case None => None
      case Some(after) => PayGroups(after, pills, c, from + 1, k, at)
  }

  /** The first n pills are cashed and no other. */
  function Flagged(pills: seq<Pill>, n: nat): (fs: seq<Pill>)
    ensures |fs| == |pills| && forall i :: 0 <= i < |fs| ==> fs[i] == pills[i].(cashed := i < n)
  {
    if pills == [] then [] else
      [pills[0].(cashed := 0 < n)] + Flagged(pills[1..], if n == 0 then 0 else n - 1)
  }

  function Whole(n: nat): (k: nat)
    ensures GROUP * k <= n < GROUP * (k + 1)
  {
    n / GROUP
  }

  /** Cash every complete group that has not been cashed yet. */
  function CashOut(s: PillBox, at: int): Option<PillBox>
    requires PillsOk(s)
  {
    var k := Whole(|s.pills|);
    match PayGroups(s.book, s.pills, s.currency, Whole(CashedCount(s.pills)), k, at)
    case None => None
    case Some(book) => Some(s.(pills := Flagged(s.pills, GROUP * k), book := book, liquid := |s.pills| - GROUP * k))
  }

  /** A new pill, before anything is cashed. */
  function Added(s: PillBox, id: nat, value: int): PillBox {
    s.(pills := s.pills + [Pill(id, value, false)], lifetime := s.lifetime + 1)
  }

  /** Awarding a pill cashes complete groups in the same transaction. */
  function AwardPill(s: PillBox, id: nat, value: int, at: int): Option<PillBox>
    requires PillsOk(s) && IsNew(s, id) && 0 <= value
  {
    AddedIsOk(s, id, value);
    CashOut(Added(s, id, value), at)
  }

  /** The one profile pill, where the currency has it. */
  function GrantProfilePill(s: PillBox, id: nat, complete: bool, at: int): Option<PillBox>
    requires PillsOk(s) && IsNew(s, id)
  {
    if s.profileDone || !complete || !s.currency.Toman? then Some(s) else
      match AwardPill(s, id, 10_000_00, at)
      case None => None
      case Some(t) => Some(t.(profileDone := true))
  }

  // ----- the invariant -----

  predicate IsNew(s: PillBox, id: nat) {
    forall i :: 0 <= i < |s.pills| ==> s.pills[i].id < id
  }

  predicate IdsGrow(pills: seq<Pill>) {
    forall i, j :: 0 <= i < j < |pills| ==> pills[i].id < pills[j].id
  }

  /** Pills are cashed in order of creation and in threes. */
  predicate CashedInThrees(pills: seq<Pill>) {
    && CashedCount(pills) % GROUP == 0
    && forall i :: 0 <= i < |pills| ==> (pills[i].cashed <==> i < CashedCount(pills))
  }

  predicate PillsOk(s: PillBox) {
    && IdsGrow(s.pills) && CashedInThrees(s.pills)
    && forall p :: p in s.pills ==> 0 <= p.value
  }

  function PillFlow(r: Row): int {
    match r.key
    case Some(PillCash(_)) => r.amount
    case _ => 0
  }

  /** Each pill row of the ledger is the credit of one cashed group, and together the rows
      are what the cashed groups are worth. */
  ghost predicate RowsMatch(s: PillBox)
    requires PillsOk(s)
  {
    var k := Whole(CashedCount(s.pills));
    && (forall r :: r in s.book.rows && r.key.Some? && r.key.value.PillCash? ==>
          exists g :: 0 <= g < k && r.key.value == GroupKey(s.pills, g))
    && SumOf(s.book.rows, PillFlow) == PaidFor(s.pills, s.currency, k) * CENT
  }

  ghost predicate BoxOk(s: PillBox) {
    PillsOk(s) && RowsMatch(s)
  }

  lemma {:induction false} CountOfFlagged(pills: seq<Pill>, n: nat)
    requires n <= |pills| && forall i :: 0 <= i < |pills| ==> (pills[i].cashed <==> i < n)
    ensures CashedCount(pills) == n
  {
    if pills != [] {
      assert forall i :: 0 <= i < |pills| - 1 ==> pills[1..][i] == pills[i + 1];
      CountOfFlagged(pills[1..], if n == 0 then 0 else n - 1);
    }
  }

  lemma {:induction false} CountOfMore(pills: seq<Pill>, p: Pill)
    requires !p.cashed
    ensures CashedCount(pills + [p]) == CashedCount(pills)
  {
    if pills == [] {
      assert pills + [p] == [p];
    } else {
      assert (pills + [p])[1..] == pills[1..] + [p];
      CountOfMore(pills[1..], p);
    }
  }

  lemma AddedIsOk(s: PillBox, id: nat, value: int)
    requires PillsOk(s) && IsNew(s, id) && 0 <= value
    ensures PillsOk(Added(s, id, value)) && CashedCount(Added(s, id, value).pills) == CashedCount(s.pills)
  {
    CountOfMore(s.pills, Pill(id, value, false));
  }

  /** Appending pills or flagging them leaves every complete group as it was. */
  ghost predicate SameGroups(ps: seq<Pill>, qs: seq<Pill>, n: nat) {
    n <= |ps| && n <= |qs| && forall i :: 0 <= i < n ==> ps[i].id == qs[i].id && ps[i].value == qs[i].value
  }

  lemma {:induction false} SameIdsAndValues(ps: seq<Pill>, qs: seq<Pill>)
    requires SameGroups(ps, qs, |ps|) && |ps| == |qs|
    ensures Ids(ps) == Ids(qs) && SumOf(ps, Value) == SumOf(qs, Value)
  {
    if ps != [] {
      assert forall i :: 0 <= i < |ps| - 1 ==> ps[1..][i] == ps[i + 1] && qs[1..][i] == qs[i + 1];
      SameIdsAndValues(ps[1..], qs[1..]);
    }
  }

  lemma SameGroup(ps: seq<Pill>, qs: seq<Pill>, c: Currency, g: nat)
    requires SameGroups(ps, qs, GROUP * (g + 1))
    ensures GroupKey(ps, g) == GroupKey(qs, g) && GroupAmount(ps, c, g) == GroupAmount(qs, c, g)
  {
    var xs, ys := Group(ps, g), Group(qs, g);
    assert forall i :: 0 <= i < |xs| ==> xs[i] == ps[GROUP * g + i] && ys[i] == qs[GROUP * g + i];
    SameIdsAndValues(xs, ys);
  }

  lemma {:induction false} SamePaid(ps: seq<Pill>, qs: seq<Pill>, c: Currency, k: nat)
    requires SameGroups(ps, qs, GROUP * k)
    ensures PaidFor(ps, c, k) == PaidFor(qs, c, k)
  {
    if k > 0 {
      SamePaid(ps, qs, c, k - 1);
      SameGroup(ps, qs, c, k - 1);
    }
  }

  /** Different groups have different keys. */
  lemma KeysDiffer(pills: seq<Pill>, g: nat, h: nat)
    requires IdsGrow(pills) && g < h && GROUP * (h + 1) <= |pills|
    ensures GroupKey(pills, g) != GroupKey(pills, h)
  {
  }

  // ----- a cash-out keeps the invariant -----

  /** The pill rows of a book belong to groups before the k-th. */
  ghost predicate RowsBelow(b: Book, pills: seq<Pill>, k: nat)
    requires GROUP * k <= |pills|
  {
    forall r :: r in b.rows && r.key.Some? && r.key.value.PillCash? ==>
      exists g :: 0 <= g < k && r.key.value == GroupKey(pills, g)
  }

  /** Crediting appends rows and keeps a sound ledger sound. */
  ghost predicate Extends(b: Book, c: Book, flow: int) {
    && c == b.(balance := b.balance + flow, rows := c.rows)
    && |b.rows| <= |c.rows| && c.rows[..|b.rows|] == b.rows
    && (forall r :: r in c.rows[|b.rows|..] ==> r.key.Some? && r.key.value.PillCash? && r.kind.ReferralReward?)
    && SumOf(c.rows, PillFlow) == SumOf(b.rows, PillFlow) + flow
    && (forall policy :: Sound(b, policy) ==> Sound(c, policy))
  }

  lemma ExtendsTwice(b: Book, c: Book, d: Book, x: int, y: int)
    requires Extends(b, c, x) && Extends(c, d, y)
    ensures Extends(b, d, x + y)
  {
  }

  lemma PayGroupPosts(b: Book, pills: seq<Pill>, c: Currency, g: nat, at: int)
    requires IdsGrow(pills) && GROUP * (g + 1) <= |pills| && RowsBelow(b, pills, g)
    requires PayGroup(b, pills, c, g, at).Some?
    ensures var after := PayGroup(b, pills, c, g, at).value;
            && Extends(b, after, GroupAmount(pills, c, g) * CENT)
            && RowsBelow(after, pills, g + 1)
  {
    hide SumOf, Sound, GroupKey;
    var amount, key := GroupAmount(pills, c, g), GroupKey(pills, g);
    var after := PayGroup(b, pills, c, g, at).value;
    if 0 < amount {
      forall r | r in b.rows ensures r.key != Some(key) {
        if r.key == Some(key) {
          var h :| 0 <= h < g && key == GroupKey(pills, h);
          KeysDiffer(pills, h, g);
        }
      }
      assert after == Post(b, ReferralReward, amount * CENT, Some(key), at, 0);
      var row := after.rows[|b.rows|];
      SumPush(b.rows, row, PillFlow);
      forall policy | Sound(b, policy) ensures Sound(after, policy) {
        CreditRowKeepsSound(b, policy, ReferralReward, amount * CENT, Some(key), at);
      }
    }
    forall r | r in after.rows && r.key.Some? && r.key.value.PillCash?
      ensures exists h :: 0 <= h < g + 1 && r.key.value == GroupKey(pills, h)
    {
      if r in b.rows {
        var h :| 0 <= h < g && r.key.value == GroupKey(pills, h);
      } else {
        assert r.key.value == GroupKey(pills, g);
      }
    }
  }

  lemma {:induction false} PayGroupsPosts(b: Book, pills: seq<Pill>, c: Currency, from: nat, k: nat, at: int)
    requires IdsGrow(pills) && from <= k && GROUP * k <= |pills| && RowsBelow(b, pills, from)
    requires PayGroups(b, pills, c, from, k, at).Some?
    ensures var after := PayGroups(b, pills, c, from, k, at).value;
            && Extends(b, after, (PaidFor(pills, c, k) - PaidFor(pills, c, from)) * CENT)
            && RowsBelow(after, pills, k)
    decreases k - from
  {
    hide SumOf, Sound, RowsBelow, GroupAmount, IdsGrow;
    if from < k {
      var mid := PayGroup(b, pills, c, from, at).value;
      PayGroupPosts(b, pills, c, from, at);
      PayGroupsPosts(mid, pills, c, from + 1, k, at);
      ExtendsTwice(b, mid, PayGroups(mid, pills, c, from + 1, k, at).value, GroupAmount(pills, c, from) * CENT,
                   (PaidFor(pills, c, k) - PaidFor(pills, c, from + 1)) * CENT);
    }
  }

  lemma RowsBelowSame(b: Book, ps: seq<Pill>, qs: seq<Pill>, k: nat)
    requires SameGroups(ps, qs, GROUP * k) && RowsBelow(b, ps, k)
    ensures RowsBelow(b, qs, k)
  {
    hide GroupKey;
    forall r | r in b.rows && r.key.Some? && r.key.value.PillCash?
      ensures exists g :: 0 <= g < k && r.key.value == GroupKey(qs, g)
    {
      var g :| 0 <= g < k && r.key.value == GroupKey(ps, g);
      SameGroup(ps, qs, Toman, g);
    }
  }

  /** Whatever was cashed before, a cash-out that succeeds leaves exactly the complete
      groups cashed, the rest live, and the wallet credited with what all groups are worth. */
  lemma CashOutSettles(s: PillBox, at: int)
    requires BoxOk(s) && CashOut(s, at).Some?
    ensures var t := CashOut(s, at).value;
            && BoxOk(t)
            && t == s.(pills := Flagged(s.pills, GROUP * Whole(|s.pills|)), book := t.book, liquid := t.liquid)
            && t.liquid == |s.pills| % GROUP == |t.pills| - CashedCount(t.pills)
            && SumOf(t.book.rows, PillFlow) == PaidFor(s.pills, s.currency, Whole(|s.pills|)) * CENT
            && Extends(s.book, t.book, SumOf(t.book.rows, PillFlow) - SumOf(s.book.rows, PillFlow))
  {
    hide SumOf, Sound, RowsBelow, PaidFor, PayGroups, GroupKey;
    var t, k, n := CashOut(s, at).value, Whole(|s.pills|), CashedCount(s.pills);
    assert RowsBelow(s.book, s.pills, Whole(n)) by { OkMeansBelow(s); }
    PayGroupsPosts(s.book, s.pills, s.currency, Whole(n), k, at);
    CountOfFlagged(t.pills, GROUP * k);
    RowsBelowSame(t.book, s.pills, t.pills, k);
    SamePaid(s.pills, t.pills, s.currency, k);
    assert Whole(GROUP * k) == k;
    assert RowsMatch(t) by { BelowMeansMatch(t, k); }
  }

  lemma OkIsPills(s: PillBox)
    requires BoxOk(s)
    ensures PillsOk(s)
  {
  }

  lemma OkMeansBelow(s: PillBox)
    requires BoxOk(s)
    ensures RowsBelow(s.book, s.pills, Whole(CashedCount(s.pills)))
    ensures SumOf(s.book.rows, PillFlow) == PaidFor(s.pills, s.currency, Whole(CashedCount(s.pills))) * CENT
  {
    hide SumOf, GroupKey, PaidFor;
  }

  lemma BelowMeansMatch(s: PillBox, k: nat)
    requires PillsOk(s) && k == Whole(CashedCount(s.pills)) && RowsBelow(s.book, s.pills, k)
    requires SumOf(s.book.rows, PillFlow) == PaidFor(s.pills, s.currency, k) * CENT
    ensures RowsMatch(s)
  {
    hide SumOf, GroupKey, PaidFor;
  }

  lemma AddedKeepsOk(s: PillBox, id: nat, value: int)
    requires BoxOk(s) && IsNew(s, id) && 0 <= value
    ensures BoxOk(Added(s, id, value))
  {
    hide SumOf, GroupKey, PaidFor;
    var t, k := Added(s, id, value), Whole(CashedCount(s.pills));
    AddedIsOk(s, id, value);
    OkMeansBelow(s);
    RowsBelowSame(s.book, s.pills, t.pills, k);
    SamePaid(s.pills, t.pills, s.currency, k);
    BelowMeansMatch(t, k);
  }

  /** Other wallet activity writes no pill rows. */
  ghost predicate IsElsewhere(b: Book, c: Book) {
    && |b.rows| <= |c.rows| && c.rows[..|b.rows|] == b.rows
    && forall r :: r in c.rows[|b.rows|..] && r.key.Some? ==> !r.key.value.PillCash?
  }

  lemma {:induction false} NoPillFlow(rows: seq<Row>)
    requires forall r :: r in rows && r.key.Some? ==> !r.key.value.PillCash?
    ensures SumOf(rows, PillFlow) == 0
  {
    if rows != [] { NoPillFlow(rows[1..]); }
  }

  lemma ElsewhereKeepsOk(s: PillBox, book: Book)
    requires BoxOk(s) && IsElsewhere(s.book, book)
    ensures BoxOk(s.(book := book))
  {
    hide SumOf, GroupKey, PaidFor;
    var more := book.rows[|s.book.rows|..];
    assert book.rows == s.book.rows + more;
    SumConcat(s.book.rows, more, PillFlow);
    NoPillFlow(more);
  }

  // ----- any schedule -----

  datatype PillOp = Add(id: nat, value: int) | Cash(at: int) | Elsewhere(book: Book)

  /** A cash-out that raises, or a pill that is not the newest, changes nothing. */
  ghost function PillStep(s: PillBox, op: PillOp): PillBox
    requires PillsOk(s)
  {
    match op
    case Add(id, value) => if IsNew(s, id) && 0 <= value then Added(s, id, value) else s
    case Cash(at) => (match CashOut(s, at) case Some(t) => t case None => s)
    case Elsewhere(book) => if IsElsewhere(s.book, book) then s.(book := book) else s
  }

  lemma PillStepKeepsOk(s: PillBox, op: PillOp)
    requires BoxOk(s)
    ensures BoxOk(PillStep(s, op))
  {
    hide BoxOk, CashOut, Added, IsElsewhere;
    OkIsPills(s);
    match op
    case Add(id, value) => if IsNew(s, id) && 0 <= value { AddedKeepsOk(s, id, value); }
    case Cash(at) => if CashOut(s, at).Some? { CashOutSettles(s, at); }
    case Elsewhere(book) => if IsElsewhere(s.book, book) { ElsewhereKeepsOk(s, book); }
  }

  ghost function PillRun(s: PillBox, ops: seq<PillOp>): (t: PillBox)
    requires BoxOk(s)
    ensures BoxOk(t)
    decreases |ops|
  {
    if ops == [] then s else
      PillStepKeepsOk(s, ops[0]);
      PillRun(PillStep(s, ops[0]), ops[1..])
  }

  /** The pills as they were created, whatever was cashed since. */
  function Created(pills: seq<Pill>): seq<Pill> {
    Flagged(pills, 0)
  }

  /** The same pills after the awards of a schedule, none of its cash-outs considered. */
  function Awarded(pills: seq<Pill>, ops: seq<PillOp>): seq<Pill>
    decreases |ops|
  {
    if ops == [] then pills
    else if ops[0].Add? && (forall i :: 0 <= i < |pills| ==> pills[i].id < ops[0].id) && 0 <= ops[0].value then
      Awarded(pills + [Pill(ops[0].id, ops[0].value, false)], ops[1..])
    else Awarded(pills, ops[1..])
  }

  lemma StepCreates(s: PillBox, op: PillOp)
    requires BoxOk(s)
    ensures var t := PillStep(s, op);
            && t.currency == s.currency
            && (op.Add? && IsNew(s, op.id) && 0 <= op.value ==>
                  Created(t.pills) == Created(s.pills) + [Pill(op.id, op.value, false)])
            && (!(op.Add? && IsNew(s, op.id) && 0 <= op.value) ==> Created(t.pills) == Created(s.pills))
            && t.lifetime - |t.pills| == s.lifetime - |s.pills|
  {
    hide SumOf, PayGroups, IsElsewhere;
    var t := PillStep(s, op);
    if op.Add? && IsNew(s, op.id) && 0 <= op.value {
      assert forall i :: 0 <= i < |s.pills| ==> t.pills[i] == s.pills[i];
    }
  }

  lemma {:induction false} RunCreates(s: PillBox, ops: seq<PillOp>)
    requires BoxOk(s)
    ensures Created(PillRun(s, ops).pills) == Awarded(Created(s.pills), ops)
    ensures PillRun(s, ops).currency == s.currency
    ensures PillRun(s, ops).lifetime - |PillRun(s, ops).pills| == s.lifetime - |s.pills|
    decreases |ops|
  {
    hide BoxOk, PillStep;
    if ops != [] {
      OkIsPills(s);
      PillStepKeepsOk(s, ops[0]);
      StepCreates(s, ops[0]);
      RunCreates(PillStep(s, ops[0]), ops[1..]);
    }
  }

  /** The main lemma about pills. However awards, cash-outs (some of which may fail) and
      other wallet activity are interleaved, once a last cash-out goes through the same
      pills are cashed, the wallet has received the same total for them and the same ones
      are left over as if everything had been cashed once at the end. */
  lemma SchedulesDoNotMatter(s: PillBox, ops: seq<PillOp>, at: int)
    requires BoxOk(s) && CashOut(PillRun(s, ops), at).Some?
    ensures var all := Awarded(Created(s.pills), ops);
            var t := CashOut(PillRun(s, ops), at).value;
            && t.pills == Flagged(all, GROUP * Whole(|all|))
            && SumOf(t.book.rows, PillFlow) == PaidFor(all, s.currency, Whole(|all|)) * CENT
            && t.liquid == |all| % GROUP
            && t.lifetime == s.lifetime + |all| - |s.pills|
  {
    hide BoxOk, SumOf, PillRun, CashOut, Awarded, PaidFor, Extends, PillsOk;
    var u, all := PillRun(s, ops), Awarded(Created(s.pills), ops);
    RunCreates(s, ops);
    CashOutSettles(u, at);
    CreatedAgain(u.pills, all, s.currency);
  }

  /** Flags do not matter to what a row of pills becomes and is worth. */
  lemma CreatedAgain(pills: seq<Pill>, all: seq<Pill>, c: Currency)
    requires Created(pills) == all
    ensures |all| == |pills| && PaidFor(pills, c, Whole(|pills|)) == PaidFor(all, c, Whole(|all|))
    ensures Flagged(pills, GROUP * Whole(|pills|)) == Flagged(all, GROUP * Whole(|all|))
  {
    hide PaidFor, Whole;
    SamePaid(pills, all, c, Whole(|all|));
    FlaggedAgain(pills, all, GROUP * Whole(|all|));
  }

  lemma FlaggedAgain(pills: seq<Pill>, all: seq<Pill>, n: nat)
    requires Created(pills) == all
    ensures Flagged(pills, n) == Flagged(all, n)
  {
  }

  // ----- every pill once -----

  lemma GroupsShareNothing(pills: seq<Pill>, g: nat, h: nat)
    requires IdsGrow(pills) && g < h && GROUP * (h + 1) <= |pills|
    ensures forall id :: id in GroupKey(pills, g).rewards ==> id !in GroupKey(pills, h).rewards
  {
  }

  /** No pill is paid for by two rows. */
  lemma PillsArePaidOnce(s: PillBox, i: nat, j: nat, id: nat)
    requires BoxOk(s) && UniqueKeys(s.book.rows) && i < j < |s.book.rows|
    requires s.book.rows[i].key.Some? && s.book.rows[i].key.value.PillCash? && id in s.book.rows[i].key.value.rewards
    requires s.book.rows[j].key.Some? && s.book.rows[j].key.value.PillCash?
    ensures id !in s.book.rows[j].key.value.rewards
  {
    hide SumOf, GroupKey, PaidFor;
    var k := Whole(CashedCount(s.pills));
    assert s.book.rows[i] in s.book.rows && s.book.rows[j] in s.book.rows;
    var g :| 0 <= g < k && s.book.rows[i].key.value == GroupKey(s.pills, g);
    var h :| 0 <= h < k && s.book.rows[j].key.value == GroupKey(s.pills, h);
    if g < h { GroupsShareNothing(s.pills, g, h); } else { GroupsShareNothing(s.pills, h, g); }
  }

  // ----- what is announced -----

  function UpTo(id: nat): Pill -> int {
    (p: Pill) => if p.id <= id then 1 else 0
  }

  /** What the notice about a pill says is missing: its rank among all pills ever awarded,
      counted down in threes. */
  function Announced(pills: seq<Pill>, id: nat): int {
    -SumOf(pills, UpTo(id)) % GROUP
  }

  /** What the live box is missing to be complete. */
  function Missing(s: PillBox): int {
    (GROUP - s.liquid) % GROUP
  }

  lemma {:induction false} CountAll(pills: seq<Pill>, id: nat)
    requires forall i :: 0 <= i < |pills| ==> pills[i].id <= id
    ensures SumOf(pills, UpTo(id)) == |pills|
  {
    if pills != [] {
      assert forall i :: 0 <= i < |pills| - 1 ==> pills[1..][i] == pills[i + 1];
      CountAll(pills[1..], id);
    }
  }

  lemma {:induction false} CountOfFlaggedPills(pills: seq<Pill>, n: nat, id: nat)
    ensures SumOf(Flagged(pills, n), UpTo(id)) == SumOf(pills, UpTo(id))
  {
    if pills != [] { CountOfFlaggedPills(pills[1..], if n == 0 then 0 else n - 1, id); }
  }

  /** The announcement of a new pill agrees with the live box that its award leaves. */
  lemma AnnouncedIsMissing(s: PillBox, id: nat, value: int, at: int)
    requires BoxOk(s) && IsNew(s, id) && 0 <= value && AwardPill(s, id, value, at).Some?
    ensures var t := AwardPill(s, id, value, at).value;
            && BoxOk(t) && Announced(t.pills, id) == Missing(t)
            && Announced(Added(s, id, value).pills, id) == Missing(t)
            && t.lifetime == s.lifetime + 1
  {
    hide SumOf, CashOut, BoxOk, PillsOk, Extends, PaidFor;
    var u := Added(s, id, value);
    OkIsPills(s);
    AddedKeepsOk(s, id, value);
    CashOutSettles(u, at);
    CountAll(u.pills, id);
    CountOfFlaggedPills(u.pills, GROUP * Whole(|u.pills|), id);
    MissingByCount(|u.pills|);
  }

  lemma MissingByCount(n: int)
    requires 0 <= n
    ensures -n % GROUP == (GROUP - n % GROUP) % GROUP
  {
  }

  /** It never changes afterwards, so a notice recovered later says the same. */
  lemma AnnouncedStays(s: PillBox, op: PillOp, id: nat)
    requires BoxOk(s) && exists i :: 0 <= i < |s.pills| && s.pills[i].id == id
    ensures Announced(PillStep(s, op).pills, id) == Announced(s.pills, id)
  {
    hide SumOf;
    match op
    case Add(other, value) =>
      if IsNew(s, other) && 0 <= value { SumPush(s.pills, Pill(other, value, false), UpTo(id)); }
    case Cash(at) =>
      CountOfFlaggedPills(s.pills, GROUP * Whole(|s.pills|), id);
    case Elsewhere(_) =>
  }

  // ----- the pills as an object -----

  /** The positions of the pills that a cash-out query returns. */
  function LiveFrom(pills: seq<Pill>, start: nat): (found: seq<nat>)
    requires start <= |pills|
    ensures forall i :: i in found ==> start <= i < |pills| && !pills[i].cashed
    decreases |pills| - start
  {
    if start == |pills| then [] else (if pills[start].cashed then [] else [start]) + LiveFrom(pills, start + 1)
  }

  lemma {:induction false} LiveIsTail(pills: seq<Pill>, n: nat, start: nat)
    requires n <= |pills| && start <= |pills|
    requires forall i :: 0 <= i < |pills| ==> (pills[i].cashed <==> i < n)
    ensures |LiveFrom(pills, start)| == |pills| - Max(n, start)
    ensures forall i :: 0 <= i < |LiveFrom(pills, start)| ==> LiveFrom(pills, start)[i] == Max(n, start) + i
    decreases |pills| - start
  {
    if start < |pills| { LiveIsTail(pills, n, start + 1); }
  }

  /** A group of the flagged row is the group of the row before. */
  lemma LiveGroup(pills: seq<Pill>, before: seq<Pill>, n: nat, c: Currency, g: nat)
    requires pills == Flagged(before, n) && GROUP * (g + 1) <= |pills|
    ensures GroupKey(pills, g) == GroupKey(before, g) && GroupAmount(pills, c, g) == GroupAmount(before, c, g)
  {
    SameGroup(pills, before, c, g);
  }

  class PillAccount {
    const wallet: Wallet
    const currency: Currency
    var pills: seq<Pill>
    var lifetime: int
    var liquid: int
    var profileDone: bool

    constructor (wallet: Wallet, currency: Currency)
      ensures this.wallet == wallet && State() == PillBox(currency, [], 0, 0, false, wallet.Ledger())
      ensures PillsOk(State())
    {
      this.wallet, this.currency := wallet, currency;
      pills, lifetime, liquid, profileDone := [], 0, 0, false;
    }

    function State(): PillBox
      reads this, wallet
    {
      PillBox(currency, pills, lifetime, liquid, profileDone, wallet.Ledger())
    }

    method Rollback(saved: PillBox)
      requires saved.currency == currency
      modifies this, wallet
      ensures State() == saved
    {
      pills, lifetime, liquid, profileDone := saved.pills, saved.lifetime, saved.liquid, saved.profileDone;
      wallet.Restore(saved.book);
    }

    /** The liquid points are the pills not cashed yet. */
    method UpdateRewardAccount()
      requires CashedInThrees(pills)
      modifies this`liquid
      ensures liquid == |pills| - CashedCount(pills)
    {
      LiveIsTail(pills, CashedCount(pills), 0);
      liquid := |LiveFrom(pills, 0)|;
    }

    /** Mark the pills of one group. */
    method FlagGroup(i: nat)
      requires i + GROUP <= |pills|
      modifies this`pills
      ensures |pills| == |old(pills)|
      ensures forall j :: 0 <= j < |pills| ==>
        pills[j] == if i <= j < i + GROUP then old(pills)[j].(cashed := true) else old(pills)[j]
    {
      pills := pills[i := pills[i].(cashed := true)];
      pills := pills[i + 1 := pills[i + 1].(cashed := true)];
      pills := pills[i + 2 := pills[i + 2].(cashed := true)];
    }

    /** Credit one group of live pills and mark it; None when the credit is refused. */
    method CashGroup(start: nat, at: int) returns (paid: Option<int>)
      requires start % GROUP == 0 && start + GROUP <= |pills|
      modifies this`pills, wallet`balance, wallet`rows
      ensures var g := start / GROUP;
              match PayGroup(old(wallet.Ledger()), old(pills), currency, g, at)
              case None => paid.None?
              case Some(after) => paid == Some(GroupAmount(old(pills), currency, g)) && wallet.Ledger() == after
      ensures |pills| == |old(pills)|
      ensures forall j :: 0 <= j < |pills| ==> paid.Some? ==>
        pills[j] == if start <= j < start + GROUP then old(pills)[j].(cashed := true) else old(pills)[j]
    {
      hide SumOf, GroupKey, GroupAmount;
      GroupIs(pills, currency, start / GROUP, start);
      var group := pills[start..start + GROUP];
      var amount := Money(SumOf(group, Value), currency);
      if 0 < amount {
        var error := wallet.CreditWallet(ReferralReward, amount * CENT, Some(PillCash(Ids(group))), at);
        if error.Some? { return None; }
      }
      FlagGroup(start);
      return Some(amount);
    }

    /** Credit and mark the live pills group by group, until fewer than a group remain. */
    method CashGroups(rewards: seq<nat>, at: int) returns (paid: Option<int>)
      requires CashedInThrees(pills) && |rewards| == |pills| - CashedCount(pills)
      requires forall i :: 0 <= i < |rewards| ==> rewards[i] == CashedCount(pills) + i
      modifies this`pills, wallet`balance, wallet`rows
      ensures var from, k := Whole(CashedCount(old(pills))), Whole(|old(pills)|);
              match PayGroups(old(wallet.Ledger()), old(pills), currency, from, k, at)
              case None => paid.None?
              case Some(after) =>
                && wallet.Ledger() == after && pills == Flagged(old(pills), GROUP * k)
                && paid == Some(PaidFor(old(pills), currency, k) - PaidFor(old(pills), currency, from))
    {
      hide SumOf, GroupKey, GroupAmount, PayGroup, Ids, CashedCount;
      ghost var was, saved := pills, wallet.Ledger();
      ghost var from, k := Whole(CashedCount(pills)), Whole(|pills|);
      var complete := |rewards| / GROUP * GROUP;
      var total, offset := 0, 0;
      ghost var g := from;
      assert complete == GROUP * k - GROUP * from;
      assert pills == Flagged(was, GROUP * from);
      while offset < complete
        invariant from <= g <= k && offset == GROUP * g - GROUP * from
        invariant pills == Flagged(was, GROUP * g)
        invariant PayGroups(wallet.Ledger(), was, currency, g, k, at) == PayGroups(saved, was, currency, from, k, at)
        invariant total == PaidFor(was, currency, g) - PaidFor(was, currency, from)
      {
        LiveGroup(pills, was, GROUP * g, currency, g);
        SamePayment(wallet.Ledger(), pills, was, currency, g, at);
        var amount := CashGroup(rewards[offset], at);
        if amount.None? { return None; }
        total := total + amount.value;
        offset := offset + GROUP;
        g := g + 1;
        assert pills == Flagged(was, GROUP * g);
      }
      return Some(total);
    }

    /** Convert each complete group of live pills to wallet cash; a refused credit undoes
        the whole conversion. */
    method CashOutCompletedPills(at: int) returns (paid: Option<int>)
      requires PillsOk(State())
      modifies this, wallet
      ensures PillsOk(State())
      ensures match CashOut(old(State()), at)
              case None => paid.None? && State() == old(State())
              case Some(after) =>
                && State() == after
                && paid == Some(PaidFor(after.pills, currency, Whole(|after.pills|))
                                - PaidFor(after.pills, currency, Whole(CashedCount(old(pills)))))
    {
      hide SumOf, GroupKey, GroupAmount, PayGroups, PaidFor, Ids, PillsOk;
      var saved := State();
      ghost var k := Whole(|pills|);
      OkParts(State());
      LiveIsTail(pills, CashedCount(pills), 0);
      UpdateRewardAccount();
      paid := CashGroups(LiveFrom(pills, 0), at);
      if paid.None? {
        Rollback(saved);
        return;
      }
      FlaggedIsOk(saved, State(), k);
      UpdateRewardAccount();
      OnlyPillsMatter(State());
      PaidIsKept(saved.pills, pills, currency, Whole(CashedCount(saved.pills)), k);
    }

    /** Award one pill and cash complete groups, or do nothing at all. */
    method Award(id: nat, value: int, at: int) returns (ok: bool)
      requires PillsOk(State()) && IsNew(State(), id) && 0 <= value
      modifies this, wallet
      ensures PillsOk(State())
      ensures match AwardPill(old(State()), id, value, at)
              case Some(after) => ok && State() == after
              case None => !ok && State() == old(State())
    {
      var saved := State();
      AddedIsOk(State(), id, value);
      pills := pills + [Pill(id, value, false)];
      lifetime := lifetime + 1;
      var paid := CashOutCompletedPills(at);
      if paid.None? { Rollback(saved); }
      return paid.Some?;
    }

    /** Grant the profile pill once, and say how many pills the box still lacks. */
    method GrantProfileCompletionPill(id: nat, complete: bool, at: int) returns (ok: bool, remaining: Option<int>)
      requires PillsOk(State()) && IsNew(State(), id)
      modifies this, wallet
      ensures PillsOk(State())
      ensures match GrantProfilePill(old(State()), id, complete, at)
              case Some(after) => ok && State() == after
              case None => !ok && State() == old(State())
      ensures remaining.Some? <==> ok && !old(profileDone) && complete && currency.Toman?
      ensures remaining.Some? ==> remaining.value == Missing(State())
    {
      hide CashOut, PillsOk, AwardPill;
      if profileDone || !complete || !currency.Toman? { return true, None; }
      var awarded := |pills| + 1;
      ghost var before := State();
      ok := Award(id, 10_000_00, at);
      if !ok { return false, None; }
      AwardLeaves(before, id, 10_000_00, at);
      profileDone := true;
      OnlyPillsMatter(State());
      return true, Some(-awarded % GROUP);
    }
  }

  lemma OkParts(s: PillBox)
    requires PillsOk(s)
    ensures CashedInThrees(s.pills)
  {
  }

  lemma FlaggedIsOk(s: PillBox, t: PillBox, k: nat)
    requires PillsOk(s) && t.pills == Flagged(s.pills, GROUP * k) && GROUP * k <= |s.pills|
    ensures PillsOk(t) && CashedCount(t.pills) == GROUP * k && CashedInThrees(t.pills)
    ensures SameGroups(s.pills, t.pills, |s.pills|)
  {
    CountOfFlagged(t.pills, GROUP * k);
  }

  lemma OnlyPillsMatter(s: PillBox)
    ensures forall t: PillBox {:trigger PillsOk(t)} :: t.pills == s.pills ==> PillsOk(t) == PillsOk(s)
  {
  }

  lemma SamePayment(b: Book, ps: seq<Pill>, qs: seq<Pill>, c: Currency, g: nat, at: int)
    requires GROUP * (g + 1) <= |ps| && GROUP * (g + 1) <= |qs|
    requires GroupKey(ps, g) == GroupKey(qs, g) && GroupAmount(ps, c, g) == GroupAmount(qs, c, g)
    ensures PayGroup(b, ps, c, g, at) == PayGroup(b, qs, c, g, at)
  {
    hide GroupKey, GroupAmount;
  }

  /** An award that goes through leaves fewer live pills than a group. */
  lemma AwardLeaves(s: PillBox, id: nat, value: int, at: int)
    requires PillsOk(s) && IsNew(s, id) && 0 <= value && AwardPill(s, id, value, at).Some?
    ensures var t := AwardPill(s, id, value, at).value;
            t.liquid == (|s.pills| + 1) % GROUP && Missing(t) == -(|s.pills| + 1) % GROUP
  {
    hide PayGroups;
  }

  lemma GroupIs(pills: seq<Pill>, c: Currency, g: nat, start: nat)
    requires GROUP * (g + 1) <= |pills| && start == GROUP * g
    ensures GroupKey(pills, g) == PillCash(Ids(pills[start..start + GROUP]))
    ensures GroupAmount(pills, c, g) == Money(SumOf(pills[start..start + GROUP], Value), c)
  {
  }

  lemma PaidIsKept(ps: seq<Pill>, qs: seq<Pill>, c: Currency, from: nat, k: nat)
    requires from <= k && SameGroups(ps, qs, GROUP * k)
    ensures PaidFor(ps, c, k) == PaidFor(qs, c, k) && PaidFor(ps, c, from) == PaidFor(qs, c, from)
  {
    SamePaid(ps, qs, c, k);
    SamePaid(ps, qs, c, from);
  }
}
