/** Bank-transfer quotes: an order's amount on a card is made recognisable by a small extra
    that no other quote on the card has. Amounts are in cents. */
module CardQuotes {
  import opened Prelude
  import opened Decimals
  import opened Wallets

  const HOUR := 3600

  datatype Quote = Quote(order: nat, card: nat, base: int, expected: int, suffix: bool, reserved: bool,
                         expires: int, release: int)

  datatype Card = Card(id: nat, unique: bool, maxExtra: int)

  datatype Refusal = AlreadyPaid | WindowOver | Changed | WrongCurrency | NoAmountLeft

  datatype Outcome = Quoted(quotes: seq<Quote>, index: nat) | Refused(reason: Refusal)

  // ----- amounts -----

  function Limit(card: Card): int {
    Min(Max(card.maxExtra, 1), 99)
  }

  /** Extras are whole Toman, or tens of Rial. */
  function ExtraUnit(c: Currency): int {
    if c.Rial? then 10_00 else 1_00
  }

  predicate Taken(quotes: seq<Quote>, card: nat, amount: int) {
    exists i :: 0 <= i < |quotes| && quotes[i].card == card && quotes[i].expected == amount
  }

  /** The quote lies on the card above `low` and not above `high`. */
  function Between(card: nat, low: int, high: int): Quote -> int {
    (q: Quote) => if q.card == card && low < q.expected <= high then 1 else 0
  }

  /** The first free extra from `from` on, if one is left. */
  function FirstFree(quotes: seq<Quote>, card: nat, due: int, unit: int, from: int, limit: int): (found: Option<int>)
    ensures found.Some? ==>
      && from <= found.value <= limit && !Taken(quotes, card, due + unit * found.value)
      && forall e :: from <= e < found.value ==> Taken(quotes, card, due + unit * e)
    ensures found.None? ==> forall e :: from <= e <= limit ==> Taken(quotes, card, due + unit * e)
    decreases limit + 1 - from
  {
    if limit < from then None
    else if !Taken(quotes, card, due + unit * from) then Some(from)
    else FirstFree(quotes, card, due, unit, from + 1, limit)
  }

  /** Amounts whose waiting time is over are no longer reserved. */
  function Released(quotes: seq<Quote>, card: nat, now: int): (rs: seq<Quote>)
    ensures |rs| == |quotes|
    ensures forall i :: 0 <= i < |quotes| ==>
      rs[i] == if quotes[i].card == card && quotes[i].reserved && quotes[i].release <= now
               then quotes[i].(reserved := false) else quotes[i]
  {
    if quotes == [] then [] else
      [if quotes[0].card == card && quotes[0].reserved && quotes[0].release <= now
       then quotes[0].(reserved := false) else quotes[0]]
      + Released(quotes[1..], card, now)
  }

  function QuoteOf(quotes: seq<Quote>, order: nat): (found: Option<nat>)
    ensures found.Some? ==> found.value < |quotes| && quotes[found.value].order == order
    ensures found.None? ==> forall i :: 0 <= i < |quotes| ==> quotes[i].order != order
  {
    if quotes == [] then None
    else if quotes[0].order == order then Some(0)
    else match QuoteOf(quotes[1..], order) case Some(i) => Some(i + 1) case None => None
  }

  /** The quote of an order on a card for what is due now. An order has one quote for good:
      asked again it is renewed within its safety window, and a changed amount or card is
      refused. */
  function Reserve(quotes: seq<Quote>, order: nat, card: Card, due: int, currency: Currency, now: int): Outcome {
    if due <= 0 then Refused(AlreadyPaid) else
    var qs := Released(quotes, card.id, now);
    match QuoteOf(qs, order)
    case Some(i) =>
      if qs[i].card != card.id || qs[i].base != due then Refused(Changed)
      else if qs[i].release <= now then Refused(WindowOver)
      else if qs[i].expires <= now then
        Quoted(qs[i := qs[i].(expires := Min(now + 24 * HOUR, qs[i].release))], i)
      else Quoted(qs, i)
    case None =>
      if !card.unique then
        Quoted(qs + [Quote(order, card.id, due, due, false, false, now + 24 * HOUR, now + 7 * DAY)], |qs|)
      else if currency.OtherCurrency? then Refused(WrongCurrency)
      else match FirstFree(qs, card.id, due, ExtraUnit(currency), 1, Limit(card))
        case None => Refused(NoAmountLeft)
        case Some(extra) =>
          Quoted(qs + [Quote(order, card.id, due, due + ExtraUnit(currency) * extra, true, true,
                             now + 24 * HOUR, now + 7 * DAY)], |qs|)
  }

  // ----- the invariant -----

  /** No two suffix quotes of a card ever had the same amount, so an amount names its order. */
  predicate AmountsDiffer(quotes: seq<Quote>) {
    forall i, j :: 0 <= i < j < |quotes| && quotes[i].suffix && quotes[j].suffix && quotes[i].card == quotes[j].card ==>
      quotes[i].expected != quotes[j].expected
  }

  predicate OrdersDiffer(quotes: seq<Quote>) {
    forall i, j :: 0 <= i < j < |quotes| ==> quotes[i].order != quotes[j].order
  }

  predicate QuotesOk(quotes: seq<Quote>) {
    && AmountsDiffer(quotes) && OrdersDiffer(quotes)
    && forall i :: 0 <= i < |quotes| ==>
         && quotes[i].expires <= quotes[i].release
         && (quotes[i].reserved ==> quotes[i].suffix)
         && quotes[i].base <= quotes[i].expected && (quotes[i].suffix <==> quotes[i].base < quotes[i].expected)
  }

  /** A quote's order, card and amounts never change, and its window only moves forward. */
  predicate Continues(quotes: seq<Quote>, later: seq<Quote>) {
    && |quotes| <= |later|
    && forall i :: 0 <= i < |quotes| ==>
         later[i] == quotes[i].(reserved := later[i].reserved, expires := later[i].expires)
         && quotes[i].expires <= later[i].expires && (later[i].reserved ==> quotes[i].reserved)
  }

  lemma ReserveKeepsOk(quotes: seq<Quote>, order: nat, card: Card, due: int, currency: Currency, now: int)
    requires QuotesOk(quotes) && Reserve(quotes, order, card, due, currency, now).Quoted?
    ensures var r := Reserve(quotes, order, card, due, currency, now);
            && QuotesOk(r.quotes) && Continues(quotes, r.quotes)
            && r.index < |r.quotes|
            && r.quotes[r.index].order == order && r.quotes[r.index].card == card.id && r.quotes[r.index].base == due
            && now < r.quotes[r.index].expires
  {
    hide Taken;
    var qs := Released(quotes, card.id, now);
    ReleasedIsOk(quotes, card.id, now);
    if QuoteOf(qs, order).None? && card.unique {
      var found := FirstFree(qs, card.id, due, ExtraUnit(currency), 1, Limit(card)).value;
      assert 0 < ExtraUnit(currency) * found by { MulLe(1, found, ExtraUnit(currency)); }
      var amount := due + ExtraUnit(currency) * found;
      NotTaken(qs, card.id, amount);
    }
  }

  lemma NotTaken(quotes: seq<Quote>, card: nat, amount: int)
    requires !Taken(quotes, card, amount)
    ensures forall i :: 0 <= i < |quotes| && quotes[i].card == card ==> quotes[i].expected != amount
  {
  }

  lemma ReleasedIsOk(quotes: seq<Quote>, card: nat, now: int)
    requires QuotesOk(quotes)
    ensures QuotesOk(Released(quotes, card, now)) && Continues(quotes, Released(quotes, card, now))
  {
  }

  /** The amount issued is the smallest free one of its window. */
  lemma SmallestFreeAmount(quotes: seq<Quote>, order: nat, card: Card, due: int, currency: Currency, now: int)
    requires 0 < due && card.unique && !currency.OtherCurrency?
    requires forall i :: 0 <= i < |quotes| ==> quotes[i].order != order
    ensures var r := Reserve(quotes, order, card, due, currency, now);
            var unit := ExtraUnit(currency);
            && (r.Quoted? <==> exists e :: 1 <= e <= Limit(card) && !Taken(quotes, card.id, due + unit * e))
            && (r.Quoted? ==>
                  exists e :: 1 <= e <= Limit(card) && r.quotes[r.index].expected == due + unit * e
                    && !Taken(quotes, card.id, due + unit * e)
                    && forall f :: 1 <= f < e ==> Taken(quotes, card.id, due + unit * f))
  {
    var qs, unit := Released(quotes, card.id, now), ExtraUnit(currency);
    assert forall e :: Taken(qs, card.id, due + unit * e) <==> Taken(quotes, card.id, due + unit * e) by {
      forall amount: int ensures Taken(qs, card.id, amount) <==> Taken(quotes, card.id, amount) {
        SameAmountsTaken(quotes, qs, card.id, amount);
      }
    }
    var found := FirstFree(qs, card.id, due, unit, 1, Limit(card));
  }

  lemma SameAmountsTaken(quotes: seq<Quote>, qs: seq<Quote>, card: nat, amount: int)
    requires |qs| == |quotes|
    requires forall i :: 0 <= i < |qs| ==> qs[i].card == quotes[i].card && qs[i].expected == quotes[i].expected
    ensures Taken(qs, card, amount) <==> Taken(quotes, card, amount)
  {
  }

  /** Pigeonhole: n taken extras need n quotes in their window. */
  lemma {:induction false} TakenNeedsQuotes(quotes: seq<Quote>, card: nat, due: int, unit: int, n: nat)
    requires 0 < unit && forall e :: 1 <= e <= n ==> Taken(quotes, card, due + unit * e)
    ensures n <= SumOf(quotes, Between(card, due, due + unit * n))
  {
    if n == 0 {
      SumNonNegative(quotes, Between(card, due, due));
      assert due + unit * 0 == due;
    } else {
      var low, high := due + unit * (n - 1), due + unit * n;
      TakenNeedsQuotes(quotes, card, due, unit, n - 1);
      assert due <= low < high by { MulLe(0, n - 1, unit); }
      SumSplit(quotes, Between(card, due, high), Between(card, due, low), Between(card, low, high));
      assert Taken(quotes, card, high);
      var i :| 0 <= i < |quotes| && quotes[i].card == card && quotes[i].expected == high;
      assert quotes[i] in quotes && Between(card, low, high)(quotes[i]) == 1;
      SumNonNegative(quotes, Between(card, low, high));
    }
  }

  /** As long as fewer quotes than the limit lie in the window, a new order gets an amount. */
  lemma RoomMeansQuote(quotes: seq<Quote>, order: nat, card: Card, due: int, currency: Currency, now: int)
    requires 0 < due && card.unique && !currency.OtherCurrency?
    requires forall i :: 0 <= i < |quotes| ==> quotes[i].order != order
    requires SumOf(quotes, Between(card.id, due, due + ExtraUnit(currency) * Limit(card))) < Limit(card)
    ensures Reserve(quotes, order, card, due, currency, now).Quoted?
  {
    hide Reserve;
    SmallestFreeAmount(quotes, order, card, due, currency, now);
    if Reserve(quotes, order, card, due, currency, now).Refused? {
      TakenNeedsQuotes(quotes, card.id, due, ExtraUnit(currency), Limit(card));
    }
  }

  // ----- runs -----

  datatype Request = Request(order: nat, card: Card, due: int, currency: Currency, now: int)

  function Run(quotes: seq<Quote>, requests: seq<Request>): seq<Quote>
    decreases |requests|
  {
    if requests == [] then quotes else
      var r := requests[0];
      match Reserve(quotes, r.order, r.card, r.due, r.currency, r.now)
      case Quoted(qs, _) => Run(qs, requests[1..])
      case Refused(_) => Run(quotes, requests[1..])
  }

  /** Over every run of requests, on any cards and with any settings of a card in between, the
      suffix amounts of a card are pairwise different and no quote can be paid after its
      amount was given up. */
  lemma {:induction false} RunKeepsOk(quotes: seq<Quote>, requests: seq<Request>)
    requires QuotesOk(quotes)
    ensures QuotesOk(Run(quotes, requests)) && Continues(quotes, Run(quotes, requests))
    decreases |requests|
  {
    hide Reserve, QuotesOk, Continues;
    if requests == [] {
      ContinuesItself(quotes);
    } else {
      var r := requests[0];
      match Reserve(quotes, r.order, r.card, r.due, r.currency, r.now)
      case Quoted(qs, _) =>
        ReserveKeepsOk(quotes, r.order, r.card, r.due, r.currency, r.now);
        RunKeepsOk(qs, requests[1..]);
        ContinuesTwice(quotes, qs, Run(qs, requests[1..]));
      case Refused(_) =>
        RunKeepsOk(quotes, requests[1..]);
    }
  }

  lemma ContinuesItself(quotes: seq<Quote>)
    ensures Continues(quotes, quotes)
  {
  }

  lemma ContinuesTwice(xs: seq<Quote>, ys: seq<Quote>, zs: seq<Quote>)
    requires Continues(xs, ys) && Continues(ys, zs)
    ensures Continues(xs, zs)
  {
  }

  // ----- the table as an object -----

  class QuoteTable {
    var quotes: seq<Quote>

    constructor ()
      ensures quotes == [] && QuotesOk(quotes)
    {
      quotes := [];
    }

    /** Search the window upwards for the first amount that no quote of the card has. */
    method FindExtra(card: Card, due: int, unit: int) returns (extra: Option<int>)
      ensures extra == FirstFree(quotes, card.id, due, unit, 1, Limit(card))
    {
      var e := 1;
      while e <= Limit(card)
        invariant 1 <= e <= Limit(card) + 1
        invariant FirstFree(quotes, card.id, due, unit, 1, Limit(card)) == FirstFree(quotes, card.id, due, unit, e, Limit(card))
      {
        if !Taken(quotes, card.id, due + unit * e) { return Some(e); }
        e := e + 1;
      }
      return None;
    }

    /** Give up the reservations of a card whose waiting time is over. */
    method ReleaseOld(card: nat, now: int)
      modifies this
      ensures quotes == Released(old(quotes), card, now)
    {
      ghost var was, released := quotes, Released(quotes, card, now);
      hide Released;
      var i := 0;
      while i < |quotes|
        invariant i <= |quotes| == |was|
        invariant forall j :: 0 <= j < i ==> quotes[j] == released[j]
        invariant forall j :: i <= j < |quotes| ==> quotes[j] == was[j]
      {
        var q := quotes[i];
        if q.card == card && q.reserved && q.release <= now { quotes := quotes[i := q.(reserved := false)]; }
        i := i + 1;
      }
    }

    /** Quote an order on a card; `open` says that the order awaits payment and the card is in
        use. A refusal leaves the table as it was. The constraint that reserved amounts of a
        card differ is never violated. */
    method ReserveCardQuote(order: nat, card: Card, open: bool, finalPrice: int, confirmed: int, currency: Currency,
                            now: int) returns (quote: Option<Quote>)
      requires QuotesOk(quotes)
      modifies this
      ensures QuotesOk(quotes)
      ensures !open ==> quotes == old(quotes) && quote == None
      ensures open ==> match Reserve(old(quotes), order, card, Max(finalPrice - confirmed, 0), currency, now)
              case Quoted(after, i) => quotes == after && i < |after| && quote == Some(after[i])
              case Refused(_) => quotes == old(quotes) && quote == None
    {
      hide QuotesOk, Continues, Released, QuoteOf, FirstFree, Taken;
      if !open { return None; }
      var due := Max(finalPrice - confirmed, 0);
      if due <= 0 { return None; }
      var saved := quotes;
      ReleaseOld(card.id, now);
      if Reserve(saved, order, card, due, currency, now).Quoted? { ReserveKeepsOk(saved, order, card, due, currency, now); }
      var previous := QuoteOf(quotes, order);
      if previous.Some? {
        var q := quotes[previous.value];
        if q.card == card.id && q.base == due && now < q.release {
          if q.expires <= now {
            q := q.(expires := Min(now + 24 * HOUR, q.release));
            quotes := quotes[previous.value := q];
          }
          return Some(q);
        }
        quotes := saved;
        return None;
      }
      var expected := due;
      if card.unique {
        var extra := None;
        if !currency.OtherCurrency? { extra := FindExtra(card, due, ExtraUnit(currency)); }
        if extra.None? {
          quotes := saved;
          return None;
        }
        expected := due + ExtraUnit(currency) * extra.value;
      }
      var q := Quote(order, card.id, due, expected, card.unique, card.unique, now + 24 * HOUR, now + 7 * DAY);
      quotes := quotes + [q];
      return Some(q);
    }
  }
}
