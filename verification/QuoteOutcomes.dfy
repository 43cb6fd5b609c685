/** Which quote an order gets, from the table before the request. */
module QuoteOutcomes {
  import opened Prelude
  import opened Decimals
  import opened Wallets
  import opened CardQuotes

  /** An order has one quote for good. Asked for again it is renewed exactly for the same card
      and the same due inside its seven days; a lapsed one waits another day, but not beyond
      them. Otherwise the request is refused, and says why. */
  lemma QuoteIsRenewed(quotes: seq<Quote>, i: nat, card: Card, due: int, currency: Currency, now: int)
    requires OrdersDiffer(quotes) && i < |quotes| && 0 < due
    ensures var r, q := Reserve(quotes, quotes[i].order, card, due, currency, now), quotes[i];
            && (r.Quoted? <==> q.card == card.id && q.base == due && now < q.release)
            && (r == Refused(Changed) <==> q.card != card.id || q.base != due)
            && (r == Refused(WindowOver) <==> q.card == card.id && q.base == due && q.release <= now)
            && (r.Quoted? ==>
                  && r.index == i && |r.quotes| == |quotes|
                  && r.quotes[i] == q.(reserved := r.quotes[i].reserved, expires := r.quotes[i].expires)
                  && r.quotes[i].expires == (if now < q.expires then q.expires else Min(now + 86_400, q.release)))
  {
    var qs := Released(quotes, card.id, now);
    var j := QuoteOf(qs, quotes[i].order).value;
    assert quotes[j].order == quotes[i].order;
  }

  /** A new quote can be paid for a day and keeps its amount for seven; without a suffix it is
      for what is due. */
  lemma QuoteIsNew(quotes: seq<Quote>, order: nat, card: Card, due: int, currency: Currency, now: int)
    requires forall i :: 0 <= i < |quotes| ==> quotes[i].order != order
    ensures var r := Reserve(quotes, order, card, due, currency, now);
            && (r == Refused(AlreadyPaid) <==> due <= 0)
            && (r == Refused(WrongCurrency) <==> 0 < due && card.unique && currency.OtherCurrency?)
            && (0 < due && !card.unique ==> r.Quoted?)
            && (r.Quoted? ==>
                  && r.index == |quotes| && |r.quotes| == |quotes| + 1
                  && var q := r.quotes[r.index];
                  && q.order == order && q.card == card.id && q.base == due
                  && q.suffix == q.reserved == card.unique && (!card.unique ==> q.expected == due)
                  && q.expires == now + 86_400 && q.release == now + 604_800)
  {
    hide FirstFree;
    var qs := Released(quotes, card.id, now);
    assert QuoteOf(qs, order).None?;
  }

  /** The extra of a suffix quote is the smallest free one: whole Toman or tens of Rial, from
      one up to the card's limit, which lies between 1 and 99. */
  lemma ExtraIsSmallest(quotes: seq<Quote>, order: nat, card: Card, due: int, currency: Currency, now: int,
                        unit: int, limit: int)
    requires 0 < due && card.unique && !currency.OtherCurrency?
    requires forall i :: 0 <= i < |quotes| ==> quotes[i].order != order
    requires unit == if currency.Rial? then 1000 else 100
    requires limit == if card.maxExtra < 1 then 1 else if 99 < card.maxExtra then 99 else card.maxExtra
    ensures var r := Reserve(quotes, order, card, due, currency, now);
            && (r == Refused(NoAmountLeft) <==> forall e :: 1 <= e <= limit ==> Taken(quotes, card.id, due + unit * e))
            && (r.Quoted? ==>
                  exists e :: 1 <= e <= limit && r.quotes[r.index].expected == due + unit * e
                    && !Taken(quotes, card.id, due + unit * e)
                    && forall f :: 1 <= f < e ==> Taken(quotes, card.id, due + unit * f))
  {
    hide Reserve, Taken;
    SmallestFreeAmount(quotes, order, card, due, currency, now);
    RefusedForNothingElse(quotes, order, card, due, currency, now);
    assert unit == ExtraUnit(currency) && limit == Limit(card);
    hide ExtraUnit, Limit;
  }

  lemma RefusedForNothingElse(quotes: seq<Quote>, order: nat, card: Card, due: int, currency: Currency, now: int)
    requires 0 < due && card.unique && !currency.OtherCurrency?
    requires forall i :: 0 <= i < |quotes| ==> quotes[i].order != order
    ensures var r := Reserve(quotes, order, card, due, currency, now); r.Quoted? || r == Refused(NoAmountLeft)
  {
    hide FirstFree;
    assert QuoteOf(Released(quotes, card.id, now), order).None?;
  }
}
