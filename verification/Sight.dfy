/** What a scorer is shown of the quotes: the prices and flags of the bouts of a card at its
    cutoff, and why nothing seen later can reach it that way. */
module Sight {
  import opened Prelude
  import opened Quotes
  import opened QuoteFacts

  // ----- quotes seen in time -----

  /** The quotes of a bout that are seen by a time. */
  function SeenOf(boutId: string, time: int): Quote -> bool {
    (q: Quote) => q.boutId == boutId && q.observedAt <= time
  }

  ghost predicate SameOffers(xs: seq<Quote>, ys: seq<Quote>, boutId: string, cutoff: int) {
    Filter(SeenOf(boutId, cutoff), xs) == Filter(SeenOf(boutId, cutoff), ys)
  }

  /** What can be bought of a bout is found among the quotes of that bout seen in time. */
  lemma OnOfferIsSeen(xs: seq<Quote>, sel: Selection, cutoff: int)
    ensures OnOffer(xs, sel, cutoff) == Filter(Matches(sel), Filter(SeenOf(sel.boutId, cutoff), xs))
  {
    FilterTwice(AsOf(cutoff), Matches(sel), xs);
    FilterTwice(Matches(sel), SeenOf(sel.boutId, cutoff), xs);
    FilterAgree(Both(AsOf(cutoff), Matches(sel)), Both(Matches(sel), SeenOf(sel.boutId, cutoff)), xs);
  }

  lemma SameOnOffer(xs: seq<Quote>, ys: seq<Quote>, sel: Selection, cutoff: int)
    requires SameOffers(xs, ys, sel.boutId, cutoff)
    ensures OnOffer(xs, sel, cutoff) == OnOffer(ys, sel, cutoff)
  {
    OnOfferIsSeen(xs, sel, cutoff);
    OnOfferIsSeen(ys, sel, cutoff);
  }

  /** Both joins price, from quotes that differ at most in the count of later ones; or
      neither does. */
  lemma SamePrice(xs: seq<Quote>, ys: seq<Quote>, sel: Selection, cutoff: int)
    requires SameOffers(xs, ys, sel.boutId, cutoff)
    ensures var r, s := JoinQuote(xs, sel, cutoff), JoinQuote(ys, sel, cutoff);
            && (r.priced <==> s.priced)
            && (r.priced ==> r.quote.Some? && s.quote.Some?
                             && s.quote.value == r.quote.value.(laterIgnored := s.quote.value.laterIgnored))
  {
    SameOnOffer(xs, ys, sel, cutoff);
    PricedIffLatestIsSound(xs, sel, cutoff);
    PricedIffLatestIsSound(ys, sel, cutoff);
    if OnOffer(xs, sel, cutoff) != [] {
      NoLookAhead(xs, ys, sel, cutoff);
    }
  }

  // ----- prices -----

  function QuotedSelection(q: Quote): Selection {
    Selection(q.boutId, q.marketFamily, q.outcomeKey, q.linePoint)
  }

  /** The price a scorer reads off a join. */
  function PriceOf(joined: Join): Option<real> {
    if joined.priced && joined.quote.Some? && joined.quote.value.eligible
    then Some(joined.quote.value.priceDecimal) else None
  }

  function Found(prices: map<Selection, real>, sel: Selection): Option<real> {
    if sel in prices then Some(prices[sel]) else None
  }

  /** A price for each selection of the bouts that is priced at the cutoff. */
  ghost predicate ArePrices(prices: map<Selection, real>, quotes: seq<Quote>, boutIds: seq<string>, cutoff: int) {
    forall sel :: Found(prices, sel) == if sel.boutId in boutIds then PriceOf(JoinQuote(quotes, sel, cutoff)) else None
  }

  function Prices(quotes: seq<Quote>, boutIds: seq<string>, cutoff: int): map<Selection, real> {
    var quoted := set q | q in quotes :: QuotedSelection(q);
    map sel | sel in quoted && sel.boutId in boutIds && PriceOf(JoinQuote(quotes, sel, cutoff)).Some?
      :: PriceOf(JoinQuote(quotes, sel, cutoff)).value
  }

  lemma UnquotedHasNoPrice(quotes: seq<Quote>, sel: Selection, cutoff: int)
    requires forall q | q in quotes :: QuotedSelection(q) != sel
    ensures PriceOf(JoinQuote(quotes, sel, cutoff)).None?
  {
    FilterNone(Matches(sel), quotes);
  }

  lemma PricesArePrices(quotes: seq<Quote>, boutIds: seq<string>, cutoff: int)
    ensures ArePrices(Prices(quotes, boutIds, cutoff), quotes, boutIds, cutoff)
  {
    forall sel
      ensures Found(Prices(quotes, boutIds, cutoff), sel)
           == if sel.boutId in boutIds then PriceOf(JoinQuote(quotes, sel, cutoff)) else None
    {
      if forall q | q in quotes :: QuotedSelection(q) != sel {
        UnquotedHasNoPrice(quotes, sel, cutoff);
      }
    }
  }

  lemma SameFound(m: map<Selection, real>, n: map<Selection, real>)
    requires forall sel :: Found(m, sel) == Found(n, sel)
    ensures m == n
  {
    forall sel
      ensures sel in m <==> sel in n
      ensures sel in m && sel in n ==> m[sel] == n[sel]
    {
      assert Found(m, sel) == Found(n, sel);
    }
  }

  /** The prices are determined by what each selection is priced at. */
  lemma OnePriceMap(
    m: map<Selection, real>, n: map<Selection, real>, xs: seq<Quote>, ys: seq<Quote>, boutIds: seq<string>, cutoff: int)
    requires ArePrices(m, xs, boutIds, cutoff) && ArePrices(n, ys, boutIds, cutoff)
    requires forall sel: Selection | sel.boutId in boutIds ::
               PriceOf(JoinQuote(xs, sel, cutoff)) == PriceOf(JoinQuote(ys, sel, cutoff))
    ensures m == n
  {
    forall sel
      ensures Found(m, sel) == Found(n, sel)
    {
      assert Found(m, sel) == if sel.boutId in boutIds then PriceOf(JoinQuote(xs, sel, cutoff)) else None;
      assert Found(n, sel) == if sel.boutId in boutIds then PriceOf(JoinQuote(ys, sel, cutoff)) else None;
    }
    SameFound(m, n);
  }

  /** Joins each selection that is quoted for the bouts once, at its first quote. */
  method ObservedPrices(quotes: seq<Quote>, boutIds: seq<string>, cutoff: int) returns (prices: map<Selection, real>)
    ensures prices == Prices(quotes, boutIds, cutoff)
  {
    prices := map[];
    var seen: set<Selection> := {};
    for i := 0 to |quotes|
      invariant forall sel :: sel in seen <==>
                  sel.boutId in boutIds && exists j :: 0 <= j < i && QuotedSelection(quotes[j]) == sel
      invariant forall sel :: Found(prices, sel) ==
                  if sel in seen then PriceOf(JoinQuote(quotes, sel, cutoff)) else None
    {
      var sel := QuotedSelection(quotes[i]);
      if sel.boutId !in boutIds || sel in seen {
        continue;
      }
      seen := seen + {sel};
      var joined := JoinQuote(quotes, sel, cutoff);
      if !joined.priced || joined.quote.None? || !joined.quote.value.eligible {
        continue;
      }
      prices := prices[sel := joined.quote.value.priceDecimal];
    }
    forall sel
      ensures Found(prices, sel) == if sel.boutId in boutIds then PriceOf(JoinQuote(quotes, sel, cutoff)) else None
    {
      if sel.boutId in boutIds && sel !in seen {
        UnquotedHasNoPrice(quotes, sel, cutoff);
      }
    }
    PricesArePrices(quotes, boutIds, cutoff);
    OnePriceMap(prices, Prices(quotes, boutIds, cutoff), quotes, quotes, boutIds, cutoff);
  }

  /** A scorer is shown a price exactly where the newest quote by the cutoff is sound, and
      then the price of that quote, which the rows of the selection are priced at too. */
  lemma ShownIffPriced(quotes: seq<Quote>, boutIds: seq<string>, cutoff: int, sel: Selection)
    ensures var prices, asOf := Prices(quotes, boutIds, cutoff), OnOffer(quotes, sel, cutoff);
            && (sel in prices <==> sel.boutId in boutIds && asOf != [] && IsThePrice(asOf, Newest(asOf)))
            && (sel in prices ==> asOf != [] && prices[sel] == Newest(asOf).priceDecimal)
  {
    PricesArePrices(quotes, boutIds, cutoff);
    PricedIffLatestIsSound(quotes, sel, cutoff);
    assert Found(Prices(quotes, boutIds, cutoff), sel)
        == if sel.boutId in boutIds then PriceOf(JoinQuote(quotes, sel, cutoff)) else None;
  }

  /** By the columns: for a selection of the bouts a price is shown exactly where some quote is
      the undisputed latest one in time and can be taken, and it is the price of that quote. */
  lemma ShownAtTheLatest(quotes: seq<Quote>, boutIds: seq<string>, cutoff: int, sel: Selection)
    ensures var prices := Prices(quotes, boutIds, cutoff);
            && (sel in prices <==> sel.boutId in boutIds && exists k :: PricesAt(quotes, sel, cutoff, k))
            && forall k | sel in prices && PricesAt(quotes, sel, cutoff, k) :: prices[sel] == quotes[k].priceDecimal
  {
    PricesArePrices(quotes, boutIds, cutoff);
    PricedIffLatestCanBeTaken(quotes, sel, cutoff);
    assert Found(Prices(quotes, boutIds, cutoff), sel)
        == if sel.boutId in boutIds then PriceOf(JoinQuote(quotes, sel, cutoff)) else None;
  }

  // ----- the whole view -----

  /** What is known by a time of one bout. */
  datatype Flags = Flags(ambiguous: bool, replacement: bool)

  predicate AnyReplacement(quotes: seq<Quote>) { exists i | 0 <= i < |quotes| :: quotes[i].isReplacement }

  function FlagsOf(quotes: seq<Quote>, cutoff: int): string -> Flags {
    (boutId: string) =>
      var seen := Filter(SeenOf(boutId, cutoff), quotes);
      Flags(AnyAmbiguous(seen), AnyReplacement(seen))
  }

  lemma FlagsOfSeen(seen: seq<Quote>)
    ensures AnyAmbiguous(seen) <==> exists q :: q in seen && q.isAmbiguous
    ensures AnyReplacement(seen) <==> exists q :: q in seen && q.isReplacement
  {
    if AnyAmbiguous(seen) {
      var i :| 0 <= i < |seen| && seen[i].isAmbiguous;
      assert seen[i] in seen;
    }
    if AnyReplacement(seen) {
      var i :| 0 <= i < |seen| && seen[i].isReplacement;
      assert seen[i] in seen;
    }
  }

  /** A flag is up exactly when a quote of the bout that was seen in time carries it. */
  lemma FlagsMean(quotes: seq<Quote>, cutoff: int, boutId: string)
    ensures FlagsOf(quotes, cutoff)(boutId).ambiguous <==>
              exists q :: q in quotes && q.boutId == boutId && q.observedAt <= cutoff && q.isAmbiguous
    ensures FlagsOf(quotes, cutoff)(boutId).replacement <==>
              exists q :: q in quotes && q.boutId == boutId && q.observedAt <= cutoff && q.isReplacement
  {
    var seen := Filter(SeenOf(boutId, cutoff), quotes);
    FilterMembers(SeenOf(boutId, cutoff), quotes);
    FlagsOfSeen(seen);
    assert forall q :: q in seen <==> q in quotes && q.boutId == boutId && q.observedAt <= cutoff;
  }

  datatype View = View(prices: map<Selection, real>, flags: seq<Flags>)

  function ViewOf(quotes: seq<Quote>, boutIds: seq<string>, cutoff: int): View {
    View(Prices(quotes, boutIds, cutoff), Map(FlagsOf(quotes, cutoff), boutIds))
  }

  /** Quotes seen later, or for other bouts, change nothing of what a scorer is shown: not a
      price, not a flag, and not for which selections there is a price. */
  lemma ViewIsOfThePast(xs: seq<Quote>, ys: seq<Quote>, boutIds: seq<string>, cutoff: int)
    requires forall b | b in boutIds :: SameOffers(xs, ys, b, cutoff)
    ensures ViewOf(xs, boutIds, cutoff) == ViewOf(ys, boutIds, cutoff)
  {
    PricesArePrices(xs, boutIds, cutoff);
    PricesArePrices(ys, boutIds, cutoff);
    forall sel: Selection | sel.boutId in boutIds
      ensures PriceOf(JoinQuote(xs, sel, cutoff)) == PriceOf(JoinQuote(ys, sel, cutoff))
    {
      SamePrice(xs, ys, sel, cutoff);
    }
    OnePriceMap(Prices(xs, boutIds, cutoff), Prices(ys, boutIds, cutoff), xs, ys, boutIds, cutoff);
    forall i | 0 <= i < |boutIds|
      ensures FlagsOf(xs, cutoff)(boutIds[i]) == FlagsOf(ys, cutoff)(boutIds[i])
    {
      assert boutIds[i] in boutIds;
    }
  }
}
