/** Joining a market selection with the quote that was on offer at the cutoff. */
module Quotes {
  import opened Prelude

  /** Times are UTC instants. */
  datatype Quote = Quote(
    boutId: string, marketFamily: string, outcomeKey: string, linePoint: Option<real>,
    priceDecimal: real, observedAt: int, quoteId: int,
    availability: string, lifecycle: string, eligible: bool,
    isReplacement: bool, isAmbiguous: bool, isProxyTimestamp: bool,
    sourceKind: string, provider: string, bookmakerKey: string, laterIgnored: nat)

  datatype Selection = Selection(boutId: string, family: string, outcomeKey: string, linePoint: Option<real>)

  datatype Exclusion =
    | LockedNotAccessed | MissingModel | MissingP25 | ThresholdOnly | PostCutoffOdds | AmbiguousOdds
    | ReplacedOdds | StaleOdds | SuspendedOdds | IneligibleQuote | OtherReason(text: string)

  datatype Join = Join(quote: Option<Quote>, priced: bool, reason: Option<Exclusion>)

  function Matches(sel: Selection): Quote -> bool {
    (q: Quote) =>
      q.boutId == sel.boutId && q.marketFamily == sel.family
      && q.outcomeKey == sel.outcomeKey && q.linePoint == sel.linePoint
  }

  function AsOf(cutoff: int): Quote -> bool { (q: Quote) => q.observedAt <= cutoff }

  function After(cutoff: int): Quote -> bool { (q: Quote) => q.observedAt > cutoff }

  predicate Newer(x: Quote, y: Quote) {
    x.observedAt > y.observedAt || (x.observedAt == y.observedAt && x.quoteId > y.quoteId)
  }

  /** The first of the quotes that no other beats on (time, id). */
  function Newest(quotes: seq<Quote>): Quote
    requires quotes != []
  {
    if |quotes| == 1 then quotes[0] else
      var before := Newest(Front(quotes));
      if Newer(Last(quotes), before) then Last(quotes) else before
  }

  predicate ConflictAt(quotes: seq<Quote>, time: int) {
    exists i, j | 0 <= i < |quotes| && 0 <= j < |quotes| ::
      quotes[i].observedAt == time && quotes[j].observedAt == time
      && quotes[i].priceDecimal != quotes[j].priceDecimal
  }

  predicate AnyAmbiguous(quotes: seq<Quote>) {
    exists i | 0 <= i < |quotes| :: quotes[i].isAmbiguous
  }

  predicate Blocking(lifecycle: string) {
    lifecycle in ["stale", "replaced", "cancelled", "locked", "review_blocked", "missing_unknown"]
  }

  function Judge(chosen: Quote, later: nat): Join {
    if chosen.isReplacement || chosen.lifecycle == "replaced" then Join(Some(chosen), false, Some(ReplacedOdds))
    else if chosen.lifecycle == "stale" then Join(Some(chosen), false, Some(StaleOdds))
    else if chosen.availability != "available" || Blocking(chosen.lifecycle)
      then Join(Some(chosen), false, Some(SuspendedOdds))
    else if !chosen.eligible then Join(Some(chosen), false, Some(IneligibleQuote))
    else Join(Some(chosen.(laterIgnored := later)), true, None)
  }

  function Decide(asOf: seq<Quote>, later: nat): Join
    requires asOf != []
  {
    if AnyAmbiguous(asOf) then Join(None, false, Some(AmbiguousOdds))
    else if ConflictAt(asOf, Newest(asOf).observedAt) then Join(None, false, Some(AmbiguousOdds))
    else Judge(Newest(asOf), later)
  }

  function JoinQuote(candidates: seq<Quote>, sel: Selection, cutoff: int): Join {
    var matching := Filter(Matches(sel), candidates);
    if matching == [] then Join(None, false, Some(ThresholdOnly))
    else
      var asOf := Filter(AsOf(cutoff), matching);
      if asOf == [] then Join(Some(matching[0]), false, Some(PostCutoffOdds))
      else Decide(asOf, Count(After(cutoff), matching))
  }

  /** What was on offer for the selection at the cutoff. */
  function OnOffer(candidates: seq<Quote>, sel: Selection, cutoff: int): seq<Quote> {
    Filter(AsOf(cutoff), Filter(Matches(sel), candidates))
  }

  // ----- a price comes from the latest quote before the cutoff -----

  lemma {:induction false} NewestIsNewest(quotes: seq<Quote>)
    requires quotes != []
    ensures Newest(quotes) in quotes
    ensures forall q | q in quotes :: !Newer(q, Newest(quotes))
  {
    if |quotes| > 1 {
      NewestIsNewest(Front(quotes));
      Split(quotes);
    }
  }

  /** A quote good enough to price from. */
  predicate Sound(q: Quote) {
    && !q.isReplacement && q.availability == "available" && q.eligible && !Blocking(q.lifecycle)
  }

  ghost predicate IsThePrice(asOf: seq<Quote>, q: Quote) {
    && q in asOf && Sound(q)
    && (forall o | o in asOf :: !o.isAmbiguous && o.observedAt <= q.observedAt)
    && (forall o | o in asOf && o.observedAt == q.observedAt :: o.priceDecimal == q.priceDecimal)
  }

  lemma DecideWellFormed(asOf: seq<Quote>, later: nat)
    requires asOf != []
    ensures Decide(asOf, later).priced <==> IsThePrice(asOf, Newest(asOf))
    ensures Decide(asOf, later).priced ==> Decide(asOf, later).quote == Some(Newest(asOf).(laterIgnored := later))
    ensures Decide(asOf, later).priced <==> Decide(asOf, later).reason.None?
  {
    NewestIsNewest(asOf);
    var q := Newest(asOf);
    assert Blocking("stale") && Blocking("replaced");
    if ConflictAt(asOf, q.observedAt) {
      var i, j :| 0 <= i < |asOf| && 0 <= j < |asOf|
        && asOf[i].observedAt == q.observedAt && asOf[j].observedAt == q.observedAt
        && asOf[i].priceDecimal != asOf[j].priceDecimal;
      assert asOf[i] in asOf && asOf[j] in asOf;
    } else {
      var n :| 0 <= n < |asOf| && asOf[n] == q;
      assert forall o | o in asOf && o.observedAt == q.observedAt :: o.priceDecimal == q.priceDecimal;
    }
    if AnyAmbiguous(asOf) {
      var i :| 0 <= i < |asOf| && asOf[i].isAmbiguous;
      assert asOf[i] in asOf;
    }
  }

  /** A selection is priced exactly when the newest quote observed by the cutoff is
      sound, no quote observed by the cutoff is ambiguous, and every quote at that
      latest time shows the same price; the price is then that quote's. */
  lemma PricedIffLatestIsSound(candidates: seq<Quote>, sel: Selection, cutoff: int)
    ensures var r := JoinQuote(candidates, sel, cutoff);
            var asOf := OnOffer(candidates, sel, cutoff);
            && (r.priced <==> asOf != [] && IsThePrice(asOf, Newest(asOf)))
            && (r.priced ==> r.quote.Some? && r.quote.value.observedAt <= cutoff
                             && r.quote.value.(laterIgnored := Newest(asOf).laterIgnored) == Newest(asOf)
                             && Newest(asOf) in candidates)
            && (r.priced <==> r.reason.None?)
  {
    var matching := Filter(Matches(sel), candidates);
    var asOf := OnOffer(candidates, sel, cutoff);
    FilterMembers(Matches(sel), candidates);
    FilterMembers(AsOf(cutoff), matching);
    if asOf != [] {
      DecideWellFormed(asOf, Count(After(cutoff), matching));
      NewestIsNewest(asOf);
    }
  }

  // ----- no look-ahead -----

  function Untagged(r: Join): Join {
    if r.quote.Some? then r.(quote := Some(r.quote.value.(laterIgnored := 0))) else r
  }

  lemma JoinOnOffer(candidates: seq<Quote>, sel: Selection, cutoff: int)
    requires OnOffer(candidates, sel, cutoff) != []
    ensures JoinQuote(candidates, sel, cutoff)
         == Decide(OnOffer(candidates, sel, cutoff), Count(After(cutoff), Filter(Matches(sel), candidates)))
  {
    assert Filter(AsOf(cutoff), []) == [];
  }

  lemma LaterCountIsATag(asOf: seq<Quote>, m: nat, n: nat)
    requires asOf != []
    ensures Untagged(Decide(asOf, m)) == Untagged(Decide(asOf, n))
    ensures Decide(asOf, m).priced ==> Decide(asOf, m).quote.value.laterIgnored == m
  {
  }

  /** With a matching quote by the cutoff, adding, removing or altering quotes seen
      after the cutoff changes nothing but the count of ignored later quotes. */
  lemma NoLookAhead(xs: seq<Quote>, ys: seq<Quote>, sel: Selection, cutoff: int)
    requires OnOffer(xs, sel, cutoff) == OnOffer(ys, sel, cutoff) != []
    ensures Untagged(JoinQuote(xs, sel, cutoff)) == Untagged(JoinQuote(ys, sel, cutoff))
    ensures JoinQuote(xs, sel, cutoff).priced ==>
              JoinQuote(xs, sel, cutoff).quote.value.laterIgnored
              == Count(After(cutoff), Filter(Matches(sel), xs))
  {
    JoinOnOffer(xs, sel, cutoff);
    JoinOnOffer(ys, sel, cutoff);
    var asOf := OnOffer(xs, sel, cutoff);
    LaterCountIsATag(
      asOf, Count(After(cutoff), Filter(Matches(sel), xs)), Count(After(cutoff), Filter(Matches(sel), ys)));
  }

  /** Filtering out everything observed after the cutoff beforehand changes nothing
      but that count. */
  lemma PastAloneDecides(candidates: seq<Quote>, sel: Selection, cutoff: int)
    requires OnOffer(candidates, sel, cutoff) != []
    ensures Untagged(JoinQuote(candidates, sel, cutoff))
         == Untagged(JoinQuote(Filter(AsOf(cutoff), candidates), sel, cutoff))
  {
    FiltersCommute(Matches(sel), AsOf(cutoff), candidates);
    var past := Filter(AsOf(cutoff), candidates);
    FilterMembers(AsOf(cutoff), Filter(Matches(sel), candidates));
    FilterAll(AsOf(cutoff), Filter(Matches(sel), past));
    NoLookAhead(candidates, past, sel, cutoff);
  }

  lemma {:induction false} FiltersCommute<T>(p: T -> bool, q: T -> bool, xs: seq<T>)
    ensures Filter(q, Filter(p, xs)) == Filter(p, Filter(q, xs))
  {
    if xs != [] {
      FiltersCommute(p, q, Front(xs));
      var a, b := Filter(p, Front(xs)), Filter(q, Front(xs));
      assert Front(a + [Last(xs)]) == a && Front(b + [Last(xs)]) == b;
    }
  }
}
