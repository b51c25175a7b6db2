/** What joining a selection with its quotes yields, told by the columns of the quotes: which
    quote prices, and for which of the reasons a selection stays unpriced. */
module QuoteFacts {
  import opened Prelude
  import opened Quotes

  // ----- which quotes count -----

  ghost predicate OfSelection(q: Quote, sel: Selection) {
    && q.boutId == sel.boutId && q.marketFamily == sel.family
    && q.outcomeKey == sel.outcomeKey && q.linePoint == sel.linePoint
  }

  ghost predicate InTime(q: Quote, sel: Selection, cutoff: int) { OfSelection(q, sel) && q.observedAt <= cutoff }

  /** The newest quote in time, by its time and then its id; the first of equal ones. */
  ghost predicate IsLatest(quotes: seq<Quote>, sel: Selection, cutoff: int, k: int) {
    && 0 <= k < |quotes| && InTime(quotes[k], sel, cutoff)
    && forall i | 0 <= i < |quotes| && InTime(quotes[i], sel, cutoff) ::
         || quotes[i].observedAt < quotes[k].observedAt
         || (quotes[i].observedAt == quotes[k].observedAt && quotes[i].quoteId < quotes[k].quoteId)
         || (quotes[i].observedAt == quotes[k].observedAt && quotes[i].quoteId == quotes[k].quoteId && k <= i)
  }

  /** No quote in time is ambiguous, and those of the latest time agree on the price. */
  ghost predicate Undisputed(quotes: seq<Quote>, sel: Selection, cutoff: int, k: int)
    requires 0 <= k < |quotes|
  {
    forall i | 0 <= i < |quotes| && InTime(quotes[i], sel, cutoff) ::
      && !quotes[i].isAmbiguous
      && (quotes[i].observedAt == quotes[k].observedAt ==> quotes[i].priceDecimal == quotes[k].priceDecimal)
  }

  /** The first quote of the selection, where all of them come too late. */
  ghost predicate IsFirstLate(quotes: seq<Quote>, sel: Selection, cutoff: int, k: int) {
    && 0 <= k < |quotes| && OfSelection(quotes[k], sel)
    && (forall i | 0 <= i < k :: !OfSelection(quotes[i], sel))
    && (forall i | 0 <= i < |quotes| :: !InTime(quotes[i], sel, cutoff))
  }

  ghost predicate Replaced(q: Quote) { q.isReplacement || q.lifecycle == "replaced" }

  ghost predicate Suspended(q: Quote) {
    || q.availability != "available" || q.lifecycle == "cancelled" || q.lifecycle == "locked"
    || q.lifecycle == "review_blocked" || q.lifecycle == "missing_unknown"
  }

  ghost predicate Offerable(q: Quote) {
    && q.availability == "available" && q.eligible && !q.isReplacement
    && q.lifecycle != "stale" && q.lifecycle != "replaced" && q.lifecycle != "cancelled"
    && q.lifecycle != "locked" && q.lifecycle != "review_blocked" && q.lifecycle != "missing_unknown"
  }

  /** Why a quote that cannot be taken is refused, the first reason that applies. */
  ghost predicate RefusedFor(q: Quote, reason: Exclusion) {
    && !Offerable(q)
    && reason == if Replaced(q) then ReplacedOdds
                 else if q.lifecycle == "stale" then StaleOdds
                 else if Suspended(q) then SuspendedOdds
                 else IneligibleQuote
  }

  /** Where the quotes of the selection stand that come after the cutoff. */
  ghost function LatePositions(quotes: seq<Quote>, sel: Selection, cutoff: int): set<int> {
    set i | 0 <= i < |quotes| && OfSelection(quotes[i], sel) && quotes[i].observedAt > cutoff
  }

  ghost function LaterQuotes(quotes: seq<Quote>, sel: Selection, cutoff: int): nat {
    |LatePositions(quotes, sel, cutoff)|
  }

  // ----- from the filtered lists to positions -----

  ghost predicate FirstNewest(keep: Quote -> bool, quotes: seq<Quote>, k: int) {
    && 0 <= k < |quotes| && keep(quotes[k])
    && (forall i | 0 <= i < |quotes| && keep(quotes[i]) :: !Newer(quotes[i], quotes[k]))
    && (forall i | 0 <= i < k && keep(quotes[i]) :: Newer(quotes[k], quotes[i]))
  }

  lemma {:induction false} NewestAt(keep: Quote -> bool, quotes: seq<Quote>) returns (k: int)
    requires Filter(keep, quotes) != []
    ensures FirstNewest(keep, quotes, k) && Newest(Filter(keep, quotes)) == quotes[k]
  {
    var front, last, at := Front(quotes), Last(quotes), |quotes| - 1;
    var rest := Filter(keep, front);
    if rest == [] {
      KeptNowhere(keep, front);
      k := at;
      assert forall i | 0 <= i < at :: quotes[i] == front[i];
      assert Filter(keep, quotes) == [last];
    } else {
      var j := NewestAt(keep, front);
      k := if keep(last) && Newer(last, front[j]) then at else j;
      NewestStep(keep, quotes, j);
      if keep(last) {
        assert Front(rest + [last]) == rest;
      }
    }
  }

  lemma NewestStep(keep: Quote -> bool, quotes: seq<Quote>, j: int)
    requires quotes != [] && FirstNewest(keep, Front(quotes), j)
    ensures FirstNewest(keep, quotes, if keep(Last(quotes)) && Newer(Last(quotes), quotes[j]) then |quotes| - 1 else j)
  {
    var front := Front(quotes);
    forall i | 0 <= i < |quotes| - 1
      ensures quotes[i] == front[i]
      ensures keep(quotes[i]) ==> !Newer(quotes[i], quotes[j])
    {
    }
  }

  lemma {:induction false} KeptNowhere<T>(keep: T -> bool, xs: seq<T>)
    ensures Filter(keep, xs) == [] <==> forall i | 0 <= i < |xs| :: !keep(xs[i])
  {
    if xs != [] {
      KeptNowhere(keep, Front(xs));
      assert forall i | 0 <= i < |xs| - 1 :: xs[i] == Front(xs)[i];
    }
  }

  lemma {:induction false} FirstKept<T>(keep: T -> bool, xs: seq<T>) returns (k: int)
    requires Filter(keep, xs) != []
    ensures 0 <= k < |xs| && keep(xs[k]) && Filter(keep, xs)[0] == xs[k] && forall i | 0 <= i < k :: !keep(xs[i])
  {
    if Filter(keep, Front(xs)) == [] {
      KeptNowhere(keep, Front(xs));
      k := |xs| - 1;
    } else {
      k := FirstKept(keep, Front(xs));
    }
  }

  function Timely(sel: Selection, cutoff: int): Quote -> bool { Both(AsOf(cutoff), Matches(sel)) }

  lemma TimelyMeans(sel: Selection, cutoff: int)
    ensures forall q :: Matches(sel)(q) <==> OfSelection(q, sel)
    ensures forall q :: Timely(sel, cutoff)(q) <==> InTime(q, sel, cutoff)
  {
  }

  lemma OnOfferIsTimely(quotes: seq<Quote>, sel: Selection, cutoff: int)
    ensures OnOffer(quotes, sel, cutoff) == Filter(Timely(sel, cutoff), quotes)
    ensures forall q :: q in OnOffer(quotes, sel, cutoff) <==> q in quotes && InTime(q, sel, cutoff)
  {
    TimelyMeans(sel, cutoff);
    FilterTwice(AsOf(cutoff), Matches(sel), quotes);
    FilterMembers(Timely(sel, cutoff), quotes);
  }

  lemma LatestIsNewest(quotes: seq<Quote>, sel: Selection, cutoff: int) returns (k: int)
    requires OnOffer(quotes, sel, cutoff) != []
    ensures IsLatest(quotes, sel, cutoff, k) && Newest(OnOffer(quotes, sel, cutoff)) == quotes[k]
  {
    OnOfferIsTimely(quotes, sel, cutoff);
    TimelyMeans(sel, cutoff);
    k := NewestAt(Timely(sel, cutoff), quotes);
  }

  lemma OneLatest(quotes: seq<Quote>, sel: Selection, cutoff: int, k: int, l: int)
    requires IsLatest(quotes, sel, cutoff, k) && IsLatest(quotes, sel, cutoff, l)
    ensures k == l
  {
  }

  lemma DisputeIsConflict(quotes: seq<Quote>, sel: Selection, cutoff: int, k: int)
    requires IsLatest(quotes, sel, cutoff, k)
    ensures var offer := OnOffer(quotes, sel, cutoff);
            Undisputed(quotes, sel, cutoff, k) <==>
              !AnyAmbiguous(offer) && !ConflictAt(offer, quotes[k].observedAt)
  {
    var offer := OnOffer(quotes, sel, cutoff);
    OnOfferIsTimely(quotes, sel, cutoff);
    assert quotes[k] in offer;
    var n :| 0 <= n < |offer| && offer[n] == quotes[k];
    if !Undisputed(quotes, sel, cutoff, k) {
      var i :| 0 <= i < |quotes| && InTime(quotes[i], sel, cutoff)
        && !(!quotes[i].isAmbiguous
             && (quotes[i].observedAt == quotes[k].observedAt ==> quotes[i].priceDecimal == quotes[k].priceDecimal));
      assert quotes[i] in offer;
      var j :| 0 <= j < |offer| && offer[j] == quotes[i];
    } else {
      forall j | 0 <= j < |offer|
        ensures !offer[j].isAmbiguous
        ensures offer[j].observedAt == quotes[k].observedAt ==> offer[j].priceDecimal == quotes[k].priceDecimal
      {
        assert offer[j] in offer;
        var i :| 0 <= i < |quotes| && quotes[i] == offer[j];
      }
    }
  }

  lemma LaterIsCount(quotes: seq<Quote>, sel: Selection, cutoff: int)
    ensures Count(After(cutoff), Filter(Matches(sel), quotes)) == LaterQuotes(quotes, sel, cutoff)
  {
    var late := Both(After(cutoff), Matches(sel));
    FilterTwice(After(cutoff), Matches(sel), quotes);
    CountIsPositions(late, quotes);
    TimelyMeans(sel, cutoff);
    assert forall i | 0 <= i < |quotes| ::
        late(quotes[i]) <==> OfSelection(quotes[i], sel) && quotes[i].observedAt > cutoff;
    assert Positions(late, quotes) == LatePositions(quotes, sel, cutoff);
  }

  // ----- the join -----

  lemma JudgedAs(q: Quote, later: nat)
    ensures Offerable(q) ==> Judge(q, later) == Join(Some(q.(laterIgnored := later)), true, None)
    ensures !Offerable(q) ==> Judge(q, later).quote == Some(q) && !Judge(q, later).priced
    ensures !Offerable(q) ==> Judge(q, later).reason.Some? && RefusedFor(q, Judge(q, later).reason.value)
  {
    BlockingTexts(q.lifecycle);
  }

  lemma BlockingTexts(lifecycle: string)
    ensures Blocking(lifecycle) <==>
              || lifecycle == "stale" || lifecycle == "replaced" || lifecycle == "cancelled"
              || lifecycle == "locked" || lifecycle == "review_blocked" || lifecycle == "missing_unknown"
  {
  }

  /** A quote in time decides alone: the latest one. */
  lemma JoinAtLatest(quotes: seq<Quote>, sel: Selection, cutoff: int, k: int)
    requires IsLatest(quotes, sel, cutoff, k)
    ensures var r, q := JoinQuote(quotes, sel, cutoff), quotes[k];
            if !Undisputed(quotes, sel, cutoff, k) then r == Join(None, false, Some(AmbiguousOdds))
            else if Offerable(q) then
              r == Join(Some(q.(laterIgnored := LaterQuotes(quotes, sel, cutoff))), true, None)
            else r.quote == Some(q) && !r.priced && r.reason.Some? && RefusedFor(q, r.reason.value)
  {
    var offer := OnOffer(quotes, sel, cutoff);
    OnOfferIsTimely(quotes, sel, cutoff);
    assert quotes[k] in offer;
    var l := LatestIsNewest(quotes, sel, cutoff);
    OneLatest(quotes, sel, cutoff, k, l);
    JoinOnOffer(quotes, sel, cutoff);
    DisputeIsConflict(quotes, sel, cutoff, k);
    LaterIsCount(quotes, sel, cutoff);
    JudgedAs(quotes[k], LaterQuotes(quotes, sel, cutoff));
  }

  /** Without a quote in time the first late one is handed back, or nothing is. */
  lemma JoinWithoutOffer(quotes: seq<Quote>, sel: Selection, cutoff: int)
    requires forall i | 0 <= i < |quotes| :: !InTime(quotes[i], sel, cutoff)
    ensures var r := JoinQuote(quotes, sel, cutoff);
            && (r == Join(None, false, Some(ThresholdOnly)) || r.reason == Some(PostCutoffOdds))
            && (r.reason == Some(ThresholdOnly) <==> forall i | 0 <= i < |quotes| :: !OfSelection(quotes[i], sel))
            && (r.reason == Some(PostCutoffOdds) ==>
                  exists k :: IsFirstLate(quotes, sel, cutoff, k) && r == Join(Some(quotes[k]), false, r.reason))
  {
    OnOfferIsTimely(quotes, sel, cutoff);
    TimelyMeans(sel, cutoff);
    KeptNowhere(Matches(sel), quotes);
    KeptNowhere(Timely(sel, cutoff), quotes);
    if Filter(Matches(sel), quotes) != [] {
      var k := FirstKept(Matches(sel), quotes);
      assert IsFirstLate(quotes, sel, cutoff, k);
    }
  }

  lemma SomeLatest(quotes: seq<Quote>, sel: Selection, cutoff: int) returns (k: int)
    requires exists i :: 0 <= i < |quotes| && InTime(quotes[i], sel, cutoff)
    ensures IsLatest(quotes, sel, cutoff, k)
  {
    var i :| 0 <= i < |quotes| && InTime(quotes[i], sel, cutoff);
    OnOfferIsTimely(quotes, sel, cutoff);
    assert quotes[i] in OnOffer(quotes, sel, cutoff);
    k := LatestIsNewest(quotes, sel, cutoff);
  }

  ghost predicate PricesAt(quotes: seq<Quote>, sel: Selection, cutoff: int, k: int) {
    IsLatest(quotes, sel, cutoff, k) && Undisputed(quotes, sel, cutoff, k) && Offerable(quotes[k])
  }

  /** A selection is priced exactly when its latest quote in time is undisputed and can be
      taken, and then from that quote; only the count of later quotes is written into it. */
  lemma PricedIffLatestCanBeTaken(quotes: seq<Quote>, sel: Selection, cutoff: int)
    ensures var r := JoinQuote(quotes, sel, cutoff);
            && (r.priced <==> exists k :: PricesAt(quotes, sel, cutoff, k))
            && (r.priced <==> r.reason.None?)
            && forall k | PricesAt(quotes, sel, cutoff, k) ::
                 r.quote == Some(quotes[k].(laterIgnored := LaterQuotes(quotes, sel, cutoff)))
  {
    if exists i :: 0 <= i < |quotes| && InTime(quotes[i], sel, cutoff) {
      var k := SomeLatest(quotes, sel, cutoff);
      JoinAtLatest(quotes, sel, cutoff, k);
      assert PricesAt(quotes, sel, cutoff, k) <==> Undisputed(quotes, sel, cutoff, k) && Offerable(quotes[k]);
      forall l | PricesAt(quotes, sel, cutoff, l)
        ensures l == k
      {
        OneLatest(quotes, sel, cutoff, k, l);
      }
    } else {
      JoinWithoutOffer(quotes, sel, cutoff);
    }
  }

  ghost predicate RefusedAt(quotes: seq<Quote>, sel: Selection, cutoff: int, k: int, reason: Exclusion) {
    && IsLatest(quotes, sel, cutoff, k) && Undisputed(quotes, sel, cutoff, k)
    && RefusedFor(quotes[k], reason)
  }

  ghost predicate DisputedAt(quotes: seq<Quote>, sel: Selection, cutoff: int, k: int) {
    IsLatest(quotes, sel, cutoff, k) && !Undisputed(quotes, sel, cutoff, k)
  }

  /** When a reason applies: no quote of the selection, none in time, a dispute, or a latest
      quote that is replaced, stale, suspended or ineligible. */
  ghost predicate Applies(quotes: seq<Quote>, sel: Selection, cutoff: int, reason: Exclusion) {
    match reason
    case ThresholdOnly => forall i | 0 <= i < |quotes| :: !OfSelection(quotes[i], sel)
    case PostCutoffOdds => exists k :: IsFirstLate(quotes, sel, cutoff, k)
    case AmbiguousOdds => exists k :: DisputedAt(quotes, sel, cutoff, k)
    case _ => exists k :: RefusedAt(quotes, sel, cutoff, k, reason)
  }

  lemma AppliesWithLatest(quotes: seq<Quote>, sel: Selection, cutoff: int, k: int, reason: Exclusion)
    requires IsLatest(quotes, sel, cutoff, k)
    ensures Applies(quotes, sel, cutoff, reason) <==>
              if Undisputed(quotes, sel, cutoff, k) then RefusedFor(quotes[k], reason)
              else reason == AmbiguousOdds
  {
    assert InTime(quotes[k], sel, cutoff);
    forall l | IsLatest(quotes, sel, cutoff, l)
      ensures l == k
    {
      OneLatest(quotes, sel, cutoff, k, l);
    }
    if !Undisputed(quotes, sel, cutoff, k) {
      assert DisputedAt(quotes, sel, cutoff, k);
    } else if RefusedFor(quotes[k], reason) {
      assert RefusedAt(quotes, sel, cutoff, k, reason);
    }
  }

  lemma AppliesWithoutOffer(quotes: seq<Quote>, sel: Selection, cutoff: int, reason: Exclusion)
    requires forall i | 0 <= i < |quotes| :: !InTime(quotes[i], sel, cutoff)
    ensures Applies(quotes, sel, cutoff, reason) ==> reason == ThresholdOnly || reason == PostCutoffOdds
  {
  }

  /** Each reason is given exactly where it applies. A refused or late quote is handed back
      as it is. */
  lemma ReasonsMean(quotes: seq<Quote>, sel: Selection, cutoff: int, reason: Exclusion)
    ensures var r := JoinQuote(quotes, sel, cutoff);
            && (r.reason == Some(reason) <==> Applies(quotes, sel, cutoff, reason))
            && (forall k | RefusedAt(quotes, sel, cutoff, k, reason) || IsFirstLate(quotes, sel, cutoff, k) ::
                  r.quote == Some(quotes[k]))
            && (reason == ThresholdOnly || reason == AmbiguousOdds ==> r.reason == Some(reason) ==> r.quote.None?)
  {
    if exists i :: 0 <= i < |quotes| && InTime(quotes[i], sel, cutoff) {
      var k := SomeLatest(quotes, sel, cutoff);
      JoinAtLatest(quotes, sel, cutoff, k);
      AppliesWithLatest(quotes, sel, cutoff, k, reason);
      OnlyReason(quotes[k]);
      forall l | RefusedAt(quotes, sel, cutoff, l, reason)
        ensures l == k
      {
        OneLatest(quotes, sel, cutoff, k, l);
      }
    } else {
      JoinWithoutOffer(quotes, sel, cutoff);
      AppliesWithoutOffer(quotes, sel, cutoff, reason);
      forall k, l | IsFirstLate(quotes, sel, cutoff, k) && IsFirstLate(quotes, sel, cutoff, l)
        ensures k == l
      {
      }
    }
  }

  lemma OnlyReason(q: Quote)
    ensures forall x, y | RefusedFor(q, x) && RefusedFor(q, y) :: x == y
    ensures forall x | RefusedFor(q, x) ::
              x == ReplacedOdds || x == StaleOdds || x == SuspendedOdds || x == IneligibleQuote
  {
  }
}
