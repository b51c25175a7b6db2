/** When the order in which candidate quotes arrive changes the join, and exactly when it
    does not. */
module QuoteOrder {
  import opened Prelude
  import opened Quotes

  // ----- the same candidates in another order -----

  lemma ConflictOfSameMembers(xs: seq<Quote>, ys: seq<Quote>, time: int)
    requires forall q :: q in xs ==> q in ys
    ensures ConflictAt(xs, time) ==> ConflictAt(ys, time)
    ensures AnyAmbiguous(xs) ==> AnyAmbiguous(ys)
  {
    if ConflictAt(xs, time) {
      var i, j :| 0 <= i < |xs| && 0 <= j < |xs|
        && xs[i].observedAt == time && xs[j].observedAt == time
        && xs[i].priceDecimal != xs[j].priceDecimal;
      assert xs[i] in xs && xs[j] in xs;
      var k :| 0 <= k < |ys| && ys[k] == xs[i];
      var l :| 0 <= l < |ys| && ys[l] == xs[j];
      assert ConflictAt(ys, time);
    }
    if AnyAmbiguous(xs) {
      var i :| 0 <= i < |xs| && xs[i].isAmbiguous;
      assert xs[i] in xs;
      var k :| 0 <= k < |ys| && ys[k] == xs[i];
    }
  }

  lemma SameMultiset(keep: Quote -> bool, xs: seq<Quote>, ys: seq<Quote>)
    requires multiset(xs) == multiset(ys)
    ensures multiset(Filter(keep, xs)) == multiset(Filter(keep, ys))
  {
    forall q
      ensures multiset(Filter(keep, xs))[q] == multiset(Filter(keep, ys))[q]
    {
      FilterMultiset(keep, xs, q);
      FilterMultiset(keep, ys, q);
    }
  }

  ghost predicate IsNewest(quotes: seq<Quote>, q: Quote) {
    q in quotes && forall o | o in quotes :: !Newer(o, q)
  }

  /** Equal, or sound and equal but for the count that a priced join overwrites. */
  predicate Interchangeable(q: Quote, r: Quote) {
    q == r || (Sound(q) && q.(laterIgnored := 0) == r.(laterIgnored := 0))
  }

  ghost predicate OneNewest(quotes: seq<Quote>) {
    forall q, r | IsNewest(quotes, q) && IsNewest(quotes, r) :: Interchangeable(q, r)
  }

  ghost predicate AllOne(quotes: seq<Quote>) { forall q, r | q in quotes && r in quotes :: q == r }

  /** Nothing matches; or nothing is on offer and all matches are one quote; or what is on
      offer is ambiguous, shows two prices at its latest time, or has one newest quote. */
  ghost predicate OrderFree(candidates: seq<Quote>, sel: Selection, cutoff: int) {
    var matching, asOf := Filter(Matches(sel), candidates), OnOffer(candidates, sel, cutoff);
    if asOf == [] then AllOne(matching)
    else AnyAmbiguous(asOf) || ConflictAt(asOf, Newest(asOf).observedAt) || OneNewest(asOf)
  }

  ghost predicate SameJoinInAnyOrder(xs: seq<Quote>, sel: Selection, cutoff: int) {
    forall ys | multiset(ys) == multiset(xs) :: JoinQuote(ys, sel, cutoff) == JoinQuote(xs, sel, cutoff)
  }

  lemma SameMembers(xs: seq<Quote>, ys: seq<Quote>)
    requires multiset(xs) == multiset(ys)
    ensures |xs| == |ys| && forall q :: q in xs <==> q in ys
  {
    assert |multiset(xs)| == |xs| && |multiset(ys)| == |ys|;
    assert forall q :: q in xs <==> q in multiset(xs);
    assert forall q :: q in ys <==> q in multiset(ys);
  }

  lemma InterchangeableJudgement(q: Quote, r: Quote, later: nat)
    ensures Judge(q, later) == Judge(r, later) <==> Interchangeable(q, r)
  {
    assert Blocking("stale") && Blocking("replaced");
  }

  lemma LatestTime(xs: seq<Quote>, ys: seq<Quote>)
    requires xs != [] && ys != [] && forall q :: q in xs <==> q in ys
    ensures Newest(xs).observedAt == Newest(ys).observedAt
    ensures IsNewest(xs, Newest(xs)) && IsNewest(xs, Newest(ys))
  {
    NewestIsNewest(xs);
    NewestIsNewest(ys);
    assert !Newer(Newest(xs), Newest(ys)) && !Newer(Newest(ys), Newest(xs));
  }

  /** What was on offer decides alike in any order. */
  lemma DecideInAnyOrder(xs: seq<Quote>, ys: seq<Quote>, later: nat)
    requires xs != [] && ys != [] && forall q :: q in xs <==> q in ys
    requires AnyAmbiguous(xs) || ConflictAt(xs, Newest(xs).observedAt) || OneNewest(xs)
    ensures Decide(xs, later) == Decide(ys, later)
  {
    var time := Newest(xs).observedAt;
    LatestTime(xs, ys);
    ConflictOfSameMembers(xs, ys, time);
    ConflictOfSameMembers(ys, xs, time);
    if !AnyAmbiguous(xs) && !ConflictAt(xs, time) {
      InterchangeableJudgement(Newest(xs), Newest(ys), later);
    }
  }

  lemma OrderFreeSuffices(xs: seq<Quote>, ys: seq<Quote>, sel: Selection, cutoff: int)
    requires multiset(xs) == multiset(ys) && OrderFree(xs, sel, cutoff)
    ensures JoinQuote(xs, sel, cutoff) == JoinQuote(ys, sel, cutoff)
  {
    var mx, my := Filter(Matches(sel), xs), Filter(Matches(sel), ys);
    var ax, ay := OnOffer(xs, sel, cutoff), OnOffer(ys, sel, cutoff);
    SameMultiset(Matches(sel), xs, ys);
    SameMultiset(AsOf(cutoff), mx, my);
    SameMultiset(After(cutoff), mx, my);
    SameMembers(mx, my);
    SameMembers(ax, ay);
    SameMembers(Filter(After(cutoff), mx), Filter(After(cutoff), my));
    if ax == [] {
      if mx != [] {
        assert mx[0] in mx && my[0] in mx;
      }
    } else {
      JoinOnOffer(xs, sel, cutoff);
      JoinOnOffer(ys, sel, cutoff);
      DecideInAnyOrder(ax, ay, Count(After(cutoff), mx));
    }
  }

  // ----- orders that differ -----

  function ToFront(xs: seq<Quote>, i: nat): (r: seq<Quote>)
    requires i < |xs|
    ensures |r| == |xs|
  {
    [xs[i]] + xs[..i] + xs[i + 1..]
  }

  lemma ToFrontPermutes(xs: seq<Quote>, i: nat)
    requires i < |xs|
    ensures multiset(ToFront(xs, i)) == multiset(xs)
  {
    assert xs == xs[..i] + [xs[i]] + xs[i + 1..];
  }

  lemma {:induction false} FirstNewestWins(quotes: seq<Quote>)
    requires quotes != [] && forall o | o in quotes :: !Newer(o, quotes[0])
    ensures Newest(quotes) == quotes[0]
  {
    if |quotes| > 1 {
      FirstNewestWins(Front(quotes));
      assert Last(quotes) in quotes;
    }
  }

  /** A candidate moved to the front is the first of its filtered list. */
  lemma {:induction false} FirstKept(keep: Quote -> bool, xs: seq<Quote>)
    requires xs != [] && keep(xs[0])
    ensures Filter(keep, xs) != [] && Filter(keep, xs)[0] == xs[0]
  {
    if |xs| > 1 {
      FirstKept(keep, Front(xs));
    } else {
      assert Front(xs) == [];
    }
  }

  lemma FrontedMatch(xs: seq<Quote>, sel: Selection, cutoff: int, q: Quote) returns (ys: seq<Quote>)
    requires OnOffer(xs, sel, cutoff) == [] && q in Filter(Matches(sel), xs)
    ensures multiset(ys) == multiset(xs) && JoinQuote(ys, sel, cutoff) == Join(Some(q), false, Some(PostCutoffOdds))
  {
    FilterMembers(Matches(sel), xs);
    var i :| 0 <= i < |xs| && xs[i] == q;
    ys := ToFront(xs, i);
    ToFrontPermutes(xs, i);
    FirstKept(Matches(sel), ys);
    SameMultiset(Matches(sel), xs, ys);
    SameMultiset(AsOf(cutoff), Filter(Matches(sel), xs), Filter(Matches(sel), ys));
    SameMembers(OnOffer(xs, sel, cutoff), OnOffer(ys, sel, cutoff));
  }

  lemma FrontedNewest(xs: seq<Quote>, sel: Selection, cutoff: int, q: Quote) returns (ys: seq<Quote>)
    requires IsNewest(OnOffer(xs, sel, cutoff), q)
    requires var asOf := OnOffer(xs, sel, cutoff); !AnyAmbiguous(asOf) && !ConflictAt(asOf, Newest(asOf).observedAt)
    ensures multiset(ys) == multiset(xs)
    ensures JoinQuote(ys, sel, cutoff) == Judge(q, Count(After(cutoff), Filter(Matches(sel), xs)))
  {
    var mx, ax := Filter(Matches(sel), xs), OnOffer(xs, sel, cutoff);
    FilterMembers(Matches(sel), xs);
    FilterMembers(AsOf(cutoff), mx);
    var i :| 0 <= i < |xs| && xs[i] == q;
    ys := ToFront(xs, i);
    ToFrontPermutes(xs, i);
    var my, ay := Filter(Matches(sel), ys), OnOffer(ys, sel, cutoff);
    FirstKept(Matches(sel), ys);
    FirstKept(AsOf(cutoff), my);
    SameMultiset(Matches(sel), xs, ys);
    SameMultiset(AsOf(cutoff), mx, my);
    SameMultiset(After(cutoff), mx, my);
    SameMembers(ax, ay);
    SameMembers(Filter(After(cutoff), mx), Filter(After(cutoff), my));
    FirstNewestWins(ay);
    LatestTime(ax, ay);
    ConflictOfSameMembers(ay, ax, Newest(ax).observedAt);
    JoinOnOffer(ys, sel, cutoff);
  }

  /** The join is the same in every order of the candidates exactly when nothing matches, or
      nothing is on offer and all matches are one quote, or the offer is ambiguous, shows two
      prices at its latest time or has one newest quote. */
  lemma SameJoinInAnyOrderIff(xs: seq<Quote>, sel: Selection, cutoff: int)
    ensures SameJoinInAnyOrder(xs, sel, cutoff) <==> OrderFree(xs, sel, cutoff)
  {
    var mx, ax := Filter(Matches(sel), xs), OnOffer(xs, sel, cutoff);
    if OrderFree(xs, sel, cutoff) {
      forall ys | multiset(ys) == multiset(xs)
        ensures JoinQuote(ys, sel, cutoff) == JoinQuote(xs, sel, cutoff)
      {
        OrderFreeSuffices(xs, ys, sel, cutoff);
      }
    } else if ax == [] {
      var q, r :| q in mx && r in mx && q != r;
      var ys := FrontedMatch(xs, sel, cutoff, q);
      var zs := FrontedMatch(xs, sel, cutoff, r);
      assert JoinQuote(ys, sel, cutoff) != JoinQuote(zs, sel, cutoff);
    } else {
      var q, r :| IsNewest(ax, q) && IsNewest(ax, r) && !Interchangeable(q, r);
      var ys := FrontedNewest(xs, sel, cutoff, q);
      var zs := FrontedNewest(xs, sel, cutoff, r);
      InterchangeableJudgement(q, r, Count(After(cutoff), mx));
      assert JoinQuote(ys, sel, cutoff) != JoinQuote(zs, sel, cutoff);
    }
  }

  // ----- what callers can rely on, and what they cannot -----

  ghost predicate DistinctIds(quotes: seq<Quote>) {
    forall i, j | 0 <= i < j < |quotes| :: quotes[i].quoteId != quotes[j].quoteId
  }

  /** Distinct ids settle the order of what is on offer, whenever anything is. */
  lemma DistinctIdsOnOfferSuffice(xs: seq<Quote>, sel: Selection, cutoff: int)
    requires DistinctIds(OnOffer(xs, sel, cutoff)) && OnOffer(xs, sel, cutoff) != []
    ensures SameJoinInAnyOrder(xs, sel, cutoff)
  {
    var asOf := OnOffer(xs, sel, cutoff);
    forall q, r | IsNewest(asOf, q) && IsNewest(asOf, r)
      ensures q == r
    {
      var i :| 0 <= i < |asOf| && asOf[i] == q;
      var j :| 0 <= j < |asOf| && asOf[j] == r;
      assert !Newer(q, r) && !Newer(r, q);
    }
    SameJoinInAnyOrderIff(xs, sel, cutoff);
  }

  /** Distinct ids are not enough when every match is later than the cutoff: the first one
      is handed back. */
  lemma LateQuotesFollowTheirOrder(q: Quote, sel: Selection, cutoff: int)
    requires Matches(sel)(q) && cutoff < q.observedAt
    ensures var other := q.(quoteId := q.quoteId + 1, priceDecimal := q.priceDecimal + 1.0);
            && DistinctIds([q, other])
            && JoinQuote([q, other], sel, cutoff).quote == Some(q)
            && JoinQuote([other, q], sel, cutoff).quote == Some(other)
  {
    var other := q.(quoteId := q.quoteId + 1, priceDecimal := q.priceDecimal + 1.0);
    FilterAll(Matches(sel), [q, other]);
    FilterAll(Matches(sel), [other, q]);
    FilterNone(AsOf(cutoff), [q, other]);
    FilterNone(AsOf(cutoff), [other, q]);
  }

  /** Two sound quotes that share time, id and price but not the bookmaker are told apart
      only by their position. */
  lemma SharedIdsMakeOrderMatter(q: Quote, sel: Selection)
    requires Matches(sel)(q) && Sound(q) && !q.isAmbiguous && q.bookmakerKey == "x"
    ensures var other := q.(bookmakerKey := "y");
            JoinQuote([q, other], sel, q.observedAt).quote != JoinQuote([other, q], sel, q.observedAt).quote
  {
    var other := q.(bookmakerKey := "y");
    TwoSoundQuotes(q, other, sel);
    TwoSoundQuotes(other, q, sel);
    assert "x" != "y" by { assert "x"[0] != "y"[0]; }
  }

  lemma TwoSoundQuotes(q: Quote, other: Quote, sel: Selection)
    requires Matches(sel)(q) && Sound(q) && !q.isAmbiguous
    requires other == q.(bookmakerKey := other.bookmakerKey)
    ensures JoinQuote([q, other], sel, q.observedAt).quote == Some(q.(laterIgnored := 0))
  {
    var quotes := [q, other];
    FilterAll(Matches(sel), quotes);
    FilterAll(AsOf(q.observedAt), quotes);
    FilterNone(After(q.observedAt), quotes);
    assert Front(quotes) == [q];
    assert Newest(quotes) == q;
    DecideWellFormed(quotes, 0);
  }
}
