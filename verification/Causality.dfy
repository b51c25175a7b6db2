/** What later information cannot change: attempts at cards before a time do not depend on
    the cards after it, and priced rows do not depend on quotes after the cutoff. */
module Causality {
  import opened Prelude
  import opened Bets
  import opened Splits
  import opened Folds
  import opened Quotes
  import opened Sight
  import opened Grading
  import opened WalkForward

  // ----- later cards -----

  ghost predicate SamePast(xs: seq<EventGroup>, ys: seq<EventGroup>, time: int) {
    Filter(StartedBefore(time), xs) == Filter(StartedBefore(time), ys)
  }

  function Past(groups: seq<EventGroup>, time: int): seq<EventGroup> { Filter(StartedBefore(time), groups) }

  lemma SamePastFold(xs: seq<EventGroup>, ys: seq<EventGroup>, time: int, g: EventGroup)
    requires SamePast(xs, ys, time) && g.cutoff <= time
    ensures FoldFor(g, xs) == FoldFor(g, ys)
  {
    FilterThroughPast(StartedBefore(g.cutoff), xs, time);
    FilterThroughPast(StartedBefore(g.cutoff), ys, time);
    FoldDependsOnThePast(g, xs, ys);
  }

  /** The scorer reports having trained on a card that this schedule holds out. */
  ghost predicate NamesHoldout(env: Env, groups: seq<EventGroup>, g: EventGroup) {
    !IsLocked(env, g) && env.scorer(g, FoldFor(g, groups)).Ok?
    && exists id :: id in env.scorer(g, FoldFor(g, groups)).value.trainIds && IsHoldoutId(id, groups)
  }

  /** A card accepted in one schedule is attempted alike in another with the same past, or
      fails there because a reported id names one of its holdout cards. */
  lemma OneCardInBoth(env: Env, xs: seq<EventGroup>, ys: seq<EventGroup>, time: int, g: EventGroup)
    requires Chronological(env.year) && WellGrouped(env.year, xs) && WellGrouped(env.year, ys)
    requires SamePast(xs, ys, time) && g in xs && g in ys && g.cutoff <= time
    requires RunCard(env, xs, g).Ok?
    ensures RunCard(env, ys, g)
         == if NamesHoldout(env, ys, g) then Err(HoldoutTrain(g.eventId)) else RunCard(env, xs, g)
  {
    SamePastFold(xs, ys, time, g);
    EngineFoldsPassTheGates(env.year, ys, g);
    if !IsLocked(env, g) {
      GateMeansNoHoldout(env.year, env.scorer(g, FoldFor(g, ys)).value.trainIds, ys);
    }
  }

  lemma {:induction false} CardsInBoth(
    env: Env, xs: seq<EventGroup>, ys: seq<EventGroup>, time: int, cards: seq<EventGroup>)
    requires Chronological(env.year) && WellGrouped(env.year, xs) && WellGrouped(env.year, ys)
    requires SamePast(xs, ys, time) && RunCards(env, xs, cards).Ok?
    requires forall g | g in cards :: g in xs && g in ys && g.cutoff <= time
    ensures var r := RunCards(env, ys, cards);
            && (r.Ok? <==> forall g | g in cards :: !NamesHoldout(env, ys, g))
            && (r.Ok? ==> r == RunCards(env, xs, cards))
            && (r.Err? ==> exists g :: g in cards && NamesHoldout(env, ys, g) && r.error == HoldoutTrain(g.eventId))
  {
    if cards != [] {
      Split(cards);
      CardsInBoth(env, xs, ys, time, Front(cards));
      assert Last(cards) in cards;
      OneCardInBoth(env, xs, ys, time, Last(cards));
    }
  }

  function OnCards(cards: seq<EventGroup>): Attempt -> bool {
    (a: Attempt) => exists i | 0 <= i < |cards| :: cards[i].eventId == a.eventId
  }

  lemma OwnAttempts(env: Env, groups: seq<EventGroup>, g: EventGroup, past: seq<EventGroup>)
    requires RunCard(env, groups, g).Ok?
    ensures var attempts := RunCard(env, groups, g).value;
            && (g in past ==> Filter(OnCards(past), attempts) == attempts)
            && ((forall h | h in past :: h.eventId != g.eventId) ==> Filter(OnCards(past), attempts) == [])
  {
    var attempts := RunCard(env, groups, g).value;
    AttemptsPerCard(env, groups, g);
    forall a | a in attempts
      ensures a.eventId == g.eventId
    {
      var k :| 0 <= k < |attempts| && attempts[k] == a;
      assert Map(PairOf(), attempts)[k] == Map(PairsOf(g), g.boutIds)[k];
    }
    if g in past {
      var i :| 0 <= i < |past| && past[i] == g;
      FilterAll(OnCards(past), attempts);
    }
    if forall h | h in past :: h.eventId != g.eventId {
      FilterNone(OnCards(past), attempts);
    }
  }

  /** The attempts of a run at its past cards are those of a run over these cards alone. */
  lemma {:induction false} PastOfARun(
    env: Env, groups: seq<EventGroup>, time: int, past: seq<EventGroup>, cards: seq<EventGroup>)
    requires RunCards(env, groups, cards).Ok?
    requires forall g | g in cards && g.start < time :: g in past
    requires forall g, h | g in cards && h in past && g.eventId == h.eventId :: g.start < time
    ensures RunCards(env, groups, Past(cards, time)).Ok?
    ensures Filter(OnCards(past), RunCards(env, groups, cards).value) == RunCards(env, groups, Past(cards, time)).value
  {
    if cards != [] {
      Split(cards);
      var front, last := Front(cards), Last(cards);
      assert last in cards;
      PastOfARun(env, groups, time, past, front);
      FilterAppend(OnCards(past), RunCards(env, groups, front).value, RunCard(env, groups, last).value);
      OwnAttempts(env, groups, last, past);
      if last.start < time {
        var kept := Past(front, time) + [last];
        assert Past(cards, time) == kept;
        assert Front(kept) == Past(front, time) && Last(kept) == last;
      }
    }
  }

  lemma WholePast(env: Env, groups: seq<EventGroup>, time: int)
    requires WellGrouped(env.year, groups) && RunCards(env, groups, groups).Ok?
    ensures var past := Past(groups, time);
            && RunCards(env, groups, past).Ok?
            && Filter(OnCards(past), RunCards(env, groups, groups).value) == RunCards(env, groups, past).value
  {
    var past := Past(groups, time);
    FilterMembers(StartedBefore(time), groups);
    forall g, h | g in groups && h in past && g.eventId == h.eventId
      ensures g.start < time
    {
      UniqueGroup(env.year, groups, g, h);
    }
    PastOfARun(env, groups, time, past, groups);
  }

  /** Take a completed run and any other schedule with the same cards before a time. The
      other run gets through these cards exactly when no reported training id names one of
      its own holdout cards; it then makes the same attempts at them. So the later cards of
      a schedule never change an earlier attempt, they can only stop the run. */
  lemma FutureCardsDoNotChangeThePast(env: Env, xs: seq<EventGroup>, ys: seq<EventGroup>, time: int)
    requires Chronological(env.year) && WellGrouped(env.year, xs) && WellGrouped(env.year, ys)
    requires SamePast(xs, ys, time) && RunCards(env, xs, xs).Ok?
    ensures var past := Past(xs, time);
            var before := Filter(OnCards(past), RunCards(env, xs, xs).value);
            && (RunCards(env, ys, past).Ok? <==> forall g | g in past :: !NamesHoldout(env, ys, g))
            && (RunCards(env, ys, past).Ok? ==> RunCards(env, ys, past).value == before)
            && (RunCards(env, ys, ys).Ok? ==>
                (forall g | g in past :: !NamesHoldout(env, ys, g))
                && Filter(OnCards(past), RunCards(env, ys, ys).value) == before)
  {
    var past := Past(xs, time);
    FilterMembers(StartedBefore(time), xs);
    FilterMembers(StartedBefore(time), ys);
    WholePast(env, xs, time);
    CardsInBoth(env, xs, ys, time, past);
    if RunCards(env, ys, ys).Ok? {
      WholePast(env, ys, time);
    }
  }

  // ----- later quotes -----

  function Uncounted(q: Quote): Quote { q.(laterIgnored := 0) }

  /** The figures of a quote do not depend on how many later quotes were ignored. */
  ghost predicate IgnoresLaterCount(value: Valuing) {
    forall q: Quote, m: Market, s: Option<Settlement> :: value(Uncounted(q), m, s) == value(q, m, s)
  }

  /** Two contexts that differ at most in quotes. */
  ghost predicate SameButQuotes(c: Context, d: Context) {
    c.settle == d.settle && c.value == d.value && IgnoresLaterCount(c.value)
  }

  /** Same failure, or same priced row, or unpriced in both. */
  ghost predicate SameGrade(r: Result<Graded, GradeError>, s: Result<Graded, GradeError>) {
    if r.Err? then s == r
    else s.Ok? && (r.value.PricedG? || s.value.PricedG? ==> r == s)
  }

  lemma PricedAlike(q: Quote, n: nat, m: Market, settlement: Option<Settlement>, f: Figures)
    ensures PriceRow(m, q.(laterIgnored := n), settlement, f) == PriceRow(m, q, settlement, f)
  {
  }

  lemma SameMarket(c: Context, d: Context, boutId: string, cutoff: int, m: Market)
    requires SameButQuotes(c, d) && SameOffers(c.quotes, d.quotes, boutId, cutoff)
    ensures SameGrade(GradeMarket(c, boutId, cutoff, m), GradeMarket(d, boutId, cutoff, m))
  {
    var sel := SelectionOf(boutId, m);
    SamePrice(c.quotes, d.quotes, sel, cutoff);
    var r, s := JoinQuote(c.quotes, sel, cutoff), JoinQuote(d.quotes, sel, cutoff);
    if r.priced && c.settle(boutId, m).Ok? {
      var settlement, n := c.settle(boutId, m).value, s.quote.value.laterIgnored;
      assert Uncounted(r.quote.value) == Uncounted(s.quote.value);
      assert c.value(Uncounted(r.quote.value), m, settlement) == c.value(r.quote.value, m, settlement);
      assert c.value(Uncounted(s.quote.value), m, settlement) == c.value(s.quote.value, m, settlement);
      if c.value(r.quote.value, m, settlement).Ok? {
        PricedAlike(r.quote.value, n, m, settlement, c.value(r.quote.value, m, settlement).value);
      }
    }
  }

  lemma {:induction false} SameMarkets(c: Context, d: Context, boutId: string, cutoff: int, markets: seq<Market>)
    requires SameButQuotes(c, d) && SameOffers(c.quotes, d.quotes, boutId, cutoff)
    ensures var r, s := GradeMarkets(c, boutId, cutoff, markets), GradeMarkets(d, boutId, cutoff, markets);
            if r.Err? then s == r else s.Ok? && s.value.0 == r.value.0 && |s.value.1| == |r.value.1|
  {
    if markets != [] {
      SameMarkets(c, d, boutId, cutoff, Front(markets));
      SameMarket(c, d, boutId, cutoff, Last(markets));
    }
  }

  // ----- quotes behind priced rows -----

  /** An attempt at a bout of the card, every priced row of which rests on a quote seen by
      the cutoff of that card. */
  ghost predicate PricedInTime(g: EventGroup, a: Attempt) {
    && a.eventId == g.eventId && a.boutId in g.boutIds && a.cutoff == g.cutoff
    && forall row | row in a.pricedRows :: row.observedAt <= g.cutoff
  }

  lemma BoutPricedInTime(ctx: Context, g: EventGroup, boutId: string, score: CardScore)
    requires boutId in g.boutIds && Grade(ctx, g, boutId, score).Ok?
    ensures PricedInTime(g, Grade(ctx, g, boutId, score).value)
  {
    var prediction := PredictionFor(score.predictions, boutId);
    if prediction.Some? {
      RowsNeverLookAhead(ctx, boutId, g.cutoff, prediction.value.markets);
    }
  }

  lemma {:induction false} BoutsPricedInTime(ctx: Context, g: EventGroup, score: CardScore, boutIds: seq<string>)
    requires GradeBouts(ctx, g, score, boutIds).Ok?
    requires forall b | b in boutIds :: b in g.boutIds
    ensures forall a | a in GradeBouts(ctx, g, score, boutIds).value :: PricedInTime(g, a)
  {
    if boutIds != [] {
      Split(boutIds);
      BoutsPricedInTime(ctx, g, score, Front(boutIds));
      BoutPricedInTime(ctx, g, Last(boutIds), score);
    }
  }

  lemma CardPricedInTime(env: Env, groups: seq<EventGroup>, g: EventGroup)
    requires RunCard(env, groups, g).Ok?
    ensures forall a | a in RunCard(env, groups, g).value :: PricedInTime(g, a)
  {
    if !IsLocked(env, g) {
      BoutsPricedInTime(env.ctx, g, ScoreCard(env, groups, g).value, g.boutIds);
    }
  }

  /** Every attempt of a completed run is at a bout of a card of the run, and all its priced
      rows rest on quotes seen by the cutoff of that card. */
  lemma {:induction false} RunsNeverLookAhead(env: Env, groups: seq<EventGroup>, cards: seq<EventGroup>)
    requires RunCards(env, groups, cards).Ok?
    ensures forall a | a in RunCards(env, groups, cards).value :: exists g :: g in cards && PricedInTime(g, a)
  {
    if cards != [] {
      Split(cards);
      assert Last(cards) in cards;
      RunsNeverLookAhead(env, groups, Front(cards));
      CardPricedInTime(env, groups, Last(cards));
    }
  }

  // ----- the same prices -----

  /** An attempt without the contents of its unpriced rows. */
  function Pricing(): Attempt -> Attempt { (a: Attempt) => a.(thresholdRows := []) }

  lemma SameAttempt(c: Context, d: Context, group: EventGroup, boutId: string, score: CardScore)
    requires SameButQuotes(c, d) && SameOffers(c.quotes, d.quotes, boutId, group.cutoff)
    ensures var r, s := Grade(c, group, boutId, score), Grade(d, group, boutId, score);
            if r.Err? then s == r else s.Ok? && Pricing()(s.value) == Pricing()(r.value)
                                       && |s.value.thresholdRows| == |r.value.thresholdRows|
  {
    var prediction := PredictionFor(score.predictions, boutId);
    if prediction.Some? {
      SameMarkets(c, d, boutId, group.cutoff, prediction.value.markets);
    }
  }

  lemma {:induction false} SameBouts(c: Context, d: Context, group: EventGroup, score: CardScore, boutIds: seq<string>)
    requires SameButQuotes(c, d)
    requires forall b | b in boutIds :: SameOffers(c.quotes, d.quotes, b, group.cutoff)
    ensures var r, s := GradeBouts(c, group, score, boutIds), GradeBouts(d, group, score, boutIds);
            if r.Err? then s == r else s.Ok? && Map(Pricing(), s.value) == Map(Pricing(), r.value)
  {
    if boutIds != [] {
      Split(boutIds);
      SameBouts(c, d, group, score, Front(boutIds));
      SameAttempt(c, d, group, Last(boutIds), score);
    }
  }

  /** The same rules, and scorers that answer alike where they are asked. */
  ghost predicate AlikeBut(env: Env, other: Env, groups: seq<EventGroup>, g: EventGroup) {
    && env.year == other.year && env.sealedHoldout == other.sealedHoldout && SameButQuotes(env.ctx, other.ctx)
    && (!IsLocked(env, g) ==> env.scorer(g, FoldFor(g, groups)) == other.scorer(g, FoldFor(g, groups)))
  }

  /** Each bout of an open card has the same quotes by the cutoff of that card. */
  ghost predicate SameOffersOn(env: Env, other: Context, g: EventGroup) {
    !IsLocked(env, g) ==> forall b | b in g.boutIds :: SameOffers(env.ctx.quotes, other.quotes, b, g.cutoff)
  }

  lemma OneCardPriced(env: Env, other: Env, groups: seq<EventGroup>, g: EventGroup)
    requires AlikeBut(env, other, groups, g) && SameOffersOn(env, other.ctx, g)
    ensures var r, s := RunCard(env, groups, g), RunCard(other, groups, g);
            if r.Err? then s == r else s.Ok? && Map(Pricing(), s.value) == Map(Pricing(), r.value)
  {
    if !IsLocked(env, g) {
      assert ScoreCard(env, groups, g) == ScoreCard(other, groups, g);
      if ScoreCard(env, groups, g).Ok? {
        SameBouts(env.ctx, other.ctx, g, ScoreCard(env, groups, g).value, g.boutIds);
      }
    }
  }

  lemma PricingAppend(xs: seq<Attempt>, ys: seq<Attempt>)
    ensures Map(Pricing(), xs + ys) == Map(Pricing(), xs) + Map(Pricing(), ys)
  {
  }

  /** Take two lists of quotes with the same quotes of each bout by the cutoff of its own
      card; later quotes may be added, removed or altered, also before the cutoff of another
      card, and the bouts of locked cards may be quoted in any way. Runs over the two make
      the same priced rows, with the same statuses, reasons and failures, if the scorer
      answers alike; what an unpriced row says about a rejected quote is all that can
      differ. */
  lemma {:induction false} LaterQuotesPriceNothing(
    env: Env, other: Env, groups: seq<EventGroup>, cards: seq<EventGroup>)
    requires forall g | g in cards :: AlikeBut(env, other, groups, g) && SameOffersOn(env, other.ctx, g)
    ensures var r, s := RunCards(env, groups, cards), RunCards(other, groups, cards);
            if r.Err? then s == r else s.Ok? && Map(Pricing(), s.value) == Map(Pricing(), r.value)
  {
    if cards != [] {
      Split(cards);
      var front, last := Front(cards), Last(cards);
      assert last in cards;
      LaterQuotesPriceNothing(env, other, groups, front);
      OneCardPriced(env, other, groups, last);
      if RunCards(env, groups, front).Ok? && RunCard(env, groups, last).Ok? {
        PricingAppend(RunCards(env, groups, front).value, RunCard(env, groups, last).value);
        PricingAppend(RunCards(other, groups, front).value, RunCard(other, groups, last).value);
      }
    }
  }

  // ----- scorers that read quotes -----

  /** Scores a card from its fold and a view of the quotes. */
  type Reader = (EventGroup, Fold, View) -> Result<CardScore, string>

  /** The scorer that is handed all quotes and looks, for the bouts of the card it knows, at
      prices and flags by the cutoff. */
  function Reading(reader: Reader, known: string -> bool, quotes: seq<Quote>): Scorer {
    (g: EventGroup, fold: Fold) => reader(g, fold, ViewOf(quotes, Filter(known, g.boutIds), g.cutoff))
  }

  function WithReader(env: Env, reader: Reader, known: string -> bool): Env {
    env.(scorer := Reading(reader, known, env.ctx.quotes))
  }

  /** Such a scorer is fed the changed quotes as well, and still nothing is priced otherwise:
      later quotes reach a run neither through the grading nor through the scores. */
  lemma LaterQuotesReachNoScore(
    env: Env, other: Context, reader: Reader, known: string -> bool, groups: seq<EventGroup>, cards: seq<EventGroup>)
    requires SameButQuotes(env.ctx, other) && forall g | g in cards :: SameOffersOn(env, other, g)
    ensures var changed := WithReader(env.(ctx := other), reader, known);
            var r, s := RunCards(WithReader(env, reader, known), groups, cards), RunCards(changed, groups, cards);
            if r.Err? then s == r else s.Ok? && Map(Pricing(), s.value) == Map(Pricing(), r.value)
  {
    var before, after := WithReader(env, reader, known), WithReader(env.(ctx := other), reader, known);
    forall g | g in cards
      ensures AlikeBut(before, after, groups, g) && SameOffersOn(before, after.ctx, g)
    {
      assert SameOffersOn(env, other, g);
      if !IsLocked(env, g) {
        FilterMembers(known, g.boutIds);
        ViewIsOfThePast(env.ctx.quotes, other.quotes, Filter(known, g.boutIds), g.cutoff);
      }
    }
    LaterQuotesPriceNothing(before, after, groups, cards);
  }
}
