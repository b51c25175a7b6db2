/** What the rows of a graded bout say, told by the columns of markets, quotes and figures:
    which markets are priced, at which price, and what the bets built from them carry. */
module PricedRows {
  import opened Prelude
  import opened Bets
  import opened Splits
  import opened Quotes
  import opened QuoteFacts
  import opened Gates
  import opened Grading
  import opened Breakdowns
  import opened AttemptRows

  // ----- one market -----

  ghost predicate SixFamilies(family: string) {
    || family == "moneyline" || family == "totals" || family == "goes_distance"
    || family == "method" || family == "fighter_by_method" || family == "exact_round"
  }

  ghost predicate Finish(how: string) {
    how == "ko_tko" || how == "submission" || how == "other_stoppage" || how == "decision"
  }

  /** The fighters, the totals and distances, the ways to win, these for either fighter, and
      the five rounds. */
  ghost predicate OutcomeSpelled(key: string) {
    || SimpleOutcome(key) || FinishBy("a_", key) || FinishBy("b_", key)
    || exists round :: '1' <= round <= '5' && key == "round_" + [round]
  }

  ghost predicate FinishBy(side: string, key: string) { exists how :: Finish(how) && key == side + how }

  predicate SimpleOutcome(key: string) {
    || key == "fighter_a" || key == "fighter_b" || key == "goes_distance" || key == "inside_distance"
    || key == "over" || key == "under" || key == "ko_tko" || key == "submission"
    || key == "decision" || key == "other_stoppage"
  }

  predicate WayToWin(key: string, ko: string, submission: string, other: string, decision: string) {
    key == ko || key == submission || key == other || key == decision
  }

  predicate RoundKey(key: string) {
    key == "round_1" || key == "round_2" || key == "round_3" || key == "round_4" || key == "round_5"
  }

  lemma KnownByKind(key: string)
    ensures KnownOutcome(key) <==>
              || SimpleOutcome(key)
              || WayToWin(key, "a_ko_tko", "a_submission", "a_other_stoppage", "a_decision")
              || WayToWin(key, "b_ko_tko", "b_submission", "b_other_stoppage", "b_decision")
              || RoundKey(key)
  {
  }

  lemma WaysOf(key: string, side: string, ko: string, submission: string, other: string, decision: string)
    requires side + "ko_tko" == ko && side + "submission" == submission
    requires side + "other_stoppage" == other && side + "decision" == decision
    ensures WayToWin(key, ko, submission, other, decision) <==> FinishBy(side, key)
  {
    assert Finish("ko_tko") && Finish("submission") && Finish("other_stoppage") && Finish("decision");
  }

  lemma RoundsOf(key: string)
    ensures RoundKey(key) <==> exists round :: '1' <= round <= '5' && key == "round_" + [round]
  {
    assert "round_" + ['1'] == "round_1" && "round_" + ['2'] == "round_2" && "round_" + ['3'] == "round_3";
    assert "round_" + ['4'] == "round_4" && "round_" + ['5'] == "round_5";
    if round: char :| '1' <= round <= '5' && key == "round_" + [round] {
      assert round == '1' || round == '2' || round == '3' || round == '4' || round == '5';
    }
  }

  lemma SideTexts()
    ensures "a_" + "ko_tko" == "a_ko_tko" && "a_" + "submission" == "a_submission"
    ensures "a_" + "other_stoppage" == "a_other_stoppage" && "a_" + "decision" == "a_decision"
    ensures "b_" + "ko_tko" == "b_ko_tko" && "b_" + "submission" == "b_submission"
    ensures "b_" + "other_stoppage" == "b_other_stoppage" && "b_" + "decision" == "b_decision"
  {
  }

  lemma WaysOfEither(key: string)
    ensures WayToWin(key, "a_ko_tko", "a_submission", "a_other_stoppage", "a_decision") <==> FinishBy("a_", key)
    ensures WayToWin(key, "b_ko_tko", "b_submission", "b_other_stoppage", "b_decision") <==> FinishBy("b_", key)
  {
    SideTexts();
    WaysOf(key, "a_", "a_ko_tko", "a_submission", "a_other_stoppage", "a_decision");
    WaysOf(key, "b_", "b_ko_tko", "b_submission", "b_other_stoppage", "b_decision");
  }

  /** The outcomes grading knows are these and no others. */
  lemma OutcomesSpelledOut(key: string)
    ensures KnownOutcome(key) <==> OutcomeSpelled(key)
  {
    KnownByKind(key);
    WaysOfEither(key);
    RoundsOf(key);
  }

  /** A market with an outcome that grading knows. */
  ghost predicate Gradable(m: Market) {
    m.available && m.outcomeKey != "" && SixFamilies(m.family) && KnownOutcome(m.outcomeKey)
  }

  function Selected(boutId: string, m: Market): Selection { Selection(boutId, m.family, m.outcomeKey, m.linePoint) }

  /** The quote that prices the market, with the count of later quotes written into it. */
  ghost predicate PricedBy(ctx: Context, boutId: string, cutoff: int, m: Market, q: Quote) {
    exists k :: PricesAt(ctx.quotes, Selected(boutId, m), cutoff, k)
      && q == ctx.quotes[k].(laterIgnored := LaterQuotes(ctx.quotes, Selected(boutId, m), cutoff))
  }

  ghost predicate Valued(ctx: Context, boutId: string, m: Market, q: Quote) {
    ctx.settle(boutId, m).Ok? && ctx.value(q, m, ctx.settle(boutId, m).value).Ok?
  }

  /** A row at the price of its quote: the selection and probability of the market, the
      settlement of the bout, and the figures of the quote; closing figures only where its
      time is no proxy, and a void mass only where a draw voids. */
  ghost predicate RowAt(ctx: Context, boutId: string, m: Market, q: Quote, row: PricedRow)
    requires Valued(ctx, boutId, m, q)
  {
    var settlement := ctx.settle(boutId, m).value;
    var figures := ctx.value(q, m, settlement).value;
    && row.marketFamily == m.family && row.outcomeKey == m.outcomeKey && row.modelProb == m.p50
    && row.offeredDecimal == q.priceDecimal && row.observedAt == q.observedAt
    && row.sourceKind == q.sourceKind && row.provider == q.provider && row.bookmakerKey == q.bookmakerKey
    && row.isProxyTimestamp == q.isProxyTimestamp
    && row.settlement == settlement && row.candidate == figures.candidate
    && row.expectedValue == figures.expectedValue
    && (q.isProxyTimestamp ==> row.probabilityClv.None? && row.closingEv.None?)
    && (!q.isProxyTimestamp ==> row.probabilityClv == figures.probabilityClv && row.closingEv == figures.closingEv)
    && (if m.family == "moneyline" || m.family == "method" || m.family == "fighter_by_method"
        then row.pVoid == m.drawProbability else row.pVoid.None?)
  }

  lemma OneQuotePrices(ctx: Context, boutId: string, cutoff: int, m: Market)
    ensures var r := JoinQuote(ctx.quotes, Selected(boutId, m), cutoff);
            && (r.priced ==> r.quote.Some?)
            && forall q :: PricedBy(ctx, boutId, cutoff, m, q) <==> r.priced && r.quote == Some(q)
  {
    PricedIffLatestCanBeTaken(ctx.quotes, Selected(boutId, m), cutoff);
  }

  lemma SpelledOut(m: Market)
    ensures KnownFamily(m.family) <==> SixFamilies(m.family)
  {
  }

  /** A market is priced exactly when it can be graded, some quote prices it, and settling
      and valuing succeed; the row is then that of the quote. */
  lemma PricedRowIff(ctx: Context, boutId: string, cutoff: int, m: Market)
    ensures var r := GradeMarket(ctx, boutId, cutoff, m);
            && ((r.Ok? && r.value.PricedG?) <==>
                  Gradable(m) && exists q :: PricedBy(ctx, boutId, cutoff, m, q) && Valued(ctx, boutId, m, q))
            && forall q | r.Ok? && r.value.PricedG? && PricedBy(ctx, boutId, cutoff, m, q) ::
                 Valued(ctx, boutId, m, q) && RowAt(ctx, boutId, m, q, r.value.priced)
  {
    OneQuotePrices(ctx, boutId, cutoff, m);
    SpelledOut(m);
    var joined := JoinQuote(ctx.quotes, Selected(boutId, m), cutoff);
    if joined.priced {
      assert PricedBy(ctx, boutId, cutoff, m, joined.quote.value);
    }
  }

  /** A market that is offered but cannot be graded: its family or outcome is unknown, or the
      quote that prices it cannot be settled or valued. */
  ghost predicate Ungradable(ctx: Context, boutId: string, cutoff: int, m: Market) {
    && m.available && m.outcomeKey != ""
    && (!Gradable(m) || exists q :: PricedBy(ctx, boutId, cutoff, m, q) && !Valued(ctx, boutId, m, q))
  }

  lemma GradingFailsIff(ctx: Context, boutId: string, cutoff: int, m: Market)
    ensures GradeMarket(ctx, boutId, cutoff, m).Err? <==> Ungradable(ctx, boutId, cutoff, m)
  {
    OneQuotePrices(ctx, boutId, cutoff, m);
    SpelledOut(m);
    var joined := JoinQuote(ctx.quotes, Selected(boutId, m), cutoff);
    if joined.priced {
      assert PricedBy(ctx, boutId, cutoff, m, joined.quote.value);
    }
  }

  /** Grading the markets of a bout fails exactly when one of them cannot be graded. */
  lemma {:induction false} BoutFailsIff(ctx: Context, boutId: string, cutoff: int, markets: seq<Market>)
    ensures GradeMarkets(ctx, boutId, cutoff, markets).Err? <==>
              exists m :: m in markets && Ungradable(ctx, boutId, cutoff, m)
  {
    if markets != [] {
      Split(markets);
      BoutFailsIff(ctx, boutId, cutoff, Front(markets));
      GradingFailsIff(ctx, boutId, cutoff, Last(markets));
      assert Last(markets) in markets;
      assert forall m :: m in markets <==> m in Front(markets) || m == Last(markets);
    }
  }

  // ----- the rows of a bout -----

  ghost predicate IsPriced(ctx: Context, boutId: string, cutoff: int, m: Market) {
    Gradable(m) && exists q :: PricedBy(ctx, boutId, cutoff, m, q)
  }

  ghost predicate Ascending(at: seq<int>) { forall k, l | 0 <= k < l < |at| :: at[k] < at[l] }

  /** The rows stand for the priced markets, in their order: the k-th row is that of the
      market at position at[k]. */
  ghost predicate PricedInOrder(
    ctx: Context, boutId: string, cutoff: int, markets: seq<Market>, rows: seq<PricedRow>, at: seq<int>)
  {
    && |at| == |rows| && Ascending(at)
    && (forall i :: i in at <==> 0 <= i < |markets| && IsPriced(ctx, boutId, cutoff, markets[i]))
    && forall k | 0 <= k < |at| :: RowOfMarket(ctx, boutId, cutoff, markets, at[k], rows[k])
  }

  ghost predicate RowOfMarket(
    ctx: Context, boutId: string, cutoff: int, markets: seq<Market>, i: int, row: PricedRow)
  {
    && 0 <= i < |markets|
    && forall q | PricedBy(ctx, boutId, cutoff, markets[i], q) ::
         Valued(ctx, boutId, markets[i], q) && RowAt(ctx, boutId, markets[i], q, row)
  }

  lemma RowsStay(
    ctx: Context, boutId: string, cutoff: int, markets: seq<Market>, rows: seq<PricedRow>, at: seq<int>)
    requires markets != [] && PricedInOrder(ctx, boutId, cutoff, Front(markets), rows, at)
    ensures forall k | 0 <= k < |at| ::
              at[k] < |markets| - 1 && RowOfMarket(ctx, boutId, cutoff, markets, at[k], rows[k])
  {
    forall k | 0 <= k < |at|
      ensures at[k] < |markets| - 1 && RowOfMarket(ctx, boutId, cutoff, markets, at[k], rows[k])
    {
      assert at[k] in at && RowOfMarket(ctx, boutId, cutoff, Front(markets), at[k], rows[k]);
      assert markets[at[k]] == Front(markets)[at[k]];
    }
  }

  lemma UnpricedOneMore(
    ctx: Context, boutId: string, cutoff: int, markets: seq<Market>, rows: seq<PricedRow>, at: seq<int>)
    requires markets != [] && PricedInOrder(ctx, boutId, cutoff, Front(markets), rows, at)
    requires !IsPriced(ctx, boutId, cutoff, Last(markets))
    ensures PricedInOrder(ctx, boutId, cutoff, markets, rows, at)
  {
    RowsStay(ctx, boutId, cutoff, markets, rows, at);
    assert forall i | 0 <= i < |markets| - 1 :: markets[i] == Front(markets)[i];
  }

  lemma PricedOneMore(
    ctx: Context, boutId: string, cutoff: int, markets: seq<Market>, rows: seq<PricedRow>, at: seq<int>,
    row: PricedRow)
    requires markets != [] && PricedInOrder(ctx, boutId, cutoff, Front(markets), rows, at)
    requires IsPriced(ctx, boutId, cutoff, Last(markets))
    requires RowOfMarket(ctx, boutId, cutoff, markets, |markets| - 1, row)
    ensures PricedInOrder(ctx, boutId, cutoff, markets, rows + [row], at + [|markets| - 1])
  {
    var last := |markets| - 1;
    RowsStay(ctx, boutId, cutoff, markets, rows, at);
    assert forall i | 0 <= i < last :: markets[i] == Front(markets)[i];
    assert forall i :: i in at + [last] <==> i in at || i == last;
  }

  /** A market that was graded without a price has none. */
  lemma GradedOrUnpriced(ctx: Context, boutId: string, cutoff: int, m: Market)
    requires GradeMarket(ctx, boutId, cutoff, m).Ok?
    ensures GradeMarket(ctx, boutId, cutoff, m).value.PricedG? <==> IsPriced(ctx, boutId, cutoff, m)
  {
    OneQuotePrices(ctx, boutId, cutoff, m);
    SpelledOut(m);
    var joined := JoinQuote(ctx.quotes, Selected(boutId, m), cutoff);
    if joined.priced {
      assert PricedBy(ctx, boutId, cutoff, m, joined.quote.value);
    }
  }

  /** The priced rows of a bout are those of its priced markets, in order. */
  lemma {:induction false} PricedRowsFollowMarkets(ctx: Context, boutId: string, cutoff: int, markets: seq<Market>)
    returns (at: seq<int>)
    requires GradeMarkets(ctx, boutId, cutoff, markets).Ok?
    ensures PricedInOrder(ctx, boutId, cutoff, markets, GradeMarkets(ctx, boutId, cutoff, markets).value.0, at)
  {
    at := [];
    if markets != [] {
      at := PricedRowsFollowMarkets(ctx, boutId, cutoff, Front(markets));
      var m, rows := Last(markets), GradeMarkets(ctx, boutId, cutoff, Front(markets)).value.0;
      var g := GradeMarket(ctx, boutId, cutoff, m).value;
      PricedRowIff(ctx, boutId, cutoff, m);
      GradedOrUnpriced(ctx, boutId, cutoff, m);
      if g.PricedG? {
        PricedOneMore(ctx, boutId, cutoff, markets, rows, at, g.priced);
        at := at + [|markets| - 1];
      } else {
        UnpricedOneMore(ctx, boutId, cutoff, markets, rows, at);
      }
    }
  }

  // ----- markets without a price -----

  ghost predicate ReadsAs(row: Row, c: Column, cell: Cell) { c in row && row[c] == cell }

  /** The columns a row takes from its market. */
  ghost predicate MarketColumns(m: Market, row: Row) {
    && ReadsAs(row, Family, Text(m.family)) && ReadsAs(row, Column.OutcomeKey, Text(m.outcomeKey))
    && ReadsAs(row, P50, Number(m.p50)) && ReadsAs(row, Available, Flag(m.available))
    && ReadsAs(row, P25, if m.p25.Some? then Number(m.p25.value) else Null)
    && ReadsAs(row, LinePoint, if m.linePoint.Some? then Number(m.linePoint.value) else Null)
    && ReadsAs(row, Scope, Text("threshold_only"))
    && ReadsAs(row, AvailabilityReason, if m.availabilityReason.Some? then Text(m.availabilityReason.value) else Null)
  }

  /** The evidence it takes from a quote: price, time, source and condition. */
  ghost predicate QuoteColumns(q: Quote, row: Row) { SourceColumns(q, row) && ConditionColumns(q, row) }

  ghost predicate SourceColumns(q: Quote, row: Row) {
    && ReadsAs(row, OfferedDecimal, Number(q.priceDecimal)) && ReadsAs(row, ObservedAt, Whole(q.observedAt))
    && ReadsAs(row, Provider, Text(q.provider)) && ReadsAs(row, BookmakerKey, Text(q.bookmakerKey))
    && ReadsAs(row, SourceKind, Text(q.sourceKind)) && ReadsAs(row, QuoteId, Whole(q.quoteId))
  }

  ghost predicate ConditionColumns(q: Quote, row: Row) {
    && ReadsAs(row, Availability, Text(q.availability)) && ReadsAs(row, Lifecycle, Text(q.lifecycle))
    && ReadsAs(row, Eligible, Flag(q.eligible)) && ReadsAs(row, IsAmbiguous, Flag(q.isAmbiguous))
    && ReadsAs(row, IsReplacement, Flag(q.isReplacement)) && ReadsAs(row, Stale, Flag(q.lifecycle == "stale"))
  }

  /** The columns it takes from the join. */
  ghost predicate JoinColumns(joined: Join, row: Row) {
    && (OfferedDecimal in row <==> joined.quote.Some?)
    && (joined.quote.Some? ==> QuoteColumns(joined.quote.value, row))
    && (QuoteExclusion in row <==> joined.reason.Some? && joined.reason != Some(ThresholdOnly))
  }

  lemma NoOfferColumns(m: Market)
    ensures OfferedDecimal !in ThresholdRow(m) && QuoteExclusion !in ThresholdRow(m)
  {
  }

  lemma PlainColumns(m: Market)
    ensures MarketColumns(m, ThresholdRow(m))
    ensures OfferedDecimal !in ThresholdRow(m) && QuoteExclusion !in ThresholdRow(m)
  {
    NoOfferColumns(m);
  }

  /** No column of the market, other than the family, is also one of the quote. */
  predicate FromQuote(c: Column) {
    || c.OfferedDecimal? || c.ObservedAt? || c.Provider? || c.BookmakerKey? || c.SourceKind? || c.QuoteId?
    || c.Availability? || c.Lifecycle? || c.Eligible? || c.IsAmbiguous? || c.IsReplacement? || c.Stale?
  }

  lemma OfferedColumns(q: Quote)
    ensures SourceColumns(q, OfferCell(Some(q)))
  {
  }

  lemma OnlyOfferColumns(q: Quote)
    ensures forall c | c in OfferCell(Some(q)) :: FromQuote(c) || c.Family?
  {
  }

  lemma OfferedConditions(q: Quote)
    ensures ConditionColumns(q, OfferCell(Some(q))) && ReadsAs(OfferCell(Some(q)), Family, Text(q.marketFamily))
  {
  }

  lemma ColumnsKept(m: Market, row: Row, extra: Row)
    requires MarketColumns(m, row) && forall c | c in extra :: FromQuote(c) || c.QuoteExclusion? || c.Family?
    requires Family in extra ==> extra[Family] == Text(m.family)
    ensures MarketColumns(m, row + extra)
  {
  }

  lemma ReasonColumn(m: Market, reason: Option<Exclusion>)
    ensures var row := ThresholdRow(m) + ReasonCell(reason);
            && MarketColumns(m, row) && OfferedDecimal !in row
            && (QuoteExclusion in row <==> reason.Some? && reason != Some(ThresholdOnly))
  {
    PlainColumns(m);
    ColumnsKept(m, ThresholdRow(m), ReasonCell(reason));
  }

  /** The cells of an offer. */
  ghost predicate OffersQuote(q: Quote, offer: Row) {
    && SourceColumns(q, offer) && ConditionColumns(q, offer) && ReadsAs(offer, Family, Text(q.marketFamily))
    && forall c | c in offer :: FromQuote(c) || c.Family?
  }

  lemma OfferCellOffers(q: Quote)
    ensures OffersQuote(q, OfferCell(Some(q)))
  {
    OfferedColumns(q);
    OnlyOfferColumns(q);
    OfferedConditions(q);
  }

  lemma OfferAdded(m: Market, q: Quote, row: Row, offer: Row)
    requires MarketColumns(m, row) && OffersQuote(q, offer) && q.marketFamily == m.family
    ensures MarketColumns(m, row + offer) && QuoteColumns(q, row + offer)
    ensures QuoteExclusion in row + offer <==> QuoteExclusion in row
  {
    ColumnsKept(m, row, offer);
  }

  lemma JoinAdded(m: Market, joined: Join, row: Row, offer: Row)
    requires MarketColumns(m, row) && OfferedDecimal !in row
    requires QuoteExclusion in row <==> joined.reason.Some? && joined.reason != Some(ThresholdOnly)
    requires if joined.quote.Some? then OffersQuote(joined.quote.value, offer) else offer == map[]
    requires joined.quote.Some? ==> joined.quote.value.marketFamily == m.family
    ensures MarketColumns(m, row + offer) && JoinColumns(joined, row + offer)
  {
    if joined.quote.Some? {
      OfferAdded(m, joined.quote.value, row, offer);
    } else {
      assert row + offer == row;
    }
  }

  lemma UnpricedColumns(m: Market, joined: Join)
    requires joined.quote.Some? ==> joined.quote.value.marketFamily == m.family
    ensures MarketColumns(m, UnpricedRow(m, joined)) && JoinColumns(joined, UnpricedRow(m, joined))
  {
    ReasonColumn(m, joined.reason);
    if joined.quote.Some? {
      OfferCellOffers(joined.quote.value);
    }
    JoinAdded(m, joined, ThresholdRow(m) + ReasonCell(joined.reason), OfferCell(joined.quote));
  }

  /** A market that stays unpriced keeps its own columns and no betting figure; where a quote
      was found its price is shown, and where one was refused the row says so. */
  lemma UnpricedRowMeans(ctx: Context, boutId: string, cutoff: int, m: Market)
    requires GradeMarket(ctx, boutId, cutoff, m).Ok? && GradeMarket(ctx, boutId, cutoff, m).value.ThresholdG?
    ensures var row := GradeMarket(ctx, boutId, cutoff, m).value.row;
            var joined := JoinQuote(ctx.quotes, Selected(boutId, m), cutoff);
            && MarketColumns(m, row) && (forall c | c in row && c in Figures() :: row[c].Null?)
            && (if Gradable(m) then JoinColumns(joined, row) else OfferedDecimal !in row && QuoteExclusion !in row)
  {
    var row := GradeMarket(ctx, boutId, cutoff, m).value.row;
    var joined := JoinQuote(ctx.quotes, Selected(boutId, m), cutoff);
    GradedRowClean(ctx, boutId, cutoff, m);
    WhichRow(ctx, boutId, cutoff, m);
    if Gradable(m) {
      JoinedFamily(ctx.quotes, Selected(boutId, m), cutoff);
      UnpricedColumns(m, joined);
    } else {
      PlainColumns(m);
    }
    NoFigures(m, row);
  }

  lemma NoFigures(m: Market, row: Row)
    requires PassesScopeGate(row) && MarketColumns(m, row)
    ensures forall c | c in row && c in Figures() :: row[c].Null?
  {
    forall c | c in row && c in Figures()
      ensures row[c].Null?
    {
      FiguresAreSynthetic(c);
    }
  }

  /** The figures that only a priced row may carry. */
  function Figures(): set<Column> {
    {ExpectedValue, Column.ClosingEv, Column.ProbabilityClv, Column.FlatUnitProfit, RealizedRoi,
     QuarterKellyFraction, Column.StakeFraction, Turnover, MaximumDrawdown, Column.LongestLosingRun}
  }

  lemma FiguresAreSynthetic(c: Column)
    ensures c in Figures() <==> Synthetic(c)
  {
  }

  lemma WhichRow(ctx: Context, boutId: string, cutoff: int, m: Market)
    requires GradeMarket(ctx, boutId, cutoff, m).Ok? && GradeMarket(ctx, boutId, cutoff, m).value.ThresholdG?
    ensures GradeMarket(ctx, boutId, cutoff, m).value.row ==
              if Gradable(m) then UnpricedRow(m, JoinQuote(ctx.quotes, Selected(boutId, m), cutoff))
              else ThresholdRow(m)
  {
    SpelledOut(m);
  }
}
