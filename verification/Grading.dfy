/** Grading one bout of a scored card: every predicted market becomes either a priced
    row or a threshold-only row. */
module Grading {
  import opened Prelude
  import opened Bets
  import opened Splits
  import opened Quotes
  import opened MarketScores
  import opened Gates

  datatype Market = Market(
    family: string, outcomeKey: string, linePoint: Option<real>, p50: real, p25: Option<real>,
    available: bool, availabilityReason: Option<string>, drawProbability: Option<real>)

  datatype Prediction = Prediction(boutId: string, eventId: string, markets: seq<Market>, estimatorHash: string)

  datatype CardScore = CardScore(
    estimatorHash: string, trainIds: seq<string>, holdoutInTrain: bool, predictions: seq<Prediction>,
    unavailable: seq<(string, Exclusion)>, abstained: seq<(string, Exclusion)>)

  datatype PricedRow = PricedRow(
    marketFamily: string, outcomeKey: string, sourceKind: string, provider: string, bookmakerKey: string,
    modelProb: real, offeredDecimal: real, settlement: Option<Settlement>, isProxyTimestamp: bool,
    candidate: bool, probabilityClv: Option<real>, closingEv: Option<real>, expectedValue: Option<real>,
    pVoid: Option<real>, observedAt: int)

  datatype Status = Predicted | Abstained | Unavailable | Excluded

  datatype Attempt = Attempt(
    eventId: string, boutId: string, season: int, variant: Variant, cutoff: int, status: Status,
    reason: Option<Exclusion>, prediction: Option<Prediction>,
    pricedRows: seq<PricedRow>, thresholdRows: seq<Row>)

  datatype GradeError =
    | UnknownFamily(family: string) | UnknownOutcome(key: string)
    | SettlementFacts(boutId: string) | Valuation(quoteId: int) | UncleanThresholdRow

  /** Figures computed for a joined quote by the value module. */
  datatype Figures = Figures(
    probabilityClv: Option<real>, closingEv: Option<real>, expectedValue: Option<real>, candidate: bool)

  type Settling = (string, Market) -> Result<Option<Settlement>, GradeError>

  type Valuing = (Quote, Market, Option<Settlement>) -> Result<Figures, GradeError>

  /** Settlement and valuation live in other modules; they enter as functions. */
  datatype Context = Context(quotes: seq<Quote>, settle: Settling, value: Valuing)

  predicate KnownFamily(family: string) { family in FAMILIES }

  predicate KnownOutcome(key: string) {
    key in [
      "fighter_a", "fighter_b", "goes_distance", "inside_distance", "over", "under",
      "ko_tko", "submission", "decision", "other_stoppage",
      "a_ko_tko", "a_submission", "a_other_stoppage", "a_decision",
      "b_ko_tko", "b_submission", "b_other_stoppage", "b_decision",
      "round_1", "round_2", "round_3", "round_4", "round_5"]
  }

  // ----- rows -----

  function OptionalNumber(x: Option<real>): Cell { if x.Some? then Number(x.value) else Null }

  function ThresholdRow(m: Market): Row {
    map[
      AvailabilityReason := (if m.availabilityReason.Some? then Text(m.availabilityReason.value) else Null),
      Available := Flag(m.available),
      ExpectedValue := Null,
      Family := Text(m.family),
      FlatUnitProfit := Null,
      LinePoint := OptionalNumber(m.linePoint),
      Column.OutcomeKey := Text(m.outcomeKey),
      P25 := OptionalNumber(m.p25),
      P50 := Number(m.p50),
      ProbabilityClv := Null,
      QuarterKellyFraction := Null,
      RealizedRoi := Null,
      Scope := THRESHOLD_SCOPE,
      Column.StakeFraction := Null,
      Turnover := Null]
  }

  /** The evidence columns of an unpriced quote; the family is the quote's own. */
  function QuoteFields(q: Quote): Row {
    map[
      Availability := Text(q.availability),
      BookmakerKey := Text(q.bookmakerKey),
      Eligible := Flag(q.eligible),
      Family := Text(q.marketFamily),
      IsAmbiguous := Flag(q.isAmbiguous),
      IsReplacement := Flag(q.isReplacement),
      Lifecycle := Text(q.lifecycle),
      ObservedAt := Whole(q.observedAt),
      Provider := Text(q.provider),
      QuoteId := Whole(q.quoteId),
      SourceKind := Text(q.sourceKind),
      Stale := Flag(q.lifecycle == "stale")]
  }

  function ReasonCell(reason: Option<Exclusion>): Row {
    if reason.Some? && !reason.value.ThresholdOnly? then map[QuoteExclusion := Text("excluded")] else map[]
  }

  function OfferCell(quote: Option<Quote>): Row {
    if quote.Some? then map[OfferedDecimal := Number(quote.value.priceDecimal)] + QuoteFields(quote.value)
    else map[]
  }

  function UnpricedRow(m: Market, joined: Join): Row {
    ThresholdRow(m) + ReasonCell(joined.reason) + OfferCell(joined.quote)
  }

  datatype Graded = PricedG(priced: PricedRow) | ThresholdG(row: Row)

  function SelectionOf(boutId: string, m: Market): Selection {
    Selection(boutId, m.family, m.outcomeKey, m.linePoint)
  }

  function Offered(m: Market): bool { m.available && m.outcomeKey != "" }

  /** Proxy timestamps never carry a closing-line figure. */
  function PriceRow(m: Market, q: Quote, settlement: Option<Settlement>, f: Figures): PricedRow {
    PricedRow(
      m.family, m.outcomeKey, q.sourceKind, q.provider, q.bookmakerKey, m.p50, q.priceDecimal,
      settlement, q.isProxyTimestamp, f.candidate,
      if q.isProxyTimestamp then None else f.probabilityClv,
      if q.isProxyTimestamp then None else f.closingEv,
      f.expectedValue,
      if VoidsOnDraw(m.family) then m.drawProbability else None,
      q.observedAt)
  }

  function GradeMarket(ctx: Context, boutId: string, cutoff: int, m: Market): Result<Graded, GradeError> {
    if !Offered(m) then Ok(ThresholdG(ThresholdRow(m)))
    else if !KnownFamily(m.family) then Err(UnknownFamily(m.family))
    else if !KnownOutcome(m.outcomeKey) then Err(UnknownOutcome(m.outcomeKey))
    else
      var joined := JoinQuote(ctx.quotes, SelectionOf(boutId, m), cutoff);
      if !joined.priced || joined.quote.None? then Ok(ThresholdG(UnpricedRow(m, joined)))
      else
        var settlement :- ctx.settle(boutId, m);
        var figures :- ctx.value(joined.quote.value, m, settlement);
        Ok(PricedG(PriceRow(m, joined.quote.value, settlement, figures)))
  }

  // ----- one bout -----

  type Rows = (seq<PricedRow>, seq<Row>)

  function AddRow(rows: Rows, g: Graded): Rows {
    match g
    case PricedG(priced) => (rows.0 + [priced], rows.1)
    case ThresholdG(row) => (rows.0, rows.1 + [row])
  }

  /** Markets are graded in order; the first failure ends the bout. */
  function GradeMarkets(ctx: Context, boutId: string, cutoff: int, markets: seq<Market>): Result<Rows, GradeError> {
    if markets == [] then Ok(([], [])) else
      var rest :- GradeMarkets(ctx, boutId, cutoff, Front(markets));
      var graded :- GradeMarket(ctx, boutId, cutoff, Last(markets));
      Ok(AddRow(rest, graded))
  }

  /** The first prediction for a bout. */
  function PredictionFor(predictions: seq<Prediction>, boutId: string): Option<Prediction> {
    if predictions == [] then None
    else if predictions[0].boutId == boutId then Some(predictions[0])
    else PredictionFor(predictions[1..], boutId)
  }

  /** A dictionary built from pairs: the last pair for a key wins. */
  function ReasonFor(pairs: seq<(string, Exclusion)>, boutId: string): Option<Exclusion> {
    if pairs == [] then None
    else if Last(pairs).0 == boutId then Some(Last(pairs).1)
    else ReasonFor(Front(pairs), boutId)
  }

  function Unscored(group: EventGroup, boutId: string, status: Status, reason: Exclusion): Attempt {
    Attempt(group.eventId, boutId, group.season, group.variant, group.cutoff, status, Some(reason), None, [], [])
  }

  function LockedAttempt(group: EventGroup, boutId: string): Attempt {
    Unscored(group, boutId, Excluded, LockedNotAccessed)
  }

  function Scored(group: EventGroup, boutId: string, p: Prediction, rows: Rows): Attempt {
    Attempt(group.eventId, boutId, group.season, group.variant, group.cutoff, Predicted, None, Some(p),
            rows.0, rows.1)
  }

  function Grade(ctx: Context, group: EventGroup, boutId: string, score: CardScore): Result<Attempt, GradeError> {
    var unavailable := ReasonFor(score.unavailable, boutId);
    var abstained := ReasonFor(score.abstained, boutId);
    var prediction := PredictionFor(score.predictions, boutId);
    if unavailable.Some? then Ok(Unscored(group, boutId, Status.Unavailable, unavailable.value))
    else if abstained.Some? then Ok(Unscored(group, boutId, Status.Abstained, abstained.value))
    else if prediction.None? then Ok(Unscored(group, boutId, Status.Unavailable, MissingModel))
    else
      var rows :- GradeMarkets(ctx, boutId, group.cutoff, prediction.value.markets);
      Ok(Scored(group, boutId, prediction.value, rows))
  }

  method GradeBout(ctx: Context, group: EventGroup, boutId: string, score: CardScore)
    returns (r: Result<Attempt, GradeError>)
    ensures r == Grade(ctx, group, boutId, score)
  {
    var prediction := PredictionFor(score.predictions, boutId);
    var unavailable := ReasonFor(score.unavailable, boutId);
    var abstained := ReasonFor(score.abstained, boutId);
    if unavailable.Some? {
      return Ok(Unscored(group, boutId, Status.Unavailable, unavailable.value));
    }
    if abstained.Some? {
      return Ok(Unscored(group, boutId, Status.Abstained, abstained.value));
    }
    if prediction.None? {
      return Ok(Unscored(group, boutId, Status.Unavailable, MissingModel));
    }
    var markets := prediction.value.markets;
    var priced: seq<PricedRow> := [];
    var threshold: seq<Row> := [];
    for i := 0 to |markets|
      invariant GradeMarkets(ctx, boutId, group.cutoff, markets[..i]) == Ok((priced, threshold))
    {
      Prefix(markets, i);
      var graded := GradeMarket(ctx, boutId, group.cutoff, markets[i]);
      if graded.Err? {
        FailureStays(ctx, boutId, group.cutoff, markets, i + 1);
        return Err(graded.error);
      }
      match graded.value {
        case PricedG(row) => priced := priced + [row];
        case ThresholdG(row) => threshold := threshold + [row];
      }
    }
    assert markets[..|markets|] == markets;
    ThresholdRowsAreClean(ctx, boutId, group.cutoff, markets);
    if !ThresholdOnlyClean(threshold) {
      return Err(UncleanThresholdRow);
    }
    r := Ok(Scored(group, boutId, prediction.value, (priced, threshold)));
  }

  lemma {:induction false} FailureStays(ctx: Context, boutId: string, cutoff: int, markets: seq<Market>, i: nat)
    requires i <= |markets| && GradeMarkets(ctx, boutId, cutoff, markets[..i]).Err?
    ensures GradeMarkets(ctx, boutId, cutoff, markets) == GradeMarkets(ctx, boutId, cutoff, markets[..i])
    decreases |markets| - i
  {
    if i == |markets| {
      assert markets[..i] == markets;
    } else {
      Prefix(markets, i);
      FailureStays(ctx, boutId, cutoff, markets, i + 1);
    }
  }

  // ----- what grading guarantees -----

  ghost predicate Plain(row: Row) { forall c | c in row :: !Synthetic(c) && !c.Scope? }

  lemma PlainRowClean(m: Market)
    ensures PassesScopeGate(ThresholdRow(m))
  {
  }

  lemma OfferIsPlain(quote: Option<Quote>)
    ensures Plain(OfferCell(quote))
  {
  }

  lemma UnpricedRowClean(m: Market, joined: Join)
    ensures PassesScopeGate(UnpricedRow(m, joined))
  {
    var row, reason, offer := ThresholdRow(m), ReasonCell(joined.reason), OfferCell(joined.quote);
    PlainRowClean(m);
    UpdateKeepsClean(row, reason);
    OfferIsPlain(joined.quote);
    UpdateKeepsClean(row + reason, offer);
  }

  /** The two ways in which a graded market stays unpriced. */
  lemma UnpricedRows(ctx: Context, boutId: string, cutoff: int, m: Market)
    ensures var r := GradeMarket(ctx, boutId, cutoff, m);
            r.Ok? && r.value.ThresholdG? ==>
              || r.value.row == ThresholdRow(m)
              || r.value.row == UnpricedRow(m, JoinQuote(ctx.quotes, SelectionOf(boutId, m), cutoff))
  {
  }

  lemma GradedRowClean(ctx: Context, boutId: string, cutoff: int, m: Market)
    ensures var r := GradeMarket(ctx, boutId, cutoff, m);
            r.Ok? && r.value.ThresholdG? ==> PassesScopeGate(r.value.row)
  {
    UnpricedRows(ctx, boutId, cutoff, m);
    PlainRowClean(m);
    UnpricedRowClean(m, JoinQuote(ctx.quotes, SelectionOf(boutId, m), cutoff));
  }

  lemma AddRowKeeps(rows: Rows, g: Graded)
    requires ThresholdOnlyClean(rows.1) && (g.ThresholdG? ==> PassesScopeGate(g.row))
    ensures ThresholdOnlyClean(AddRow(rows, g).1)
    ensures |AddRow(rows, g).0| + |AddRow(rows, g).1| == |rows.0| + |rows.1| + 1
  {
  }

  lemma {:induction false} ThresholdRowsAreClean(ctx: Context, boutId: string, cutoff: int, markets: seq<Market>)
    ensures var r := GradeMarkets(ctx, boutId, cutoff, markets);
            r.Ok? ==> ThresholdOnlyClean(r.value.1) && |r.value.0| + |r.value.1| == |markets|
  {
    if markets != [] {
      ThresholdRowsAreClean(ctx, boutId, cutoff, Front(markets));
      GradedRowClean(ctx, boutId, cutoff, Last(markets));
      var rest, g := GradeMarkets(ctx, boutId, cutoff, Front(markets)), GradeMarket(ctx, boutId, cutoff, Last(markets));
      if rest.Ok? && g.Ok? {
        AddRowKeeps(rest.value, g.value);
      }
    }
  }

  /** Every market of a predicted bout yields exactly one row, priced or threshold
      only, and no threshold-only row carries a betting figure. */
  lemma PredictedBoutRows(ctx: Context, group: EventGroup, boutId: string, score: CardScore)
    requires Grade(ctx, group, boutId, score).Ok?
    ensures var a := Grade(ctx, group, boutId, score).value;
            && (a.status.Predicted? <==> a.prediction.Some?)
            && (a.status.Predicted? <==> a.reason.None?)
            && (a.prediction.Some? ==> |a.pricedRows| + |a.thresholdRows| == |a.prediction.value.markets|)
            && (a.prediction.None? ==> a.pricedRows == [] && a.thresholdRows == [])
            && ThresholdOnlyClean(a.thresholdRows)
  {
    var prediction := PredictionFor(score.predictions, boutId);
    if prediction.Some? {
      ThresholdRowsAreClean(ctx, boutId, group.cutoff, prediction.value.markets);
    }
  }

  lemma PricedFromThePast(ctx: Context, boutId: string, cutoff: int, m: Market)
    ensures var r := GradeMarket(ctx, boutId, cutoff, m);
            r.Ok? && r.value.PricedG? ==> r.value.priced.observedAt <= cutoff
  {
    PricedIffLatestIsSound(ctx.quotes, SelectionOf(boutId, m), cutoff);
  }

  /** No priced row of a bout rests on a quote seen after the card's cutoff. */
  lemma {:induction false} RowsNeverLookAhead(ctx: Context, boutId: string, cutoff: int, markets: seq<Market>)
    ensures var r := GradeMarkets(ctx, boutId, cutoff, markets);
            r.Ok? ==> forall row | row in r.value.0 :: row.observedAt <= cutoff
  {
    if markets != [] {
      RowsNeverLookAhead(ctx, boutId, cutoff, Front(markets));
      PricedFromThePast(ctx, boutId, cutoff, Last(markets));
    }
  }
}
