/** Flat rows of a run: one attempt row per attempt, one bet per priced row and one
    market row per offered market of a predicted bout. */
module AttemptRows {
  import opened Prelude
  import opened Bets
  import opened MarketScores
  import opened Quotes
  import opened Splits
  import opened Gates
  import opened Grading
  import opened Breakdowns
  import opened Slices

  datatype Flat = Flat(rows: seq<AttemptRow>, bets: seq<PricedBet>, markets: seq<MarketRow>)

  function VariantText(v: Variant): string {
    match v
    case Standard => "standard"
    case Brazil => "brazil"
  }

  function FamilyOfRow(row: Row): string {
    match Read(row, Family)
    case Text(text) => text
    case _ => ""
  }

  function FamilyOf(): Row -> string { (row: Row) => FamilyOfRow(row) }

  predicate AnyCandidate(rows: seq<PricedRow>) { exists i | 0 <= i < |rows| :: rows[i].candidate }

  function RowOf(a: Attempt): AttemptRow {
    AttemptRow(
      a.eventId, a.boutId, a.season, VariantText(a.variant), a.reason,
      a.status.Predicted?, a.status.Abstained?, a.status.Unavailable?, a.status.Excluded?,
      a.reason == Some(LockedNotAccessed),
      a.pricedRows != [], a.thresholdRows != [] && a.pricedRows == [], AnyCandidate(a.pricedRows),
      |a.pricedRows|, |a.thresholdRows|, Map(FamilyOf(), a.thresholdRows))
  }

  /** A zero probability reads as missing and becomes one half. */
  function BetOf(a: Attempt): PricedRow -> PricedBet {
    (row: PricedRow) =>
      PricedBet(
        a.eventId, a.boutId, a.season, VariantText(a.variant), row.marketFamily, row.outcomeKey,
        if row.sourceKind == "" then "provider_quote" else row.sourceKind,
        Some(row.provider), Some(row.bookmakerKey),
        if row.modelProb == 0.0 then 0.5 else row.modelProb,
        row.offeredDecimal,
        if row.settlement.None? then Unresolved else row.settlement.value,
        row.isProxyTimestamp, row.candidate, row.probabilityClv, row.closingEv,
        if row.expectedValue.None? then 0.0 else row.expectedValue.value,
        row.pVoid, None)
  }

  function MarketRowOf(a: Attempt, m: Market, settled: Option<Settlement>): MarketRow {
    MarketRow(
      a.eventId, a.boutId, a.season, VariantText(a.variant), m.family, m.outcomeKey, m.linePoint, m.p50,
      if settled.None? then Unresolved else settled.value, m.drawProbability, None)
  }

  function MarketRowsOf(settle: Settling, a: Attempt, markets: seq<Market>): Result<seq<MarketRow>, GradeError> {
    if markets == [] then Ok([]) else
      var rest :- MarketRowsOf(settle, a, Front(markets));
      var m := Last(markets);
      if !Offered(m) then Ok(rest)
      else if !KnownFamily(m.family) then Err(UnknownFamily(m.family))
      else if !KnownOutcome(m.outcomeKey) then Err(UnknownOutcome(m.outcomeKey))
      else
        var settled :- settle(a.boutId, m);
        Ok(rest + [MarketRowOf(a, m, settled)])
  }

  function MarketsOf(a: Attempt): seq<Market> { if a.prediction.Some? then a.prediction.value.markets else [] }

  function Flatten(settle: Settling, attempts: seq<Attempt>): Result<Flat, GradeError> {
    if attempts == [] then Ok(Flat([], [], [])) else
      var rest :- Flatten(settle, Front(attempts));
      var a := Last(attempts);
      var own :- MarketRowsOf(settle, a, MarketsOf(a));
      Ok(Flat(rest.rows + [RowOf(a)], rest.bets + Map(BetOf(a), a.pricedRows), rest.markets + own))
  }

  lemma {:induction false} MarketFailureStays(settle: Settling, a: Attempt, markets: seq<Market>, i: nat)
    requires i <= |markets| && MarketRowsOf(settle, a, markets[..i]).Err?
    ensures MarketRowsOf(settle, a, markets) == MarketRowsOf(settle, a, markets[..i])
    decreases |markets| - i
  {
    if i == |markets| {
      assert markets[..i] == markets;
    } else {
      Prefix(markets, i);
      MarketFailureStays(settle, a, markets, i + 1);
    }
  }

  lemma {:induction false} AttemptFailureStays(settle: Settling, attempts: seq<Attempt>, i: nat)
    requires i <= |attempts| && Flatten(settle, attempts[..i]).Err?
    ensures Flatten(settle, attempts) == Flatten(settle, attempts[..i])
    decreases |attempts| - i
  {
    if i == |attempts| {
      assert attempts[..i] == attempts;
    } else {
      Prefix(attempts, i);
      AttemptFailureStays(settle, attempts, i + 1);
    }
  }

  method MarketRowsOfAttempt(settle: Settling, a: Attempt) returns (r: Result<seq<MarketRow>, GradeError>)
    ensures r == MarketRowsOf(settle, a, MarketsOf(a))
  {
    var markets := MarketsOf(a);
    var rows: seq<MarketRow> := [];
    for i := 0 to |markets|
      invariant MarketRowsOf(settle, a, markets[..i]) == Ok(rows)
    {
      Prefix(markets, i);
      var m := markets[i];
      if !Offered(m) {
        continue;
      }
      if !KnownFamily(m.family) {
        MarketFailureStays(settle, a, markets, i + 1);
        return Err(UnknownFamily(m.family));
      }
      if !KnownOutcome(m.outcomeKey) {
        MarketFailureStays(settle, a, markets, i + 1);
        return Err(UnknownOutcome(m.outcomeKey));
      }
      var settled := settle(a.boutId, m);
      if settled.Err? {
        MarketFailureStays(settle, a, markets, i + 1);
        return Err(settled.error);
      }
      rows := rows + [MarketRowOf(a, m, settled.value)];
    }
    assert markets[..|markets|] == markets;
    r := Ok(rows);
  }

  method BetsOfAttempt(a: Attempt) returns (bets: seq<PricedBet>)
    ensures bets == Map(BetOf(a), a.pricedRows)
  {
    bets := [];
    for i := 0 to |a.pricedRows|
      invariant bets == Map(BetOf(a), a.pricedRows[..i])
    {
      bets := bets + [BetOf(a)(a.pricedRows[i])];
    }
    assert a.pricedRows[..|a.pricedRows|] == a.pricedRows;
  }

  method AttemptsToRows(settle: Settling, attempts: seq<Attempt>) returns (r: Result<Flat, GradeError>)
    ensures r == Flatten(settle, attempts)
  {
    var rows: seq<AttemptRow>, bets: seq<PricedBet>, markets: seq<MarketRow> := [], [], [];
    for i := 0 to |attempts|
      invariant Flatten(settle, attempts[..i]) == Ok(Flat(rows, bets, markets))
    {
      Prefix(attempts, i);
      var a := attempts[i];
      var own := MarketRowsOfAttempt(settle, a);
      if own.Err? {
        AttemptFailureStays(settle, attempts, i + 1);
        return Err(own.error);
      }
      var ownBets := BetsOfAttempt(a);
      rows, bets, markets := rows + [RowOf(a)], bets + ownBets, markets + own.value;
    }
    assert attempts[..|attempts|] == attempts;
    r := Ok(Flat(rows, bets, markets));
  }

  // ----- rows of one graded attempt -----

  /** The attempts that grading and sealing produce. */
  ghost predicate Produced(ctx: Context, a: Attempt) {
    exists group, score ::
      Grade(ctx, group, a.boutId, score) == Ok(a) || LockedAttempt(group, a.boutId) == a
  }

  ghost predicate AllKnown(markets: seq<Market>) { forall m | m in markets :: Offered(m) || KnownFamily(m.family) }

  ghost predicate FamiliesKnown(rows: seq<Row>) { forall row | row in rows :: KnownFamily(FamilyOfRow(row)) }

  /** A quote joined to a selection has the selection's family. */
  lemma JoinedFamily(quotes: seq<Quote>, sel: Selection, cutoff: int)
    ensures var quote := JoinQuote(quotes, sel, cutoff).quote;
            quote.Some? ==> quote.value.marketFamily == sel.family
  {
    var matching := Filter(Matches(sel), quotes);
    FilterMembers(Matches(sel), quotes);
    if matching != [] {
      assert matching[0] in matching;
      var asOf := Filter(AsOf(cutoff), matching);
      FilterMembers(AsOf(cutoff), matching);
      if asOf != [] {
        NewestIsNewest(asOf);
      }
    }
  }

  lemma PlainFamily(m: Market)
    ensures FamilyOfRow(ThresholdRow(m)) == m.family
  {
  }

  lemma UnpricedFamily(m: Market, joined: Join)
    requires joined.quote.Some? ==> joined.quote.value.marketFamily == m.family
    ensures FamilyOfRow(UnpricedRow(m, joined)) == m.family
  {
    var row, reason, offer := ThresholdRow(m), ReasonCell(joined.reason), OfferCell(joined.quote);
    assert row[Family] == Text(m.family);
    assert Family !in reason;
    assert joined.quote.Some? ==> offer[Family] == Text(m.family);
    assert joined.quote.None? ==> offer == map[];
    assert UnpricedRow(m, joined) == row + reason + offer;
  }

  /** A market that stays unpriced keeps its own family, even where the row takes
      over the columns of a rejected quote. */
  lemma GradedFamily(ctx: Context, boutId: string, cutoff: int, m: Market)
    ensures var r := GradeMarket(ctx, boutId, cutoff, m);
            r.Ok? && r.value.ThresholdG? ==> FamilyOfRow(r.value.row) == m.family
  {
    UnpricedRows(ctx, boutId, cutoff, m);
    PlainFamily(m);
    JoinedFamily(ctx.quotes, SelectionOf(boutId, m), cutoff);
    UnpricedFamily(m, JoinQuote(ctx.quotes, SelectionOf(boutId, m), cutoff));
  }

  lemma OfferedIsKnown(ctx: Context, boutId: string, cutoff: int, m: Market)
    requires GradeMarket(ctx, boutId, cutoff, m).Ok?
    ensures Offered(m) ==> KnownFamily(m.family) && KnownOutcome(m.outcomeKey)
    ensures !Offered(m) ==> GradeMarket(ctx, boutId, cutoff, m).value.ThresholdG?
  {
  }

  lemma AddRowFamilies(rows: Rows, g: Graded)
    ensures g.ThresholdG? ==>
              (FamiliesKnown(AddRow(rows, g).1) <==> FamiliesKnown(rows.1) && KnownFamily(FamilyOfRow(g.row)))
    ensures g.PricedG? ==> AddRow(rows, g).1 == rows.1
  {
    if g.ThresholdG? {
      var all := AddRow(rows, g).1;
      assert all[|rows.1|] == g.row;
      assert forall i | 0 <= i < |rows.1| :: all[i] == rows.1[i];
    }
  }

  lemma KnownFront(markets: seq<Market>)
    requires markets != []
    ensures AllKnown(markets) <==>
              AllKnown(Front(markets)) && (Offered(Last(markets)) || KnownFamily(Last(markets).family))
  {
    Split(markets);
  }

  lemma {:induction false} GradedFamilies(ctx: Context, boutId: string, cutoff: int, markets: seq<Market>)
    requires GradeMarkets(ctx, boutId, cutoff, markets).Ok?
    ensures FamiliesKnown(GradeMarkets(ctx, boutId, cutoff, markets).value.1) <==> AllKnown(markets)
  {
    if markets != [] {
      GradedFamilies(ctx, boutId, cutoff, Front(markets));
      KnownFront(markets);
      GradedFamily(ctx, boutId, cutoff, Last(markets));
      OfferedIsKnown(ctx, boutId, cutoff, Last(markets));
      AddRowFamilies(GradeMarkets(ctx, boutId, cutoff, Front(markets)).value,
                     GradeMarket(ctx, boutId, cutoff, Last(markets)).value);
    }
  }

  lemma ProducedFamilies(ctx: Context, a: Attempt)
    requires Produced(ctx, a)
    ensures FamiliesKnown(a.thresholdRows) <==> AllKnown(MarketsOf(a))
  {
    var group, score :| Grade(ctx, group, a.boutId, score) == Ok(a) || LockedAttempt(group, a.boutId) == a;
    var prediction := PredictionFor(score.predictions, a.boutId);
    if prediction.Some? && a.prediction == prediction {
      if GradeMarkets(ctx, a.boutId, group.cutoff, prediction.value.markets).Ok? {
        GradedFamilies(ctx, a.boutId, group.cutoff, prediction.value.markets);
      }
    }
  }

  // ----- the rows of a run reconcile -----

  lemma {:induction false} FlattenCounts(settle: Settling, attempts: seq<Attempt>)
    requires Flatten(settle, attempts).Ok?
    ensures var flat := Flatten(settle, attempts).value;
            && |flat.rows| == |attempts|
            && (forall i | 0 <= i < |attempts| :: flat.rows[i] == RowOf(attempts[i]))
            && Weigh(PricedOfRow(), flat.rows) == |flat.bets|
  {
    if attempts != [] {
      FlattenCounts(settle, Front(attempts));
      FlattenStep(settle, attempts);
      WeighOneMore(Flatten(settle, Front(attempts)).value.rows, RowOf(Last(attempts)));
    }
  }

  lemma FlattenStep(settle: Settling, attempts: seq<Attempt>)
    requires attempts != [] && Flatten(settle, attempts).Ok?
    ensures Flatten(settle, Front(attempts)).Ok?
    ensures var rest, flat := Flatten(settle, Front(attempts)).value, Flatten(settle, attempts).value;
            && flat.rows == rest.rows + [RowOf(Last(attempts))]
            && |flat.bets| == |rest.bets| + RowOf(Last(attempts)).nPriced
  {
  }

  lemma WeighOneMore(rows: seq<AttemptRow>, row: AttemptRow)
    ensures Weigh(PricedOfRow(), rows + [row]) == Weigh(PricedOfRow(), rows) + row.nPriced
  {
    assert Front(rows + [row]) == rows;
  }

  lemma {:induction false} OwnMarketRows(settle: Settling, a: Attempt, markets: seq<Market>)
    requires MarketRowsOf(settle, a, markets).Ok?
    ensures forall m | m in MarketRowsOf(settle, a, markets).value :: m.marketFamily in FAMILIES
  {
    if markets != [] {
      OwnMarketRows(settle, a, Front(markets));
    }
  }

  lemma {:induction false} FlattenMembers(settle: Settling, attempts: seq<Attempt>)
    requires Flatten(settle, attempts).Ok?
    ensures forall m | m in Flatten(settle, attempts).value.markets :: m.marketFamily in FAMILIES
    ensures forall b | b in Flatten(settle, attempts).value.bets :: b.seriesVariant in VARIANTS
  {
    if attempts != [] {
      FlattenMembers(settle, Front(attempts));
      var a := Last(attempts);
      OwnMarketRows(settle, a, MarketsOf(a));
      forall b | b in Map(BetOf(a), a.pricedRows)
        ensures b.seriesVariant in VARIANTS
      {
        assert VariantText(a.variant) in VARIANTS;
      }
    }
  }

  lemma {:induction false} ListedFamilies(settle: Settling, attempts: seq<Attempt>)
    requires Flatten(settle, attempts).Ok?
    ensures (forall f | f in Listed(Flatten(settle, attempts).value.rows) :: f in FAMILIES)
       <==> (forall a | a in attempts :: FamiliesKnown(a.thresholdRows))
  {
    if attempts != [] {
      ListedFamilies(settle, Front(attempts));
      Split(attempts);
      var rows := Flatten(settle, attempts).value.rows;
      assert Front(rows) == Flatten(settle, Front(attempts)).value.rows;
      ListedKnown(Last(attempts));
      ListedStep(rows);
    }
  }

  lemma ListedKnown(a: Attempt)
    ensures (forall f | f in RowOf(a).thresholdFamilies :: f in FAMILIES) <==> FamiliesKnown(a.thresholdRows)
  {
    var families := Map(FamilyOf(), a.thresholdRows);
    forall i | 0 <= i < |families|
      ensures families[i] == FamilyOfRow(a.thresholdRows[i])
    {
    }
    if forall f | f in families :: f in FAMILIES {
      forall row | row in a.thresholdRows
        ensures KnownFamily(FamilyOfRow(row))
      {
        var i :| 0 <= i < |a.thresholdRows| && a.thresholdRows[i] == row;
        assert families[i] in families;
      }
    }
  }

  lemma ListedStep(rows: seq<AttemptRow>)
    requires rows != []
    ensures (forall f | f in Listed(rows) :: f in FAMILIES)
       <==> (forall f | f in Listed(Front(rows)) :: f in FAMILIES)
            && forall f | f in Last(rows).thresholdFamilies :: f in FAMILIES
  {
    var before, own := Listed(Front(rows)), Last(rows).thresholdFamilies;
    assert Listed(rows) == before + own;
    assert forall f :: f in before + own <==> f in before || f in own;
  }

  /** The rows of graded and sealed attempts pass the reconciliation check exactly when
      every market that was not on offer names a known family; markets on offer were
      already checked by grading. */
  lemma RowsReconcileIff(ctx: Context, attempts: seq<Attempt>)
    requires forall a | a in attempts :: Produced(ctx, a)
    requires Flatten(ctx.settle, attempts).Ok?
    ensures var flat := Flatten(ctx.settle, attempts).value;
            Reconcile(flat.rows, flat.bets, flat.markets).None? <==> forall a | a in attempts :: AllKnown(MarketsOf(a))
  {
    var flat := Flatten(ctx.settle, attempts).value;
    FlattenCounts(ctx.settle, attempts);
    FlattenMembers(ctx.settle, attempts);
    ListedFamilies(ctx.settle, attempts);
    forall a | a in attempts
      ensures FamiliesKnown(a.thresholdRows) <==> AllKnown(MarketsOf(a))
    {
      ProducedFamilies(ctx, a);
    }
    forall r | r in flat.rows
      ensures r.nThreshold == |r.thresholdFamilies| && r.seriesVariant in VARIANTS
    {
    }
    ReconcilesIff(flat.rows, flat.bets, flat.markets);
    ListedAccountIff(flat.rows);
  }
}
