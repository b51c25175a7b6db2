/** What the attempts, rows and bets of a run say, told by the scores, markets and quotes they
    come from. */
module RunFacts {
  import opened Prelude
  import opened Bets
  import opened Splits
  import opened Folds
  import opened Quotes
  import opened QuoteFacts
  import opened MarketScores
  import opened Grading
  import opened PricedRows
  import opened WalkForward
  import Precomputed
  import opened Breakdowns
  import opened AttemptRows
  import RunRows
  import opened Slices
  import Training

  // ----- the attempt at a bout -----

  /** The last pair of a bout is the one that counts. */
  ghost predicate LastGiven(pairs: seq<(string, Exclusion)>, boutId: string, reason: Exclusion) {
    exists i :: 0 <= i < |pairs| && pairs[i] == (boutId, reason) && forall j | i < j < |pairs| :: pairs[j].0 != boutId
  }

  /** The first prediction of a bout is the one that counts. */
  ghost predicate FirstPredicted(predictions: seq<Prediction>, boutId: string, p: Prediction) {
    exists i :: 0 <= i < |predictions| && predictions[i] == p && p.boutId == boutId
      && forall j | 0 <= j < i :: predictions[j].boutId != boutId
  }

  lemma {:induction false} ReasonIsLast(pairs: seq<(string, Exclusion)>, boutId: string)
    ensures ReasonFor(pairs, boutId).None? ==> forall i | 0 <= i < |pairs| :: pairs[i].0 != boutId
    ensures ReasonFor(pairs, boutId).Some? ==> LastGiven(pairs, boutId, ReasonFor(pairs, boutId).value)
  {
    if pairs != [] {
      var front, last := Front(pairs), |pairs| - 1;
      assert forall i | 0 <= i < last :: pairs[i] == front[i];
      if pairs[last].0 == boutId {
        assert pairs[last] == (boutId, pairs[last].1);
      } else {
        ReasonIsLast(front, boutId);
      }
    }
  }

  lemma {:induction false} PredictionIsFirst(predictions: seq<Prediction>, boutId: string)
    ensures PredictionFor(predictions, boutId).None? ==>
              forall i | 0 <= i < |predictions| :: predictions[i].boutId != boutId
    ensures PredictionFor(predictions, boutId).Some? ==>
              FirstPredicted(predictions, boutId, PredictionFor(predictions, boutId).value)
  {
    if predictions != [] && predictions[0].boutId != boutId {
      var rest := predictions[1..];
      PredictionIsFirst(rest, boutId);
      assert forall i | 1 <= i < |predictions| :: predictions[i] == rest[i - 1];
      if PredictionFor(rest, boutId).Some? {
        var p := PredictionFor(rest, boutId).value;
        var i :| 0 <= i < |rest| && rest[i] == p && p.boutId == boutId
          && forall j | 0 <= j < i :: rest[j].boutId != boutId;
        assert predictions[i + 1] == p;
      }
    }
  }

  /** How a bout of a scored card is reported: as unavailable where the score says so, else as
      abstained where it says so, else by its prediction, and as unavailable for a missing
      model without one. */
  ghost predicate Reports(g: EventGroup, boutId: string, score: CardScore, a: Attempt) {
    && a.eventId == g.eventId && a.boutId == boutId && a.season == g.season && a.variant == g.variant
    && a.cutoff == g.cutoff
    && if Precomputed.Mentions(score.unavailable, boutId) then
         a.status == Status.Unavailable && a.prediction.None?
         && a.reason.Some? && LastGiven(score.unavailable, boutId, a.reason.value)
       else if Precomputed.Mentions(score.abstained, boutId) then
         a.status == Status.Abstained && a.prediction.None?
         && a.reason.Some? && LastGiven(score.abstained, boutId, a.reason.value)
       else if Precomputed.Predicts(score.predictions, boutId) then
         a.status == Status.Predicted && a.reason.None?
         && a.prediction.Some? && FirstPredicted(score.predictions, boutId, a.prediction.value)
       else a.status == Status.Unavailable && a.reason == Some(MissingModel) && a.prediction.None?
  }

  lemma AttemptReports(ctx: Context, g: EventGroup, boutId: string, score: CardScore)
    requires Grade(ctx, g, boutId, score).Ok?
    ensures Reports(g, boutId, score, Grade(ctx, g, boutId, score).value)
  {
    ReasonIsLast(score.unavailable, boutId);
    ReasonIsLast(score.abstained, boutId);
    PredictionIsFirst(score.predictions, boutId);
    Precomputed.ReasonMentioned(score.unavailable, boutId);
    Precomputed.ReasonMentioned(score.abstained, boutId);
    Precomputed.PredictionFound(score.predictions, boutId);
  }

  // ----- flat rows -----

  ghost predicate RowFrom(a: Attempt, r: AttemptRow) {
    && r.eventId == a.eventId && r.boutId == a.boutId && r.season == a.season
    && r.seriesVariant == (if a.variant == Brazil then "brazil" else "standard")
    && r.exclusionReason == a.reason
    && (r.predicted <==> a.status == Status.Predicted) && (r.abstained <==> a.status == Status.Abstained)
    && (r.unavailable <==> a.status == Status.Unavailable) && (r.excluded <==> a.status == Status.Excluded)
    && (r.lockedNotAccessed <==> a.reason == Some(LockedNotAccessed))
    && (r.priced <==> a.pricedRows != []) && (r.thresholdOnly <==> a.thresholdRows != [] && a.pricedRows == [])
    && (r.prePolicyCandidate <==> exists row :: row in a.pricedRows && row.candidate)
    && r.nPriced == |a.pricedRows| && r.nThreshold == |a.thresholdRows|
  }

  /** A bet carries its attempt and its row: no source kind reads as a provider quote, no
      settlement as unresolved, no expected value as zero, a zero probability as one half. */
  ghost predicate BetFrom(a: Attempt, row: PricedRow, b: PricedBet) {
    && b.eventId == a.eventId && b.boutId == a.boutId && b.season == a.season
    && b.seriesVariant == (if a.variant == Brazil then "brazil" else "standard")
    && b.marketFamily == row.marketFamily && b.outcomeKey == row.outcomeKey
    && (row.sourceKind != "" ==> b.sourceKind == row.sourceKind)
    && (row.sourceKind == "" ==> b.sourceKind == "provider_quote")
    && b.provider == Some(row.provider) && b.bookmakerKey == Some(row.bookmakerKey)
    && (row.modelProb != 0.0 ==> b.modelProb == row.modelProb) && (row.modelProb == 0.0 ==> b.modelProb == 0.5)
    && b.offeredDecimal == row.offeredDecimal && b.pVoid == row.pVoid
    && (row.settlement.Some? ==> b.settlement == row.settlement.value)
    && (row.settlement.None? ==> b.settlement == Settlement.Unresolved)
    && b.isProxyTimestamp == row.isProxyTimestamp && b.isPrePolicyCandidate == row.candidate
    && b.probabilityClv == row.probabilityClv && b.closingEv == row.closingEv
    && (row.expectedValue.Some? ==> b.expectedValue == row.expectedValue.value)
    && (row.expectedValue.None? ==> b.expectedValue == 0.0)
    && b.blockOccurrenceId.None?
  }

  lemma RowsSayTheAttempt(a: Attempt)
    ensures RowFrom(a, RowOf(a))
    ensures forall row :: BetFrom(a, row, BetOf(a)(row))
  {
    if AnyCandidate(a.pricedRows) {
      var i :| 0 <= i < |a.pricedRows| && a.pricedRows[i].candidate;
      assert a.pricedRows[i] in a.pricedRows;
    }
    if row :| row in a.pricedRows && row.candidate {
      var i :| 0 <= i < |a.pricedRows| && a.pricedRows[i] == row;
    }
  }

  /** How many priced rows the first attempts have. */
  ghost function RowsBefore(attempts: seq<Attempt>, i: nat): nat
    requires i <= |attempts|
  {
    if i == 0 then 0 else RowsBefore(attempts, i - 1) + |attempts[i - 1].pricedRows|
  }

  lemma {:induction false} SameRowsBefore(attempts: seq<Attempt>, i: nat)
    requires i < |attempts|
    ensures RowsBefore(Front(attempts), i) == RowsBefore(attempts, i)
  {
    if i > 0 {
      SameRowsBefore(attempts, i - 1);
    }
  }

  ghost predicate BetsOf(a: Attempt, bets: seq<PricedBet>, from: nat) {
    && from + |a.pricedRows| <= |bets|
    && forall k | 0 <= k < |a.pricedRows| :: BetFrom(a, a.pricedRows[k], bets[from + k])
  }

  lemma BetsOfOneMore(a: Attempt, bets: seq<PricedBet>, more: seq<PricedBet>, from: nat)
    requires BetsOf(a, bets, from)
    ensures BetsOf(a, bets + more, from)
  {
    forall k | 0 <= k < |a.pricedRows|
      ensures BetFrom(a, a.pricedRows[k], (bets + more)[from + k])
    {
      assert (bets + more)[from + k] == bets[from + k];
    }
  }

  lemma OwnBets(a: Attempt, bets: seq<PricedBet>)
    ensures BetsOf(a, bets + Map(BetOf(a), a.pricedRows), |bets|)
  {
    RowsSayTheAttempt(a);
    var own := Map(BetOf(a), a.pricedRows);
    forall k | 0 <= k < |a.pricedRows|
      ensures BetFrom(a, a.pricedRows[k], (bets + own)[|bets| + k])
    {
      assert (bets + own)[|bets| + k] == own[k];
    }
  }

  ghost predicate RowsFollow(attempts: seq<Attempt>, rows: seq<AttemptRow>) {
    |rows| == |attempts| && forall i | 0 <= i < |attempts| :: RowFrom(attempts[i], rows[i])
  }

  ghost predicate BetsFollow(attempts: seq<Attempt>, bets: seq<PricedBet>) {
    && |bets| == RowsBefore(attempts, |attempts|)
    && forall i | 0 <= i < |attempts| :: BetsOf(attempts[i], bets, RowsBefore(attempts, i))
  }

  lemma RowsFollowOneMore(attempts: seq<Attempt>, rows: seq<AttemptRow>)
    requires attempts != [] && RowsFollow(Front(attempts), rows)
    ensures RowsFollow(attempts, rows + [RowOf(Last(attempts))])
  {
    RowsSayTheAttempt(Last(attempts));
    var front := Front(attempts);
    forall i | 0 <= i < |attempts| - 1
      ensures RowFrom(attempts[i], rows[i])
    {
      assert attempts[i] == front[i];
    }
  }

  lemma BetsKept(attempts: seq<Attempt>, bets: seq<PricedBet>, more: seq<PricedBet>, i: nat)
    requires i + 1 < |attempts| && BetsFollow(Front(attempts), bets)
    ensures BetsOf(attempts[i], bets + more, RowsBefore(attempts, i))
  {
    SameRowsBefore(attempts, i);
    assert Front(attempts)[i] == attempts[i];
    BetsOfOneMore(attempts[i], bets, more, RowsBefore(attempts, i));
  }

  lemma BetsFollowOneMore(attempts: seq<Attempt>, bets: seq<PricedBet>)
    requires attempts != [] && BetsFollow(Front(attempts), bets)
    ensures BetsFollow(attempts, bets + Map(BetOf(Last(attempts)), Last(attempts).pricedRows))
  {
    var own := Map(BetOf(Last(attempts)), Last(attempts).pricedRows);
    SameRowsBefore(attempts, |attempts| - 1);
    OwnBets(Last(attempts), bets);
    forall i | 0 <= i < |attempts|
      ensures BetsOf(attempts[i], bets + own, RowsBefore(attempts, i))
    {
      if i + 1 < |attempts| {
        BetsKept(attempts, bets, own, i);
      }
    }
  }

  /** Each attempt has one flat row, and its priced rows become consecutive bets, attempt
      after attempt. */
  lemma {:induction false} FlatRowsFollowAttempts(settle: Settling, attempts: seq<Attempt>)
    requires Flatten(settle, attempts).Ok?
    ensures RowsFollow(attempts, Flatten(settle, attempts).value.rows)
    ensures BetsFollow(attempts, Flatten(settle, attempts).value.bets)
  {
    if attempts != [] {
      var rest := Flatten(settle, Front(attempts)).value;
      FlatRowsFollowAttempts(settle, Front(attempts));
      RowsFollowOneMore(attempts, rest.rows);
      BetsFollowOneMore(attempts, rest.bets);
    }
  }

  // ----- the bets of a run -----

  /** A bet at the price of the quote that was the latest one in time for its selection, with
      the probability and draw mass of a market of the card's own score. */
  ghost predicate BetAtQuote(ctx: Context, g: EventGroup, boutId: string, m: Market, q: Quote, b: PricedBet) {
    && Gradable(m) && PricedBy(ctx, boutId, g.cutoff, m, q) && Valued(ctx, boutId, m, q)
    && b.eventId == g.eventId && b.boutId == boutId && b.season == g.season
    && b.marketFamily == m.family && b.outcomeKey == m.outcomeKey
    && b.modelProb == (if m.p50 == 0.0 then 0.5 else m.p50) && b.offeredDecimal == q.priceDecimal
    && b.settlement == (if ctx.settle(boutId, m).value.Some? then ctx.settle(boutId, m).value.value
                        else Settlement.Unresolved)
    && b.pVoid == (if m.family == "moneyline" || m.family == "method" || m.family == "fighter_by_method"
                   then m.drawProbability else None)
  }

  lemma BetAtItsQuote(ctx: Context, g: EventGroup, a: Attempt, m: Market, q: Quote, row: PricedRow, b: PricedBet)
    requires a.eventId == g.eventId && a.season == g.season && Gradable(m)
    requires PricedBy(ctx, a.boutId, g.cutoff, m, q)
    requires Valued(ctx, a.boutId, m, q) && RowAt(ctx, a.boutId, m, q, row) && BetFrom(a, row, b)
    ensures BetAtQuote(ctx, g, a.boutId, m, q, b)
  {
  }

  /** The market and the quote behind a priced row of a graded bout. */
  lemma MarketOfRow(ctx: Context, g: EventGroup, boutId: string, score: CardScore, k: int)
    returns (m: Market, q: Quote)
    requires Grade(ctx, g, boutId, score).Ok? && 0 <= k < |Grade(ctx, g, boutId, score).value.pricedRows|
    ensures var a := Grade(ctx, g, boutId, score).value;
            && a.prediction.Some? && m in a.prediction.value.markets
            && Gradable(m) && PricedBy(ctx, boutId, g.cutoff, m, q)
            && Valued(ctx, boutId, m, q) && RowAt(ctx, boutId, m, q, a.pricedRows[k])
  {
    var a := Grade(ctx, g, boutId, score).value;
    var markets := PredictionFor(score.predictions, boutId).value.markets;
    assert a.pricedRows == GradeMarkets(ctx, boutId, g.cutoff, markets).value.0;
    var at := PricedRowsFollowMarkets(ctx, boutId, g.cutoff, markets);
    assert at[k] in at && RowOfMarket(ctx, boutId, g.cutoff, markets, at[k], a.pricedRows[k]);
    m := markets[at[k]];
    q :| PricedBy(ctx, boutId, g.cutoff, m, q);
  }

  /** A bet of a card is at the quote of a market of one of its bouts. */
  ghost predicate BetOfCard(ctx: Context, g: EventGroup, b: PricedBet) {
    b.boutId in g.boutIds && exists m, q :: BetAtQuote(ctx, g, b.boutId, m, q, b)
  }

  ghost predicate BetOfAttempts(attempts: seq<Attempt>, b: PricedBet) {
    exists a, k :: a in attempts && 0 <= k < |a.pricedRows| && BetFrom(a, a.pricedRows[k], b)
  }

  lemma OwnBetHasRow(attempts: seq<Attempt>, a: Attempt, b: PricedBet)
    requires a in attempts && b in Map(BetOf(a), a.pricedRows)
    ensures BetOfAttempts(attempts, b)
  {
    RowsSayTheAttempt(a);
    var own := Map(BetOf(a), a.pricedRows);
    var k :| 0 <= k < |own| && own[k] == b;
    assert BetFrom(a, a.pricedRows[k], b);
  }

  lemma EarlierBetHasRow(attempts: seq<Attempt>, b: PricedBet)
    requires attempts != [] && BetOfAttempts(Front(attempts), b)
    ensures BetOfAttempts(attempts, b)
  {
    var a, k :| a in Front(attempts) && 0 <= k < |a.pricedRows| && BetFrom(a, a.pricedRows[k], b);
    assert a in attempts;
  }

  lemma {:induction false} BetsHaveRows(settle: Settling, attempts: seq<Attempt>)
    requires Flatten(settle, attempts).Ok?
    ensures forall b | b in Flatten(settle, attempts).value.bets :: BetOfAttempts(attempts, b)
  {
    if attempts != [] {
      var front, a := Front(attempts), Last(attempts);
      BetsHaveRows(settle, front);
      forall b | b in Flatten(settle, attempts).value.bets
        ensures BetOfAttempts(attempts, b)
      {
        if b in Flatten(settle, front).value.bets {
          EarlierBetHasRow(attempts, b);
        } else {
          OwnBetHasRow(attempts, a, b);
        }
      }
    }
  }

  /** Every bet of a completed run is at the quote that was the latest one in time for a
      market of a bout of one of its cards. */
  lemma BetsOfARun(env: Env, groups: seq<EventGroup>)
    requires Chronological(env.year) && WellGrouped(env.year, groups) && RunCards(env, groups, groups).Ok?
    requires Flatten(env.ctx.settle, RunCards(env, groups, groups).value).Ok?
    ensures forall b | b in Flatten(env.ctx.settle, RunCards(env, groups, groups).value).value.bets ::
              exists g :: g in groups && BetOfCard(env.ctx, g, b)
  {
    var attempts := RunCards(env, groups, groups).value;
    Training.AttemptsComeFromThePast(env, groups);
    BetsHaveRows(env.ctx.settle, attempts);
    forall b | b in Flatten(env.ctx.settle, attempts).value.bets
      ensures exists g :: g in groups && BetOfCard(env.ctx, g, b)
    {
      assert BetOfAttempts(attempts, b);
      var a, k :| a in attempts && 0 <= k < |a.pricedRows| && BetFrom(a, a.pricedRows[k], b);
      var g :| g in groups && Training.FromThePast(env, groups, g, a);
      BetOfItsCard(env, groups, g, a, k, b);
    }
  }

  lemma BetOfItsCard(env: Env, groups: seq<EventGroup>, g: EventGroup, a: Attempt, k: int, b: PricedBet)
    requires Training.FromThePast(env, groups, g, a) && 0 <= k < |a.pricedRows| && BetFrom(a, a.pricedRows[k], b)
    ensures BetOfCard(env.ctx, g, b)
  {
    assert a.pricedRows != [] && !IsLocked(env, g);
    var fold :| IsTrainingFold(groups, g, fold) && Training.ScoredFrom(env, groups, g, fold, a);
    var score := env.scorer(g, fold).value;
    var m, q := MarketOfRow(env.ctx, g, a.boutId, score, k);
    AttemptReports(env.ctx, g, a.boutId, score);
    BetAtItsQuote(env.ctx, g, a, m, q, a.pricedRows[k], b);
  }

  // ----- market rows -----

  /** A market row carries its attempt and its market, settled by the bout; no settlement reads
      as unresolved. */
  ghost predicate MarketRowFrom(settle: Settling, a: Attempt, m: Market, r: MarketRow) {
    && m.available && m.outcomeKey != "" && settle(a.boutId, m).Ok?
    && r.eventId == a.eventId && r.boutId == a.boutId && r.season == a.season
    && r.seriesVariant == (if a.variant == Brazil then "brazil" else "standard")
    && r.marketFamily == m.family && r.outcomeKey == m.outcomeKey && r.linePoint == m.linePoint
    && r.p50 == m.p50 && r.drawProbability == m.drawProbability && r.blockOccurrenceId.None?
    && (settle(a.boutId, m).value.Some? ==> r.settlement == settle(a.boutId, m).value.value)
    && (settle(a.boutId, m).value.None? ==> r.settlement == Settlement.Unresolved)
  }

  ghost predicate MarketsFollow(
    settle: Settling, a: Attempt, markets: seq<Market>, rows: seq<MarketRow>, at: seq<int>)
  {
    && |at| == |rows| && Ascending(at)
    && (forall i :: i in at <==> 0 <= i < |markets| && markets[i].available && markets[i].outcomeKey != "")
    && forall k | 0 <= k < |at| :: 0 <= at[k] < |markets| && MarketRowFrom(settle, a, markets[at[k]], rows[k])
  }

  lemma MarketsFollowOneMore(
    settle: Settling, a: Attempt, markets: seq<Market>, rows: seq<MarketRow>, at: seq<int>, row: MarketRow)
    requires markets != [] && MarketsFollow(settle, a, Front(markets), rows, at)
    ensures !Offered(Last(markets)) ==> MarketsFollow(settle, a, markets, rows, at)
    ensures MarketRowFrom(settle, a, Last(markets), row) ==>
              MarketsFollow(settle, a, markets, rows + [row], at + [|markets| - 1])
  {
    var front, last := Front(markets), |markets| - 1;
    assert forall i | 0 <= i < last :: markets[i] == front[i];
    assert forall i :: i in at + [last] <==> i in at || i == last;
    assert forall k | 0 <= k < |at| :: at[k] in at;
  }

  /** The market rows of an attempt are those of its markets on offer, in order. */
  lemma {:induction false} MarketRowsFollowMarkets(settle: Settling, a: Attempt, markets: seq<Market>)
    returns (at: seq<int>)
    requires MarketRowsOf(settle, a, markets).Ok?
    ensures MarketsFollow(settle, a, markets, MarketRowsOf(settle, a, markets).value, at)
  {
    at := [];
    if markets != [] {
      at := MarketRowsFollowMarkets(settle, a, Front(markets));
      var rest, m := MarketRowsOf(settle, a, Front(markets)).value, Last(markets);
      var row := MarketRowOf(a, m, if settle(a.boutId, m).Ok? then settle(a.boutId, m).value else None);
      MarketsFollowOneMore(settle, a, markets, rest, at, row);
      if Offered(m) {
        at := at + [|markets| - 1];
      }
    }
  }

  // ----- counts -----

  ghost function WithStatus(attempts: seq<Attempt>, status: Status): set<int> {
    set i | 0 <= i < |attempts| && attempts[i].status == status
  }

  ghost function WithReason(attempts: seq<Attempt>, reason: Exclusion): set<int> {
    set i | 0 <= i < |attempts| && attempts[i].reason == Some(reason)
  }

  ghost function WithPrices(attempts: seq<Attempt>): set<int> {
    set i | 0 <= i < |attempts| && attempts[i].pricedRows != []
  }

  ghost function WithoutPrices(attempts: seq<Attempt>): set<int> {
    set i | 0 <= i < |attempts| && attempts[i].thresholdRows != [] && attempts[i].pricedRows == []
  }

  ghost predicate HasCandidate(a: Attempt) { exists row :: row in a.pricedRows && row.candidate }

  ghost function WithCandidates(attempts: seq<Attempt>): set<int> {
    set i | 0 <= i < |attempts| && HasCandidate(attempts[i])
  }

  lemma CountOfRows(rows: seq<AttemptRow>, keep: AttemptRow -> bool, told: set<int>)
    requires forall i :: i in told <==> 0 <= i < |rows| && keep(rows[i])
    ensures Count(keep, rows) == |told|
  {
    CountIsPositions(keep, rows);
    assert Positions(keep, rows) == told;
  }

  /** The selection counts of flat rows count the attempts by their status and rows. */
  lemma CountsAreOfAttempts(attempts: seq<Attempt>, rows: seq<AttemptRow>)
    requires RowsFollow(attempts, rows)
    ensures var c := RunRows.SelectionMetrics(rows);
            && c.attempted == |attempts|
            && c.predicted == |WithStatus(attempts, Status.Predicted)|
            && c.abstained == |WithStatus(attempts, Status.Abstained)|
            && c.unavailable == |WithStatus(attempts, Status.Unavailable)|
            && c.excluded == |WithStatus(attempts, Status.Excluded)|
            && c.lockedNotAccessed == |WithReason(attempts, LockedNotAccessed)|
            && c.priced == |WithPrices(attempts)| && c.thresholdOnly == |WithoutPrices(attempts)|
            && c.candidates == |WithCandidates(attempts)|
  {
    assert forall i | 0 <= i < |rows| :: RowFrom(attempts[i], rows[i]);
    CountOfRows(rows, RunRows.IsPredicted(), WithStatus(attempts, Status.Predicted));
    CountOfRows(rows, RunRows.IsAbstained(), WithStatus(attempts, Status.Abstained));
    CountOfRows(rows, RunRows.IsUnavailable(), WithStatus(attempts, Status.Unavailable));
    CountOfRows(rows, RunRows.IsExcluded(), WithStatus(attempts, Status.Excluded));
    CountOfRows(rows, RunRows.IsLockedOut(), WithReason(attempts, LockedNotAccessed));
    CountOfRows(rows, RunRows.IsPriced(), WithPrices(attempts));
    CountOfRows(rows, RunRows.IsThresholdOnly(), WithoutPrices(attempts));
    CountOfRows(rows, RunRows.IsCandidate(), WithCandidates(attempts));
  }

  // ----- reasons -----

  lemma {:induction false} TalliedMeans(rows: seq<AttemptRow>, reasons: seq<Option<Exclusion>>, pair: (Exclusion, nat))
    requires pair in RunRows.Tallied(rows, reasons)
    ensures pair.1 == Count(HasKey(RunRows.ReasonOf(), Some(pair.0)), rows) && Some(pair.0) in reasons
  {
    Split(reasons);
    if pair in RunRows.Tallied(rows, Front(reasons)) {
      TalliedMeans(rows, Front(reasons), pair);
    } else {
      WeighOnes(Filter(HasKey(RunRows.ReasonOf(), Last(reasons)), rows));
    }
  }

  lemma KeyOfReasons(rows: seq<AttemptRow>, reason: Exclusion)
    ensures Count(HasKey(RunRows.ReasonOf(), Some(reason)), Filter(RunRows.HasReason(), rows))
         == Count(HasKey(RunRows.ReasonOf(), Some(reason)), rows)
  {
    var key := HasKey(RunRows.ReasonOf(), Some(reason));
    FilterTwice(key, RunRows.HasReason(), rows);
    FilterAgree(Both(key, RunRows.HasReason()), key, rows);
  }

  /** Each listed reason is counted over the attempts that give it. */
  lemma ReasonsAreOfAttempts(attempts: seq<Attempt>, rows: seq<AttemptRow>, pair: (Exclusion, nat))
    requires RowsFollow(attempts, rows) && pair in RunRows.SelectionMetrics(rows).reasons
    ensures pair.1 == |WithReason(attempts, pair.0)|
  {
    var withReason := Filter(RunRows.HasReason(), rows);
    TalliedMeans(withReason, KeysOf(RunRows.ReasonOf(), withReason), pair);
    KeyOfReasons(rows, pair.0);
    assert forall i | 0 <= i < |rows| :: RowFrom(attempts[i], rows[i]);
    CountOfRows(rows, HasKey(RunRows.ReasonOf(), Some(pair.0)), WithReason(attempts, pair.0));
  }
}
