/** Selection counts and reconciliation of a whole walk-forward run. */
module RunRows {
  import opened Prelude
  import opened Slices
  import opened Splits
  import opened Quotes
  import opened Grading
  import opened WalkForward
  import opened Breakdowns
  import opened AttemptRows

  // ----- selection counts -----

  datatype SelectionCounts = SelectionCounts(
    attempted: nat, predicted: nat, abstained: nat, unavailable: nat, excluded: nat, lockedNotAccessed: nat,
    priced: nat, thresholdOnly: nat, candidates: nat, reasons: seq<(Exclusion, nat)>)

  function IsPredicted(): AttemptRow -> bool { (r: AttemptRow) => r.predicted }

  function IsAbstained(): AttemptRow -> bool { (r: AttemptRow) => r.abstained }

  function IsUnavailable(): AttemptRow -> bool { (r: AttemptRow) => r.unavailable }

  function IsExcluded(): AttemptRow -> bool { (r: AttemptRow) => r.excluded }

  function IsLockedOut(): AttemptRow -> bool { (r: AttemptRow) => r.lockedNotAccessed }

  function IsPriced(): AttemptRow -> bool { (r: AttemptRow) => r.priced }

  function IsThresholdOnly(): AttemptRow -> bool { (r: AttemptRow) => r.thresholdOnly }

  function IsCandidate(): AttemptRow -> bool { (r: AttemptRow) => r.prePolicyCandidate }

  function HasReason(): AttemptRow -> bool { (r: AttemptRow) => r.exclusionReason.Some? }

  function ReasonOf(): AttemptRow -> Option<Exclusion> { (r: AttemptRow) => r.exclusionReason }

  /** How many rows give each of the listed reasons. */
  function Tallied(rows: seq<AttemptRow>, reasons: seq<Option<Exclusion>>): seq<(Exclusion, nat)> {
    if reasons == [] then [] else
      var rest := Tallied(rows, Front(reasons));
      if Last(reasons).None? then rest
      else rest + [(Last(reasons).value, Weigh(One(), Filter(HasKey(ReasonOf(), Last(reasons)), rows)))]
  }

  function ReasonTotal(reasons: seq<(Exclusion, nat)>): nat {
    if reasons == [] then 0 else ReasonTotal(Front(reasons)) + Last(reasons).1
  }

  function SelectionMetrics(rows: seq<AttemptRow>): SelectionCounts {
    var withReason := Filter(HasReason(), rows);
    SelectionCounts(
      |rows|, Count(IsPredicted(), rows), Count(IsAbstained(), rows), Count(IsUnavailable(), rows),
      Count(IsExcluded(), rows), Count(IsLockedOut(), rows), Count(IsPriced(), rows),
      Count(IsThresholdOnly(), rows), Count(IsCandidate(), rows),
      Tallied(withReason, KeysOf(ReasonOf(), withReason)))
  }

  /** A row of a graded or sealed attempt. */
  ghost predicate Consistent(r: AttemptRow) {
    && (if r.predicted then 1 else 0) + (if r.abstained then 1 else 0)
       + (if r.unavailable then 1 else 0) + (if r.excluded then 1 else 0) == 1
    && (r.predicted <==> r.exclusionReason.None?)
    && (r.priced ==> r.predicted && !r.thresholdOnly)
    && (r.thresholdOnly ==> r.predicted)
    && (r.lockedNotAccessed ==> !r.predicted)
    && (r.prePolicyCandidate ==> r.priced)
  }

  lemma {:induction false} StatusCounts(rows: seq<AttemptRow>)
    requires forall r | r in rows :: Consistent(r)
    ensures Count(IsPredicted(), rows) + Count(IsAbstained(), rows) + Count(IsUnavailable(), rows)
            + Count(IsExcluded(), rows) == |rows|
    ensures Count(HasReason(), rows) + Count(IsPredicted(), rows) == |rows|
  {
    if rows != [] {
      StatusCounts(Front(rows));
      assert Consistent(Last(rows));
    }
  }

  ghost predicate HasRows(r: AttemptRow) { r.predicted ==> r.priced || r.thresholdOnly }

  lemma {:induction false} PricedCounts(rows: seq<AttemptRow>)
    requires forall r | r in rows :: Consistent(r)
    ensures Count(IsCandidate(), rows) <= Count(IsPriced(), rows)
    ensures Count(IsPriced(), rows) + Count(IsThresholdOnly(), rows) <= Count(IsPredicted(), rows)
    ensures Count(IsPriced(), rows) + Count(IsThresholdOnly(), rows) == Count(IsPredicted(), rows)
       <==> forall r | r in rows :: HasRows(r)
  {
    if rows != [] {
      PricedCounts(Front(rows));
      assert Consistent(Last(rows));
      Split(rows);
    }
  }

  lemma {:induction false} TalliedTotal(rows: seq<AttemptRow>, reasons: seq<Option<Exclusion>>)
    requires None !in reasons
    ensures ReasonTotal(Tallied(rows, reasons)) == SliceTotal(ReasonOf(), One(), rows, reasons)
  {
    if reasons != [] {
      Split(reasons);
      TalliedTotal(rows, Front(reasons));
    }
  }

  lemma ReasonsAddUp(rows: seq<AttemptRow>)
    ensures ReasonTotal(SelectionMetrics(rows).reasons) == Count(HasReason(), rows)
  {
    var withReason := Filter(HasReason(), rows);
    FilterMembers(HasReason(), rows);
    var reasons := KeysOf(ReasonOf(), withReason);
    FirstOccurrencesDistinct(Map(ReasonOf(), withReason));
    forall i | 0 <= i < |withReason|
      ensures Map(ReasonOf(), withReason)[i] != None
    {
      assert withReason[i] in withReason;
    }
    TalliedTotal(withReason, reasons);
    OwnSlicesCoverEverything(ReasonOf(), One(), withReason);
    WeighOnes(withReason);
  }

  /** Each attempted bout is counted under one status, the reason counts cover exactly
      the bouts without a prediction, and priced and threshold-only bouts exhaust the
      predicted ones exactly when every prediction yields a row. */
  lemma SelectionCountsConserve(rows: seq<AttemptRow>)
    requires forall r | r in rows :: Consistent(r)
    ensures var c := SelectionMetrics(rows);
            && c.predicted + c.abstained + c.unavailable + c.excluded == c.attempted == |rows|
            && ReasonTotal(c.reasons) == c.attempted - c.predicted
            && c.candidates <= c.priced
            && c.priced + c.thresholdOnly <= c.predicted
            && (c.priced + c.thresholdOnly == c.predicted <==> forall r | r in rows :: HasRows(r))
  {
    StatusCounts(rows);
    PricedCounts(rows);
    ReasonsAddUp(rows);
  }

  // ----- the attempts of a run -----

  lemma LockedIsProduced(ctx: Context, group: EventGroup, boutId: string)
    ensures Produced(ctx, LockedAttempt(group, boutId))
  {
    var score := CardScore("", [], false, [], [], []);
    var a := LockedAttempt(group, boutId);
    assert Grade(ctx, group, a.boutId, score) == Ok(a) || LockedAttempt(group, a.boutId) == a;
  }

  lemma GradedIsProduced(ctx: Context, group: EventGroup, boutId: string, score: CardScore)
    requires Grade(ctx, group, boutId, score).Ok?
    ensures Produced(ctx, Grade(ctx, group, boutId, score).value)
  {
    var a := Grade(ctx, group, boutId, score).value;
    assert a.boutId == boutId;
    assert Grade(ctx, group, a.boutId, score) == Ok(a) || LockedAttempt(group, a.boutId) == a;
  }

  ghost predicate AllProduced(ctx: Context, attempts: seq<Attempt>) {
    forall a | a in attempts :: Produced(ctx, a)
  }

  lemma {:induction false} GradedBoutsProduced(ctx: Context, group: EventGroup, score: CardScore, boutIds: seq<string>)
    requires GradeBouts(ctx, group, score, boutIds).Ok?
    ensures AllProduced(ctx, GradeBouts(ctx, group, score, boutIds).value)
  {
    if boutIds != [] {
      GradedBoutsProduced(ctx, group, score, Front(boutIds));
      GradedIsProduced(ctx, group, Last(boutIds), score);
    }
  }

  lemma CardProduced(env: Env, groups: seq<EventGroup>, group: EventGroup)
    requires RunCard(env, groups, group).Ok?
    ensures AllProduced(env.ctx, RunCard(env, groups, group).value)
  {
    if IsLocked(env, group) {
      forall a | a in Map(Locked(group), group.boutIds)
        ensures Produced(env.ctx, a)
      {
        var i :| 0 <= i < |group.boutIds| && Map(Locked(group), group.boutIds)[i] == a;
        LockedIsProduced(env.ctx, group, group.boutIds[i]);
      }
    } else {
      GradedBoutsProduced(env.ctx, group, ScoreCard(env, groups, group).value, group.boutIds);
    }
  }

  lemma {:induction false} RunProduced(env: Env, groups: seq<EventGroup>, cards: seq<EventGroup>)
    requires RunCards(env, groups, cards).Ok?
    ensures AllProduced(env.ctx, RunCards(env, groups, cards).value)
  {
    if cards != [] {
      RunProduced(env, groups, Front(cards));
      CardProduced(env, groups, Last(cards));
    }
  }

  lemma ProducedIsConsistent(ctx: Context, a: Attempt)
    requires Produced(ctx, a)
    ensures Consistent(RowOf(a))
    ensures |a.pricedRows| + |a.thresholdRows| == |MarketsOf(a)|
    ensures HasRows(RowOf(a)) <==> (a.prediction.Some? ==> MarketsOf(a) != [])
  {
    var group, score :| Grade(ctx, group, a.boutId, score) == Ok(a) || LockedAttempt(group, a.boutId) == a;
    if Grade(ctx, group, a.boutId, score) == Ok(a) {
      PredictedBoutRows(ctx, group, a.boutId, score);
      LockedNeverPredicted(ctx, group, a.boutId, score);
    }
  }

  lemma LockedNeverPredicted(ctx: Context, group: EventGroup, boutId: string, score: CardScore)
    requires Grade(ctx, group, boutId, score).Ok?
    ensures Grade(ctx, group, boutId, score).value.reason.Some? ==>
              !Grade(ctx, group, boutId, score).value.status.Predicted?
  {
    PredictedBoutRows(ctx, group, boutId, score);
  }

  lemma RowsOfProduced(ctx: Context, settle: Settling, attempts: seq<Attempt>)
    requires AllProduced(ctx, attempts) && Flatten(settle, attempts).Ok?
    ensures forall r | r in Flatten(settle, attempts).value.rows :: Consistent(r)
    ensures (forall r | r in Flatten(settle, attempts).value.rows :: HasRows(r))
       <==> forall a | a in attempts :: a.prediction.Some? ==> MarketsOf(a) != []
  {
    FlattenCounts(settle, attempts);
    var rows := Flatten(settle, attempts).value.rows;
    forall a | a in attempts
      ensures Consistent(RowOf(a)) && (HasRows(RowOf(a)) <==> (a.prediction.Some? ==> MarketsOf(a) != []))
    {
      ProducedIsConsistent(ctx, a);
    }
    forall a | a in attempts
      ensures RowOf(a) in rows
    {
      var i :| 0 <= i < |attempts| && attempts[i] == a;
      assert rows[i] == RowOf(a);
    }
  }

  /** The selection counts of every completed run conserve; priced and threshold-only
      bouts exhaust the predicted ones exactly when every prediction has a market. */
  lemma RunSelectionConserves(env: Env, groups: seq<EventGroup>)
    requires RunCards(env, groups, groups).Ok?
    requires Flatten(env.ctx.settle, RunCards(env, groups, groups).value).Ok?
    ensures var attempts := RunCards(env, groups, groups).value;
            var c := SelectionMetrics(Flatten(env.ctx.settle, attempts).value.rows);
            && c.attempted == BoutCount(groups)
            && c.predicted + c.abstained + c.unavailable + c.excluded == c.attempted
            && ReasonTotal(c.reasons) == c.attempted - c.predicted
            && (c.priced + c.thresholdOnly == c.predicted <==>
                forall a | a in attempts :: a.prediction.Some? ==> MarketsOf(a) != [])
  {
    var attempts := RunCards(env, groups, groups).value;
    RunProduced(env, groups, groups);
    AttemptCount(env, groups, groups);
    FlattenCounts(env.ctx.settle, attempts);
    RowsOfProduced(env.ctx, env.ctx.settle, attempts);
    SelectionCountsConserve(Flatten(env.ctx.settle, attempts).value.rows);
  }

  /** The rows of every completed run reconcile exactly when each market that was not on
      offer names a known family. */
  lemma RunReconcilesIff(env: Env, groups: seq<EventGroup>)
    requires RunCards(env, groups, groups).Ok?
    requires Flatten(env.ctx.settle, RunCards(env, groups, groups).value).Ok?
    ensures var attempts := RunCards(env, groups, groups).value;
            var flat := Flatten(env.ctx.settle, attempts).value;
            Reconcile(flat.rows, flat.bets, flat.markets).None? <==> forall a | a in attempts :: AllKnown(MarketsOf(a))
  {
    RunProduced(env, groups, groups);
    RowsReconcileIff(env.ctx, RunCards(env, groups, groups).value);
  }

  // ----- when the rows can be built -----

  ghost predicate Settleable(settle: Settling, a: Attempt) {
    forall m | m in MarketsOf(a) && Offered(m) :: settle(a.boutId, m).Ok?
  }

  ghost predicate Priceable(a: Attempt) {
    forall m | m in MarketsOf(a) && Offered(m) :: KnownFamily(m.family) && KnownOutcome(m.outcomeKey)
  }

  lemma {:induction false} MarketRowsOkIff(settle: Settling, a: Attempt, markets: seq<Market>)
    requires forall m | m in markets && Offered(m) :: KnownFamily(m.family) && KnownOutcome(m.outcomeKey)
    ensures MarketRowsOf(settle, a, markets).Ok? <==> forall m | m in markets && Offered(m) :: settle(a.boutId, m).Ok?
  {
    if markets != [] {
      Split(markets);
      MarketRowsOkIff(settle, a, Front(markets));
    }
  }

  lemma {:induction false} FlattenOkIff(settle: Settling, attempts: seq<Attempt>)
    requires forall a | a in attempts :: Priceable(a)
    ensures Flatten(settle, attempts).Ok? <==> forall a | a in attempts :: Settleable(settle, a)
  {
    if attempts != [] {
      Split(attempts);
      var front, a := Front(attempts), Last(attempts);
      assert forall x :: x in attempts <==> x in front || x == a;
      FlattenOkIff(settle, front);
      assert Priceable(a);
      MarketRowsOkIff(settle, a, MarketsOf(a));
      assert Settleable(settle, a) <==> MarketRowsOf(settle, a, MarketsOf(a)).Ok?;
      assert Flatten(settle, attempts).Ok?
        <==> Flatten(settle, front).Ok? && MarketRowsOf(settle, a, MarketsOf(a)).Ok?;
    }
  }

  lemma {:induction false} GradedPriceable(ctx: Context, boutId: string, cutoff: int, markets: seq<Market>)
    requires GradeMarkets(ctx, boutId, cutoff, markets).Ok?
    ensures forall m | m in markets && Offered(m) :: KnownFamily(m.family) && KnownOutcome(m.outcomeKey)
  {
    if markets != [] {
      Split(markets);
      GradedPriceable(ctx, boutId, cutoff, Front(markets));
      OfferedIsKnown(ctx, boutId, cutoff, Last(markets));
    }
  }

  lemma ProducedPriceable(ctx: Context, a: Attempt)
    requires Produced(ctx, a)
    ensures Priceable(a)
  {
    var group, score :| Grade(ctx, group, a.boutId, score) == Ok(a) || LockedAttempt(group, a.boutId) == a;
    if a.prediction.Some? {
      GradedPriceable(ctx, a.boutId, group.cutoff, MarketsOf(a));
    }
  }

  /** Building the rows of a completed run fails only where settling a market on offer
      does: a market that found no price is settled here for the first time. */
  lemma RunRowsBuiltIff(env: Env, groups: seq<EventGroup>)
    requires RunCards(env, groups, groups).Ok?
    ensures var attempts := RunCards(env, groups, groups).value;
            Flatten(env.ctx.settle, attempts).Ok? <==> forall a | a in attempts :: Settleable(env.ctx.settle, a)
  {
    var attempts := RunCards(env, groups, groups).value;
    RunProduced(env, groups, groups);
    forall a | a in attempts
      ensures Priceable(a)
    {
      ProducedPriceable(env.ctx, a);
    }
    FlattenOkIff(env.ctx.settle, attempts);
  }

  /** An unavailable market of a family outside the list grades without complaint, and
      the rows built from it fail the check. */
  lemma UnknownUnavailableFamilyFailsTheCheck(ctx: Context, group: EventGroup)
    ensures var m := Market("parlay", "", None, 0.5, None, false, None, None);
            var p := Prediction("b", group.eventId, [m], "h");
            var attempt := Grade(ctx, group, "b", CardScore("h", [], false, [p], [], []));
            attempt.Ok? && Flatten(ctx.settle, [attempt.value]).Ok?
            && var flat := Flatten(ctx.settle, [attempt.value]).value;
               Reconcile(flat.rows, flat.bets, flat.markets).Some?
  {
    var m := Market("parlay", "", None, 0.5, None, false, None, None);
    var p := Prediction("b", group.eventId, [m], "h");
    var score := CardScore("h", [], false, [p], [], []);
    assert Front([m]) == [] && Last([m]) == m;
    var none: Rows := ([], []);
    assert GradeMarkets(ctx, "b", group.cutoff, []) == Ok(none);
    var graded := ThresholdG(ThresholdRow(m));
    assert GradeMarket(ctx, "b", group.cutoff, m) == Ok(graded);
    var a := Scored(group, "b", p, AddRow(none, graded));
    assert GradeMarkets(ctx, "b", group.cutoff, [m]) == Ok(AddRow(none, graded));
    assert Grade(ctx, group, "b", score) == Ok(a);
    assert MarketRowsOf(ctx.settle, a, [m]) == Ok([]);
    assert Flatten(ctx.settle, [a]).Ok?;
    GradedIsProduced(ctx, group, "b", score);
    ParlayIsUnknown();
    assert m in MarketsOf(a) && !Offered(m);
    RowsReconcileIff(ctx, [a]);
  }

  lemma ParlayIsUnknown()
    ensures !KnownFamily("parlay")
  {
    assert |"parlay"| == 6;
    assert "parlay"[0] == 'p';
  }
}
