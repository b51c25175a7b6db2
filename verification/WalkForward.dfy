/** The chronological card walk-forward: what a completed run attempted, what it may
    have trained on, and what sealing the holdout changes. */
module WalkForward {
  import opened Prelude
  import opened Splits
  import opened Folds
  import opened Grading

  type Scorer = (EventGroup, Fold) -> Result<CardScore, string>

  datatype Env = Env(year: Calendar, scorer: Scorer, ctx: Context, sealedHoldout: bool)

  datatype RunError =
    | NeedsTimestamp | CannotGroup(split: SplitError) | WrongCardCount | CannotPlan(plan: PlanError)
    | MissingFold(id: string) | HoldoutTrain(id: string) | ScorerFailed(detail: string)
    | ScorerUsedHoldout(id: string) | MixedEstimators(id: string) | CannotGrade(grade: GradeError)
    | AttemptCountMismatch

  // ----- one card -----

  predicate OneEstimator(predictions: seq<Prediction>) {
    forall i | 0 <= i < |predictions| :: predictions[i].estimatorHash == predictions[0].estimatorHash
  }

  function Locked(group: EventGroup): string -> Attempt { (boutId: string) => LockedAttempt(group, boutId) }

  predicate IsLocked(env: Env, group: EventGroup) { group.role.Holdout? && !env.sealedHoldout }

  /** The score of a card, accepted only when neither its fold nor its own report
      trained on a holdout card and one estimator produced all its predictions. */
  function ScoreCard(env: Env, groups: seq<EventGroup>, group: EventGroup): Result<CardScore, RunError> {
    var fold := FoldFor(group, groups);
    if !EngineGate(fold.trainIds, groups) then Err(HoldoutTrain(group.eventId)) else
      var score := env.scorer(group, fold);
      if score.Err? then Err(ScorerFailed(score.error))
      else if score.value.holdoutInTrain then Err(ScorerUsedHoldout(group.eventId))
      else if !EngineGate(score.value.trainIds, groups) then Err(HoldoutTrain(group.eventId))
      else if !OneEstimator(score.value.predictions) then Err(MixedEstimators(group.eventId))
      else Ok(score.value)
  }

  function GradeBouts(ctx: Context, group: EventGroup, score: CardScore, boutIds: seq<string>)
    : Result<seq<Attempt>, GradeError>
  {
    if boutIds == [] then Ok([]) else
      var rest :- GradeBouts(ctx, group, score, Front(boutIds));
      var attempt :- Grade(ctx, group, Last(boutIds), score);
      Ok(rest + [attempt])
  }

  function RunCard(env: Env, groups: seq<EventGroup>, group: EventGroup): Result<seq<Attempt>, RunError> {
    if IsLocked(env, group) then Ok(Map(Locked(group), group.boutIds)) else
      var score :- ScoreCard(env, groups, group);
      var attempts := GradeBouts(env.ctx, group, score, group.boutIds);
      if attempts.Err? then Err(CannotGrade(attempts.error)) else Ok(attempts.value)
  }

  /** The attempts of the first cards of the schedule; the first failure ends the run. */
  function RunCards(env: Env, groups: seq<EventGroup>, cards: seq<EventGroup>): Result<seq<Attempt>, RunError> {
    if cards == [] then Ok([]) else
      var rest :- RunCards(env, groups, Front(cards));
      var attempts :- RunCard(env, groups, Last(cards));
      Ok(rest + attempts)
  }

  // ----- the run -----

  datatype Run = Run(groups: seq<EventGroup>, attempts: seq<Attempt>, holdoutAccessed: bool)

  lemma {:induction false} BoutFailureStays(
    ctx: Context, group: EventGroup, score: CardScore, boutIds: seq<string>, i: nat)
    requires i <= |boutIds| && GradeBouts(ctx, group, score, boutIds[..i]).Err?
    ensures GradeBouts(ctx, group, score, boutIds) == GradeBouts(ctx, group, score, boutIds[..i])
    decreases |boutIds| - i
  {
    if i == |boutIds| {
      assert boutIds[..i] == boutIds;
    } else {
      Prefix(boutIds, i);
      BoutFailureStays(ctx, group, score, boutIds, i + 1);
    }
  }

  lemma {:induction false} CardFailureStays(env: Env, groups: seq<EventGroup>, i: nat)
    requires i <= |groups| && RunCards(env, groups, groups[..i]).Err?
    ensures RunCards(env, groups, groups) == RunCards(env, groups, groups[..i])
    decreases |groups| - i
  {
    if i == |groups| {
      assert groups[..i] == groups;
    } else {
      Prefix(groups, i);
      CardFailureStays(env, groups, i + 1);
    }
  }

  method GradeCard(ctx: Context, group: EventGroup, score: CardScore) returns (r: Result<seq<Attempt>, GradeError>)
    ensures r == GradeBouts(ctx, group, score, group.boutIds)
  {
    var attempts: seq<Attempt> := [];
    for i := 0 to |group.boutIds|
      invariant GradeBouts(ctx, group, score, group.boutIds[..i]) == Ok(attempts)
    {
      Prefix(group.boutIds, i);
      var attempt := GradeBout(ctx, group, group.boutIds[i], score);
      if attempt.Err? {
        BoutFailureStays(ctx, group, score, group.boutIds, i + 1);
        return Err(attempt.error);
      }
      attempts := attempts + [attempt.value];
    }
    assert group.boutIds[..|group.boutIds|] == group.boutIds;
    r := Ok(attempts);
  }

  /** The scoring path of one card that is not locked. */
  method AttemptCard(env: Env, groups: seq<EventGroup>, group: EventGroup, fold: Fold)
    returns (r: Result<seq<Attempt>, RunError>)
    requires fold == FoldFor(group, groups) && !IsLocked(env, group)
    ensures r == RunCard(env, groups, group)
  {
    if !EngineGate(fold.trainIds, groups) {
      return Err(HoldoutTrain(group.eventId));
    }
    var score := env.scorer(group, fold);
    if score.Err? {
      return Err(ScorerFailed(score.error));
    }
    if score.value.holdoutInTrain {
      return Err(ScorerUsedHoldout(group.eventId));
    }
    if !EngineGate(score.value.trainIds, groups) {
      return Err(HoldoutTrain(group.eventId));
    }
    if !OneEstimator(score.value.predictions) {
      return Err(MixedEstimators(group.eventId));
    }
    var graded := GradeCard(env.ctx, group, score.value);
    if graded.Err? {
      return Err(CannotGrade(graded.error));
    }
    r := Ok(graded.value);
  }

  /** One step of the run: an open card uses the planned fold, an unsealed holdout
      card gets a fold of its own, and a locked card is never scored. */
  method AttemptGroup(env: Env, groups: seq<EventGroup>, group: EventGroup, planned: Option<Fold>)
    returns (r: Result<seq<Attempt>, RunError>, accessed: bool)
    requires planned == if group.role.Holdout? then None else Some(OuterFold(group, groups))
    ensures r == RunCard(env, groups, group)
    ensures accessed <==> group.role.Holdout? && env.sealedHoldout
  {
    accessed := false;
    if group.role.Holdout? && !env.sealedHoldout {
      return Ok(Map(Locked(group), group.boutIds)), accessed;
    }
    var fold := planned;
    if group.role.Holdout? {
      accessed := true;
      if fold.None? {
        fold := Some(HoldoutFold(group, groups));
      }
    }
    if fold.None? {
      return Err(MissingFold(group.eventId)), accessed;
    }
    r := AttemptCard(env, groups, group, fold.value);
  }

  function BoutCount(groups: seq<EventGroup>): nat {
    if groups == [] then 0 else BoutCount(Front(groups)) + |Last(groups).boutIds|
  }

  predicate AnyHoldout(groups: seq<EventGroup>) {
    exists i | 0 <= i < |groups| :: groups[i].role.Holdout?
  }

  /** The missing-fold error never occurs. */
  method AttemptGroups(env: Env, groups: seq<EventGroup>, folds: seq<Fold>)
    returns (r: Result<(seq<Attempt>, bool), RunError>)
    requires WellGrouped(env.year, groups) && folds == OuterPlan(groups, groups)
    ensures r.Ok? <==> RunCards(env, groups, groups).Ok?
    ensures r.Ok? ==> RunCards(env, groups, groups) == Ok(r.value.0)
    ensures r.Ok? ==> (r.value.1 <==> env.sealedHoldout && AnyHoldout(groups))
  {
    var attempts: seq<Attempt> := [];
    var holdoutAccessed := false;
    for i := 0 to |groups|
      invariant RunCards(env, groups, groups[..i]) == Ok(attempts)
      invariant holdoutAccessed <==> env.sealedHoldout && AnyHoldout(groups[..i])
    {
      Prefix(groups, i);
      LookupFindsOuterFold(env.year, groups, groups, groups[i]);
      var card, accessed := AttemptGroup(env, groups, groups[i], PlanLookup(folds, groups[i].eventId));
      if card.Err? {
        CardFailureStays(env, groups, i + 1);
        return Err(card.error);
      }
      attempts := attempts + card.value;
      AnyHoldoutStep(groups, i);
      holdoutAccessed := holdoutAccessed || accessed;
    }
    assert groups[..|groups|] == groups;
    r := Ok((attempts, holdoutAccessed));
  }

  lemma AnyHoldoutStep(groups: seq<EventGroup>, i: nat)
    requires i < |groups|
    ensures AnyHoldout(groups[..i + 1]) <==> AnyHoldout(groups[..i]) || groups[i].role.Holdout?
  {
    var longer, shorter := groups[..i + 1], groups[..i];
    if AnyHoldout(shorter) {
      var j :| 0 <= j < |shorter| && shorter[j].role.Holdout?;
      assert longer[j].role.Holdout?;
    }
    if groups[i].role.Holdout? {
      assert longer[i].role.Holdout?;
    }
    if AnyHoldout(longer) && !groups[i].role.Holdout? {
      var j :| 0 <= j < |longer| && longer[j].role.Holdout?;
      assert shorter[j].role.Holdout?;
    }
  }

  ghost predicate Runnable(env: Env, cards: seq<Card>, targetCards: Option<nat>, timestamped: bool) {
    && (env.sealedHoldout ==> timestamped)
    && Groupable(env.year, cards)
    && (targetCards.Some? ==> |cards| == targetCards.value)
    && RunCards(env, Schedule(env.year, cards), Schedule(env.year, cards)).Ok?
  }

  /** The attempt-count check never fails: a completed run attempts every bout. */
  method RunWalkForward(env: Env, cards: seq<Card>, targetCards: Option<nat>, timestamped: bool)
    returns (r: Result<Run, RunError>)
    ensures r.Ok? <==> Runnable(env, cards, targetCards, timestamped)
    ensures r.Ok? ==> r.value.groups == Schedule(env.year, cards)
    ensures r.Ok? ==> Ok(r.value.attempts) == RunCards(env, r.value.groups, r.value.groups)
    ensures r.Ok? ==> (r.value.holdoutAccessed <==> env.sealedHoldout && AnyHoldout(r.value.groups))
  {
    if env.sealedHoldout && !timestamped {
      return Err(NeedsTimestamp);
    }
    var grouped := GroupCards(env.year, cards);
    if grouped.Err? {
      return Err(CannotGroup(grouped.error));
    }
    var groups := grouped.value;
    ScheduleIsWellGrouped(env.year, cards);
    if targetCards.Some? && |groups| != targetCards.value {
      return Err(WrongCardCount);
    }
    var plan := BuildOuterPlan(env.year, groups);
    var run := AttemptGroups(env, groups, plan.value);
    if run.Err? {
      return Err(run.error);
    }
    AttemptCount(env, groups, groups);
    if |run.value.0| != BoutCount(groups) {
      return Err(AttemptCountMismatch);
    }
    r := Ok(Run(groups, run.value.0, run.value.1));
  }

  // ----- every bout is attempted once -----

  datatype Pair = Pair(eventId: string, boutId: string)

  function PairOf(): Attempt -> Pair { (a: Attempt) => Pair(a.eventId, a.boutId) }

  function PairsOf(group: EventGroup): string -> Pair { (boutId: string) => Pair(group.eventId, boutId) }

  function FlatPairs(groups: seq<EventGroup>): seq<Pair> {
    if groups == [] then [] else
      FlatPairs(Front(groups)) + Map(PairsOf(Last(groups)), Last(groups).boutIds)
  }

  lemma {:induction false} GradedPairs(ctx: Context, group: EventGroup, score: CardScore, boutIds: seq<string>)
    ensures var r := GradeBouts(ctx, group, score, boutIds);
            r.Ok? ==> |r.value| == |boutIds| && Map(PairOf(), r.value) == Map(PairsOf(group), boutIds)
  {
    if boutIds != [] {
      GradedPairs(ctx, group, score, Front(boutIds));
      var attempt := Grade(ctx, group, Last(boutIds), score);
      if attempt.Ok? {
        assert PairOf()(attempt.value) == Pair(group.eventId, Last(boutIds));
      }
    }
  }

  lemma AttemptsPerCard(env: Env, groups: seq<EventGroup>, group: EventGroup)
    ensures var r := RunCard(env, groups, group);
            r.Ok? ==> |r.value| == |group.boutIds| && Map(PairOf(), r.value) == Map(PairsOf(group), group.boutIds)
  {
    if !IsLocked(env, group) {
      var score := ScoreCard(env, groups, group);
      if score.Ok? {
        GradedPairs(env.ctx, group, score.value, group.boutIds);
      }
    }
  }

  lemma {:induction false} AttemptsFollowCards(env: Env, groups: seq<EventGroup>, cards: seq<EventGroup>)
    ensures var r := RunCards(env, groups, cards);
            r.Ok? ==> Map(PairOf(), r.value) == FlatPairs(cards)
  {
    if cards != [] {
      AttemptsFollowCards(env, groups, Front(cards));
      AttemptsPerCard(env, groups, Last(cards));
    }
  }

  lemma {:induction false} AttemptCount(env: Env, groups: seq<EventGroup>, cards: seq<EventGroup>)
    ensures var r := RunCards(env, groups, cards);
            r.Ok? ==> |r.value| == BoutCount(cards)
  {
    if cards != [] {
      AttemptCount(env, groups, Front(cards));
      AttemptsPerCard(env, groups, Last(cards));
    }
  }

  lemma {:induction false} FlatPairsMembers(groups: seq<EventGroup>)
    ensures forall p | p in FlatPairs(groups) ::
              exists g :: g in groups && g.eventId == p.eventId && p.boutId in g.boutIds
  {
    if groups != [] {
      FlatPairsMembers(Front(groups));
      var last := Last(groups);
      forall p | p in FlatPairs(groups)
        ensures exists g :: g in groups && g.eventId == p.eventId && p.boutId in g.boutIds
      {
        if p in FlatPairs(Front(groups)) {
          var g :| g in Front(groups) && g.eventId == p.eventId && p.boutId in g.boutIds;
          assert g in groups;
        } else {
          assert last in groups && p in Map(PairsOf(last), last.boutIds);
        }
      }
    }
  }

  /** No (event, bout) pair occurs twice in the schedule. */
  lemma {:induction false} FlatPairsDistinct(year: Calendar, groups: seq<EventGroup>)
    requires WellGrouped(year, groups)
    ensures Distinct(FlatPairs(groups))
  {
    if groups != [] {
      var front, last := Front(groups), Last(groups);
      WellGroupedFront(year, groups);
      FlatPairsDistinct(year, front);
      FlatPairsMembers(front);
      var before, own := FlatPairs(front), Map(PairsOf(last), last.boutIds);
      forall i, j | 0 <= i < |before| && 0 <= j < |own|
        ensures before[i] != own[j]
      {
        assert before[i] in before;
        var g :| g in front && g.eventId == before[i].eventId;
        assert g.eventId != last.eventId;
      }
      OwnPairsDistinct(last);
      DistinctConcat(before, own);
    }
  }

  lemma DistinctConcat<T>(xs: seq<T>, ys: seq<T>)
    requires Distinct(xs) && Distinct(ys)
    requires forall i, j | 0 <= i < |xs| && 0 <= j < |ys| :: xs[i] != ys[j]
    ensures Distinct(xs + ys)
  {
  }

  lemma OwnPairsDistinct(group: EventGroup)
    requires !HasDuplicates(group.boutIds)
    ensures Distinct(Map(PairsOf(group), group.boutIds))
  {
  }

  lemma WellGroupedFront(year: Calendar, groups: seq<EventGroup>)
    requires groups != [] && WellGrouped(year, groups)
    ensures WellGrouped(year, Front(groups))
    ensures forall g | g in Front(groups) :: g.eventId != Last(groups).eventId
    ensures GroupValid(year, Last(groups))
  {
    var front := Front(groups);
    assert forall i | 0 <= i < |front| :: front[i] == groups[i];
    assert Last(groups) in groups;
  }

  /** A completed run lists the bouts of the schedule exactly once, in its order. */
  lemma EachBoutAttemptedOnce(env: Env, groups: seq<EventGroup>)
    requires WellGrouped(env.year, groups) && RunCards(env, groups, groups).Ok?
    ensures Map(PairOf(), RunCards(env, groups, groups).value) == FlatPairs(groups)
    ensures Distinct(FlatPairs(groups))
  {
    AttemptsFollowCards(env, groups, groups);
    FlatPairsDistinct(env.year, groups);
  }

  // ----- training never sees the holdout -----

  lemma {:induction false} EveryCardCompleted(env: Env, groups: seq<EventGroup>, cards: seq<EventGroup>, g: EventGroup)
    requires RunCards(env, groups, cards).Ok? && g in cards
    ensures RunCard(env, groups, g).Ok?
  {
    Split(cards);
    if g != Last(cards) {
      EveryCardCompleted(env, groups, Front(cards), g);
    }
  }

  /** In a completed run, sealed or not and whatever the scorer does, every card that
      was scored had a fold of open cards strictly before its cutoff, and the training
      ids the scorer reports contain no holdout card either. */
  lemma NoHoldoutInTraining(env: Env, groups: seq<EventGroup>, g: EventGroup)
    requires Chronological(env.year) && WellGrouped(env.year, groups)
    requires RunCards(env, groups, groups).Ok? && g in groups && !IsLocked(env, g)
    ensures var fold := FoldFor(g, groups);
            && (forall id | id in fold.trainIds :: !IsHoldoutId(id, groups))
            && CutoffBeforeResults(fold.maxTrain, g.cutoff) && g.eventId !in fold.trainIds
            && env.scorer(g, fold).Ok? && !env.scorer(g, fold).value.holdoutInTrain
            && forall id | id in env.scorer(g, fold).value.trainIds :: !IsHoldoutId(id, groups)
  {
    EveryCardCompleted(env, groups, groups, g);
    EngineFoldsPassTheGates(env.year, groups, g);
    GateMeansNoHoldout(env.year, FoldFor(g, groups).trainIds, groups);
    GateMeansNoHoldout(env.year, env.scorer(g, FoldFor(g, groups)).value.trainIds, groups);
  }

  // ----- sealing -----

  ghost predicate AgreeOnOpenCards(s: Scorer, t: Scorer) {
    forall g: EventGroup, f: Fold | !g.role.Holdout? :: s(g, f) == t(g, f)
  }

  /** An unsealed run does not depend on what the scorer would say about a holdout
      card: it never asks. */
  lemma {:induction false} UnsealedRunIgnoresHoldoutScores(
    env: Env, other: Scorer, groups: seq<EventGroup>, cards: seq<EventGroup>)
    requires !env.sealedHoldout && AgreeOnOpenCards(env.scorer, other)
    ensures RunCards(env, groups, cards) == RunCards(env.(scorer := other), groups, cards)
  {
    if cards != [] {
      UnsealedRunIgnoresHoldoutScores(env, other, groups, Front(cards));
      assert RunCard(env, groups, Last(cards)) == RunCard(env.(scorer := other), groups, Last(cards));
    }
  }

  function OnOpenCard(groups: seq<EventGroup>): Attempt -> bool {
    (a: Attempt) => !(exists i | 0 <= i < |groups| :: groups[i].eventId == a.eventId && groups[i].role.Holdout?)
  }

  function Open(env: Env): Env { env.(sealedHoldout := true) }

  function Shut(env: Env): Env { env.(sealedHoldout := false) }

  lemma SealingOneCard(env: Env, groups: seq<EventGroup>, g: EventGroup)
    requires g in groups && RunCard(Open(env), groups, g).Ok?
    ensures RunCard(Shut(env), groups, g).Ok?
    ensures Filter(OnOpenCard(groups), RunCard(Open(env), groups, g).value)
         == Filter(OnOpenCard(groups), RunCard(Shut(env), groups, g).value)
  {
    if g.role.Holdout? {
      HoldoutAttemptsDropped(Open(env), groups, g);
      HoldoutAttemptsDropped(Shut(env), groups, g);
    } else {
      assert RunCard(Open(env), groups, g) == RunCard(Shut(env), groups, g);
    }
  }

  /** Sealing the holdout changes nothing about the other cards: when the sealed run
      completes so does the unsealed one, and they agree on every attempt at an open
      card, in the same order. */
  lemma {:induction false} SealingKeepsOpenCards(env: Env, groups: seq<EventGroup>, cards: seq<EventGroup>)
    requires (forall g | g in cards :: g in groups) && RunCards(Open(env), groups, cards).Ok?
    ensures RunCards(Shut(env), groups, cards).Ok?
    ensures Filter(OnOpenCard(groups), RunCards(Open(env), groups, cards).value)
         == Filter(OnOpenCard(groups), RunCards(Shut(env), groups, cards).value)
  {
    if cards != [] {
      var front, g := Front(cards), Last(cards);
      assert g in cards;
      SealingKeepsOpenCards(env, groups, front);
      SealingOneCard(env, groups, g);
      FilterAppend(OnOpenCard(groups), RunCards(Open(env), groups, front).value, RunCard(Open(env), groups, g).value);
      FilterAppend(OnOpenCard(groups), RunCards(Shut(env), groups, front).value, RunCard(Shut(env), groups, g).value);
    }
  }

  lemma HoldoutAttemptsDropped(env: Env, groups: seq<EventGroup>, g: EventGroup)
    requires g in groups && g.role.Holdout? && RunCard(env, groups, g).Ok?
    ensures Filter(OnOpenCard(groups), RunCard(env, groups, g).value) == []
  {
    AttemptsPerCard(env, groups, g);
    var attempts := RunCard(env, groups, g).value;
    var i :| 0 <= i < |groups| && groups[i] == g;
    forall a | a in attempts
      ensures !OnOpenCard(groups)(a)
    {
      var k :| 0 <= k < |attempts| && attempts[k] == a;
      assert Map(PairOf(), attempts)[k] == Map(PairsOf(g), g.boutIds)[k];
      assert groups[i].eventId == a.eventId;
    }
    FilterNone(OnOpenCard(groups), attempts);
  }
}
