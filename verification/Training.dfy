/** What a completed run was graded from: scores of folds that hold the past and nothing
    else. */
module Training {
  import opened Prelude
  import opened Splits
  import opened Folds
  import opened Quotes
  import opened Grading
  import opened WalkForward

  ghost predicate SameEstimator(score: CardScore) {
    forall p, q | p in score.predictions && q in score.predictions :: p.estimatorHash == q.estimatorHash
  }

  /** The score of a card is accepted only from one estimator that reports no holdout card. */
  ghost predicate Acceptable(groups: seq<EventGroup>, score: CardScore) {
    && !score.holdoutInTrain && SameEstimator(score)
    && forall g | g in groups && g.role.Holdout? :: g.eventId !in score.trainIds
  }

  /** An attempt at a bout of a card: marked as locked without a score, or graded from what
      the scorer answered to the fold of the cards before. */
  ghost predicate FromThePast(env: Env, groups: seq<EventGroup>, g: EventGroup, a: Attempt) {
    && a.eventId == g.eventId && a.boutId in g.boutIds
    && if g.role.Holdout? && !env.sealedHoldout then
         && a.status == Status.Excluded && a.reason == Some(LockedNotAccessed)
         && a.prediction.None? && a.pricedRows == [] && a.thresholdRows == []
       else
         exists fold :: IsTrainingFold(groups, g, fold) && ScoredFrom(env, groups, g, fold, a)
  }

  ghost predicate ScoredFrom(env: Env, groups: seq<EventGroup>, g: EventGroup, fold: Fold, a: Attempt) {
    var score := env.scorer(g, fold);
    score.Ok? && Acceptable(groups, score.value) && Grade(env.ctx, g, a.boutId, score.value) == Ok(a)
  }

  lemma ScoresAreAcceptable(env: Env, groups: seq<EventGroup>, g: EventGroup)
    requires WellGrouped(env.year, groups) && ScoreCard(env, groups, g).Ok?
    ensures env.scorer(g, FoldFor(g, groups)) == Ok(ScoreCard(env, groups, g).value)
    ensures Acceptable(groups, ScoreCard(env, groups, g).value)
  {
    var score := ScoreCard(env, groups, g).value;
    GateMeansNoHoldout(env.year, score.trainIds, groups);
    forall h | h in groups && h.role.Holdout?
      ensures h.eventId !in score.trainIds
    {
      assert IsHoldoutId(h.eventId, groups);
    }
    forall p, q | p in score.predictions && q in score.predictions
      ensures p.estimatorHash == q.estimatorHash
    {
      var i :| 0 <= i < |score.predictions| && score.predictions[i] == p;
      var j :| 0 <= j < |score.predictions| && score.predictions[j] == q;
    }
  }

  lemma {:induction false} GradedFromScore(ctx: Context, g: EventGroup, score: CardScore, boutIds: seq<string>)
    requires GradeBouts(ctx, g, score, boutIds).Ok? && forall b | b in boutIds :: b in g.boutIds
    ensures forall a | a in GradeBouts(ctx, g, score, boutIds).value ::
              a.eventId == g.eventId && a.boutId in g.boutIds && Grade(ctx, g, a.boutId, score) == Ok(a)
  {
    if boutIds != [] {
      Split(boutIds);
      GradedFromScore(ctx, g, score, Front(boutIds));
      assert Grade(ctx, g, Last(boutIds), score).value.boutId == Last(boutIds);
    }
  }

  lemma CardFromThePast(env: Env, groups: seq<EventGroup>, g: EventGroup)
    requires Chronological(env.year) && WellGrouped(env.year, groups) && g in groups
    requires RunCard(env, groups, g).Ok?
    ensures forall a | a in RunCard(env, groups, g).value :: FromThePast(env, groups, g, a)
  {
    if !IsLocked(env, g) {
      var score := ScoreCard(env, groups, g).value;
      FoldsTrainOnThePast(env.year, groups, g);
      ScoresAreAcceptable(env, groups, g);
      GradedFromScore(env.ctx, g, score, g.boutIds);
      forall a | a in RunCard(env, groups, g).value
        ensures FromThePast(env, groups, g, a)
      {
        assert ScoredFrom(env, groups, g, FoldFor(g, groups), a);
      }
    }
  }

  lemma {:induction false} CardsFromThePast(env: Env, groups: seq<EventGroup>, cards: seq<EventGroup>)
    requires Chronological(env.year) && WellGrouped(env.year, groups) && forall g | g in cards :: g in groups
    requires RunCards(env, groups, cards).Ok?
    ensures forall a | a in RunCards(env, groups, cards).value ::
              exists g :: g in cards && FromThePast(env, groups, g, a)
  {
    if cards != [] {
      Split(cards);
      assert Last(cards) in cards;
      CardsFromThePast(env, groups, Front(cards));
      CardFromThePast(env, groups, Last(cards));
    }
  }

  /** Whatever the scorer does, each attempt of a completed run is at a bout of a card of the
      schedule. It is locked, or it is graded from an acceptable answer to the fold of that
      card, which holds the open cards that started before its cutoff and no others. */
  lemma AttemptsComeFromThePast(env: Env, groups: seq<EventGroup>)
    requires Chronological(env.year) && WellGrouped(env.year, groups)
    requires RunCards(env, groups, groups).Ok?
    ensures forall a | a in RunCards(env, groups, groups).value ::
              exists g :: g in groups && FromThePast(env, groups, g, a)
  {
    CardsFromThePast(env, groups, groups);
  }
}
