/** The scorer that replays scores frozen before each card, and what filling in the bouts
    it does not mention changes: nothing in how they are graded. */
module Precomputed {
  import opened Prelude
  import opened Splits
  import opened Folds
  import opened Quotes
  import opened Grading
  import opened WalkForward

  type Table = map<string, CardScore>

  predicate Mentions(pairs: seq<(string, Exclusion)>, boutId: string) {
    exists i | 0 <= i < |pairs| :: pairs[i].0 == boutId
  }

  predicate Predicts(predictions: seq<Prediction>, boutId: string) {
    exists i | 0 <= i < |predictions| :: predictions[i].boutId == boutId
  }

  function LeftOut(score: CardScore): string -> bool {
    (boutId: string) =>
      !Predicts(score.predictions, boutId) && !Mentions(score.unavailable, boutId) && !Mentions(score.abstained, boutId)
  }

  function MissingPair(): string -> (string, Exclusion) { (boutId: string) => (boutId, MissingModel) }

  /** The stored score for the fold at hand, with every bout it leaves out marked. */
  function Completed(score: CardScore, group: EventGroup, fold: Fold): CardScore {
    CardScore(score.estimatorHash, fold.trainIds, false, score.predictions,
              score.unavailable + Map(MissingPair(), Filter(LeftOut(score), group.boutIds)), score.abstained)
  }

  predicate Leaks(predictions: seq<Prediction>, eventId: string) {
    exists i | 0 <= i < |predictions| :: predictions[i].eventId != eventId
  }

  function Replay(byEvent: Table): Scorer {
    (group: EventGroup, fold: Fold) =>
      if group.eventId !in byEvent then
        Ok(CardScore("missing", fold.trainIds, false, [], Map(MissingPair(), group.boutIds), []))
      else if byEvent[group.eventId].holdoutInTrain then Err("precomputed score claimed holdout in train")
      else if Leaks(byEvent[group.eventId].predictions, group.eventId) then Err("predictions of another event")
      else Ok(Completed(byEvent[group.eventId], group, fold))
  }

  // ----- reasons and predictions -----

  lemma {:induction false} ReasonMentioned(pairs: seq<(string, Exclusion)>, boutId: string)
    ensures ReasonFor(pairs, boutId).Some? <==> Mentions(pairs, boutId)
  {
    if pairs != [] {
      ReasonMentioned(Front(pairs), boutId);
      Split(pairs);
      if Mentions(Front(pairs), boutId) {
        var i :| 0 <= i < |pairs| - 1 && Front(pairs)[i].0 == boutId;
        assert pairs[i].0 == boutId;
      }
      assert pairs[|pairs| - 1] == Last(pairs);
    }
  }

  lemma {:induction false} PredictionFound(predictions: seq<Prediction>, boutId: string)
    ensures PredictionFor(predictions, boutId).Some? <==> Predicts(predictions, boutId)
  {
    if predictions != [] && predictions[0].boutId != boutId {
      PredictionFound(predictions[1..], boutId);
      assert forall i | 1 <= i < |predictions| :: predictions[i] == predictions[1..][i - 1];
    }
  }

  lemma {:induction false} ReasonAfterMore(pairs: seq<(string, Exclusion)>, ids: seq<string>, boutId: string)
    ensures ReasonFor(pairs + Map(MissingPair(), ids), boutId)
         == if boutId in ids then Some(MissingModel) else ReasonFor(pairs, boutId)
  {
    if ids == [] {
      assert pairs + Map(MissingPair(), ids) == pairs;
    } else {
      Split(ids);
      ReasonAfterMore(pairs, Front(ids), boutId);
      var all := pairs + Map(MissingPair(), ids);
      assert Front(all) == pairs + Map(MissingPair(), Front(ids)) && Last(all) == (Last(ids), MissingModel);
    }
  }

  // ----- what is replayed -----

  ghost predicate OfOtherEvent(score: CardScore, event: string) {
    exists p :: p in score.predictions && p.eventId != event
  }

  /** A stored score is refused exactly when it admits to holdout cards in its training or
      predicts for another event. Otherwise its predictions and reasons stand, with the ids of
      the fold for its training; a card without a stored score is missing its model. */
  lemma ReplayMeans(byEvent: Table, group: EventGroup, fold: Fold)
    ensures var r, stored := Replay(byEvent)(group, fold), group.eventId in byEvent;
            && (r.Err? <==> stored && (byEvent[group.eventId].holdoutInTrain
                                       || OfOtherEvent(byEvent[group.eventId], group.eventId)))
            && (r.Ok? ==> r.value.trainIds == fold.trainIds && !r.value.holdoutInTrain)
            && (r.Ok? && stored ==>
                  && r.value.predictions == byEvent[group.eventId].predictions
                  && r.value.abstained == byEvent[group.eventId].abstained
                  && r.value.estimatorHash == byEvent[group.eventId].estimatorHash
                  && |byEvent[group.eventId].unavailable| <= |r.value.unavailable|
                  && forall i | 0 <= i < |byEvent[group.eventId].unavailable| ::
                       r.value.unavailable[i] == byEvent[group.eventId].unavailable[i])
            && (!stored ==> r.value.predictions == [] && r.value.abstained == []
                            && forall b | b in group.boutIds :: ReasonFor(r.value.unavailable, b) == Some(MissingModel))
  {
    if group.eventId in byEvent {
      var predictions := byEvent[group.eventId].predictions;
      if OfOtherEvent(byEvent[group.eventId], group.eventId) {
        var p :| p in predictions && p.eventId != group.eventId;
        var i :| 0 <= i < |predictions| && predictions[i] == p;
      }
      if Leaks(predictions, group.eventId) {
        var i :| 0 <= i < |predictions| && predictions[i].eventId != group.eventId;
        assert predictions[i] in predictions;
      }
    } else {
      forall b | b in group.boutIds
        ensures ReasonFor(Map(MissingPair(), group.boutIds), b) == Some(MissingModel)
      {
        ReasonAfterMore([], group.boutIds, b);
        assert [] + Map(MissingPair(), group.boutIds) == Map(MissingPair(), group.boutIds);
      }
    }
  }

  // ----- what the completion guarantees -----

  /** Marking the bouts a stored score leaves out does not change the attempt of any bout
      of the card: an unmentioned bout is unavailable for a missing model either way. */
  lemma CompletionIsNeutral(ctx: Context, group: EventGroup, fold: Fold, score: CardScore, boutId: string)
    requires boutId in group.boutIds
    ensures Grade(ctx, group, boutId, Completed(score, group, fold)) == Grade(ctx, group, boutId, score)
  {
    var added := Filter(LeftOut(score), group.boutIds);
    FilterMembers(LeftOut(score), group.boutIds);
    ReasonAfterMore(score.unavailable, added, boutId);
    ReasonMentioned(score.unavailable, boutId);
    ReasonMentioned(score.abstained, boutId);
    PredictionFound(score.predictions, boutId);
  }

  /** Every bout of a replayed card has a prediction or a stated reason. */
  lemma EveryBoutAnswered(byEvent: Table, group: EventGroup, fold: Fold, boutId: string)
    requires boutId in group.boutIds && Replay(byEvent)(group, fold).Ok?
    ensures var score := Replay(byEvent)(group, fold).value;
            || PredictionFor(score.predictions, boutId).Some?
            || ReasonFor(score.unavailable, boutId).Some? || ReasonFor(score.abstained, boutId).Some?
  {
    if group.eventId !in byEvent {
      ReasonAfterMore([], group.boutIds, boutId);
      assert [] + Map(MissingPair(), group.boutIds) == Map(MissingPair(), group.boutIds);
    } else {
      var score := byEvent[group.eventId];
      var added := Filter(LeftOut(score), group.boutIds);
      FilterMembers(LeftOut(score), group.boutIds);
      ReasonAfterMore(score.unavailable, added, boutId);
      ReasonMentioned(score.unavailable, boutId);
      ReasonMentioned(score.abstained, boutId);
      PredictionFound(score.predictions, boutId);
    }
  }

  /** A run over stored scores never fails a training gate, whatever training ids the
      stored scores claim: the fold's own ids replace them. */
  lemma ReplayPassesTheGates(env: Env, byEvent: Table, groups: seq<EventGroup>, group: EventGroup)
    requires Chronological(env.year) && WellGrouped(env.year, groups) && group in groups
    requires env.scorer == Replay(byEvent)
    ensures var r := ScoreCard(env, groups, group);
            r.Err? ==> r.error.ScorerFailed? || r.error.MixedEstimators?
  {
    EngineFoldsPassTheGates(env.year, groups, group);
  }
}
