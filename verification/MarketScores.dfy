/** Complete-distribution scores of settled market selections, grouped by card,
    bout, family and line. */
module MarketScores {
  import opened Prelude
  import opened Bets
  import opened Distributions

  datatype MarketRow = MarketRow(
    eventId: string, boutId: string, season: int, seriesVariant: string,
    marketFamily: string, outcomeKey: string, linePoint: Option<real>,
    p50: real, settlement: Settlement, drawProbability: Option<real>,
    blockOccurrenceId: Option<string>)

  datatype GroupKey = GroupKey(block: string, bout: string, family: string, line: Option<real>)

  const MONEYLINE := "moneyline"
  const METHOD := "method"
  const FIGHTER_BY_METHOD := "fighter_by_method"
  const EXACT_ROUND := "exact_round"
  const TOTALS := "totals"
  const GOES_DISTANCE := "goes_distance"
  const EXACT_ROUND_OTHER := "other_no_exact_round"

  const FAMILIES: seq<string> := [MONEYLINE, TOTALS, GOES_DISTANCE, METHOD, FIGHTER_BY_METHOD, EXACT_ROUND]

  predicate VoidsOnDraw(family: string) {
    family == MONEYLINE || family == METHOD || family == FIGHTER_BY_METHOD
  }

  function KeyOf(): MarketRow -> GroupKey {
    (row: MarketRow) =>
      GroupKey(
        if row.blockOccurrenceId.Some? && row.blockOccurrenceId.value != "" then row.blockOccurrenceId.value
        else row.eventId,
        row.boutId, row.marketFamily, row.linePoint)
  }

  // ----- one group -----

  predicate Settles(members: seq<MarketRow>, s: Settlement) {
    exists i | 0 <= i < |members| :: members[i].settlement == s
  }

  function DrawMass(members: seq<MarketRow>): real {
    if members == [] then 0.0
    else if members[0].drawProbability.Some? then members[0].drawProbability.value
    else DrawMass(members[1..])
  }

  /** Quoted probabilities by outcome; a repeated outcome keeps its last value. */
  function Quoted(members: seq<MarketRow>): Dist {
    if members == [] then []
    else Put(Quoted(Front(members)), Last(members).outcomeKey, Last(members).p50)
  }

  function AtLeastZero(x: real): real { if x > 0.0 then x else 0.0 }

  /** A one-sided moneyline is completed with what is left for the other fighter. */
  function Completed(family: string, quoted: Dist, draw: real): Dist {
    if family == MONEYLINE && |quoted| == 1 then
      var other := if quoted[0].key == "fighter_a" then "fighter_b" else "fighter_a";
      Put(quoted, other, AtLeastZero(1.0 - quoted[0].prob - draw))
    else quoted
  }

  predicate Conditions(family: string, draw: real) { VoidsOnDraw(family) && draw > 0.0 }

  /** The distribution that gets scored; none is left when a draw is certain. */
  function Distribution(family: string, quoted: Dist, draw: real): Option<Dist> {
    var completed := Completed(family, quoted, draw);
    if Conditions(family, draw) && 1.0 - draw <= 0.0 then None
    else
      var conditioned :=
        if Conditions(family, draw) then Map(Scaled(1.0 - draw), completed) else completed;
      Some(if family == EXACT_ROUND
           then Put(conditioned, EXACT_ROUND_OTHER, AtLeastZero(1.0 - Mass(conditioned)))
           else conditioned)
  }

  function IsWin(): MarketRow -> bool { (row: MarketRow) => row.settlement.Win? }

  datatype Outcome = Scored(logLoss: real, brier: real) | PushGroup | UnresolvedGroup | VoidGroup | MultipleWins

  function ScoreGroup(negLog: real -> real, members: seq<MarketRow>): Outcome {
    if members == [] then UnresolvedGroup else
      var family := members[0].marketFamily;
      if Settles(members, Unresolved) && !Settles(members, Win) && !Settles(members, Loss) then UnresolvedGroup
      else if VoidsOnDraw(family) && (Settles(members, Void) || Settles(members, Push)) then VoidGroup
      else if !VoidsOnDraw(family) && Settles(members, Push) then PushGroup
      else if Settles(members, Void) && !VoidsOnDraw(family) then VoidGroup
      else
        var dist := Distribution(family, Quoted(members), DrawMass(members));
        if dist.None? then VoidGroup else ScoreDistribution(negLog, family, dist.value, Filter(IsWin(), members))
  }

  function ScoreDistribution(negLog: real -> real, family: string, dist: Dist, winners: seq<MarketRow>): Outcome {
    if |winners| > 1 then MultipleWins
    else if winners == [] && family != EXACT_ROUND then UnresolvedGroup
    else
      var observed := if |winners| == 1 then winners[0].outcomeKey else EXACT_ROUND_OTHER;
      if !Has(dist, observed) then UnresolvedGroup
      else Scored(negLog(Floored(Get(dist, observed))), Brier(dist, observed))
  }

  function Floored(p: real): real { if p > 0.000000000000001 then p else 0.000000000000001 }

  // ----- the scored distribution is a distribution -----

  lemma {:induction false} QuotedIsDict(members: seq<MarketRow>)
    ensures IsDict(Quoted(members))
  {
    if members != [] {
      QuotedIsDict(Front(members));
      PutIsDict(Quoted(Front(members)), Last(members).outcomeKey, Last(members).p50);
    }
  }

  /** The quoted probabilities and the draw mass fit together as the family requires. */
  predicate Coherent(family: string, quoted: Dist, draw: real) {
    if family == MONEYLINE && |quoted| == 1 then quoted[0].prob + draw <= 1.0
    else if VoidsOnDraw(family) then Mass(quoted) + draw == 1.0
    else if family == EXACT_ROUND then Mass(quoted) <= 1.0
    else Mass(quoted) == 1.0
  }

  lemma CompletedMass(family: string, quoted: Dist, draw: real)
    requires IsDict(quoted) && 0.0 <= draw
    ensures IsDict(Completed(family, quoted, draw))
    ensures VoidsOnDraw(family) ==>
              (Mass(Completed(family, quoted, draw)) == 1.0 - draw <==> Coherent(family, quoted, draw))
  {
    if family == MONEYLINE && |quoted| == 1 {
      var other := if quoted[0].key == "fighter_a" then "fighter_b" else "fighter_a";
      assert quoted[1..] == [];
      assert !Has(quoted, other) by { assert quoted[0].key != other; }
      MassOfNewKey(quoted, other, AtLeastZero(1.0 - quoted[0].prob - draw));
      PutIsDict(quoted, other, AtLeastZero(1.0 - quoted[0].prob - draw));
    }
  }

  /** The scored distribution sums to one exactly when the group's quotes are
      coherent: after completing a one-sided moneyline, conditioning on no draw and
      adding the remainder class of exact rounds. */
  lemma ScoredMassIsOneIffCoherent(family: string, quoted: Dist, draw: real)
    requires IsDict(quoted) && 0.0 <= draw < 1.0 && !Has(quoted, EXACT_ROUND_OTHER)
    ensures var d := Distribution(family, quoted, draw);
            d.Some? && IsDict(d.value) && (Mass(d.value) == 1.0 <==> Coherent(family, quoted, draw))
  {
    var completed := Completed(family, quoted, draw);
    CompletedMass(family, quoted, draw);
    if Conditions(family, draw) {
      MassScales(completed, 1.0 - draw);
      RatioAdds(Mass(completed), 0.0, 1.0 - draw);
    } else if family == EXACT_ROUND {
      MassOfNewKey(quoted, EXACT_ROUND_OTHER, AtLeastZero(1.0 - Mass(quoted)));
      PutIsDict(quoted, EXACT_ROUND_OTHER, AtLeastZero(1.0 - Mass(quoted)));
    }
  }

  lemma {:induction false} ScaledNonnegative(d: Dist, remaining: real)
    requires Nonnegative(d) && remaining > 0.0
    ensures Nonnegative(Map(Scaled(remaining), d))
  {
    forall i | 0 <= i < |d|
      ensures 0.0 <= Map(Scaled(remaining), d)[i].prob
    {
      assert d[i].prob / remaining * remaining == d[i].prob;
    }
  }

  lemma {:induction false} PutNonnegative(d: Dist, key: string, prob: real)
    requires Nonnegative(d) && 0.0 <= prob
    ensures Nonnegative(Put(d, key, prob))
  {
    if d != [] && d[0].key != key {
      PutNonnegative(d[1..], key, prob);
    }
  }

  lemma ScoredIsNonnegative(family: string, quoted: Dist, draw: real)
    requires Nonnegative(quoted) && 0.0 <= draw < 1.0
    ensures Nonnegative(Distribution(family, quoted, draw).value)
  {
    var completed := Completed(family, quoted, draw);
    if family == MONEYLINE && |quoted| == 1 {
      var other := if quoted[0].key == "fighter_a" then "fighter_b" else "fighter_a";
      PutNonnegative(quoted, other, AtLeastZero(1.0 - quoted[0].prob - draw));
    }
    assert Nonnegative(completed);
    if Conditions(family, draw) {
      ScaledNonnegative(completed, 1.0 - draw);
    } else if family == EXACT_ROUND {
      PutNonnegative(completed, EXACT_ROUND_OTHER, AtLeastZero(1.0 - Mass(completed)));
    }
  }

  /** Every Brier score reported for a coherent group of probabilities lies in [0, 2]. */
  lemma {:induction false} ReportedBrierInRange(negLog: real -> real, members: seq<MarketRow>)
    requires members != [] && 0.0 <= DrawMass(members) < 1.0
    requires Nonnegative(Quoted(members)) && !Has(Quoted(members), EXACT_ROUND_OTHER)
    requires Coherent(members[0].marketFamily, Quoted(members), DrawMass(members))
    requires ScoreGroup(negLog, members).Scored?
    ensures 0.0 <= ScoreGroup(negLog, members).brier <= 2.0
  {
    var family, quoted, draw := members[0].marketFamily, Quoted(members), DrawMass(members);
    QuotedIsDict(members);
    ScoredMassIsOneIffCoherent(family, quoted, draw);
    ScoredIsNonnegative(family, quoted, draw);
    var winners := Filter(IsWin(), members);
    var observed := if |winners| == 1 then winners[0].outcomeKey else EXACT_ROUND_OTHER;
    BrierRange(Distribution(family, quoted, draw).value, observed);
  }
}
