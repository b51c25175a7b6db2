/** Grouping of market rows and the counts of scored and excluded groups, overall
    and per family. The group score is a parameter; MarketScores.ScoreGroup is the
    one the backtest uses. */
module MarketGroups {
  import opened Prelude
  import opened Grouping
  import opened Bets
  import opened MarketScores

  type Scorer = seq<MarketRow> -> Outcome

  function Keys(rows: seq<MarketRow>): seq<GroupKey> { FirstOccurrences(Map(KeyOf(), rows)) }

  function InGroup(key: GroupKey): MarketRow -> bool { (row: MarketRow) => KeyOf()(row) == key }

  function Members(rows: seq<MarketRow>, key: GroupKey): seq<MarketRow> { Filter(InGroup(key), rows) }

  datatype ScoredGroup = ScoredGroup(family: string, logLoss: real, brier: real)

  datatype Tally = Tally(push: nat, unresolved: nat, void: nat) {
    function Sum(): nat { push + unresolved + void }

    function Add(outcome: Outcome): (r: Tally)
      ensures r.Sum() == Sum() + if outcome.Scored? || outcome.MultipleWins? then 0 else 1
    {
      match outcome
      case PushGroup => this.(push := push + 1)
      case UnresolvedGroup => this.(unresolved := unresolved + 1)
      case VoidGroup => this.(void := void + 1)
      case _ => this
    }
  }

  /** The outcome of every group, in order of first appearance. */
  function Outcomes(score: Scorer, rows: seq<MarketRow>, keys: seq<GroupKey>): (r: seq<(GroupKey, Outcome)>)
    ensures |r| == |keys|
  {
    seq(|keys|, i requires 0 <= i < |keys| => (keys[i], score(Members(rows, keys[i]))))
  }

  function ScoredOf(outcomes: seq<(GroupKey, Outcome)>): seq<ScoredGroup> {
    if outcomes == [] then [] else
      var (key, outcome) := Last(outcomes);
      var rest := ScoredOf(Front(outcomes));
      if outcome.Scored? then rest + [ScoredGroup(key.family, outcome.logLoss, outcome.brier)] else rest
  }

  function TallyOf(outcomes: seq<(GroupKey, Outcome)>): Tally {
    if outcomes == [] then Tally(0, 0, 0) else
      var rest := TallyOf(Front(outcomes));
      rest.Add(Last(outcomes).1)
  }

  ghost predicate Clean(outcomes: seq<(GroupKey, Outcome)>) {
    forall i | 0 <= i < |outcomes| :: !outcomes[i].1.MultipleWins?
  }

  // ----- the loops -----

  ghost predicate Grouped(rows: seq<MarketRow>, groups: map<GroupKey, seq<MarketRow>>, order: seq<GroupKey>) {
    GroupedBy(KeyOf(), InGroup, rows, groups, order)
  }

  method GroupRows(rows: seq<MarketRow>) returns (groups: map<GroupKey, seq<MarketRow>>, order: seq<GroupKey>)
    ensures order == Keys(rows)
    ensures forall k :: k in groups <==> k in order
    ensures forall k | k in groups :: groups[k] == Members(rows, k)
  {
    groups, order := map[], [];
    for i := 0 to |rows|
      invariant Grouped(rows[..i], groups, order)
    {
      GroupStep(KeyOf(), InGroup, rows, i, groups, order);
      var key := KeyOf()(rows[i]);
      var members := if key in groups then groups[key] else [];
      if key !in groups {
        order := order + [key];
      }
      groups := groups[key := members + [rows[i]]];
    }
    assert rows[..|rows|] == rows;
  }

  /** Err means that some group has several winning selections. */
  method GroupedMarketScores(score: Scorer, rows: seq<MarketRow>)
    returns (r: Result<(seq<ScoredGroup>, Tally), GroupKey>)
    ensures r.Ok? <==> Clean(Outcomes(score, rows, Keys(rows)))
    ensures r.Ok? ==> r.value.0 == ScoredOf(Outcomes(score, rows, Keys(rows)))
    ensures r.Ok? ==> r.value.1 == TallyOf(Outcomes(score, rows, Keys(rows)))
    ensures r.Err? ==> r.error in Keys(rows) && score(Members(rows, r.error)).MultipleWins?
  {
    var groups, order := GroupRows(rows);
    ghost var outcomes := Outcomes(score, rows, order);
    var scored: seq<ScoredGroup> := [];
    var excluded := Tally(0, 0, 0);
    for i := 0 to |order|
      invariant scored == ScoredOf(outcomes[..i]) && excluded == TallyOf(outcomes[..i])
      invariant Clean(outcomes[..i])
    {
      Prefix(outcomes, i);
      var key := order[i];
      match score(groups[key]) {
        case Scored(logLoss, brier) => scored := scored + [ScoredGroup(key.family, logLoss, brier)];
        case PushGroup => excluded := excluded.(push := excluded.push + 1);
        case UnresolvedGroup => excluded := excluded.(unresolved := excluded.unresolved + 1);
        case VoidGroup => excluded := excluded.(void := excluded.void + 1);
        case MultipleWins =>
          assert outcomes[i].1.MultipleWins?;
          return Err(key);
      }
    }
    assert outcomes[..|order|] == outcomes;
    r := Ok((scored, excluded));
  }

  // ----- partition -----

  lemma CleanFront(outcomes: seq<(GroupKey, Outcome)>)
    requires outcomes != [] && Clean(outcomes)
    ensures Clean(Front(outcomes)) && !Last(outcomes).1.MultipleWins?
  {
  }

  /** Every group is either scored or excluded under exactly one label. */
  lemma {:induction false} GroupsPartition(outcomes: seq<(GroupKey, Outcome)>)
    requires Clean(outcomes)
    ensures |ScoredOf(outcomes)| + TallyOf(outcomes).Sum() == |outcomes|
  {
    if outcomes != [] {
      CleanFront(outcomes);
      GroupsPartition(Front(outcomes));
      var outcome := Last(outcomes).1;
      assert |ScoredOf(outcomes)| == |ScoredOf(Front(outcomes))| + if outcome.Scored? then 1 else 0;
      assert TallyOf(outcomes) == TallyOf(Front(outcomes)).Add(outcome);
    }
  }

  // ----- scoring all rows and keeping a family, or scoring the family alone -----

  function OfFamily(family: string): MarketRow -> bool { (row: MarketRow) => row.marketFamily == family }

  function KeyOfFamily(family: string): GroupKey -> bool { (key: GroupKey) => key.family == family }

  function ScoreOfFamily(family: string): ScoredGroup -> bool { (s: ScoredGroup) => s.family == family }

  lemma {:induction false} FamilyKeys(rows: seq<MarketRow>, family: string)
    ensures Keys(Filter(OfFamily(family), rows)) == Filter(KeyOfFamily(family), Keys(rows))
  {
    if rows != [] {
      var front, last := Front(rows), Last(rows);
      FamilyKeys(front, family);
      var kept := Filter(OfFamily(family), front);
      assert Front(Map(KeyOf(), rows)) == Map(KeyOf(), front);
      FirstOccurrencesDistinct(Map(KeyOf(), front));
      FirstOccurrencesDistinct(Map(KeyOf(), kept));
      FilterMembers(KeyOfFamily(family), Keys(front));
      var key := KeyOf()(last);
      if last.marketFamily == family {
        assert Front(Map(KeyOf(), kept + [last])) == Map(KeyOf(), kept);
      }
      if key !in Keys(front) {
        FilterAppend(KeyOfFamily(family), Keys(front), [key]);
        SingleFilter(KeyOfFamily(family), key);
      }
    }
  }

  lemma SingleFilter<T>(keep: T -> bool, x: T)
    ensures Filter(keep, [x]) == if keep(x) then [x] else []
  {
    assert Front([x]) == [];
  }

  lemma {:induction false} FamilyMembers(rows: seq<MarketRow>, family: string, key: GroupKey)
    requires key.family == family
    ensures Members(Filter(OfFamily(family), rows), key) == Members(rows, key)
  {
    if rows != [] {
      FamilyMembers(Front(rows), family, key);
      var last := Last(rows);
      assert KeyOf()(last).family == last.marketFamily;
      if last.marketFamily == family {
        var kept := Filter(OfFamily(family), Front(rows));
        assert Filter(OfFamily(family), rows) == kept + [last];
        assert Front(kept + [last]) == kept;
      }
    }
  }

  lemma {:induction false} FamilyScoresOver(score: Scorer, rows: seq<MarketRow>, family: string, keys: seq<GroupKey>)
    ensures Filter(ScoreOfFamily(family), ScoredOf(Outcomes(score, rows, keys)))
         == ScoredOf(Outcomes(score, Filter(OfFamily(family), rows), Filter(KeyOfFamily(family), keys)))
  {
    var familyRows := Filter(OfFamily(family), rows);
    if keys != [] {
      var front, key := Front(keys), Last(keys);
      var all := Outcomes(score, rows, keys);
      FamilyScoresOver(score, rows, family, front);
      assert Front(all) == Outcomes(score, rows, front);
      if key.family == family {
        FamilyMembers(rows, family, key);
        var kept := Filter(KeyOfFamily(family), front);
        var alone := Outcomes(score, familyRows, kept + [key]);
        assert Front(alone) == Outcomes(score, familyRows, kept);
        assert Last(alone) == Last(all);
      }
      if Last(all).1.Scored? {
        var s := ScoredOf(Front(all));
        var g := ScoredGroup(key.family, Last(all).1.logLoss, Last(all).1.brier);
        assert Front(s + [g]) == s;
      }
    } else {
      assert Outcomes(score, rows, keys) == [];
    }
  }

  /** Scoring all rows and keeping one family gives the same groups, in the same
      order, as scoring that family's rows alone. */
  lemma FamilyScoresAgree(score: Scorer, rows: seq<MarketRow>, family: string)
    ensures var familyRows := Filter(OfFamily(family), rows);
            Filter(ScoreOfFamily(family), ScoredOf(Outcomes(score, rows, Keys(rows))))
            == ScoredOf(Outcomes(score, familyRows, Keys(familyRows)))
  {
    FamilyKeys(rows, family);
    FamilyScoresOver(score, rows, family, Keys(rows));
  }

  lemma CleanFamily(score: Scorer, rows: seq<MarketRow>, family: string)
    requires Clean(Outcomes(score, rows, Keys(rows)))
    ensures var familyRows := Filter(OfFamily(family), rows);
            Clean(Outcomes(score, familyRows, Keys(familyRows)))
  {
    var familyRows := Filter(OfFamily(family), rows);
    var keys := Keys(familyRows);
    FamilyKeys(rows, family);
    FilterMembers(KeyOfFamily(family), Keys(rows));
    forall i | 0 <= i < |keys|
      ensures !Outcomes(score, familyRows, keys)[i].1.MultipleWins?
    {
      assert keys[i] in Keys(rows);
      var j :| 0 <= j < |Keys(rows)| && Keys(rows)[j] == keys[i];
      FamilyMembers(rows, family, keys[i]);
      assert Outcomes(score, rows, Keys(rows))[j].1 == Outcomes(score, familyRows, keys)[i].1;
    }
  }

  datatype FamilyMetrics = FamilyMetrics(
    scores: seq<ScoredGroup>, logLoss: Option<real>, brier: Option<real>, excluded: Tally,
    nPush: nat, nVoid: nat, nUnresolved: nat)

  function LogLossOf(): ScoredGroup -> real { (s: ScoredGroup) => s.logLoss }

  function BrierOf(): ScoredGroup -> real { (s: ScoredGroup) => s.brier }

  function SettledAs(settlement: Settlement): MarketRow -> bool { (row: MarketRow) => row.settlement == settlement }

  /** The mean of a figure over the scored groups, none without groups. */
  ghost predicate IsMean(mean: Option<real>, values: seq<real>) {
    if values == [] then mean.None? else mean.Some? && mean.value * |values| as real == Sum(values)
  }

  ghost function SettledRows(rows: seq<MarketRow>, family: string, settlement: Settlement): set<int> {
    set i | 0 <= i < |rows| && rows[i].marketFamily == family && rows[i].settlement == settlement
  }

  lemma CountOfSettled(rows: seq<MarketRow>, family: string, settlement: Settlement)
    ensures Count(SettledAs(settlement), Filter(OfFamily(family), rows)) == |SettledRows(rows, family, settlement)|
  {
    var both := Both(SettledAs(settlement), OfFamily(family));
    FilterTwice(SettledAs(settlement), OfFamily(family), rows);
    CountIsPositions(both, rows);
    assert Positions(both, rows) == SettledRows(rows, family, settlement);
  }

  method MeanOf(values: seq<real>) returns (mean: Option<real>)
    ensures IsMean(mean, values)
  {
    if values == [] {
      return None;
    }
    var total := 0.0;
    for i := 0 to |values|
      invariant total == Sum(values[..i])
    {
      Prefix(values, i);
      total := total + values[i];
    }
    assert values[..|values|] == values;
    return Some(total / |values| as real);
  }

  /** Per family, the scored groups and their means are taken from one pass over all rows,
      the exclusions from a pass over the family's own rows, and single rows are counted by
      how they settled. */
  method FamilyOutcomeMetrics(score: Scorer, rows: seq<MarketRow>, family: string)
    returns (r: Result<FamilyMetrics, GroupKey>)
    ensures r.Ok? <==> Clean(Outcomes(score, rows, Keys(rows)))
    ensures r.Ok? ==> |r.value.scores| + r.value.excluded.Sum() == Count(KeyOfFamily(family), Keys(rows))
    ensures r.Ok? ==> r.value.scores == ScoredOf(Outcomes(score, Filter(OfFamily(family), rows),
                                                          Filter(KeyOfFamily(family), Keys(rows))))
    ensures r.Ok? ==> IsMean(r.value.logLoss, Map(LogLossOf(), r.value.scores))
                      && IsMean(r.value.brier, Map(BrierOf(), r.value.scores))
    ensures r.Ok? ==> r.value.nPush == |SettledRows(rows, family, Push)|
                      && r.value.nVoid == |SettledRows(rows, family, Void)|
                      && r.value.nUnresolved == |SettledRows(rows, family, Unresolved)|
  {
    var all := GroupedMarketScores(score, rows);
    if all.Err? {
      return Err(all.error);
    }
    FamilyScoresAgree(score, rows, family);
    CleanFamily(score, rows, family);
    FamilyKeys(rows, family);
    var familyRows := Filter(OfFamily(family), rows);
    var scores := Filter(ScoreOfFamily(family), all.value.0);
    var logLoss := MeanOf(Map(LogLossOf(), scores));
    var brier := MeanOf(Map(BrierOf(), scores));
    var alone := GroupedMarketScores(score, familyRows);
    GroupsPartition(Outcomes(score, familyRows, Keys(familyRows)));
    CountOfSettled(rows, family, Push);
    CountOfSettled(rows, family, Void);
    CountOfSettled(rows, family, Unresolved);
    r := Ok(FamilyMetrics(scores, logLoss, brier, alone.value.1, Count(SettledAs(Push), familyRows),
                          Count(SettledAs(Void), familyRows), Count(SettledAs(Unresolved), familyRows)));
  }
}
