/** What the score of one group of market rows is, told by the columns of its rows. */
module GroupFacts {
  import opened Prelude
  import opened Bets
  import opened Distributions
  import opened MarketScores
  import opened MarketGroups

  // ----- which rows form a group -----

  /** The card of a row: its occurrence id where it has one. */
  ghost predicate OnCard(row: MarketRow, card: string) {
    if row.blockOccurrenceId.Some? && row.blockOccurrenceId != Some("") then row.blockOccurrenceId == Some(card)
    else row.eventId == card
  }

  ghost predicate Together(x: MarketRow, y: MarketRow) {
    && (exists card :: OnCard(x, card) && OnCard(y, card))
    && x.boutId == y.boutId && x.marketFamily == y.marketFamily && x.linePoint == y.linePoint
  }

  lemma {:induction false} OnItsCard(row: MarketRow)
    ensures forall card :: OnCard(row, card) <==> card == KeyOf()(row).block
  {
  }

  /** Rows are scored together exactly when card, bout, family and line are the same. */
  lemma {:induction false} GroupedTogether(rows: seq<MarketRow>, key: GroupKey, x: MarketRow, y: MarketRow)
    requires x in Members(rows, key)
    ensures y in Members(rows, key) <==> y in rows && Together(x, y)
    ensures key.family == x.marketFamily
  {
    FilterMembers(InGroup(key), rows);
    assert KeyOf()(x) == key;
    OnItsCard(x);
    OnItsCard(y);
    assert OnCard(x, key.block);
    if Together(x, y) {
      var card :| OnCard(x, card) && OnCard(y, card);
    }
  }

  // ----- which groups are scored -----

  ghost predicate SomeRow(members: seq<MarketRow>, s: Settlement) {
    exists row :: row in members && row.settlement == s
  }

  ghost predicate ReturnedOnDraw(family: string) {
    family == "moneyline" || family == "method" || family == "fighter_by_method"
  }

  /** The first draw probability that a row gives, or zero. */
  ghost predicate DrawIs(members: seq<MarketRow>, draw: real) {
    || (draw == 0.0 && forall i | 0 <= i < |members| :: members[i].drawProbability.None?)
    || exists i :: 0 <= i < |members| && members[i].drawProbability == Some(draw)
                   && forall j | 0 <= j < i :: members[j].drawProbability.None?
  }

  lemma {:induction false} DrawMassIs(members: seq<MarketRow>)
    ensures DrawIs(members, DrawMass(members))
  {
    if members != [] && members[0].drawProbability.None? {
      var rest := members[1..];
      DrawMassIs(rest);
      assert forall i | 1 <= i < |members| :: members[i] == rest[i - 1];
      if i :| 0 <= i < |rest| && rest[i].drawProbability == Some(DrawMass(rest))
                && forall j | 0 <= j < i :: rest[j].drawProbability.None? {
        assert members[i + 1].drawProbability == Some(DrawMass(members));
      }
    }
  }

  ghost function Winners(members: seq<MarketRow>): set<int> {
    set i | 0 <= i < |members| && members[i].settlement == Win
  }

  /** Nothing has been decided. */
  ghost predicate Undecided(members: seq<MarketRow>) {
    SomeRow(members, Unresolved) && !SomeRow(members, Win) && !SomeRow(members, Loss)
  }

  /** Stakes were returned, or a draw that returns them was certain. */
  ghost predicate Voided(members: seq<MarketRow>, draw: real)
    requires members != []
  {
    if ReturnedOnDraw(members[0].marketFamily) then
      SomeRow(members, Void) || SomeRow(members, Push) || draw >= 1.0
    else SomeRow(members, Void) && !SomeRow(members, Push)
  }

  ghost predicate Pushed(members: seq<MarketRow>)
    requires members != []
  {
    !ReturnedOnDraw(members[0].marketFamily) && SomeRow(members, Push)
  }

  /** Without a winner only the remainder of exact rounds can have come true. */
  ghost predicate NoWinner(members: seq<MarketRow>)
    requires members != []
  {
    Winners(members) == {} && members[0].marketFamily != "exact_round"
  }

  lemma {:induction false} SettlesSomeRow(members: seq<MarketRow>, s: Settlement)
    ensures Settles(members, s) <==> SomeRow(members, s)
  {
    if Settles(members, s) {
      var i :| 0 <= i < |members| && members[i].settlement == s;
      assert members[i] in members;
    }
  }

  lemma {:induction false} WinnersCounted(members: seq<MarketRow>)
    ensures |Filter(IsWin(), members)| == |Winners(members)|
    ensures Filter(IsWin(), members) == [] <==> Winners(members) == {}
  {
    CountIsPositions(IsWin(), members);
    assert Positions(IsWin(), members) == Winners(members);
  }

  lemma {:induction false} QuotedHas(members: seq<MarketRow>, key: string)
    ensures Has(Quoted(members), key) <==> exists row :: row in members && row.outcomeKey == key
  {
    if members != [] {
      Split(members);
      QuotedHas(Front(members), key);
      PutHas(Quoted(Front(members)), Last(members).outcomeKey, Last(members).p50, key);
      assert Last(members) in members;
    }
  }

  lemma {:induction false} DistributionHas(family: string, quoted: Dist, draw: real, key: string)
    requires Distribution(family, quoted, draw).Some?
    requires Has(quoted, key) || (key == EXACT_ROUND_OTHER && family == EXACT_ROUND)
    ensures Has(Distribution(family, quoted, draw).value, key)
  {
    var completed := Completed(family, quoted, draw);
    if family == MONEYLINE && |quoted| == 1 {
      var other := if quoted[0].key == "fighter_a" then "fighter_b" else "fighter_a";
      PutHas(quoted, other, AtLeastZero(1.0 - quoted[0].prob - draw), key);
    }
    if Conditions(family, draw) {
      MassScales(completed, 1.0 - draw);
    }
    if family == EXACT_ROUND {
      PutHas(completed, EXACT_ROUND_OTHER, AtLeastZero(1.0 - Mass(completed)), key);
    }
  }

  /** The labels of the source, in its order: undecided, void or pushed, several winners, no
      winner; every other group is scored. */
  ghost predicate LabelledAs(members: seq<MarketRow>, draw: real, outcome: Outcome)
    requires members != []
  {
    if Undecided(members) then outcome == UnresolvedGroup
    else if Voided(members, draw) then outcome == VoidGroup
    else if Pushed(members) then outcome == PushGroup
    else if |Winners(members)| > 1 then outcome == MultipleWins
    else if NoWinner(members) then outcome == UnresolvedGroup
    else outcome.Scored?
  }

  lemma {:induction false} WinnerQuoted(members: seq<MarketRow>)
    ensures Filter(IsWin(), members) != [] ==>
              Filter(IsWin(), members)[0] in members && Filter(IsWin(), members)[0].settlement == Win
              && Has(Quoted(members), Filter(IsWin(), members)[0].outcomeKey)
  {
    var winners := Filter(IsWin(), members);
    FilterMembers(IsWin(), members);
    if winners != [] {
      assert winners[0] in winners;
      QuotedHas(members, winners[0].outcomeKey);
    }
  }

  lemma {:induction false} ScoredLast(negLog: real -> real, members: seq<MarketRow>)
    requires members != [] && Distribution(members[0].marketFamily, Quoted(members), DrawMass(members)).Some?
    ensures var family := members[0].marketFamily;
            var dist := Distribution(family, Quoted(members), DrawMass(members)).value;
            var outcome := ScoreDistribution(negLog, family, dist, Filter(IsWin(), members));
            && (outcome == MultipleWins <==> |Winners(members)| > 1)
            && (outcome == UnresolvedGroup <==> NoWinner(members))
            && (outcome.Scored? <==> |Winners(members)| <= 1 && !NoWinner(members))
  {
    var family, winners := members[0].marketFamily, Filter(IsWin(), members);
    WinnersCounted(members);
    WinnerQuoted(members);
    if winners != [] {
      DistributionHas(family, Quoted(members), DrawMass(members), winners[0].outcomeKey);
    } else if family == EXACT_ROUND {
      DistributionHas(family, Quoted(members), DrawMass(members), EXACT_ROUND_OTHER);
    }
  }

  lemma {:induction false} CertainDraw(family: string, quoted: Dist, draw: real)
    ensures Distribution(family, quoted, draw).None? <==> VoidsOnDraw(family) && draw >= 1.0
    ensures VoidsOnDraw(family) <==> ReturnedOnDraw(family)
  {
  }

  /** Every group gets the label of its rows. */
  lemma {:induction false} GroupsAreLabelled(negLog: real -> real, members: seq<MarketRow>)
    requires members != []
    ensures LabelledAs(members, DrawMass(members), ScoreGroup(negLog, members))
  {
    SettlesSomeRow(members, Unresolved);
    SettlesSomeRow(members, Win);
    SettlesSomeRow(members, Loss);
    SettlesSomeRow(members, Void);
    SettlesSomeRow(members, Push);
    CertainDraw(members[0].marketFamily, Quoted(members), DrawMass(members));
    if Distribution(members[0].marketFamily, Quoted(members), DrawMass(members)).Some? {
      ScoredLast(negLog, members);
    }
  }

  // ----- the score -----

  /** The last probability the rows quote for an outcome. */
  ghost predicate LastQuote(members: seq<MarketRow>, key: string, p: real) {
    exists i :: 0 <= i < |members| && members[i].outcomeKey == key && members[i].p50 == p
                && forall j | i < j < |members| :: members[j].outcomeKey != key
  }

  lemma {:induction false} PutGet(d: Dist, key: string, prob: real, other: string)
    requires Has(Put(d, key, prob), other)
    ensures other == key ==> Get(Put(d, key, prob), other) == prob
    ensures other != key ==> Has(d, other) && Get(Put(d, key, prob), other) == Get(d, other)
  {
    PutHas(d, key, prob, other);
    if d == [] {
      assert Put(d, key, prob)[1..] == [];
    } else if d[0].key == key {
      assert Put(d, key, prob)[1..] == d[1..];
    } else {
      assert Put(d, key, prob)[1..] == Put(d[1..], key, prob);
      if d[0].key != other {
        PutGet(d[1..], key, prob, other);
      }
    }
  }

  lemma {:induction false} LastQuoteKept(members: seq<MarketRow>, key: string, p: real)
    requires members != [] && Last(members).outcomeKey != key && LastQuote(Front(members), key, p)
    ensures LastQuote(members, key, p)
  {
    var front := Front(members);
    var i :| 0 <= i < |front| && front[i].outcomeKey == key && front[i].p50 == p
      && forall j | i < j < |front| :: front[j].outcomeKey != key;
    assert members[i].outcomeKey == key && members[i].p50 == p;
    assert forall j | i < j < |front| :: members[j] == front[j];
  }

  lemma {:induction false} QuotedIsLast(members: seq<MarketRow>, key: string)
    requires Has(Quoted(members), key)
    ensures LastQuote(members, key, Get(Quoted(members), key))
  {
    if members != [] {
      var last := Last(members);
      PutGet(Quoted(Front(members)), last.outcomeKey, last.p50, key);
      if last.outcomeKey != key {
        QuotedIsLast(Front(members), key);
        LastQuoteKept(members, key, Get(Quoted(Front(members)), key));
      } else {
        assert members[|members| - 1].outcomeKey == key && members[|members| - 1].p50 == last.p50;
      }
    }
  }

  lemma {:induction false} ScaledGet(d: Dist, remaining: real, key: string)
    requires remaining != 0.0 && Has(d, key)
    ensures Has(Map(Scaled(remaining), d), key) && Get(Map(Scaled(remaining), d), key) == Get(d, key) / remaining
  {
    MassScales(d, remaining);
    if d[0].key != key {
      ScaledGet(d[1..], remaining, key);
      assert Map(Scaled(remaining), d)[1..] == Map(Scaled(remaining), d[1..]);
    }
  }

  /** A quoted outcome keeps its probability, taken over the chance of no draw where a draw
      returns the stakes. */
  ghost function Chance(family: string, draw: real, p: real): real {
    if ReturnedOnDraw(family) && 0.0 < draw < 1.0 then p / (1.0 - draw) else p
  }

  lemma {:induction false} DistributionGet(family: string, quoted: Dist, draw: real, key: string)
    requires Distribution(family, quoted, draw).Some? && Has(quoted, key)
    requires !(family == EXACT_ROUND && key == EXACT_ROUND_OTHER)
    ensures var d := Distribution(family, quoted, draw).value;
            Has(d, key) && Get(d, key) == Chance(family, draw, Get(quoted, key))
  {
    var completed := Completed(family, quoted, draw);
    CertainDraw(family, quoted, draw);
    DistributionHas(family, quoted, draw, key);
    if family == MONEYLINE && |quoted| == 1 {
      var other := if quoted[0].key == "fighter_a" then "fighter_b" else "fighter_a";
      assert quoted[1..] == [] && quoted[0].key == key;
      PutHas(quoted, other, AtLeastZero(1.0 - quoted[0].prob - draw), key);
      assert other != key;
      PutGet(quoted, other, AtLeastZero(1.0 - quoted[0].prob - draw), key);
    }
    assert Has(completed, key) && Get(completed, key) == Get(quoted, key);
    if Conditions(family, draw) {
      ScaledGet(completed, 1.0 - draw, key);
    }
    if family == EXACT_ROUND {
      PutGet(completed, EXACT_ROUND_OTHER, AtLeastZero(1.0 - Mass(completed)), key);
    }
  }

  /** The log loss of a scored group is that of the row that won: of the last probability
      quoted for its outcome, given no draw, floored away from zero. */
  lemma {:induction false} LogLossOfTheWinner(negLog: real -> real, members: seq<MarketRow>, w: MarketRow)
    requires ScoreGroup(negLog, members).Scored? && w in members && w.settlement == Win
    requires !(members[0].marketFamily == "exact_round" && w.outcomeKey == "other_no_exact_round")
    ensures exists p, draw :: LastQuote(members, w.outcomeKey, p) && DrawIs(members, draw)
              && var chance := Chance(members[0].marketFamily, draw, p);
                 ScoreGroup(negLog, members).logLoss
                 == negLog(if chance > 0.000000000000001 then chance else 0.000000000000001)
  {
    var family, quoted, draw := members[0].marketFamily, Quoted(members), DrawMass(members);
    var winners := Filter(IsWin(), members);
    FilterMembers(IsWin(), members);
    assert w in winners;
    assert |winners| == 1 && winners[0] == w;
    WinnerQuoted(members);
    QuotedIsLast(members, w.outcomeKey);
    DrawMassIs(members);
    DistributionGet(family, quoted, draw, w.outcomeKey);
    assert LastQuote(members, w.outcomeKey, Get(quoted, w.outcomeKey)) && DrawIs(members, draw);
  }

  // ----- the Brier score -----

  ghost predicate DistinctOutcomes(members: seq<MarketRow>) {
    && (forall i, j | 0 <= i < j < |members| :: members[i].outcomeKey != members[j].outcomeKey)
    && forall i | 0 <= i < |members| :: members[i].outcomeKey != "other_no_exact_round"
  }

  ghost function QuotedEntry(): MarketRow -> Entry { (row: MarketRow) => Entry(row.outcomeKey, row.p50) }

  ghost function P50Of(): MarketRow -> real { (row: MarketRow) => row.p50 }

  ghost function NotBelowZero(x: real): real { if x < 0.0 then 0.0 else x }

  /** The other fighter of a one-sided moneyline gets what is left. */
  ghost function OtherFighter(members: seq<MarketRow>, draw: real): seq<Entry>
    requires members != []
  {
    if members[0].marketFamily == "moneyline" && |members| == 1 then
      [Entry(if members[0].outcomeKey == "fighter_a" then "fighter_b" else "fighter_a",
             NotBelowZero(1.0 - members[0].p50 - draw))]
    else []
  }

  /** The rounds not quoted get what is left. */
  ghost function OtherRounds(members: seq<MarketRow>): seq<Entry>
    requires members != []
  {
    if members[0].marketFamily == "exact_round"
    then [Entry("other_no_exact_round", NotBelowZero(1.0 - Sum(Map(P50Of(), members))))] else []
  }

  ghost function GivenNoDraw(family: string, draw: real): Entry -> Entry {
    (e: Entry) => Entry(e.key, Chance(family, draw, e.prob))
  }

  /** What is scored of a group with one row per outcome: the quoted outcomes and, for a
      one-sided moneyline, the other fighter, given no draw; and the rounds not quoted. */
  ghost function ScoredRows(members: seq<MarketRow>, draw: real): seq<Entry>
    requires members != []
  {
    Map(GivenNoDraw(members[0].marketFamily, draw), Map(QuotedEntry(), members) + OtherFighter(members, draw))
    + OtherRounds(members)
  }

  lemma {:induction false} LastIsNew(members: seq<MarketRow>)
    requires members != [] && DistinctOutcomes(members)
    ensures DistinctOutcomes(Front(members)) && !Has(Quoted(Front(members)), Last(members).outcomeKey)
  {
    var front, last := Front(members), Last(members);
    assert forall i | 0 <= i < |front| :: front[i] == members[i];
    QuotedHas(front, last.outcomeKey);
    forall row | row in front
      ensures row.outcomeKey != last.outcomeKey
    {
      var i :| 0 <= i < |front| && front[i] == row;
      assert members[i].outcomeKey != members[|front|].outcomeKey;
    }
  }

  lemma {:induction false} QuotedDistinct(members: seq<MarketRow>)
    requires DistinctOutcomes(members)
    ensures Quoted(members) == Map(QuotedEntry(), members)
  {
    if members != [] {
      LastIsNew(members);
      QuotedDistinct(Front(members));
      MassOfNewKey(Quoted(Front(members)), Last(members).outcomeKey, Last(members).p50);
    }
  }

  lemma {:induction false} MassIsSum(d: Dist)
    ensures Mass(d) == Sum(Map((e: Entry) => e.prob, d))
  {
    SumFromLeft(Map((e: Entry) => e.prob, d));
    if d != [] {
      MassIsSum(d[1..]);
      assert Map((e: Entry) => e.prob, d)[1..] == Map((e: Entry) => e.prob, d[1..]);
    }
  }

  lemma {:induction false} SumFromLeft(xs: seq<real>)
    ensures xs != [] ==> Sum(xs) == xs[0] + Sum(xs[1..])
  {
    if xs != [] {
      SumAppend([xs[0]], xs[1..]);
      assert [xs[0]] + xs[1..] == xs;
      assert Front([xs[0]]) == [];
    }
  }

  lemma {:induction false} MassOfRows(members: seq<MarketRow>)
    requires DistinctOutcomes(members)
    ensures Mass(Quoted(members)) == Sum(Map(P50Of(), members))
  {
    QuotedDistinct(members);
    MassIsSum(Quoted(members));
    assert Map((e: Entry) => e.prob, Map(QuotedEntry(), members)) == Map(P50Of(), members);
  }

  lemma {:induction false} CompletedRows(members: seq<MarketRow>, draw: real)
    requires members != [] && DistinctOutcomes(members)
    ensures Completed(members[0].marketFamily, Quoted(members), draw)
         == Map(QuotedEntry(), members) + OtherFighter(members, draw)
  {
    QuotedDistinct(members);
    var quoted := Quoted(members);
    if members[0].marketFamily == "moneyline" && |members| == 1 {
      var other := if quoted[0].key == "fighter_a" then "fighter_b" else "fighter_a";
      assert other != quoted[0].key && quoted[1..] == [];
      MassOfNewKey(quoted, other, AtLeastZero(1.0 - quoted[0].prob - draw));
    } else {
      assert quoted + [] == quoted;
    }
  }

  lemma {:induction false} Conditioned(family: string, quoted: Dist, draw: real)
    requires Distribution(family, quoted, draw).Some?
    ensures var given := Map(GivenNoDraw(family, draw), Completed(family, quoted, draw));
            Distribution(family, quoted, draw).value ==
              if family == EXACT_ROUND then Put(given, EXACT_ROUND_OTHER, AtLeastZero(1.0 - Mass(given))) else given
  {
    var completed := Completed(family, quoted, draw);
    CertainDraw(family, quoted, draw);
    if Conditions(family, draw) {
      assert Map(Scaled(1.0 - draw), completed) == Map(GivenNoDraw(family, draw), completed);
    } else {
      assert Map(GivenNoDraw(family, draw), completed) == completed;
    }
  }

  /** With one row per outcome, these entries are scored, in this order. */
  lemma {:induction false} ScoredEntries(members: seq<MarketRow>, draw: real)
    requires members != [] && DistinctOutcomes(members)
    requires Distribution(members[0].marketFamily, Quoted(members), draw).Some?
    ensures Distribution(members[0].marketFamily, Quoted(members), draw).value == ScoredRows(members, draw)
  {
    var family, rows := members[0].marketFamily, Map(QuotedEntry(), members);
    CompletedRows(members, draw);
    Conditioned(family, Quoted(members), draw);
    if family == "exact_round" {
      RoundsAdded(members, draw);
    }
  }

  lemma {:induction false} RoundsAdded(members: seq<MarketRow>, draw: real)
    requires members != [] && DistinctOutcomes(members) && members[0].marketFamily == EXACT_ROUND
    ensures var given := Map(GivenNoDraw(EXACT_ROUND, draw), Map(QuotedEntry(), members) + OtherFighter(members, draw));
            Put(given, EXACT_ROUND_OTHER, AtLeastZero(1.0 - Mass(given))) == ScoredRows(members, draw)
  {
    var rows := Map(QuotedEntry(), members);
    MassOfRows(members);
    QuotedDistinct(members);
    NoRemainderQuoted(members);
    assert Map(GivenNoDraw(EXACT_ROUND, draw), rows + []) == rows;
    MassOfNewKey(rows, EXACT_ROUND_OTHER, AtLeastZero(1.0 - Mass(rows)));
  }

  lemma {:induction false} NoRemainderQuoted(members: seq<MarketRow>)
    requires DistinctOutcomes(members)
    ensures !Has(Quoted(members), EXACT_ROUND_OTHER)
  {
    QuotedHas(members, EXACT_ROUND_OTHER);
    forall row | row in members
      ensures row.outcomeKey != EXACT_ROUND_OTHER
    {
      var i :| 0 <= i < |members| && members[i] == row;
    }
  }

  ghost function Miss(observed: string): Entry -> real {
    (e: Entry) => if e.key == observed then (1.0 - e.prob) * (1.0 - e.prob) else e.prob * e.prob
  }

  lemma {:induction false} MissIsSquare(e: Entry, observed: string)
    ensures SquaredMiss(e, observed) == Miss(observed)(e)
  {
    var p := e.prob;
    assert (p - 1.0) * (p - 1.0) == (1.0 - p) * (1.0 - p);
  }

  lemma {:induction false} BrierIsSum(d: Dist, observed: string)
    ensures Brier(d, observed) == Sum(Map(Miss(observed), d))
  {
    SumFromLeft(Map(Miss(observed), d));
    if d != [] {
      BrierIsSum(d[1..], observed);
      assert Map(Miss(observed), d)[1..] == Map(Miss(observed), d[1..]);
      MissIsSquare(d[0], observed);
    }
  }

  /** The outcome that came true: that of the winning row, or the remainder without one. */
  ghost predicate CameTrue(members: seq<MarketRow>, observed: string) {
    || (exists w :: w in members && w.settlement == Win && w.outcomeKey == observed)
    || (Winners(members) == {} && observed == "other_no_exact_round")
  }

  lemma {:induction false} OutcomeIsTheWinners(members: seq<MarketRow>, observed: string)
    requires |Filter(IsWin(), members)| <= 1 && CameTrue(members, observed)
    ensures var winners := Filter(IsWin(), members);
            observed == if |winners| == 1 then winners[0].outcomeKey else EXACT_ROUND_OTHER
  {
    var winners := Filter(IsWin(), members);
    WinnersCounted(members);
    FilterMembers(IsWin(), members);
    if exists w :: w in members && w.settlement == Win && w.outcomeKey == observed {
      var w :| w in members && w.settlement == Win && w.outcomeKey == observed;
      assert w in winners;
    }
  }

  lemma {:induction false} BrierOfObserved(negLog: real -> real, members: seq<MarketRow>, observed: string)
    requires members != [] && ScoreGroup(negLog, members).Scored? && CameTrue(members, observed)
    ensures var dist := Distribution(members[0].marketFamily, Quoted(members), DrawMass(members));
            dist.Some? && ScoreGroup(negLog, members).brier == Brier(dist.value, observed)
  {
    OutcomeIsTheWinners(members, observed);
  }

  /** With one row per outcome, the Brier score of a group sums the squared misses of the
      entries that are scored. */
  lemma {:induction false} BrierOfTheRows(negLog: real -> real, members: seq<MarketRow>, observed: string)
    requires members != [] && DistinctOutcomes(members)
    requires ScoreGroup(negLog, members).Scored? && CameTrue(members, observed)
    ensures exists draw :: DrawIs(members, draw)
              && ScoreGroup(negLog, members).brier == Sum(Map(Miss(observed), ScoredRows(members, draw)))
  {
    BrierOfObserved(negLog, members, observed);
    DrawMassIs(members);
    ScoredEntries(members, DrawMass(members));
    BrierIsSum(Distribution(members[0].marketFamily, Quoted(members), DrawMass(members)).value, observed);
  }
}
