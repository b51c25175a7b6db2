/** Which figures a bootstrap can fill at all: a replicate scores only qualifying bets, and
    only if one of them has settled, while the guards look at all priced bets. */
module BootstrapReach {
  import opened Prelude
  import opened Bets
  import opened KellyPath
  import opened KellyLaws
  import opened FlatMetrics
  import opened BettingTotals
  import opened Resample
  import opened Bootstrap

  /** One draw per event, with replacement. */
  ghost predicate IsDraw(bets: seq<PricedBet>, drawn: seq<string>) {
    |drawn| == |EventIds(bets)| && forall id | id in drawn :: id in EventIds(bets)
  }

  /** A property of bets that occurrence tags do not touch. */
  ghost predicate TagBlind(f: PricedBet -> bool) {
    forall b: PricedBet, tag: string :: f(b.(blockOccurrenceId := Some(tag))) == f(b)
  }

  ghost predicate SomeQualifying(f: PricedBet -> bool, bets: seq<PricedBet>) {
    exists b :: b in bets && Qualifies()(b) && f(b)
  }

  ghost predicate SomeDrawn(f: PricedBet -> bool, bets: seq<PricedBet>, drawn: seq<string>) {
    exists b :: b in bets && Qualifies()(b) && f(b) && b.eventId in drawn
  }

  lemma EventListed(bets: seq<PricedBet>, b: PricedBet)
    requires b in bets
    ensures b.eventId in EventIds(bets)
  {
    FirstOccurrencesDistinct(Map(EventOf(), bets));
    var i :| 0 <= i < |bets| && bets[i] == b;
    assert Map(EventOf(), bets)[i] == b.eventId;
    assert b.eventId in Map(EventOf(), bets);
  }

  lemma TaggedMember(bets: seq<PricedBet>, id: string, index: nat, b: PricedBet)
    requires b in EventBlock(bets, id) && id in EventIds(bets)
    ensures b.(blockOccurrenceId := Some(Tag(id, index))) in TaggedBlock(Tag, BlockMap(bets), id, index)
  {
    var own, block := EventBlock(bets, id), TaggedBlock(Tag, BlockMap(bets), id, index);
    var i :| 0 <= i < |own| && own[i] == b;
    assert block[i] == b.(blockOccurrenceId := Some(Tag(id, index)));
  }

  lemma UntaggedMember(bets: seq<PricedBet>, id: string, index: nat, c: PricedBet) returns (b: PricedBet)
    requires c in TaggedBlock(Tag, BlockMap(bets), id, index)
    ensures b in EventBlock(bets, id) && c == b.(blockOccurrenceId := Some(Tag(id, index)))
  {
    var own, block := EventBlock(bets, id), TaggedBlock(Tag, BlockMap(bets), id, index);
    var i :| 0 <= i < |block| && block[i] == c;
    b := own[i];
  }

  lemma BlockBears(f: PricedBet -> bool, bets: seq<PricedBet>, id: string, index: nat)
    requires TagBlind(f)
    ensures SomeQualifying(f, TaggedBlock(Tag, BlockMap(bets), id, index))
       <==> exists b :: b in bets && Qualifies()(b) && f(b) && b.eventId == id
  {
    var block, tag := TaggedBlock(Tag, BlockMap(bets), id, index), Tag(id, index);
    FilterMembers(InEvent(id), bets);
    if b :| b in bets && Qualifies()(b) && f(b) && b.eventId == id {
      EventListed(bets, b);
      TaggedMember(bets, id, index, b);
      assert f(b.(blockOccurrenceId := Some(tag)));
    }
    if c :| c in block && Qualifies()(c) && f(c) {
      var b := UntaggedMember(bets, id, index, c);
      assert f(b.(blockOccurrenceId := Some(tag))) == f(b);
    }
  }

  lemma SomeQualifyingAppend(f: PricedBet -> bool, xs: seq<PricedBet>, ys: seq<PricedBet>)
    ensures SomeQualifying(f, xs + ys) <==> SomeQualifying(f, xs) || SomeQualifying(f, ys)
  {
    assert forall b :: b in xs + ys <==> b in xs || b in ys;
  }

  /** A replicate has such a qualifying bet exactly when a drawn event does. */
  lemma {:induction false} ReplicateBears(f: PricedBet -> bool, bets: seq<PricedBet>, drawn: seq<string>)
    requires TagBlind(f)
    ensures SomeQualifying(f, Replicate(Tag, BlockMap(bets), drawn)) <==> SomeDrawn(f, bets, drawn)
  {
    if drawn != [] {
      Split(drawn);
      var id, last := Last(drawn), |drawn| - 1;
      ReplicateBears(f, bets, Front(drawn));
      BlockBears(f, bets, id, last);
      SomeQualifyingAppend(f, Replicate(Tag, BlockMap(bets), Front(drawn)), TaggedBlock(Tag, BlockMap(bets), id, last));
    }
  }

  lemma FilteredBears(f: PricedBet -> bool, bets: seq<PricedBet>)
    ensures Filter(f, Qualifying(bets)) != [] <==> SomeQualifying(f, bets)
  {
    FilterMembers(Qualifies(), bets);
    FilterMembers(f, Qualifying(bets));
    var kept := Filter(f, Qualifying(bets));
    if kept != [] {
      assert kept[0] in kept;
    }
  }

  lemma TheBlindOnes()
    ensures TagBlind(Settled()) && TagBlind(HasExactClv()) && TagBlind(HasExactClosingEv())
  {
  }

  ghost predicate ClvFillable(bets: seq<PricedBet>) {
    SomeQualifying(HasExactClv(), bets) && SomeQualifying(Settled(), bets)
  }

  ghost predicate ClosingEvFillable(bets: seq<PricedBet>) {
    SomeQualifying(HasExactClosingEv(), bets) && SomeQualifying(Settled(), bets)
  }

  function ScoreDrawn(stake: Staking, bets: seq<PricedBet>, drawn: seq<string>): Score {
    ScoreOf(stake, Replicate(Tag, BlockMap(bets), drawn))
  }

  lemma ScoreBears(stake: Staking, bets: seq<PricedBet>, drawn: seq<string>)
    ensures IsAccepted()(ScoreDrawn(stake, bets, drawn)) <==> SomeDrawn(Settled(), bets, drawn)
    ensures BearsClv()(ScoreDrawn(stake, bets, drawn)) <==>
              SomeDrawn(HasExactClv(), bets, drawn) && SomeDrawn(Settled(), bets, drawn)
    ensures BearsClosingEv()(ScoreDrawn(stake, bets, drawn)) <==>
              SomeDrawn(HasExactClosingEv(), bets, drawn) && SomeDrawn(Settled(), bets, drawn)
  {
    var replicate := Replicate(Tag, BlockMap(bets), drawn);
    TheBlindOnes();
    ReplicateBears(Settled(), bets, drawn);
    ReplicateBears(HasExactClv(), bets, drawn);
    ReplicateBears(HasExactClosingEv(), bets, drawn);
    FilteredBears(Settled(), replicate);
    FilteredBears(HasExactClv(), replicate);
    FilteredBears(HasExactClosingEv(), replicate);
    MeanOfSome(Map(Profit(), Filter(Settled(), Qualifying(replicate))));
    MeanOfSome(Map(ClvOf(), Filter(HasExactClv(), Qualifying(replicate))));
    MeanOfSome(Map(ClosingEvOf(), Filter(HasExactClosingEv(), Qualifying(replicate))));
  }

  lemma MeanOfSome(values: seq<real>)
    ensures Mean(values).value.Some? <==> values != []
  {
  }

  /** Two bets can always be drawn together: in one event, or in two of at least two. */
  lemma DrawBoth(f: PricedBet -> bool, g: PricedBet -> bool, bets: seq<PricedBet>) returns (drawn: seq<string>)
    requires SomeQualifying(f, bets) && SomeQualifying(g, bets)
    ensures IsDraw(bets, drawn) && SomeDrawn(f, bets, drawn) && SomeDrawn(g, bets, drawn)
  {
    var b :| b in bets && Qualifies()(b) && f(b);
    var c :| c in bets && Qualifies()(c) && g(c);
    EventListed(bets, b);
    EventListed(bets, c);
    var n := |EventIds(bets)|;
    drawn := [b.eventId] + seq(n - 1, _ => c.eventId);
    assert drawn[0] == b.eventId;
    if n == 1 {
      assert EventIds(bets) == [EventIds(bets)[0]];
      assert c.eventId == b.eventId;
    } else {
      assert drawn[1] == c.eventId;
    }
  }

  /** Some draw is accepted, and so yields a return, a drawdown and a losing run, exactly when
      some qualifying bet has settled. */
  lemma AcceptableIff(stake: Staking, bets: seq<PricedBet>)
    ensures (exists drawn :: IsDraw(bets, drawn) && IsAccepted()(ScoreDrawn(stake, bets, drawn)))
       <==> SomeQualifying(Settled(), bets)
  {
    if SomeQualifying(Settled(), bets) {
      var drawn := DrawBoth(Settled(), Settled(), bets);
      ScoreBears(stake, bets, drawn);
    }
    if drawn :| IsDraw(bets, drawn) && IsAccepted()(ScoreDrawn(stake, bets, drawn)) {
      ScoreBears(stake, bets, drawn);
    }
  }

  /** Some draw yields a CLV sample exactly when some qualifying bet has an exact CLV and
      some qualifying bet has settled. */
  lemma ClvFillableIff(stake: Staking, bets: seq<PricedBet>)
    ensures (exists drawn :: IsDraw(bets, drawn) && BearsClv()(ScoreDrawn(stake, bets, drawn))) <==> ClvFillable(bets)
  {
    if ClvFillable(bets) {
      var drawn := DrawBoth(HasExactClv(), Settled(), bets);
      ScoreBears(stake, bets, drawn);
    }
    if drawn :| IsDraw(bets, drawn) && BearsClv()(ScoreDrawn(stake, bets, drawn)) {
      ScoreBears(stake, bets, drawn);
    }
  }

  /** Some draw yields a closing-EV sample exactly when some qualifying bet has an exact
      closing EV and some qualifying bet has settled. */
  lemma ClosingEvFillableIff(stake: Staking, bets: seq<PricedBet>)
    ensures (exists drawn :: IsDraw(bets, drawn) && BearsClosingEv()(ScoreDrawn(stake, bets, drawn)))
       <==> ClosingEvFillable(bets)
  {
    if ClosingEvFillable(bets) {
      var drawn := DrawBoth(HasExactClosingEv(), Settled(), bets);
      ScoreBears(stake, bets, drawn);
    }
    if drawn :| IsDraw(bets, drawn) && BearsClosingEv()(ScoreDrawn(stake, bets, drawn)) {
      ScoreBears(stake, bets, drawn);
    }
  }

  // ----- what an unfillable figure costs -----

  lemma NoScoreBears(stake: Staking, bets: seq<PricedBet>, draws: Draws, n: nat)
    ensures !SomeQualifying(Settled(), bets) ==> Filter(IsAccepted(), Scores(stake, BlockMap(bets), draws, n)) == []
    ensures !ClvFillable(bets) ==> Filter(BearsClv(), Scores(stake, BlockMap(bets), draws, n)) == []
    ensures !ClosingEvFillable(bets) ==> Filter(BearsClosingEv(), Scores(stake, BlockMap(bets), draws, n)) == []
  {
    var scores := Scores(stake, BlockMap(bets), draws, n);
    forall s | s in scores
      ensures IsAccepted()(s) ==> SomeQualifying(Settled(), bets)
      ensures BearsClv()(s) ==> ClvFillable(bets)
      ensures BearsClosingEv()(s) ==> ClosingEvFillable(bets)
    {
      var k :| 0 <= k < |scores| && scores[k] == s;
      ScoreBears(stake, bets, draws(k));
    }
    if !SomeQualifying(Settled(), bets) {
      FilterNone(IsAccepted(), scores);
    }
    if !ClvFillable(bets) {
      FilterNone(BearsClv(), scores);
    }
    if !ClosingEvFillable(bets) {
      FilterNone(BearsClosingEv(), scores);
    }
  }

  /** When the loop waits for a figure that no draw can yield, every permitted attempt is
      spent and no sample of it is kept, whatever is drawn. Returns, drawdowns and losing
      runs are always waited for, the closing figures when any priced bet has one. */
  lemma UnfillableFiguresExhaustTheCap(
    report: Report, stake: Staking, bets: seq<PricedBet>, draws: Draws, requested: int)
    requires IsReport(report, stake, bets, draws, requested) && requested > 0
    ensures !SomeQualifying(Settled(), bets) ==>
              && report.attempts == requested * 50 == report.samples.rejected && report.roiInsufficient
              && report.samples.roi == [] && report.samples.drawdown == [] && report.samples.losingRun == []
    ensures Filter(HasExactClv(), bets) != [] && !ClvFillable(bets) ==>
              report.attempts == requested * 50 && report.samples.clv == [] && report.clvInsufficient
    ensures Filter(HasExactClosingEv(), bets) != [] && !ClosingEvFillable(bets) ==>
              report.attempts == requested * 50 && report.samples.closingEv == [] && report.closingEvInsufficient
  {
    NoScoreBears(stake, bets, draws, report.attempts);
  }

  // ----- bets that are unfillable -----

  function Priced(event: string, candidate: bool, settlement: Settlement, figure: Option<real>): PricedBet {
    PricedBet(event, "bout", 2024, "standard", "moneyline", "fighter_a", "provider_quote", None, None,
              0.6, 2.0, settlement, false, candidate, figure, figure, 0.2, None, None)
  }

  lemma OneOrTwo(f: PricedBet -> bool, a: PricedBet, b: PricedBet)
    ensures SomeQualifying(f, [a, b]) <==> (Qualifies()(a) && f(a)) || (Qualifies()(b) && f(b))
    ensures Filter(f, [a, b]) != [] <==> f(a) || f(b)
  {
    assert a in [a, b] && b in [a, b];
    assert Front([a, b]) == [a] && Front([a]) == [];
    assert Filter(f, [a]) == if f(a) then [a] else [];
  }

  /** A settled candidate without closing figures beside a non-candidate that has them, and
      two unsettled candidates that have them: the guards ask for samples that cannot come. */
  lemma UnfillableBets()
    ensures var bets := [Priced("card", true, Win, None), Priced("card", false, Loss, Some(0.1))];
            && Filter(HasExactClv(), bets) != [] && !ClvFillable(bets)
            && Filter(HasExactClosingEv(), bets) != [] && !ClosingEvFillable(bets)
    ensures var bets := [Priced("card", true, Unresolved, Some(0.1)), Priced("card", true, Unresolved, Some(0.2))];
            && Filter(HasExactClv(), Qualifying(bets)) != [] && !ClvFillable(bets)
            && Filter(HasExactClosingEv(), Qualifying(bets)) != [] && !ClosingEvFillable(bets)
  {
    var a, b := Priced("card", true, Win, None), Priced("card", false, Loss, Some(0.1));
    OneOrTwo(HasExactClv(), a, b);
    OneOrTwo(HasExactClosingEv(), a, b);
    var c, d := Priced("card", true, Unresolved, Some(0.1)), Priced("card", true, Unresolved, Some(0.2));
    OneOrTwo(HasExactClv(), c, d);
    OneOrTwo(HasExactClosingEv(), c, d);
    OneOrTwo(Settled(), c, d);
    FilteredBears(HasExactClv(), [c, d]);
    FilteredBears(HasExactClosingEv(), [c, d]);
  }
}
