/** The betting totals of a set of priced bets, computed on its qualifying rows. */
module BettingTotals {
  import opened Prelude
  import opened Bets
  import opened Drawdown
  import opened KellyPath
  import opened KellyLaws
  import opened FlatMetrics

  /** Every reported metric carries its numerator and denominator. */
  datatype Counted = Counted(value: Option<real>, numerator: Option<real>, denominator: nat) {
    /** The value is the numerator spread evenly over the denominator. */
    ghost predicate IsRatio() {
      value.Some? && numerator.Some? && value.value * denominator as real == numerator.value
    }
  }

  datatype Totals = Totals(
    qualifyingBets: Counted, turnover: Counted, flatRoi: Counted, kellyRoi: Counted,
    meanClv: Counted, meanClosingEv: Counted, maximumDrawdown: Counted, losingRun: Counted,
    nPriced: Counted, nThresholdOnly: Counted, nProxyExcluded: Counted)

  datatype MetricsError = PricedScope | Invalid(error: ValueError)

  function Qualifies(): PricedBet -> bool { (bet: PricedBet) => bet.isPrePolicyCandidate }

  function Qualifying(bets: seq<PricedBet>): seq<PricedBet> { Filter(Qualifies(), bets) }

  function IsProxy(): PricedBet -> bool { (bet: PricedBet) => bet.isProxyTimestamp }

  function HasExactClv(): PricedBet -> bool {
    (bet: PricedBet) => bet.probabilityClv.Some? && !bet.isProxyTimestamp
  }

  function HasExactClosingEv(): PricedBet -> bool {
    (bet: PricedBet) => bet.closingEv.Some? && !bet.isProxyTimestamp
  }

  function ClvOf(): PricedBet -> real {
    (bet: PricedBet) => if bet.probabilityClv.Some? then bet.probabilityClv.value else 0.0
  }

  function ClosingEvOf(): PricedBet -> real {
    (bet: PricedBet) => if bet.closingEv.Some? then bet.closingEv.value else 0.0
  }

  function CountMetric(n: nat, denominator: nat): Counted {
    Counted(Some(n as real), Some(n as real), denominator)
  }

  /** A figure that is given only where it means something; its numerator is itself. */
  function Shown(given: bool, value: real, denominator: nat): Counted {
    if given then Counted(Some(value), Some(value), denominator) else Counted(None, None, denominator)
  }

  function Mean(values: seq<real>): Counted {
    if values == [] then Counted(None, None, 0)
    else Counted(Some(Sum(values) / |values| as real), Some(Sum(values)), |values|)
  }

  lemma MeanTimesCount(values: seq<real>)
    requires values != []
    ensures Mean(values).IsRatio()
  {
  }

  ghost predicate Computable(stake: Staking, bets: seq<PricedBet>) {
    forall b | b in bets :: Payable(b) && Stakeable(stake, b)
  }

  /** Realized profits of the settled bets, in order. */
  method SettledProfits(bets: seq<PricedBet>) returns (r: Result<seq<real>, ValueError>)
    ensures r.Ok? <==> forall b | b in bets :: Payable(b)
    ensures r.Ok? ==> r.value == Map(Profit(), Filter(Settled(), bets))
    ensures r.Err? ==> r.error == InvalidOdds
  {
    var profits: seq<real> := [];
    for i := 0 to |bets|
      invariant profits == Map(Profit(), Filter(Settled(), bets[..i]))
      invariant forall j | 0 <= j < i :: Payable(bets[j])
    {
      Prefix(bets, i);
      if bets[i].settlement.Unresolved? {
        continue;
      }
      var profit := FlatUnitProfit(bets[i]);
      if profit.Err? {
        assert !Payable(bets[i]);
        return Err(profit.error);
      }
      profits := profits + [profit.value];
    }
    assert bets[..|bets|] == bets;
    r := Ok(profits);
  }

  method BettingMetrics(stake: Staking, bets: seq<PricedBet>, nThresholdOnly: int)
    returns (r: Result<Totals, MetricsError>)
    ensures r.Ok? <==> nThresholdOnly >= 0 && Computable(stake, Qualifying(bets))
    ensures nThresholdOnly < 0 ==> r == Err(PricedScope)
    ensures r.Ok? ==> IsTotals(stake, bets, nThresholdOnly, r.value)
  {
    if nThresholdOnly < 0 {
      return Err(PricedScope);
    }
    var qualifying := Qualifying(bets);
    var n := |qualifying|;
    var profits := SettledProfits(qualifying);
    if profits.Err? {
      return Err(Invalid(profits.error));
    }
    var nSettled := |profits.value|;
    var flat := FlatEquityPath(qualifying);
    var kelly := KellyBankrollPath(stake, qualifying);
    if kelly.Err? {
      return Err(Invalid(kelly.error));
    }
    var kellyRoi := Last(kelly.value.0) - 1.0;
    var losing := LongestLosingRun(qualifying);
    var selections := |bets| + nThresholdOnly;
    r := Ok(Totals(
      CountMetric(n, |bets|),
      CountMetric(nSettled, nSettled),
      Mean(profits.value),
      if nSettled > 0 then Counted(Some(kellyRoi), Some(kellyRoi), 1) else Counted(None, None, 1),
      Mean(Map(ClvOf(), Filter(HasExactClv(), qualifying))),
      Mean(Map(ClosingEvOf(), Filter(HasExactClosingEv(), qualifying))),
      if n > 0 then Counted(Some(kelly.value.1), Some(kelly.value.1), n) else Counted(None, None, n),
      CountMetric(losing, n),
      CountMetric(|bets|, selections),
      CountMetric(nThresholdOnly, selections),
      CountMetric(Count(IsProxy(), qualifying), n)));
  }

  /** What the totals mean: each is tied to the curve, path or run it summarises. */
  ghost predicate IsTotals(stake: Staking, bets: seq<PricedBet>, nThresholdOnly: int, t: Totals) {
    var q := Qualifying(bets);
    var settled := Count(Settled(), q);
    && t.qualifyingBets == CountMetric(|q|, |bets|)
    && t.turnover == CountMetric(settled, settled)
    && t.flatRoi == Mean(Map(Profit(), Filter(Settled(), q)))
    && t.kellyRoi == Shown(settled > 0, Last(BankrollPath(stake, q)) - 1.0, 1)
    && t.meanClv == Mean(Map(ClvOf(), Filter(HasExactClv(), q)))
    && t.meanClosingEv == Mean(Map(ClosingEvOf(), Filter(HasExactClosingEv(), q)))
    && t.maximumDrawdown == Shown(|q| > 0, PeakDrawdown(Relative, BankrollPath(stake, q)), |q|)
    && t.losingRun == CountMetric(Runs(q).1, |q|)
    && nThresholdOnly >= 0
    && t.nPriced == CountMetric(|bets|, |bets| + nThresholdOnly)
    && t.nThresholdOnly == CountMetric(nThresholdOnly, |bets| + nThresholdOnly)
    && t.nProxyExcluded == CountMetric(Count(IsProxy(), q), |q|)
  }

  /** The flat return is exactly the final point of the equity curve, spread over
      the settled bets. */
  lemma RoiIsFinalEquity(stake: Staking, bets: seq<PricedBet>, n: int, t: Totals)
    requires IsTotals(stake, bets, n, t) && t.turnover.denominator > 0
    ensures var final := Last(Equity(Qualifying(bets)));
            t.flatRoi.IsRatio() && t.flatRoi.numerator == Some(final)
            && t.flatRoi.denominator == t.turnover.denominator
  {
    var q := Qualifying(bets);
    UnresolvedBetsEarnNothing(q);
    assert q[..|q|] == q;
    MeanTimesCount(Map(Profit(), Filter(Settled(), q)));
  }

  /** Any reordering of the bets that keeps the order in which the qualifying cards first
      appear leaves every total unchanged but one, the longest losing run. */
  lemma TotalsIgnoreInterleaving(stake: Staking, xs: seq<PricedBet>, ys: seq<PricedBet>, n: int, s: Totals, t: Totals)
    requires multiset(xs) == multiset(ys) && Blocks(Qualifying(xs)) == Blocks(Qualifying(ys))
    requires IsTotals(stake, xs, n, s) && IsTotals(stake, ys, n, t)
    ensures s.(losingRun := t.losingRun) == t && s.losingRun.denominator == t.losingRun.denominator
  {
    FilterPermutes(Qualifies(), xs, ys);
    PathIgnoresInterleaving(stake, Qualifying(xs), Qualifying(ys));
    CountsIgnoreOrder(stake, xs, ys, n, s, t);
    MeansIgnoreOrder(stake, xs, ys, n, s, t);
  }

  lemma CountsIgnoreOrder(stake: Staking, xs: seq<PricedBet>, ys: seq<PricedBet>, n: int, s: Totals, t: Totals)
    requires multiset(xs) == multiset(ys) && IsTotals(stake, xs, n, s) && IsTotals(stake, ys, n, t)
    ensures |xs| == |ys| && |Qualifying(xs)| == |Qualifying(ys)|
    ensures Count(Settled(), Qualifying(xs)) == Count(Settled(), Qualifying(ys)) <= |Qualifying(xs)|
    ensures s.turnover == t.turnover && s.qualifyingBets == t.qualifyingBets && s.nPriced == t.nPriced
    ensures s.nThresholdOnly == t.nThresholdOnly && s.nProxyExcluded == t.nProxyExcluded
  {
    var q, p := Qualifying(xs), Qualifying(ys);
    FilterPermutes(Qualifies(), xs, ys);
    FilterPermutes(Settled(), q, p);
    FilterPermutes(IsProxy(), q, p);
    FilterMembers(Settled(), q);
  }

  lemma MeansIgnoreOrder(stake: Staking, xs: seq<PricedBet>, ys: seq<PricedBet>, n: int, s: Totals, t: Totals)
    requires multiset(xs) == multiset(ys) && IsTotals(stake, xs, n, s) && IsTotals(stake, ys, n, t)
    ensures s.flatRoi == t.flatRoi && s.meanClv == t.meanClv && s.meanClosingEv == t.meanClosingEv
  {
    var q, p := Qualifying(xs), Qualifying(ys);
    FilterPermutes(Qualifies(), xs, ys);
    MeansPermute(Profit(), Settled(), q, p);
    MeansPermute(ClvOf(), HasExactClv(), q, p);
    MeansPermute(ClosingEvOf(), HasExactClosingEv(), q, p);
  }

  lemma RunsAfter(bets: seq<PricedBet>, b: PricedBet, more: seq<PricedBet>)
    requires more == bets + [b] && (b.settlement.Win? || b.settlement.Loss?)
    ensures var (tail, most) := Runs(bets);
            Runs(more) == if b.settlement.Win? then (0, most)
                          else (tail + 1, if tail + 1 > most then tail + 1 else most)
  {
    assert Front(more) == bets;
  }

  lemma BrokenRun(w: PricedBet, l: PricedBet)
    requires w.settlement.Win? && l.settlement.Loss?
    ensures Runs([l, w, l]).1 == 1
  {
    RunsAfter([], l, [l]);
    RunsAfter([l], w, [l, w]);
    RunsAfter([l, w], l, [l, w, l]);
  }

  lemma UnbrokenRun(w: PricedBet, l: PricedBet)
    requires w.settlement.Win? && l.settlement.Loss?
    ensures Runs([l, l, w]).1 == 2
  {
    RunsAfter([], l, [l]);
    RunsAfter([l], l, [l, l]);
    RunsAfter([l, l], w, [l, l, w]);
  }

  /** The losing run does depend on the order: a win between two losses of a card breaks it. */
  lemma LosingRunFollowsTheOrder(w: PricedBet, l: PricedBet)
    requires w.settlement.Win? && l.settlement.Loss? && BlockOf()(w) == BlockOf()(l)
    ensures var xs, ys := [l, w, l], [l, l, w];
            && multiset(xs) == multiset(ys) && Blocks(xs) == Blocks(ys)
            && Runs(xs).1 == 1 && Runs(ys).1 == 2
  {
    assert Map(BlockOf(), [l, w, l]) == Map(BlockOf(), [l, l, w]);
    BrokenRun(w, l);
    UnbrokenRun(w, l);
  }

  lemma MeansPermute(f: PricedBet -> real, keep: PricedBet -> bool, xs: seq<PricedBet>, ys: seq<PricedBet>)
    requires multiset(xs) == multiset(ys)
    ensures Mean(Map(f, Filter(keep, xs))) == Mean(Map(f, Filter(keep, ys)))
  {
    FilterPermutes(keep, xs, ys);
    MeanPermutes(f, Filter(keep, xs), Filter(keep, ys));
  }

  lemma MeanPermutes(f: PricedBet -> real, xs: seq<PricedBet>, ys: seq<PricedBet>)
    requires multiset(xs) == multiset(ys) && |xs| == |ys|
    ensures Mean(Map(f, xs)) == Mean(Map(f, ys))
  {
    SumPermutation(f, xs, ys);
  }

  lemma FilterPermutes(keep: PricedBet -> bool, q: seq<PricedBet>, p: seq<PricedBet>)
    requires multiset(q) == multiset(p)
    ensures multiset(Filter(keep, q)) == multiset(Filter(keep, p)) && |q| == |p|
    ensures |Filter(keep, q)| == |Filter(keep, p)|
  {
    forall b
      ensures multiset(Filter(keep, q))[b] == multiset(Filter(keep, p))[b]
    {
      FilterMultiset(keep, q, b);
      FilterMultiset(keep, p, b);
    }
    assert multiset(Filter(keep, q)) == multiset(Filter(keep, p));
    assert |multiset(Filter(keep, q))| == |multiset(Filter(keep, p))|;
    assert |multiset(q)| == |multiset(p)|;
  }

  // ----- the totals by the columns of the bets -----

  ghost predicate Candidate(b: PricedBet) { b.isPrePolicyCandidate }

  ghost predicate Resolved(b: PricedBet) { b.isPrePolicyCandidate && b.settlement != Unresolved }

  ghost predicate ClosesClv(b: PricedBet) {
    b.isPrePolicyCandidate && b.probabilityClv.Some? && !b.isProxyTimestamp
  }

  ghost predicate ClosesEv(b: PricedBet) { b.isPrePolicyCandidate && b.closingEv.Some? && !b.isProxyTimestamp }

  ghost predicate Proxied(b: PricedBet) { b.isPrePolicyCandidate && b.isProxyTimestamp }

  /** What each bet adds to the sums: nothing unless it counts. */
  ghost function ProfitShare(): PricedBet -> real {
    (b: PricedBet) =>
      if !b.isPrePolicyCandidate then 0.0
      else if b.settlement == Win then b.offeredDecimal - 1.0
      else if b.settlement == Loss then -1.0 else 0.0
  }

  ghost function ClvShare(): PricedBet -> real {
    (b: PricedBet) =>
      if b.isPrePolicyCandidate && b.probabilityClv.Some? && !b.isProxyTimestamp then b.probabilityClv.value else 0.0
  }

  ghost function ClosingEvShare(): PricedBet -> real {
    (b: PricedBet) =>
      if b.isPrePolicyCandidate && b.closingEv.Some? && !b.isProxyTimestamp then b.closingEv.value else 0.0
  }

  ghost function At(bets: seq<PricedBet>, told: PricedBet -> bool): set<int> {
    set i | 0 <= i < |bets| && told(bets[i])
  }

  lemma {:induction false} SumOfKept(
    f: PricedBet -> real, keep: PricedBet -> bool, share: PricedBet -> real, bets: seq<PricedBet>)
    requires forall b :: share(b) == if keep(b) then f(b) else 0.0
    ensures Sum(Map(f, Filter(keep, bets))) == Sum(Map(share, bets))
  {
    if bets != [] {
      var front, last := Front(bets), Last(bets);
      SumOfKept(f, keep, share, front);
      assert Front(Map(share, bets)) == Map(share, front);
      if keep(last) {
        assert Front(Map(f, Filter(keep, front) + [last])) == Map(f, Filter(keep, front));
      }
    }
  }

  lemma CountOfKept(keep: PricedBet -> bool, bets: seq<PricedBet>, told: PricedBet -> bool)
    requires forall b :: told(b) <==> Qualifies()(b) && keep(b)
    ensures Count(keep, Qualifying(bets)) == |At(bets, told)|
  {
    FilterTwice(keep, Qualifies(), bets);
    FilterAgree(Both(keep, Qualifies()), told, bets);
    CountIsPositions(told, bets);
    assert Positions(told, bets) == At(bets, told);
  }

  /** A mean taken over counted bets: their number, their sum, and the one spread over the
      other. */
  ghost predicate MeanOver(m: Counted, bets: seq<PricedBet>, told: PricedBet -> bool, share: PricedBet -> real) {
    && m.denominator == |At(bets, told)|
    && (m.denominator == 0 ==> m.value.None? && m.numerator.None?)
    && (m.denominator > 0 ==> m.IsRatio() && m.numerator == Some(Sum(Map(share, bets))))
  }

  lemma MeanByColumns(
    f: PricedBet -> real, keep: PricedBet -> bool, bets: seq<PricedBet>,
    told: PricedBet -> bool, share: PricedBet -> real)
    requires forall b :: told(b) <==> Qualifies()(b) && keep(b)
    requires forall b :: share(b) == if told(b) then f(b) else 0.0
    ensures MeanOver(Mean(Map(f, Filter(keep, Qualifying(bets)))), bets, told, share)
  {
    CountOfKept(keep, bets, told);
    FilterTwice(keep, Qualifies(), bets);
    FilterAgree(Both(keep, Qualifies()), told, bets);
    SumOfKept(f, told, share, bets);
    var values := Map(f, Filter(keep, Qualifying(bets)));
    if values != [] {
      MeanTimesCount(values);
    }
  }

  /** The reported totals, by the columns of the bets: only candidates count, unresolved bets
      carry no profit, and closing figures under proxy times are left out. */
  lemma TotalsByColumns(stake: Staking, bets: seq<PricedBet>, n: int, t: Totals)
    requires IsTotals(stake, bets, n, t)
    ensures MeanOver(t.flatRoi, bets, (b: PricedBet) => Resolved(b), ProfitShare())
    ensures MeanOver(t.meanClv, bets, (b: PricedBet) => ClosesClv(b), ClvShare())
    ensures MeanOver(t.meanClosingEv, bets, (b: PricedBet) => ClosesEv(b), ClosingEvShare())
  {
    MeanByColumns(Profit(), Settled(), bets, (b: PricedBet) => Resolved(b), ProfitShare());
    MeanByColumns(ClvOf(), HasExactClv(), bets, (b: PricedBet) => ClosesClv(b), ClvShare());
    MeanByColumns(ClosingEvOf(), HasExactClosingEv(), bets, (b: PricedBet) => ClosesEv(b), ClosingEvShare());
  }

  ghost predicate Counts(m: Counted, n: int, of: int) {
    m.value == Some(n as real) && m.numerator == m.value && m.denominator == of
  }

  lemma CountsByColumns(stake: Staking, bets: seq<PricedBet>, n: int, t: Totals)
    requires IsTotals(stake, bets, n, t)
    ensures Counts(t.qualifyingBets, |At(bets, (b: PricedBet) => Candidate(b))|, |bets|)
    ensures var settled := |At(bets, (b: PricedBet) => Resolved(b))|;
            Counts(t.turnover, settled, settled)
    ensures Counts(t.nProxyExcluded, |At(bets, (b: PricedBet) => Proxied(b))|,
                   |At(bets, (b: PricedBet) => Candidate(b))|)
    ensures Counts(t.nPriced, |bets|, |bets| + n) && Counts(t.nThresholdOnly, n, |bets| + n)
  {
    CountOfKept(Settled(), bets, (b: PricedBet) => Resolved(b));
    CountOfKept(IsProxy(), bets, (b: PricedBet) => Proxied(b));
    CountIsPositions(Qualifies(), bets);
    assert Positions(Qualifies(), bets) == At(bets, (b: PricedBet) => Candidate(b));
  }
}
