/** Flat-stake equity, losing runs and the totals reported for priced bets. */
module FlatMetrics {
  import opened Prelude
  import opened Bets
  import opened Drawdown
  import opened KellyPath
  import opened KellyLaws

  // ----- flat equity -----

  predicate Payable(bet: PricedBet) { bet.settlement.Unresolved? || ValidOdds(bet.offeredDecimal) }

  function Profit(): PricedBet -> real { (bet: PricedBet) => ReturnPerUnit(bet) }

  /** Cumulative profit before the first bet and after each one. */
  function Equity(bets: seq<PricedBet>): (e: seq<real>)
    ensures |e| == |bets| + 1
  {
    seq(|bets| + 1, i requires 0 <= i <= |bets| => Sum(Map(Profit(), bets[..i])))
  }

  lemma EquityStep(bets: seq<PricedBet>, i: nat)
    requires i < |bets|
    ensures Equity(bets[..i + 1]) == Equity(bets[..i]) + [Last(Equity(bets[..i])) + Profit()(bets[i])]
  {
    Prefix(bets, i);
    var before, after := Equity(bets[..i]), Equity(bets[..i + 1]);
    forall j | 0 <= j <= i
      ensures before[j] == after[j]
    {
      assert bets[..i][..j] == bets[..i + 1][..j];
    }
    assert bets[..i + 1][..i + 1] == bets[..i + 1] && bets[..i][..i] == bets[..i];
    assert Front(Map(Profit(), bets[..i + 1])) == Map(Profit(), bets[..i]);
    assert Front(after) == before;
    Split(after);
  }

  /** The running variables of the loop; the path leaves out the flat start. */
  datatype FlatState = FlatState(path: seq<real>, equity: real, peak: real, maxDd: real)

  function NextEquity(c: FlatState, equity: real): FlatState {
    var peak := Larger(c.peak, equity);
    FlatState(c.path + [equity], equity, peak, Larger(c.maxDd, peak - equity))
  }

  function NextBet(c: FlatState, bet: PricedBet): FlatState {
    if bet.settlement.Unresolved? then c.(path := c.path + [c.equity]) else NextEquity(c, c.equity + ReturnPerUnit(bet))
  }

  function FlatStateOf(bets: seq<PricedBet>): FlatState {
    if bets == [] then FlatState([], 0.0, 0.0, 0.0) else NextBet(FlatStateOf(Front(bets)), Last(bets))
  }

  ghost predicate TracksEquity(c: FlatState, curve: seq<real>)
    requires curve != []
  {
    && [0.0] + c.path == curve && c.equity == Last(curve) && c.peak == Peak(curve)
    && c.maxDd == PeakDrawdown(Absolute, curve) && c.peak - c.equity <= c.maxDd
  }

  lemma TrackEquity(c: FlatState, curve: seq<real>, equity: real)
    requires curve != [] && TracksEquity(c, curve)
    ensures TracksEquity(NextEquity(c, equity), curve + [equity])
  {
    assert Front(curve + [equity]) == curve;
    assert [0.0] + (c.path + [equity]) == curve + [equity];
  }

  /** An unresolved bet leaves the curve level, and with it peak and drawdown. */
  lemma TrackLevel(c: FlatState, curve: seq<real>)
    requires curve != [] && TracksEquity(c, curve)
    ensures NextEquity(c, c.equity) == c.(path := c.path + [c.equity])
  {
    PeakIsMaximum(curve);
  }

  lemma TrackBet(c: FlatState, curve: seq<real>, bet: PricedBet)
    requires curve != [] && TracksEquity(c, curve)
    ensures TracksEquity(NextBet(c, bet), curve + [c.equity + ReturnPerUnit(bet)])
  {
    TrackEquity(c, curve, c.equity + ReturnPerUnit(bet));
    TrackLevel(c, curve);
  }

  /** The running variables are the equity curve, its last point, its peak and its
      absolute drawdown. */
  lemma {:induction false} FlatStateMeaning(bets: seq<PricedBet>)
    ensures TracksEquity(FlatStateOf(bets), Equity(bets))
  {
    if bets == [] {
      assert Equity(bets) == [0.0];
    } else {
      var front, bet := Front(bets), Last(bets);
      FlatStateMeaning(front);
      EquityStep(bets, |bets| - 1);
      assert bets[..|bets|] == bets;
      TrackBet(FlatStateOf(front), Equity(front), bet);
    }
  }

  method RecordPoint(equity: real, peak: real, maxDd: real) returns (newPeak: real, newMax: real)
    ensures newPeak == Larger(peak, equity) && newMax == Larger(maxDd, newPeak - equity)
  {
    newPeak, newMax := peak, maxDd;
    if equity > newPeak {
      newPeak := equity;
    }
    var drawdown := newPeak - equity;
    if drawdown > newMax {
      newMax := drawdown;
    }
  }

  /** The path has one point per bet; the drawdown also counts the flat start. */
  method FlatEquityPath(bets: seq<PricedBet>) returns (r: Result<(seq<real>, real), ValueError>)
    ensures r.Ok? <==> forall b | b in bets :: Payable(b)
    ensures r.Ok? ==> r.value == (Equity(bets)[1..], PeakDrawdown(Absolute, Equity(bets)))
    ensures r.Err? ==> r.error == InvalidOdds
  {
    var equity, peak, maxDd := 0.0, 0.0, 0.0;
    var path: seq<real> := [];
    for i := 0 to |bets|
      invariant FlatState(path, equity, peak, maxDd) == FlatStateOf(bets[..i])
      invariant forall j | 0 <= j < i :: Payable(bets[j])
    {
      var bet := bets[i];
      Prefix(bets, i);
      if bet.settlement.Unresolved? {
        path := path + [equity];
        continue;
      }
      var profit := FlatUnitProfit(bet);
      if profit.Err? {
        assert !Payable(bets[i]);
        return Err(profit.error);
      }
      equity := equity + profit.value;
      peak, maxDd := RecordPoint(equity, peak, maxDd);
      path := path + [equity];
    }
    assert bets[..|bets|] == bets;
    FlatStateMeaning(bets);
    r := Ok((path, maxDd));
  }

  /** The flat drawdown is the largest loss between two moments of the equity
      curve, the flat start included. */
  lemma FlatDrawdownIsWorstPair(bets: seq<PricedBet>)
    ensures WorstPair(Absolute, Equity(bets), PeakDrawdown(Absolute, Equity(bets)))
    ensures Equity(bets)[0] == 0.0
  {
    AbsolutePeakIsWorst(Equity(bets));
    DrawdownIsWorstPair(Absolute, Equity(bets));
    assert bets[..0] == [];
  }

  lemma {:induction false} UnresolvedBetsEarnNothing(bets: seq<PricedBet>)
    ensures Sum(Map(Profit(), bets)) == Sum(Map(Profit(), Filter(Settled(), bets)))
  {
    if bets != [] {
      var front := Front(bets);
      UnresolvedBetsEarnNothing(front);
      assert Front(Map(Profit(), bets)) == Map(Profit(), front);
      var kept := Filter(Settled(), bets);
      if Settled()(Last(bets)) {
        assert Front(kept) == Filter(Settled(), front);
        assert Front(Map(Profit(), kept)) == Map(Profit(), Front(kept));
      }
    }
  }

  // ----- losing runs -----

  /** (losses at the end, most consecutive losses) among settled bets. */
  function Runs(bets: seq<PricedBet>): (r: (nat, nat))
    ensures r.0 <= r.1
  {
    if bets == [] then (0, 0) else
      var (tail, most) := Runs(Front(bets));
      match Last(bets).settlement
      case Unresolved => (tail, most)
      case Loss => (tail + 1, if tail + 1 > most then tail + 1 else most)
      case _ => (0, most)
  }

  method LongestLosingRun(bets: seq<PricedBet>) returns (longest: nat)
    ensures longest == Runs(bets).1
  {
    var run := 0;
    longest := 0;
    for i := 0 to |bets|
      invariant (run, longest) == Runs(bets[..i])
    {
      Prefix(bets, i);
      if bets[i].settlement.Unresolved? {
        continue;
      }
      if bets[i].settlement.Loss? {
        run := run + 1;
        if run > longest {
          longest := run;
        }
        continue;
      }
      run := 0;
    }
    assert bets[..|bets|] == bets;
  }

  ghost predicate AllLosses(xs: seq<PricedBet>, i: nat, j: nat)
    requires i <= j <= |xs|
  {
    forall k | i <= k < j :: xs[k].settlement.Loss?
  }

  ghost predicate LongestSegment(xs: seq<PricedBet>, n: nat) {
    && (exists i, j | 0 <= i <= j <= |xs| :: j - i == n && AllLosses(xs, i, j))
    && (forall i, j | 0 <= i <= j <= |xs| && AllLosses(xs, i, j) :: j - i <= n)
  }

  ghost predicate LongestTail(xs: seq<PricedBet>, n: nat) {
    && n <= |xs| && AllLosses(xs, |xs| - n, |xs|)
    && (n == |xs| || !xs[|xs| - n - 1].settlement.Loss?)
  }

  lemma TailIsLongest(xs: seq<PricedBet>, n: nat, i: nat)
    requires LongestTail(xs, n) && i <= |xs| && AllLosses(xs, i, |xs|)
    ensures |xs| - i <= n
  {
  }

  lemma SegmentStep(xs: seq<PricedBet>, x: PricedBet, tail: nat, most: nat)
    requires LongestSegment(xs, most) && LongestTail(xs, tail) && tail <= most
    ensures var loss := x.settlement.Loss?;
            var tail' := if loss then tail + 1 else 0;
            && LongestTail(xs + [x], tail')
            && LongestSegment(xs + [x], if tail' > most then tail' else most)
  {
    var ys := xs + [x];
    var tail' := if x.settlement.Loss? then tail + 1 else 0;
    assert LongestTail(ys, tail');
    var most' := if tail' > most then tail' else most;
    forall i, j | 0 <= i <= j <= |ys| && AllLosses(ys, i, j)
      ensures j - i <= most'
    {
      if j <= |xs| {
        assert forall k | i <= k < j :: xs[k] == ys[k];
        assert AllLosses(xs, i, j);
      } else {
        TailIsLongest(ys, tail', i);
      }
    }
    if most' == most {
      var i, j :| 0 <= i <= j <= |xs| && j - i == most && AllLosses(xs, i, j);
      assert AllLosses(ys, i, j);
    } else {
      assert AllLosses(ys, |ys| - tail', |ys|);
    }
  }

  /** The reported run is the longest block of consecutive losses once unresolved
      bets are deleted. */
  lemma {:induction false} LosingRunIsLongestSegment(bets: seq<PricedBet>)
    ensures LongestSegment(Filter(Settled(), bets), Runs(bets).1)
    ensures LongestTail(Filter(Settled(), bets), Runs(bets).0)
  {
    if bets == [] {
      assert AllLosses(Filter(Settled(), bets), 0, 0);
    } else {
      LosingRunIsLongestSegment(Front(bets));
      SegmentStep(Filter(Settled(), Front(bets)), Last(bets), Runs(Front(bets)).0, Runs(Front(bets)).1);
    }
  }

  lemma SegmentsOfConcatenation(xs: seq<PricedBet>, ys: seq<PricedBet>, m: nat, n: nat, r: nat)
    requires LongestSegment(xs, m) && LongestSegment(ys, n) && LongestSegment(xs + ys, r)
    ensures m <= r && n <= r && r <= m + n
  {
    var zs := xs + ys;
    var i, j :| 0 <= i <= j <= |xs| && j - i == m && AllLosses(xs, i, j);
    assert AllLosses(zs, i, j);
    var i', j' :| 0 <= i' <= j' <= |ys| && j' - i' == n && AllLosses(ys, i', j');
    assert AllLosses(zs, |xs| + i', |xs| + j');
    var p, q :| 0 <= p <= q <= |zs| && q - p == r && AllLosses(zs, p, q);
    if q <= |xs| {
      assert forall k | p <= k < q :: xs[k] == zs[k];
      assert AllLosses(xs, p, q);
    } else if p >= |xs| {
      assert forall k | p - |xs| <= k < q - |xs| :: ys[k] == zs[|xs| + k];
      assert AllLosses(ys, p - |xs|, q - |xs|);
    } else {
      assert forall k | p <= k < |xs| :: xs[k] == zs[k];
      assert AllLosses(xs, p, |xs|);
      assert forall k | 0 <= k < q - |xs| :: ys[k] == zs[|xs| + k];
      assert AllLosses(ys, 0, q - |xs|);
    }
  }

  /** Joining two bet histories never shortens the losing run and at most adds the two. */
  lemma LosingRunOfConcatenation(xs: seq<PricedBet>, ys: seq<PricedBet>)
    ensures Runs(xs).1 <= Runs(xs + ys).1 && Runs(ys).1 <= Runs(xs + ys).1
    ensures Runs(xs + ys).1 <= Runs(xs).1 + Runs(ys).1
  {
    LosingRunIsLongestSegment(xs);
    LosingRunIsLongestSegment(ys);
    LosingRunIsLongestSegment(xs + ys);
    FilterAppend(Settled(), xs, ys);
    SegmentsOfConcatenation(Filter(Settled(), xs), Filter(Settled(), ys), Runs(xs).1, Runs(ys).1, Runs(xs + ys).1);
  }
}
