/** The bootstrap of the betting totals: which attempts are accepted, which samples
    they contribute, and what the reported counts add up to. */
module Bootstrap {
  import opened Prelude
  import opened Bets
  import opened Drawdown
  import opened KellyPath
  import opened KellyLaws
  import opened FlatMetrics
  import opened BettingTotals
  import opened Resample

  const MAX_ATTEMPT_MULTIPLIER := 50

  /** What one attempt yields. Without a return on settled bets it is rejected;
      a missing closing figure stays missing. */
  datatype Score = Score(
    roi: Option<real>, drawdown: real, losingRun: real, clv: Option<real>, closingEv: Option<real>)

  // ----- the samples kept from a sequence of attempts -----

  function IsAccepted(): Score -> bool { (s: Score) => s.roi.Some? }

  function BearsClv(): Score -> bool { (s: Score) => s.roi.Some? && s.clv.Some? }

  function BearsClosingEv(): Score -> bool { (s: Score) => s.roi.Some? && s.closingEv.Some? }

  function Given(x: Option<real>): real { if x.Some? then x.value else 0.0 }

  function Roi(): Score -> real { (s: Score) => Given(s.roi) }

  function Fall(): Score -> real { (s: Score) => s.drawdown }

  function Losing(): Score -> real { (s: Score) => s.losingRun }

  function Clv(): Score -> real { (s: Score) => Given(s.clv) }

  function ClosingEv(): Score -> real { (s: Score) => Given(s.closingEv) }

  function Take<T>(xs: seq<T>, n: int): (r: seq<T>)
    ensures |r| == if n <= 0 then 0 else if n < |xs| then n else |xs|
  {
    if n <= 0 then [] else if n < |xs| then xs[..n] else xs
  }

  /** The first n values of f over the attempts that satisfy keep. */
  function Kept(keep: Score -> bool, f: Score -> real, scores: seq<Score>, n: int): seq<real> {
    Take(Map(f, Filter(keep, scores)), n)
  }

  /** Appends x unless enough samples are held. */
  function Push(xs: seq<real>, x: real, requested: int): seq<real> {
    if |xs| < requested then xs + [x] else xs
  }

  lemma KeptStep(keep: Score -> bool, f: Score -> real, scores: seq<Score>, s: Score, n: int)
    ensures Kept(keep, f, scores + [s], n)
         == if keep(s) then Push(Kept(keep, f, scores, n), f(s), n) else Kept(keep, f, scores, n)
    ensures Count(keep, scores + [s]) == Count(keep, scores) + if keep(s) then 1 else 0
  {
    assert Front(scores + [s]) == scores;
    var kept := Filter(keep, scores);
    if keep(s) {
      assert Map(f, kept + [s]) == Map(f, kept) + [f(s)];
    }
  }

  datatype Samples = Samples(
    roi: seq<real>, drawdown: seq<real>, losingRun: seq<real>, clv: seq<real>, closingEv: seq<real>,
    rejected: nat, clvMissing: nat, closingEvMissing: nat)

  /** The samples and counts that the attempts so far account for. */
  ghost predicate Accounts(s: Samples, scores: seq<Score>, n: int) {
    && s.roi == Kept(IsAccepted(), Roi(), scores, n)
    && s.drawdown == Kept(IsAccepted(), Fall(), scores, n)
    && s.losingRun == Kept(IsAccepted(), Losing(), scores, n)
    && s.clv == Kept(BearsClv(), Clv(), scores, n)
    && s.closingEv == Kept(BearsClosingEv(), ClosingEv(), scores, n)
    && s.rejected + Count(IsAccepted(), scores) == |scores|
    && s.clvMissing + Count(BearsClv(), scores) == Count(IsAccepted(), scores)
    && s.closingEvMissing + Count(BearsClosingEv(), scores) == Count(IsAccepted(), scores)
  }

  method Record(s: Samples, score: Score, requested: int, ghost scores: seq<Score>) returns (r: Samples)
    requires Accounts(s, scores, requested)
    ensures Accounts(r, scores + [score], requested)
  {
    KeptStep(IsAccepted(), Roi(), scores, score, requested);
    KeptStep(IsAccepted(), Fall(), scores, score, requested);
    KeptStep(IsAccepted(), Losing(), scores, score, requested);
    KeptStep(BearsClv(), Clv(), scores, score, requested);
    KeptStep(BearsClosingEv(), ClosingEv(), scores, score, requested);
    r := s;
    if score.roi.None? {
      return r.(rejected := r.rejected + 1);
    }
    if |r.roi| < requested {
      r := r.(roi := r.roi + [score.roi.value],
              drawdown := r.drawdown + [score.drawdown],
              losingRun := r.losingRun + [score.losingRun]);
    }
    if score.clv.None? {
      r := r.(clvMissing := r.clvMissing + 1);
    } else if |r.clv| < requested {
      r := r.(clv := r.clv + [score.clv.value]);
    }
    if score.closingEv.None? {
      r := r.(closingEvMissing := r.closingEvMissing + 1);
    } else if |r.closingEv| < requested {
      r := r.(closingEv := r.closingEv + [score.closingEv.value]);
    }
  }

  // ----- scoring one attempt -----

  function ScoreOf(stake: Staking, bets: seq<PricedBet>): Score {
    var q := Qualifying(bets);
    Score(
      Mean(Map(Profit(), Filter(Settled(), q))).value,
      if q == [] then 0.0 else PeakDrawdown(Relative, BankrollPath(stake, q)),
      Runs(q).1 as real,
      Mean(Map(ClvOf(), Filter(HasExactClv(), q))).value,
      Mean(Map(ClosingEvOf(), Filter(HasExactClosingEv(), q))).value)
  }

  lemma TotalsScore(stake: Staking, bets: seq<PricedBet>, n: int, t: Totals)
    requires IsTotals(stake, bets, n, t)
    ensures ScoreOf(stake, bets)
         == Score(t.flatRoi.value, Given(t.maximumDrawdown.value), Given(t.losingRun.value),
                  t.meanClv.value, t.meanClosingEv.value)
  {
  }

  lemma EmptyScore(stake: Staking)
    ensures ScoreOf(stake, []) == Score(None, 0.0, 0.0, None, None)
  {
    assert Qualifying([]) == [];
    assert Filter(Settled(), []) == [] && Filter(HasExactClv(), []) == [] && Filter(HasExactClosingEv(), []) == [];
  }

  /** The random source, seen only as the event ids it yields on each attempt. */
  type Draws = nat -> seq<string>

  function Scores(stake: Staking, blocks: map<string, seq<PricedBet>>, draws: Draws, n: nat): (r: seq<Score>)
    ensures |r| == n
  {
    seq(n, k requires 0 <= k < n => ScoreOf(stake, Replicate(Tag, blocks, draws(k))))
  }

  method ScoreAttempt(stake: Staking, blocks: map<string, seq<PricedBet>>, drawn: seq<string>, nThresholdOnly: int)
    returns (r: Result<Score, MetricsError>)
    requires forall id | id in drawn :: id in blocks
    ensures r.Ok? ==> r.value == ScoreOf(stake, Replicate(Tag, blocks, drawn))
    ensures nThresholdOnly >= 0 && Computable(stake, Qualifying(Replicate(Tag, blocks, drawn))) ==> r.Ok?
  {
    var replicate := ResampleEventBlocks(blocks, drawn);
    if replicate == [] {
      EmptyScore(stake);
      return Ok(Score(None, 0.0, 0.0, None, None));
    }
    var totals := BettingMetrics(stake, replicate, nThresholdOnly);
    if totals.Err? {
      return Err(totals.error);
    }
    var t := totals.value;
    TotalsScore(stake, replicate, nThresholdOnly, t);
    r := Ok(Score(t.flatRoi.value, Given(t.maximumDrawdown.value), Given(t.losingRun.value),
                  t.meanClv.value, t.meanClosingEv.value));
  }

  // ----- the loop -----

  function AttemptCap(replicates: int): nat {
    var cap := if replicates * MAX_ATTEMPT_MULTIPLIER > replicates then replicates * MAX_ATTEMPT_MULTIPLIER
               else replicates;
    if cap > 0 then cap else 0
  }

  /** Enough attempts of each kind that the bets can fill at all. */
  ghost predicate Enough(scores: seq<Score>, requested: int, canClv: bool, canClose: bool) {
    && Count(IsAccepted(), scores) >= requested
    && (canClv ==> Count(BearsClv(), scores) >= requested)
    && (canClose ==> Count(BearsClosingEv(), scores) >= requested)
  }

  predicate Ready(s: Samples, requested: int, canClv: bool, canClose: bool) {
    && |s.roi| >= requested
    && (canClv ==> |s.clv| >= requested)
    && (canClose ==> |s.closingEv| >= requested)
  }

  lemma ReadyMeansEnough(s: Samples, scores: seq<Score>, requested: int, canClv: bool, canClose: bool)
    requires Accounts(s, scores, requested)
    ensures Ready(s, requested, canClv, canClose) <==> Enough(scores, requested, canClv, canClose)
  {
  }

  /** None of the first n attempts ended the loop. */
  ghost predicate Waiting(
    stake: Staking, bets: seq<PricedBet>, draws: Draws, n: nat, requested: int, canClv: bool, canClose: bool)
  {
    forall k: nat | k < n :: !Enough(Scores(stake, BlockMap(bets), draws, k), requested, canClv, canClose)
  }

  datatype Report = Report(
    samples: Samples, attempts: nat,
    roiInsufficient: bool, clvInsufficient: bool, closingEvInsufficient: bool)

  ghost predicate IsReport(
    report: Report, stake: Staking, bets: seq<PricedBet>, draws: Draws, requested: int)
  {
    var scores := Scores(stake, BlockMap(bets), draws, report.attempts);
    var canClv, canClose := Filter(HasExactClv(), bets) != [], Filter(HasExactClosingEv(), bets) != [];
    && Accounts(report.samples, scores, requested)
    && report.attempts <= AttemptCap(requested)
    && Waiting(stake, bets, draws, report.attempts, requested, canClv, canClose)
    && (report.attempts == AttemptCap(requested) || Enough(scores, requested, canClv, canClose))
    && (report.roiInsufficient <==> |report.samples.roi| < requested)
    && (report.clvInsufficient <==> canClv && |report.samples.clv| < requested)
    && (report.closingEvInsufficient <==> canClose && |report.samples.closingEv| < requested)
  }

  lemma ScoresGrow(stake: Staking, blocks: map<string, seq<PricedBet>>, draws: Draws, n: nat)
    ensures Scores(stake, blocks, draws, n + 1)
         == Scores(stake, blocks, draws, n) + [ScoreOf(stake, Replicate(Tag, blocks, draws(n)))]
  {
  }

  /** One attempt, and what it adds to the samples. */
  method Attempt(
    stake: Staking, bets: seq<PricedBet>, blocks: map<string, seq<PricedBet>>, draws: Draws, n: nat,
    samples: Samples, requested: int, nThresholdOnly: int)
    returns (r: Result<Samples, MetricsError>)
    requires blocks == BlockMap(bets) && forall id | id in draws(n) :: id in blocks
    requires Accounts(samples, Scores(stake, blocks, draws, n), requested)
    ensures r.Ok? ==> Accounts(r.value, Scores(stake, blocks, draws, n + 1), requested)
    ensures nThresholdOnly >= 0 && OccurrenceBlind(stake) && Computable(stake, Qualifying(bets)) ==> r.Ok?
  {
    ReplicateComputable(stake, bets, draws(n));
    var score := ScoreAttempt(stake, blocks, draws(n), nThresholdOnly);
    if score.Err? {
      return Err(score.error);
    }
    ScoresGrow(stake, blocks, draws, n);
    var recorded := Record(samples, score.value, requested, Scores(stake, blocks, draws, n));
    r := Ok(recorded);
  }

  lemma WaitOnce(
    samples: Samples, stake: Staking, bets: seq<PricedBet>, draws: Draws, n: nat, requested: int,
    canClv: bool, canClose: bool)
    requires Accounts(samples, Scores(stake, BlockMap(bets), draws, n), requested)
    requires Waiting(stake, bets, draws, n, requested, canClv, canClose)
    requires !Ready(samples, requested, canClv, canClose)
    ensures Waiting(stake, bets, draws, n + 1, requested, canClv, canClose)
  {
    ReadyMeansEnough(samples, Scores(stake, BlockMap(bets), draws, n), requested, canClv, canClose);
  }

  /** The report on the samples at the end of the loop. */
  function Reported(samples: Samples, attempts: nat, requested: int, canClv: bool, canClose: bool): Report {
    Report(samples, attempts, |samples.roi| < requested,
           canClv && |samples.clv| < requested, canClose && |samples.closingEv| < requested)
  }

  lemma LoopReports(
    samples: Samples, stake: Staking, bets: seq<PricedBet>, draws: Draws, n: nat, requested: int,
    canClv: bool, canClose: bool)
    requires canClv == (Filter(HasExactClv(), bets) != []) && canClose == (Filter(HasExactClosingEv(), bets) != [])
    requires Accounts(samples, Scores(stake, BlockMap(bets), draws, n), requested)
    requires Waiting(stake, bets, draws, n, requested, canClv, canClose) && n <= AttemptCap(requested)
    requires n == AttemptCap(requested) || Ready(samples, requested, canClv, canClose)
    ensures IsReport(Reported(samples, n, requested, canClv, canClose), stake, bets, draws, requested)
  {
    ReadyMeansEnough(samples, Scores(stake, BlockMap(bets), draws, n), requested, canClv, canClose);
  }

  method BootstrapBetting(
    stake: Staking, bets: seq<PricedBet>, requested: int, draws: Draws, nThresholdOnly: int)
    returns (r: Result<Report, MetricsError>)
    requires forall k: nat, id | id in draws(k) :: id in EventIds(bets)
    ensures r.Ok? ==> IsReport(r.value, stake, bets, draws, requested)
    ensures nThresholdOnly >= 0 && OccurrenceBlind(stake) && Computable(stake, Qualifying(bets)) ==> r.Ok?
  {
    var blocks := EventBlocks(bets);
    BlocksAreTheMap(bets, blocks);
    var cap := AttemptCap(requested);
    var canClv, canClose := Filter(HasExactClv(), bets) != [], Filter(HasExactClosingEv(), bets) != [];
    var samples := Samples([], [], [], [], [], 0, 0, 0);
    var attempts := 0;
    while attempts < cap && !Ready(samples, requested, canClv, canClose)
      invariant 0 <= attempts <= cap
      invariant Accounts(samples, Scores(stake, blocks, draws, attempts), requested)
      invariant Waiting(stake, bets, draws, attempts, requested, canClv, canClose)
    {
      WaitOnce(samples, stake, bets, draws, attempts, requested, canClv, canClose);
      var next := Attempt(stake, bets, blocks, draws, attempts, samples, requested, nThresholdOnly);
      if next.Err? {
        return Err(next.error);
      }
      samples := next.value;
      attempts := attempts + 1;
    }
    LoopReports(samples, stake, bets, draws, attempts, requested, canClv, canClose);
    r := Ok(Reported(samples, attempts, requested, canClv, canClose));
  }

  lemma {:induction false} ReplicateComputable(stake: Staking, bets: seq<PricedBet>, drawn: seq<string>)
    ensures OccurrenceBlind(stake) && Computable(stake, Qualifying(bets))
        ==> Computable(stake, Qualifying(Replicate(Tag, BlockMap(bets), drawn)))
  {
    if drawn == [] {
      assert Qualifying([]) == [];
    } else if OccurrenceBlind(stake) && Computable(stake, Qualifying(bets)) {
      var id, last := Last(drawn), |drawn| - 1;
      var block := TaggedBlock(Tag, BlockMap(bets), id, last);
      ReplicateComputable(stake, bets, Front(drawn));
      FilterAppend(Qualifies(), Replicate(Tag, BlockMap(bets), Front(drawn)), block);
      forall b | b in Qualifying(block)
        ensures Payable(b) && Stakeable(stake, b)
      {
        FilterMembers(Qualifies(), block);
        var j :| 0 <= j < |block| && block[j] == b;
        var original := BlockMap(bets)[id][j];
        FilterMembers(InEvent(id), bets);
        FilterMembers(Qualifies(), bets);
        assert original in Qualifying(bets);
      }
    }
  }

  // ----- what the report guarantees -----

  function AtMost(n: int, limit: int): int { if n < limit then n else if limit > 0 then limit else 0 }

  /** The accounting of every report is exact: of the accepted attempts, of those that bear
      CLV and of those that bear closing EV, as many are kept as were requested, and no
      more; a metric the bets can fill is short only when every permitted attempt was
      spent. */
  lemma ReportAddsUp(report: Report, stake: Staking, bets: seq<PricedBet>, draws: Draws, requested: int)
    requires IsReport(report, stake, bets, draws, requested)
    ensures var s := report.samples;
            var accepted := report.attempts - s.rejected;
            && |s.roi| == |s.drawdown| == |s.losingRun| == AtMost(accepted, requested)
            && |s.clv| == AtMost(accepted - s.clvMissing, requested)
            && |s.closingEv| == AtMost(accepted - s.closingEvMissing, requested)
            && 0 <= s.rejected <= report.attempts && s.clvMissing <= accepted && s.closingEvMissing <= accepted
    ensures report.roiInsufficient || report.clvInsufficient || report.closingEvInsufficient
            ==> report.attempts == AttemptCap(requested)
  {
    var scores := Scores(stake, BlockMap(bets), draws, report.attempts);
    ReadyMeansEnough(report.samples, scores, requested,
      Filter(HasExactClv(), bets) != [], Filter(HasExactClosingEv(), bets) != []);
    FilterMembers(IsAccepted(), scores);
  }
}
