/** When the reported drawdown can be trusted: exactly which bets keep it the deepest fall
    of the bankroll, however they settle. */
module KellyReading {
  import opened Prelude
  import opened Bets
  import opened Drawdown
  import opened KellyPath
  import opened KellyLaws

  // ----- the same bets, settled otherwise -----

  /** The rule does not look at how a bet settles. */
  ghost predicate Blind(stake: Staking) {
    forall b: PricedBet, s: Settlement :: stake(b.(settlement := s)) == stake(b)
  }

  ghost predicate Resettled(xs: seq<PricedBet>, bets: seq<PricedBet>) {
    |xs| == |bets| && forall i | 0 <= i < |bets| :: xs[i] == bets[i].(settlement := xs[i].settlement)
  }

  /** The path is reported: no settled bet is refused by the rule. */
  ghost predicate Reported(stake: Staking, xs: seq<PricedBet>) { forall b | b in xs :: Stakeable(stake, b) }

  /** What a bet puts at risk if it settles. */
  function Chance(stake: Staking): PricedBet -> real {
    (b: PricedBet) => if stake(b).Ok? then stake(b).value else 0.0
  }

  function AtStake(stake: Staking, card: seq<PricedBet>): real { Sum(Map(Chance(stake), card)) }

  ghost predicate SoundRule(stake: Staking, bets: seq<PricedBet>) {
    forall b | b in bets :: Chance(stake)(b) >= 0.0 && (Chance(stake)(b) > 0.0 ==> b.offeredDecimal > 1.0)
  }

  /** After the first card with a stake no card puts more than the bankroll at risk. */
  ghost predicate LaterCardsCovered(stake: Staking, bets: seq<PricedBet>) {
    forall i, j | 0 <= i < j < |Blocks(bets)| && AtStake(stake, Card(bets, Blocks(bets)[i])) > 0.0 ::
      AtStake(stake, Card(bets, Blocks(bets)[j])) <= 1.0
  }

  ghost predicate AlwaysReads(stake: Staking, bets: seq<PricedBet>) {
    forall xs | Resettled(xs, bets) && Reported(stake, xs) :: Reads(BankrollPath(stake, xs))
  }

  lemma ResettledFront(xs: seq<PricedBet>, bets: seq<PricedBet>)
    requires Resettled(xs, bets) && bets != []
    ensures Resettled(Front(xs), Front(bets))
    ensures Last(xs) == Last(bets).(settlement := Last(xs).settlement)
  {
  }

  lemma {:induction false} ResettledBlocks(xs: seq<PricedBet>, bets: seq<PricedBet>)
    requires Resettled(xs, bets)
    ensures Blocks(xs) == Blocks(bets)
  {
    assert Map(BlockOf(), xs) == Map(BlockOf(), bets);
  }

  lemma {:induction false} ResettledCard(xs: seq<PricedBet>, bets: seq<PricedBet>, key: string)
    requires Resettled(xs, bets)
    ensures Resettled(Card(xs, key), Card(bets, key))
  {
    if bets != [] {
      ResettledFront(xs, bets);
      ResettledCard(Front(xs), Front(bets), key);
    }
  }

  // ----- what one card can do -----

  lemma OneBet(stake: Staking, b: PricedBet, s: Settlement)
    requires Blind(stake) && SoundRule(stake, [b])
    ensures var growth, chance := Growth(stake)(b.(settlement := s)), Chance(stake)(b);
            && growth >= -chance
            && (chance == 0.0 ==> growth == 0.0)
            && (s.Loss? ==> growth == -chance)
            && (s.Win? ==> growth >= 0.0 && (chance > 0.0 ==> growth > 0.0))
            && (s.Void? || s.Unresolved? ==> growth == 0.0)
  {
    assert b in [b];
    assert stake(b.(settlement := s)) == stake(b);
  }

  lemma {:induction false} CardAtWorst(stake: Staking, xs: seq<PricedBet>, card: seq<PricedBet>)
    requires Blind(stake) && SoundRule(stake, card) && Resettled(xs, card)
    ensures AtStake(stake, card) >= 0.0
    ensures CardReturn(stake, xs) >= -AtStake(stake, card)
    ensures AtStake(stake, card) == 0.0 ==> CardReturn(stake, xs) == 0.0
  {
    if card != [] {
      ResettledFront(xs, card);
      assert Last(card) in card;
      CardAtWorst(stake, Front(xs), Front(card));
      OneBet(stake, Last(card), Last(xs).settlement);
      SumLast(Chance(stake), card);
      SumLast(Growth(stake), xs);
    }
  }

  // ----- covered cards are read correctly -----

  lemma GrowFloor(x: real, gain: real)
    requires gain >= -1.0
    ensures x >= 0.0 ==> Grow(x, gain) >= 0.0
    ensures x <= 0.0 ==> Grow(x, gain) <= 0.0
  {
    var factor := 1.0 + gain;
    assert factor >= 0.0;
    if x >= 0.0 {
      assert x * factor >= 0.0;
    } else {
      assert (-x) * factor >= 0.0;
    }
  }

  /** Gains against what was at stake: never below it, nothing without a stake, and after
      the first stake never more than everything. */
  ghost predicate Covered(gains: seq<real>, risks: seq<real>) {
    && |gains| == |risks|
    && (forall i | 0 <= i < |gains| ::
          risks[i] >= 0.0 && gains[i] >= -risks[i] && (risks[i] == 0.0 ==> gains[i] == 0.0))
    && (forall i, j | 0 <= i < j < |risks| && risks[i] > 0.0 :: risks[j] <= 1.0)
  }

  /** All at one; never negative; or ruined and staying so. */
  ghost predicate Shaped(path: seq<real>) {
    path != [] && path[0] == 1.0 && (NonNegative(path) || (OneOrNone(path) && Last(path) <= 0.0))
  }

  ghost predicate Unmoved(path: seq<real>) { forall i | 0 <= i < |path| :: path[i] == 1.0 }

  lemma ShapeStep(path: seq<real>, gain: real)
    requires Shaped(path) && (gain >= -1.0 || Unmoved(path))
    ensures Shaped(path + [After(Last(path), gain)])
  {
    Rescale(Last(path), gain);
    var next := path + [After(Last(path), gain)];
    assert path[|path| - 1] == Last(path);
    if gain >= -1.0 {
      GrowFloor(Last(path), gain);
    }
  }

  lemma {:induction false} CoveredShape(gains: seq<real>, risks: seq<real>)
    requires Covered(gains, risks)
    ensures Shaped(Compound(gains))
    ensures (forall i | 0 <= i < |risks| :: risks[i] == 0.0) ==> Unmoved(Compound(gains))
  {
    if gains == [] {
      assert Compound(gains) == [1.0];
    } else {
      var n := |gains| - 1;
      CoveredShape(Front(gains), Front(risks));
      CompoundStep(gains, n);
      assert gains[..n + 1] == gains && gains[..n] == Front(gains);
      if exists i | 0 <= i < n :: risks[i] > 0.0 {
        assert gains[n] >= -1.0;
      } else {
        assert forall i | 0 <= i < n :: Front(risks)[i] == 0.0;
      }
      ShapeStep(Compound(Front(gains)), gains[n]);
    }
  }

  function Risks(stake: Staking, bets: seq<PricedBet>): (r: seq<real>)
    ensures |r| == |Blocks(bets)|
  {
    seq(|Blocks(bets)|, i requires 0 <= i < |Blocks(bets)| => AtStake(stake, Card(bets, Blocks(bets)[i])))
  }

  lemma SoundCard(stake: Staking, bets: seq<PricedBet>, key: string)
    requires SoundRule(stake, bets)
    ensures SoundRule(stake, Card(bets, key))
  {
    FilterMembers(InBlock(key), bets);
  }

  lemma CoveredBetsRead(stake: Staking, xs: seq<PricedBet>, bets: seq<PricedBet>)
    requires Blind(stake) && SoundRule(stake, bets) && LaterCardsCovered(stake, bets) && Resettled(xs, bets)
    ensures Reads(BankrollPath(stake, xs))
  {
    ResettledBlocks(xs, bets);
    var order, gains, risks := Blocks(bets), Returns(stake, xs, Blocks(xs)), Risks(stake, bets);
    forall i | 0 <= i < |gains|
      ensures risks[i] >= 0.0 && gains[i] >= -risks[i] && (risks[i] == 0.0 ==> gains[i] == 0.0)
    {
      SoundCard(stake, bets, order[i]);
      ResettledCard(xs, bets, order[i]);
      CardAtWorst(stake, Card(xs, order[i]), Card(bets, order[i]));
    }
    CoveredShape(gains, risks);
    NonNegativePathReads(BankrollPath(stake, xs));
  }

  // ----- an uncovered card can be misread -----

  /** Win one card, lose another, and leave everything else without effect. */
  function Plot(stake: Staking, won: string, lost: string): PricedBet -> Settlement {
    (b: PricedBet) =>
      if stake(b).Err? then Unresolved
      else if b.BlockId() == won then Win
      else if b.BlockId() == lost then Loss
      else Void
  }

  function SettledBy(plot: PricedBet -> Settlement): PricedBet -> PricedBet {
    (b: PricedBet) => b.(settlement := plot(b))
  }

  function Played(plot: PricedBet -> Settlement, bets: seq<PricedBet>): seq<PricedBet> { Map(SettledBy(plot), bets) }

  lemma PlayedIsReported(stake: Staking, won: string, lost: string, bets: seq<PricedBet>)
    requires Blind(stake)
    ensures var xs := Played(Plot(stake, won, lost), bets); Resettled(xs, bets) && Reported(stake, xs)
  {
    var plot := Plot(stake, won, lost);
    var xs := Played(plot, bets);
    forall i | 0 <= i < |bets|
      ensures Stakeable(stake, xs[i])
    {
      assert stake(bets[i].(settlement := plot(bets[i]))) == stake(bets[i]);
    }
  }

  lemma {:induction false} PlayedCard(plot: PricedBet -> Settlement, bets: seq<PricedBet>, key: string)
    ensures Card(Played(plot, bets), key) == Played(plot, Card(bets, key))
  {
    if bets != [] {
      PlayedCard(plot, Front(bets), key);
      assert Front(Played(plot, bets)) == Played(plot, Front(bets));
    }
  }

  lemma {:induction false} PlayedReturn(stake: Staking, won: string, lost: string, card: seq<PricedBet>, key: string)
    requires Blind(stake) && SoundRule(stake, card) && won != lost
    requires forall b | b in card :: b.BlockId() == key
    ensures var gain, risk := CardReturn(stake, Played(Plot(stake, won, lost), card)), AtStake(stake, card);
            && risk >= 0.0
            && (key == won ==> gain >= 0.0 && (risk > 0.0 ==> gain > 0.0))
            && (key == lost ==> gain == -risk)
            && (key != won && key != lost ==> gain == 0.0)
  {
    if card != [] {
      var plot := Plot(stake, won, lost);
      var b := Last(card);
      assert b in card;
      PlayedReturn(stake, won, lost, Front(card), key);
      assert Front(Played(plot, card)) == Played(plot, Front(card));
      OneBet(stake, b, plot(b));
      SumLast(Chance(stake), card);
      SumLast(Growth(stake), Played(plot, card));
    }
  }

  /** One card wins, a later one loses more than everything, the others stand still. */
  ghost predicate RiseAndRuin(gains: seq<real>, k: nat, m: nat) {
    && k < m < |gains| && gains[k] > 0.0 && gains[m] < -1.0
    && forall i | 0 <= i < |gains| && i != k && i != m :: gains[i] == 0.0
  }

  lemma {:induction false} RuinPath(gains: seq<real>, k: nat, m: nat, j: nat)
    requires RiseAndRuin(gains, k, m) && j <= |gains|
    ensures Product(gains[..j]) == if j <= k then 1.0 else if j <= m then 1.0 + gains[k]
                                   else Grow(1.0 + gains[k], gains[m])
    decreases j
  {
    if j > 0 {
      Prefix(gains, j - 1);
      RuinPath(gains, k, m, j - 1);
    }
  }

  lemma RuinIsMisread(gains: seq<real>, k: nat, m: nat)
    requires RiseAndRuin(gains, k, m)
    ensures !Reads(Compound(gains))
  {
    var path, high, low := Compound(gains), 1.0 + gains[k], Grow(1.0 + gains[k], gains[m]);
    GrowNegative(high, gains[m]);
    forall j | 0 <= j < |path|
      ensures path[j] == if j <= k then 1.0 else if j <= m then high else low
    {
      RuinPath(gains, k, m, j);
    }
    forall j | 0 <= j < |path| && path[j] == low
      ensures Peak(path[..j + 1]) == high
    {
      PeakIsMaximum(path[..j + 1]);
      assert path[..j + 1][k + 1] == high;
    }
    RiseThenRuinMisreads(path, high, low, m + 1);
  }

  lemma GrowNegative(x: real, gain: real)
    requires x > 0.0 && gain < -1.0
    ensures Grow(x, gain) < 0.0
  {
    assert x * (-1.0 - gain) > 0.0;
  }

  lemma KeysOfCard(bets: seq<PricedBet>, key: string)
    ensures forall b | b in Card(bets, key) :: b.BlockId() == key
  {
    FilterMembers(InBlock(key), bets);
  }

  lemma UncoveredBetsAreMisread(stake: Staking, bets: seq<PricedBet>, k: nat, m: nat)
    requires Blind(stake) && SoundRule(stake, bets) && k < m < |Blocks(bets)|
    requires AtStake(stake, Card(bets, Blocks(bets)[k])) > 0.0 && AtStake(stake, Card(bets, Blocks(bets)[m])) > 1.0
    ensures !AlwaysReads(stake, bets)
  {
    var order := Blocks(bets);
    var plot := Plot(stake, order[k], order[m]);
    var xs := Played(plot, bets);
    FirstOccurrencesDistinct(Map(BlockOf(), bets));
    assert order[k] != order[m];
    PlayedIsReported(stake, order[k], order[m], bets);
    ResettledBlocks(xs, bets);
    var gains := Returns(stake, xs, order);
    forall i | 0 <= i < |gains|
      ensures i == k ==> gains[i] > 0.0
      ensures i == m ==> gains[i] < -1.0
      ensures i != k && i != m ==> gains[i] == 0.0
    {
      PlayedCard(plot, bets, order[i]);
      SoundCard(stake, bets, order[i]);
      KeysOfCard(bets, order[i]);
      PlayedReturn(stake, order[k], order[m], Card(bets, order[i]), order[i]);
    }
    RuinIsMisread(gains, k, m);
    assert !Reads(BankrollPath(stake, xs));
  }

  /** The reported drawdown is the deepest fall under every settlement of the bets if and
      only if no card after the first one with a stake puts more than the whole bankroll at
      risk. */
  lemma AlwaysReadsIffCovered(stake: Staking, bets: seq<PricedBet>)
    requires Blind(stake) && SoundRule(stake, bets)
    ensures AlwaysReads(stake, bets) <==> LaterCardsCovered(stake, bets)
  {
    if LaterCardsCovered(stake, bets) {
      forall xs | Resettled(xs, bets) && Reported(stake, xs)
        ensures Reads(BankrollPath(stake, xs))
      {
        CoveredBetsRead(stake, xs, bets);
      }
    } else {
      var k, m :| 0 <= k < m < |Blocks(bets)| && AtStake(stake, Card(bets, Blocks(bets)[k])) > 0.0
                  && AtStake(stake, Card(bets, Blocks(bets)[m])) > 1.0;
      UncoveredBetsAreMisread(stake, bets, k, m);
    }
  }

  /** The production rule is such a rule. */
  lemma ProductionRuleIsSound(bets: seq<PricedBet>)
    ensures Blind(StakeFraction) && SoundRule(StakeFraction, bets)
  {
    forall b | b in bets && StakeFraction(b).Ok?
      ensures 0.0 <= StakeFraction(b).value && b.offeredDecimal > 1.0
    {
      StakeIsCappedAndPositiveOnlyOnEdge(b);
    }
  }

  // ----- bets that are misread -----

  function Favourite(event: string, odds: real, settlement: Settlement): PricedBet {
    PricedBet(event, "bout", 2024, "standard", "moneyline", "fighter_a", "provider_quote", None, None,
              0.8, odds, settlement, false, true, None, None, 0.6, None, None)
  }

  /** One long shot that comes in, then two hundred losses on the next card. */
  function RiseThenRuin(): seq<PricedBet> {
    [Favourite("first", 101.0, Win)] + Repeat(Favourite("second", 2.0, Loss), 200)
  }

  lemma FavouriteStakes()
    ensures StakeFraction(Favourite("first", 101.0, Win)) == Ok(0.01)
    ensures StakeFraction(Favourite("second", 2.0, Loss)) == Ok(0.01)
  {
    assert (0.8 * 100.0 - (1.0 - 0.8)) / 100.0 == 0.798;
    assert (0.8 * 1.0 - (1.0 - 0.8)) / 1.0 == 0.6;
  }

  lemma OneWin(stake: Staking, win: PricedBet)
    requires stake(win) == Ok(0.01) && win.settlement.Win? && win.offeredDecimal == 101.0
    ensures Returns(stake, [win], Blocks([win])) == [1.0]
  {
    RepeatIsOneCard(win, 1);
    assert Repeat(win, 1) == [win];
    SumLast(Growth(stake), [win]);
    assert Front([win]) == [] && Map(Growth(stake), []) == [];
  }

  /** A win and then losses on another card, whatever the rule. */
  lemma TwoCards(stake: Staking, win: PricedBet, loss: PricedBet)
    requires stake(win) == Ok(0.01) && win.settlement.Win? && win.offeredDecimal == 101.0
    requires stake(loss) == Ok(0.01) && loss.settlement.Loss? && win.BlockId() != loss.BlockId()
    ensures var bets := [win] + Repeat(loss, 200); Returns(stake, bets, Blocks(bets)) == [1.0, -2.0]
  {
    var card := Repeat(loss, 200);
    OneWin(stake, win);
    RepeatedLosses(stake, loss, 200);
    assert forall b | b in card :: b == loss;
    AppendCard(stake, [win], card, loss.BlockId());
  }

  lemma PathOfTwo()
    ensures Compound([1.0, -2.0]) == [1.0, 2.0, -2.0]
  {
    var gains: seq<real> := [1.0, -2.0];
    assert gains[..0] == [] && gains[..1] == [1.0] && gains[..2] == gains;
    assert Front([1.0]) == [] && Front(gains) == [1.0];
    assert Product([1.0]) == 2.0 && Product(gains) == -2.0;
  }

  lemma DrawdownOfTwo()
    ensures var path := [1.0, 2.0, -2.0]; PeakDrawdown(Relative, path) == 2.0 && Relative(path[0], path[2]) == 3.0
  {
    var path := [1.0, 2.0, -2.0];
    assert Front(path) == [1.0, 2.0] && Front(Front(path)) == [1.0];
  }

  /** Their bankroll goes from 1 to 2 to -2: reported is a drawdown of 2, while from the
      start it fell by 3. */
  lemma RiseThenRuinIsMisread()
    ensures var path := BankrollPath(StakeFraction, RiseThenRuin());
            && path == [1.0, 2.0, -2.0]
            && PeakDrawdown(Relative, path) == 2.0 && Relative(path[0], path[2]) == 3.0 && !Reads(path)
  {
    var win, loss := Favourite("first", 101.0, Win), Favourite("second", 2.0, Loss);
    FavouriteStakes();
    assert |"first"| == 5 && |"second"| == 6;
    TwoCards(StakeFraction, win, loss);
    RuinIsMisread([1.0, -2.0], 0, 1);
    PathOfTwo();
    DrawdownOfTwo();
  }
}
