/** How much of the bankroll a card puts at risk, and why staying below all of it is
    exactly what keeps the bankroll positive. */
module KellyExposure {
  import opened Prelude
  import opened Bets
  import opened Drawdown
  import opened KellyPath
  import opened KellyLaws

  function AtRisk(stake: Staking): PricedBet -> real { (bet: PricedBet) => Stake(stake, bet) }

  /** The part of the starting bankroll that the bets of a card put at risk together. */
  function Exposure(stake: Staking, card: seq<PricedBet>): real { Sum(Map(AtRisk(stake), card)) }

  ghost predicate Sensible(stake: Staking, bets: seq<PricedBet>) {
    forall b | b in bets :: Stake(stake, b) >= 0.0 && (Stake(stake, b) > 0.0 ==> b.offeredDecimal > 1.0)
  }

  ghost predicate CardsBelow(stake: Staking, bets: seq<PricedBet>) {
    forall k | k in Blocks(bets) :: Exposure(stake, Card(bets, k)) < 1.0
  }

  lemma LosesAtMostTheStake(stake: Staking, bet: PricedBet)
    requires Sensible(stake, [bet])
    ensures Growth(stake)(bet) >= -AtRisk(stake)(bet)
    ensures bet.settlement.Loss? ==> Growth(stake)(bet) == -AtRisk(stake)(bet)
  {
    assert bet in [bet];
    if bet.settlement.Win? && Stake(stake, bet) > 0.0 {
      assert Stake(stake, bet) * (bet.offeredDecimal - 1.0) >= 0.0;
    }
  }

  lemma {:induction false} CardLosesAtMostItsExposure(stake: Staking, card: seq<PricedBet>)
    requires Sensible(stake, card)
    ensures CardReturn(stake, card) >= -Exposure(stake, card)
    ensures (forall b | b in card :: b.settlement.Loss?) ==> CardReturn(stake, card) == -Exposure(stake, card)
  {
    if card != [] {
      var front, last := Front(card), Last(card);
      CardLosesAtMostItsExposure(stake, front);
      assert last in card;
      LosesAtMostTheStake(stake, last);
      assert Front(Map(Growth(stake), card)) == Map(Growth(stake), front);
      assert Front(Map(AtRisk(stake), card)) == Map(AtRisk(stake), front);
    }
  }

  lemma CardOfSensible(stake: Staking, bets: seq<PricedBet>, key: string)
    requires Sensible(stake, bets)
    ensures Sensible(stake, Card(bets, key))
    ensures (forall b | b in bets :: b.settlement.Loss?) ==> forall b | b in Card(bets, key) :: b.settlement.Loss?
  {
    FilterMembers(InBlock(key), bets);
  }

  /** Whenever no card puts the whole bankroll at risk, the bankroll stays positive however
      the bets settle, and the drawdown is the worst pair and lies in [0, 1). */
  lemma ExposureBelowOneStaysPositive(stake: Staking, bets: seq<PricedBet>)
    requires Sensible(stake, bets) && CardsBelow(stake, bets)
    ensures var path := BankrollPath(stake, bets);
            Positive(path) && WorstPair(Relative, path, PeakDrawdown(Relative, path))
            && 0.0 <= PeakDrawdown(Relative, path) < 1.0
  {
    var order := Blocks(bets);
    var gains := Returns(stake, bets, order);
    forall i | 0 <= i < |gains|
      ensures gains[i] > -1.0
    {
      assert order[i] in order;
      CardOfSensible(stake, bets, order[i]);
      CardLosesAtMostItsExposure(stake, Card(bets, order[i]));
    }
    PrefixPositive(gains);
    PositivePathReadsAsWorstPair(BankrollPath(stake, bets));
  }

  lemma GrowKeepsSign(bankroll: real, gain: real)
    requires bankroll > 0.0 && Grow(bankroll, gain) > 0.0
    ensures gain > -1.0
  {
  }

  /** The bound is exact: when every bet loses, the bankroll stays positive if and only if
      each card put less than the whole bankroll at risk. */
  lemma AllLossesPositiveIff(stake: Staking, bets: seq<PricedBet>)
    requires Sensible(stake, bets) && forall b | b in bets :: b.settlement.Loss?
    ensures Positive(BankrollPath(stake, bets)) <==> CardsBelow(stake, bets)
  {
    if CardsBelow(stake, bets) {
      ExposureBelowOneStaysPositive(stake, bets);
    }
    if Positive(BankrollPath(stake, bets)) {
      var order, path := Blocks(bets), BankrollPath(stake, bets);
      forall k | k in order
        ensures Exposure(stake, Card(bets, k)) < 1.0
      {
        var i :| 0 <= i < |order| && order[i] == k;
        PathShape(stake, bets, i);
        GrowKeepsSign(path[i], CardReturn(stake, Card(bets, k)));
        CardOfSensible(stake, bets, k);
        CardLosesAtMostItsExposure(stake, Card(bets, k));
      }
    }
  }
}
