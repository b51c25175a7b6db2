/** Settled priced observations and the stake a quarter-Kelly bettor puts on them. */
module Bets {
  import opened Prelude

  datatype Settlement = Win | Loss | Push | Void | Unresolved

  datatype ValueError = InvalidOdds | InvalidProbability

  datatype PricedBet = PricedBet(
    eventId: string, boutId: string, season: int, seriesVariant: string,
    marketFamily: string, outcomeKey: string, sourceKind: string,
    provider: Option<string>, bookmakerKey: Option<string>,
    modelProb: real, offeredDecimal: real, settlement: Settlement,
    isProxyTimestamp: bool, isPrePolicyCandidate: bool,
    probabilityClv: Option<real>, closingEv: Option<real>, expectedValue: real,
    pVoid: Option<real>, blockOccurrenceId: Option<string>)
  {
    /** An empty occurrence id counts as absent. */
    function BlockId(): string {
      if blockOccurrenceId.Some? && blockOccurrenceId.value != "" then blockOccurrenceId.value else eventId
    }
  }

  /** A bet belongs to the card of its occurrence id, or of its event without one. */
  lemma CardOfABet(bet: PricedBet, card: string)
    ensures bet.BlockId() == card <==>
              || (bet.blockOccurrenceId == Some(card) && card != "")
              || ((bet.blockOccurrenceId.None? || bet.blockOccurrenceId == Some("")) && bet.eventId == card)
  {
  }

  const QUARTER_KELLY_FRACTION := 0.25
  const BANKROLL_CAP_FRACTION := 0.01

  predicate ValidProbability(p: real) { 0.0 < p < 1.0 }

  predicate ValidOdds(odds: real) { 1.0 < odds }

  function ConditionalWinProbability(pWin: real, pVoid: real): Result<real, ValueError> {
    if !ValidProbability(pWin) then Err(InvalidProbability)
    else if !(0.0 <= pVoid <= 1.0) then Err(InvalidOdds)
    else if pVoid >= 1.0 then Err(InvalidProbability)
    else if 1.0 - pWin - pVoid < -0.000000000001 then Err(InvalidProbability)
    else
      var conditional := pWin / (1.0 - pVoid);
      if ValidProbability(conditional) then Ok(conditional) else Err(InvalidProbability)
  }

  function KellyFraction(p: real, odds: real): Result<real, ValueError> {
    if !ValidProbability(p) then Err(InvalidProbability)
    else if !ValidOdds(odds) then Err(InvalidOdds)
    else
      var b := odds - 1.0;
      Ok((p * b - (1.0 - p)) / b)
  }

  function Capped(kelly: real): real {
    var k := kelly * QUARTER_KELLY_FRACTION;
    if k < 0.0 then 0.0 else if k < BANKROLL_CAP_FRACTION then k else BANKROLL_CAP_FRACTION
  }

  function QuarterKelly(p: real, odds: real): Result<real, ValueError> {
    var kelly :- KellyFraction(p, odds);
    Ok(Capped(kelly))
  }

  function QuarterKellyWithVoid(pWin: real, pVoid: real, odds: real): Result<real, ValueError> {
    if !ValidOdds(odds) then Err(InvalidOdds) else
      var conditional :- ConditionalWinProbability(pWin, pVoid);
      QuarterKelly(conditional, odds)
  }

  function StakeFraction(bet: PricedBet): Result<real, ValueError> {
    if bet.pVoid.None? || bet.pVoid.value == 0.0 then
      QuarterKelly(bet.modelProb, bet.offeredDecimal)
    else
      QuarterKellyWithVoid(bet.modelProb, bet.pVoid.value, bet.offeredDecimal)
  }

  function VoidMass(bet: PricedBet): real {
    if bet.pVoid.None? then 0.0 else bet.pVoid.value
  }

  /** Expected profit per unit staked when a void returns the stake. */
  function EdgeWithVoid(pWin: real, pVoid: real, odds: real): real {
    pWin * (odds - 1.0) - (1.0 - pWin - pVoid)
  }

  lemma KellySign(p: real, odds: real)
    requires ValidProbability(p) && ValidOdds(odds)
    ensures Capped(KellyFraction(p, odds).value) > 0.0 <==> p * odds > 1.0
  {
    var b := odds - 1.0;
    var edge := p * b - (1.0 - p);
    assert edge == p * odds - 1.0;
    var k := edge / b;
    assert k * b == edge;
    assert k > 0.0 <==> edge > 0.0;
  }

  /** A stake never exceeds one percent of the bankroll, and it is positive
      exactly when the void-aware expected value of the bet is. */
  lemma StakeIsCappedAndPositiveOnlyOnEdge(bet: PricedBet)
    ensures var stake := StakeFraction(bet);
            stake.Ok? ==>
              && 0.0 <= stake.value <= BANKROLL_CAP_FRACTION
              && (stake.value > 0.0 <==> EdgeWithVoid(bet.modelProb, VoidMass(bet), bet.offeredDecimal) > 0.0)
  {
    var p, v, odds := bet.modelProb, VoidMass(bet), bet.offeredDecimal;
    if StakeFraction(bet).Err? {
    } else if v == 0.0 {
      KellySign(p, odds);
      assert EdgeWithVoid(p, v, odds) == p * odds - 1.0;
    } else {
      var remaining := 1.0 - v;
      var conditional := p / remaining;
      KellySign(conditional, odds);
      assert conditional * remaining == p;
      assert EdgeWithVoid(p, v, odds) == remaining * (conditional * odds - 1.0);
      Scale(remaining, conditional * odds - 1.0);
    }
  }

  /** A quarter of the Kelly fraction, cut off at zero and at one percent. */
  ghost predicate IsQuarterKelly(stake: real, edge: real, unit: real) {
    && (edge <= 0.0 ==> stake == 0.0)
    && (0.0 < edge < 0.01 * unit ==> stake * unit == edge)
    && (edge > 0.0 && edge >= 0.01 * unit ==> stake == 0.01)
  }

  lemma ConditionalMeans(p: real, v: real)
    ensures var r := ConditionalWinProbability(p, v);
            && (v > 0.0 ==> (r.Ok? <==> p > 0.0 && p + v < 1.0))
            && (v < 0.0 ==> r.Err?)
            && (v > 0.0 && r.Ok? ==> r.value * (1.0 - v) == p && ValidProbability(r.value))
  {
    if 0.0 < v < 1.0 {
      QuotientBelowOne(p, 1.0 - v);
    }
  }

  lemma QuotientBelowOne(p: real, remaining: real)
    requires remaining > 0.0
    ensures ValidProbability(p / remaining) <==> 0.0 < p < remaining
    ensures p / remaining * remaining == p
  {
    var x := p / remaining;
    assert x * remaining == p;
    BelowOneIff(x, remaining, p);
  }

  /** A stake for these odds, chance and void mass. The rule answers exactly for odds above
      one, a possible win and a void mass that leaves room for a loss; it then takes a quarter
      of the Kelly fraction: the edge spread over what a loss costs at these odds. */
  ghost predicate StakedFor(r: Result<real, ValueError>, p: real, v: real, odds: real) {
    && (r.Ok? <==> odds > 1.0 && p > 0.0 && v >= 0.0 && p + v < 1.0)
    && (r.Ok? ==> IsQuarterKelly(r.value, p * (odds - 1.0) - (1.0 - v - p), 4.0 * (odds - 1.0) * (1.0 - v)))
  }

  lemma PlainStake(p: real, odds: real)
    ensures StakedFor(QuarterKelly(p, odds), p, 0.0, odds)
  {
    if ValidProbability(p) && ValidOdds(odds) {
      QuarterOfKelly(p, odds);
      assert 1.0 - 0.0 - p == 1.0 - p && 4.0 * (odds - 1.0) * (1.0 - 0.0) == 4.0 * (odds - 1.0);
    }
  }

  lemma VoidStake(p: real, v: real, odds: real)
    requires v != 0.0
    ensures StakedFor(QuarterKellyWithVoid(p, v, odds), p, v, odds)
  {
    ConditionalMeans(p, v);
    if ConditionalWinProbability(p, v).Ok? && ValidOdds(odds) {
      QuarterWithVoid(p, ConditionalWinProbability(p, v).value, odds, 1.0 - v);
    }
  }

  /** What a bet is staked follows from its own columns; without a void mass nothing voids. */
  lemma StakeIsQuarterKelly(bet: PricedBet)
    ensures StakedFor(
              StakeFraction(bet), bet.modelProb, if bet.pVoid.Some? then bet.pVoid.value else 0.0, bet.offeredDecimal)
  {
    if VoidMass(bet) == 0.0 {
      PlainStake(bet.modelProb, bet.offeredDecimal);
    } else {
      VoidStake(bet.modelProb, VoidMass(bet), bet.offeredDecimal);
    }
  }

  lemma SignOfProduct(x: real, factor: real, product: real)
    requires factor > 0.0 && x * factor == product
    ensures 0.0 < x <==> 0.0 < product
  {
  }

  lemma BelowOneIff(x: real, factor: real, product: real)
    requires factor > 0.0 && x * factor == product
    ensures 0.0 < x <==> 0.0 < product
    ensures x < 1.0 <==> product < factor
  {
    SignOfProduct(x, factor, product);
    assert (1.0 - x) * factor == factor - product;
    SignOfProduct(1.0 - x, factor, factor - product);
  }

  lemma QuarterOfKelly(p: real, odds: real)
    requires ValidProbability(p) && ValidOdds(odds)
    ensures IsQuarterKelly(Capped(KellyFraction(p, odds).value), p * (odds - 1.0) - (1.0 - p), 4.0 * (odds - 1.0))
  {
    var b := odds - 1.0;
    var edge := p * b - (1.0 - p);
    var kelly := edge / b;
    var k := kelly * 0.25;
    assert kelly * b == edge;
    assert k * (4.0 * b) == edge;
    CompareByUnit(k, 0.0, 4.0 * b);
    CompareByUnit(k, 0.01, 4.0 * b);
  }

  lemma CompareByUnit(k: real, x: real, unit: real)
    requires unit > 0.0
    ensures k < x <==> k * unit < x * unit
  {
    assert (x - k) * unit == x * unit - k * unit;
    SignOfProduct(x - k, unit, x * unit - k * unit);
  }

  lemma QuarterWithVoid(p: real, conditional: real, odds: real, remaining: real)
    requires remaining > 0.0 && conditional * remaining == p && ValidProbability(conditional) && ValidOdds(odds)
    ensures IsQuarterKelly(Capped(KellyFraction(conditional, odds).value),
                           p * (odds - 1.0) - (remaining - p), 4.0 * (odds - 1.0) * remaining)
  {
    QuarterOfKelly(conditional, odds);
    ScaledEdge(p, conditional, odds, remaining);
    ScaledQuarter(Capped(KellyFraction(conditional, odds).value),
                  conditional * (odds - 1.0) - (1.0 - conditional), 4.0 * (odds - 1.0), remaining);
  }

  lemma ScaledEdge(p: real, conditional: real, odds: real, remaining: real)
    requires conditional * remaining == p
    ensures (conditional * (odds - 1.0) - (1.0 - conditional)) * remaining == p * (odds - 1.0) - (remaining - p)
  {
  }

  lemma ScaledQuarter(stake: real, edge: real, unit: real, factor: real)
    requires factor > 0.0 && IsQuarterKelly(stake, edge, unit)
    ensures IsQuarterKelly(stake, edge * factor, unit * factor)
  {
    CompareByUnit(0.0, edge, factor);
    CompareByUnit(edge, 0.01 * unit, factor);
    assert 0.01 * (unit * factor) == (0.01 * unit) * factor;
    assert stake * unit == edge ==> stake * (unit * factor) == edge * factor;
  }

  lemma Scale(factor: real, x: real)
    requires factor > 0.0
    ensures factor * x > 0.0 <==> x > 0.0
  {
  }

  /** Profit of one unit on a settled bet; an unresolved bet has none. */
  function FlatUnitProfit(bet: PricedBet): Result<real, ValueError>
    requires !bet.settlement.Unresolved?
  {
    if !ValidOdds(bet.offeredDecimal) then Err(InvalidOdds)
    else
      Ok(match bet.settlement
         case Win => bet.offeredDecimal - 1.0
         case Loss => -1.0
         case Push => 0.0
         case Void => 0.0
         case Unresolved => 0.0)
  }
}
