/** The bankroll of a bettor who stakes card by card, and its drawdown. The stake
    rule is a parameter; Bets.StakeFraction is the one the backtest uses. */
module KellyPath {
  import opened Prelude
  import opened Grouping
  import opened Bets
  import opened Drawdown

  type Staking = PricedBet -> Result<real, ValueError>

  // ----- what the path means -----

  function BlockOf(): PricedBet -> string { (bet: PricedBet) => bet.BlockId() }

  function InBlock(key: string): PricedBet -> bool { (bet: PricedBet) => bet.BlockId() == key }

  function Blocks(bets: seq<PricedBet>): seq<string> { FirstOccurrences(Map(BlockOf(), bets)) }

  function Card(bets: seq<PricedBet>, key: string): seq<PricedBet> { Filter(InBlock(key), bets) }

  predicate Stakeable(stake: Staking, bet: PricedBet) { bet.settlement.Unresolved? || stake(bet).Ok? }

  function Stake(stake: Staking, bet: PricedBet): real {
    if bet.settlement.Unresolved? || stake(bet).Err? then 0.0 else stake(bet).value
  }

  function ReturnPerUnit(bet: PricedBet): real {
    match bet.settlement
    case Win => bet.offeredDecimal - 1.0
    case Loss => -1.0
    case _ => 0.0
  }

  /** What one bet adds to a unit bankroll. */
  function Growth(stake: Staking): PricedBet -> real {
    (bet: PricedBet) => Stake(stake, bet) * ReturnPerUnit(bet)
  }

  function CardReturn(stake: Staking, card: seq<PricedBet>): real { Sum(Map(Growth(stake), card)) }

  /** What each card adds to a unit bankroll, in the order in which cards first appear. */
  function Returns(stake: Staking, bets: seq<PricedBet>, order: seq<string>): (r: seq<real>)
    ensures |r| == |order|
  {
    seq(|order|, i requires 0 <= i < |order| => CardReturn(stake, Card(bets, order[i])))
  }

  function Grow(bankroll: real, gain: real): real { bankroll * (1.0 + gain) }

  /** A unit bankroll after these card returns. */
  function Product(gains: seq<real>): real {
    if gains == [] then 1.0 else Grow(Product(Front(gains)), Last(gains))
  }

  /** One point before any card and one after each card. */
  function Compound(gains: seq<real>): seq<real> {
    seq(|gains| + 1, i requires 0 <= i <= |gains| => Product(gains[..i]))
  }

  function BankrollPath(stake: Staking, bets: seq<PricedBet>): seq<real> {
    Compound(Returns(stake, bets, Blocks(bets)))
  }

  // ----- the loop -----

  ghost predicate Grouped(bets: seq<PricedBet>, byEvent: map<string, seq<PricedBet>>, order: seq<string>) {
    GroupedBy(BlockOf(), InBlock, bets, byEvent, order)
  }

  method Group(bets: seq<PricedBet>) returns (byEvent: map<string, seq<PricedBet>>, order: seq<string>)
    ensures Grouped(bets, byEvent, order)
  {
    byEvent, order := map[], [];
    for i := 0 to |bets|
      invariant Grouped(bets[..i], byEvent, order)
    {
      var key := bets[i].BlockId();
      GroupStep(BlockOf(), InBlock, bets, i, byEvent, order);
      var block := if key in byEvent then byEvent[key] else [];
      if key !in byEvent {
        order := order + [key];
      }
      byEvent := byEvent[key := block + [bets[i]]];
    }
    assert bets[..|bets|] == bets;
  }

  /** Profit of a bankroll at a return per unit. */
  function Times(bankroll: real, perUnit: real): real { bankroll * perUnit }

  lemma CardReturnStep(stake: Staking, card: seq<PricedBet>, i: nat, start: real)
    requires i < |card|
    ensures Times(start, CardReturn(stake, card[..i + 1]))
         == Times(start, CardReturn(stake, card[..i])) + Times(Stake(stake, card[i]) * start, ReturnPerUnit(card[i]))
    ensures card[i].settlement.Unresolved? ==>
              Times(start, CardReturn(stake, card[..i + 1])) == Times(start, CardReturn(stake, card[..i]))
  {
    Prefix(card, i);
    assert Front(Map(Growth(stake), card[..i + 1])) == Map(Growth(stake), card[..i]);
    Distribute(start, CardReturn(stake, card[..i]), Stake(stake, card[i]), ReturnPerUnit(card[i]));
  }

  lemma Distribute(start: real, soFar: real, fraction: real, perUnit: real)
    ensures start * (soFar + fraction * perUnit) == start * soFar + (fraction * start) * perUnit
  {
  }

  method BetPnl(bet: PricedBet, stakeUnits: real) returns (pnl: real)
    requires !bet.settlement.Unresolved?
    ensures pnl == Times(stakeUnits, ReturnPerUnit(bet))
  {
    pnl := 0.0;
    match bet.settlement {
      case Win => pnl := pnl + stakeUnits * (bet.offeredDecimal - 1.0);
      case Loss => pnl := pnl - stakeUnits;
      case Push =>
      case Void =>
    }
  }

  /** All bets on one card are staked from the bankroll at the start of the card. */
  method CardPnl(stake: Staking, card: seq<PricedBet>, cardStart: real) returns (r: Result<real, ValueError>)
    ensures r.Ok? <==> forall b | b in card :: Stakeable(stake, b)
    ensures r.Ok? ==> cardStart + r.value == After(cardStart, CardReturn(stake, card))
    ensures r.Err? ==> exists b | b in card :: !Stakeable(stake, b) && stake(b) == Err(r.error)
  {
    var pnl := 0.0;
    for i := 0 to |card|
      invariant forall j | 0 <= j < i :: Stakeable(stake, card[j])
      invariant pnl == Times(cardStart, CardReturn(stake, card[..i]))
    {
      var bet := card[i];
      CardReturnStep(stake, card, i, cardStart);
      if bet.settlement.Unresolved? {
        continue;
      }
      var fraction := stake(bet);
      if fraction.Err? {
        assert !Stakeable(stake, card[i]);
        return Err(fraction.error);
      }
      var betPnl := BetPnl(bet, fraction.value * cardStart);
      pnl := pnl + betPnl;
    }
    assert card[..|card|] == card;
    r := Ok(pnl);
  }

  lemma CompoundStep(gains: seq<real>, i: nat)
    requires i < |gains|
    ensures var before := Compound(gains[..i]);
            Compound(gains[..i + 1]) == before + [After(Last(before), gains[i])]
  {
    Prefix(gains, i);
    var before, after := Compound(gains[..i]), Compound(gains[..i + 1]);
    assert |after| == i + 2 && |before| == i + 1;
    forall j | 0 <= j <= i
      ensures before[j] == after[j]
    {
      assert gains[..i][..j] == gains[..i + 1][..j];
    }
    assert gains[..i + 1][..i + 1] == gains[..i + 1] && gains[..i][..i] == gains[..i];
    assert Last(before) == Product(gains[..i]);
    assert Last(after) == Product(gains[..i + 1]) == Grow(Last(before), gains[i]);
    Rescale(Last(before), gains[i]);
    var next := After(Last(before), gains[i]);
    assert Last(after) == next;
    assert Front(after) == before;
    assert after == before + [next];
  }

  /** The bankroll after a card that returns growth per unit. */
  function After(bankroll: real, growth: real): real { bankroll + bankroll * growth }

  lemma Rescale(x: real, f: real)
    ensures Grow(x, f) == After(x, f)
  {
  }

  ghost predicate AllStakeable(stake: Staking, card: seq<PricedBet>) {
    forall b | b in card :: Stakeable(stake, b)
  }

  /** The bets can all be staked when those of every card can. */
  lemma CardsCoverTheBets(
    stake: Staking, bets: seq<PricedBet>, byEvent: map<string, seq<PricedBet>>, order: seq<string>)
    requires Grouped(bets, byEvent, order)
    ensures (forall j | 0 <= j < |order| :: AllStakeable(stake, byEvent[order[j]])) ==> AllStakeable(stake, bets)
    ensures forall k, b | k in byEvent && b in byEvent[k] :: b in bets
  {
    forall b | b in bets
      ensures exists j :: 0 <= j < |order| && b in byEvent[order[j]]
    {
      FilterMembers(InBlock(b.BlockId()), bets);
      KeyInGroups(BlockOf(), InBlock, bets, byEvent, order, b);
      var j :| 0 <= j < |order| && order[j] == b.BlockId();
      assert b in byEvent[order[j]];
    }
    forall k, b | k in byEvent && b in byEvent[k]
      ensures b in bets
    {
      FilterMembers(InBlock(k), bets);
    }
  }

  /** The running variables of the loop. */
  datatype Curve = Curve(path: seq<real>, bankroll: real, peak: real, maxDd: real)

  function NextPoint(c: Curve, bankroll: real): Curve {
    var peak := Larger(c.peak, bankroll);
    Curve(c.path + [bankroll], bankroll, peak, Larger(c.maxDd, Relative(peak, bankroll)))
  }

  function CurveOf(gains: seq<real>): Curve {
    if gains == [] then Curve([1.0], 1.0, 1.0, 0.0) else
      var before := CurveOf(Front(gains));
      NextPoint(before, After(before.bankroll, Last(gains)))
  }

  ghost predicate Tracks(c: Curve, path: seq<real>)
    requires path != []
  {
    c.path == path && c.bankroll == Last(path) && c.peak == Peak(path) && c.maxDd == PeakDrawdown(Relative, path)
  }

  lemma TrackStep(c: Curve, path: seq<real>, bankroll: real)
    requires path != [] && Tracks(c, path)
    ensures Tracks(NextPoint(c, bankroll), path + [bankroll])
  {
    assert Front(path + [bankroll]) == path;
  }

  /** The running variables are the compounded path, its last point, its peak and its
      running-peak drawdown. */
  lemma {:induction false} CurveMeaning(gains: seq<real>)
    ensures Tracks(CurveOf(gains), Compound(gains))
  {
    if gains == [] {
      assert Compound(gains) == [1.0];
    } else {
      CurveMeaning(Front(gains));
      CompoundStep(gains, |gains| - 1);
      assert gains[..|gains|] == gains;
      TrackStep(CurveOf(Front(gains)), Compound(Front(gains)), After(CurveOf(Front(gains)).bankroll, Last(gains)));
    }
  }

  lemma CurveStep(gains: seq<real>, i: nat)
    requires i < |gains|
    ensures CurveOf(gains[..i + 1]) == NextPoint(CurveOf(gains[..i]), After(CurveOf(gains[..i]).bankroll, gains[i]))
    ensures CurveOf(gains[..i]).maxDd >= 0.0
  {
    Prefix(gains, i);
    DrawdownNonnegative(gains[..i]);
  }

  lemma {:induction false} DrawdownNonnegative(gains: seq<real>)
    ensures CurveOf(gains).maxDd >= 0.0
  {
    if gains != [] {
      DrawdownNonnegative(Front(gains));
    }
  }

  /** The guard keeps the division defined; from a start of one the peak is never lower. */
  method RecordBankroll(bankroll: real, peak: real, maxDd: real) returns (newPeak: real, newMax: real)
    requires maxDd >= 0.0
    ensures newPeak == Larger(peak, bankroll) && newMax == Larger(maxDd, Relative(newPeak, bankroll))
  {
    newPeak, newMax := peak, maxDd;
    if bankroll > newPeak {
      newPeak := bankroll;
    }
    if newPeak > 0.0 {
      var drawdown := (newPeak - bankroll) / newPeak;
      if drawdown > newMax {
        newMax := drawdown;
      }
    }
  }

  /** The loop over the cards, in the order given. */
  method CompoundCards(
    stake: Staking, byEvent: map<string, seq<PricedBet>>, order: seq<string>, ghost gains: seq<real>)
    returns (r: Result<(seq<real>, real), ValueError>)
    requires |gains| == |order| && forall j | 0 <= j < |order| :: order[j] in byEvent
    requires forall j | 0 <= j < |order| :: gains[j] == CardReturn(stake, byEvent[order[j]])
    ensures r.Ok? <==> forall j | 0 <= j < |order| :: AllStakeable(stake, byEvent[order[j]])
    ensures r.Ok? ==> r.value == (CurveOf(gains).path, CurveOf(gains).maxDd)
    ensures r.Err? ==> exists j, b ::
              0 <= j < |order| && b in byEvent[order[j]] && !Stakeable(stake, b) && stake(b) == Err(r.error)
  {
    var bankroll, peak, maxDd := 1.0, 1.0, 0.0;
    var path := [bankroll];
    for i := 0 to |order|
      invariant Curve(path, bankroll, peak, maxDd) == CurveOf(gains[..i])
      invariant forall j | 0 <= j < i :: AllStakeable(stake, byEvent[order[j]])
    {
      CurveStep(gains, i);
      var cardStart := bankroll;
      var card := CardPnl(stake, byEvent[order[i]], cardStart);
      if card.Err? {
        return Err(card.error);
      }
      bankroll := cardStart + card.value;
      assert bankroll == After(cardStart, gains[i]);
      path := path + [bankroll];
      peak, maxDd := RecordBankroll(bankroll, peak, maxDd);
    }
    assert gains[..|order|] == gains;
    r := Ok((path, maxDd));
  }

  method KellyBankrollPath(stake: Staking, bets: seq<PricedBet>) returns (r: Result<(seq<real>, real), ValueError>)
    ensures r.Ok? <==> forall b | b in bets :: Stakeable(stake, b)
    ensures r.Ok? ==> r.value == (BankrollPath(stake, bets), PeakDrawdown(Relative, BankrollPath(stake, bets)))
    ensures r.Err? ==> exists b | b in bets :: !Stakeable(stake, b) && stake(b) == Err(r.error)
  {
    var byEvent, order := Group(bets);
    ghost var gains := Returns(stake, bets, order);
    CardsCoverTheBets(stake, bets, byEvent, order);
    CurveMeaning(gains);
    r := CompoundCards(stake, byEvent, order, gains);
  }
}
