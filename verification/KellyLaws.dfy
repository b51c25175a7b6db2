/** What the bankroll path guarantees: positivity, drawdown as a worst pair, and
    independence from the order in which bets arrive. */
module KellyLaws {
  import opened Prelude
  import opened Bets
  import opened Drawdown
  import opened KellyPath

  // ----- when the bankroll stays positive -----

  lemma {:induction false} ProductPositive(gains: seq<real>)
    requires forall i | 0 <= i < |gains| :: gains[i] > -1.0
    ensures Product(gains) > 0.0
  {
    if gains != [] {
      ProductPositive(Front(gains));
      GrowPositive(Product(Front(gains)), Last(gains));
    }
  }

  lemma GrowPositive(x: real, gain: real)
    requires 0.0 < x && -1.0 < gain
    ensures 0.0 < Grow(x, gain)
  {
  }

  function Settled(): PricedBet -> bool { (bet: PricedBet) => !bet.settlement.Unresolved? }

  /** A stake rule that never risks more than cap on one bet and never prices a loss. */
  ghost predicate CappedRule(stake: Staking, cap: real, bets: seq<PricedBet>) {
    forall b | b in bets && Settled()(b) && stake(b).Ok? ::
      0.0 <= stake(b).value <= cap && b.offeredDecimal > 1.0
  }

  lemma GrowthBound(stake: Staking, cap: real, bet: PricedBet)
    requires 0.0 <= cap && CappedRule(stake, cap, [bet])
    ensures Growth(stake)(bet) >= if Settled()(bet) then -cap else 0.0
  {
    assert bet in [bet];
  }

  lemma {:induction false} CardReturnBound(stake: Staking, cap: real, card: seq<PricedBet>)
    requires 0.0 <= cap && CappedRule(stake, cap, card)
    ensures CardReturn(stake, card) >= -cap * Count(Settled(), card) as real
  {
    if card != [] {
      var front := Front(card);
      CardReturnBound(stake, cap, front);
      assert Front(Map(Growth(stake), card)) == Map(Growth(stake), front);
      GrowthBound(stake, cap, Last(card));
      if Settled()(Last(card)) {
        assert Count(Settled(), card) == Count(Settled(), front) + 1;
        assert -cap * (Count(Settled(), front) as real + 1.0) == -cap * Count(Settled(), front) as real - cap;
      }
    }
  }

  lemma ProductionRuleIsCapped(bets: seq<PricedBet>)
    ensures CappedRule(StakeFraction, BANKROLL_CAP_FRACTION, bets)
  {
    forall b | b in bets && StakeFraction(b).Ok?
      ensures 0.0 <= StakeFraction(b).value <= BANKROLL_CAP_FRACTION && b.offeredDecimal > 1.0
    {
      StakeIsCappedAndPositiveOnlyOnEdge(b);
    }
  }

  lemma PrefixPositive(gains: seq<real>)
    requires forall i | 0 <= i < |gains| :: gains[i] > -1.0
    ensures Positive(Compound(gains)) && Compound(gains)[0] == 1.0
  {
    forall i | 0 <= i <= |gains|
      ensures Product(gains[..i]) > 0.0
    {
      ProductPositive(gains[..i]);
    }
  }

  ghost predicate SmallCards(bets: seq<PricedBet>, limit: nat) {
    forall k | k in Blocks(bets) :: Count(Settled(), Card(bets, k)) < limit
  }

  lemma CardGainAboveMinusOne(stake: Staking, bets: seq<PricedBet>, key: string)
    requires CappedRule(stake, 0.01, bets) && Count(Settled(), Card(bets, key)) < 100
    ensures CardReturn(stake, Card(bets, key)) > -1.0
  {
    var card := Card(bets, key);
    FilterMembers(InBlock(key), bets);
    CardReturnBound(stake, 0.01, card);
    var n := Count(Settled(), card) as real;
    assert n <= 99.0;
    assert -0.01 * n >= -0.99;
  }

  lemma PositivePathReadsAsWorstPair(path: seq<real>)
    requires path != [] && Positive(path)
    ensures WorstPair(Relative, path, PeakDrawdown(Relative, path))
    ensures 0.0 <= PeakDrawdown(Relative, path) < 1.0
  {
    NonNegativePathReads(path);
    RelativeBelowOneIffPositive(path);
  }

  /** With fewer than a hundred settled bets on every card the bankroll stays
      positive under the production stake rule, and the reported drawdown is the
      worst pair and lies in [0, 1). */
  lemma SmallCardsStayPositive(bets: seq<PricedBet>)
    requires SmallCards(bets, 100)
    ensures var path := BankrollPath(StakeFraction, bets);
            Positive(path) && WorstPair(Relative, path, PeakDrawdown(Relative, path))
            && 0.0 <= PeakDrawdown(Relative, path) < 1.0
  {
    ProductionRuleIsCapped(bets);
    PositiveUnder(StakeFraction, bets);
    PositivePathReadsAsWorstPair(BankrollPath(StakeFraction, bets));
  }

  lemma PositiveUnder(stake: Staking, bets: seq<PricedBet>)
    requires CappedRule(stake, 0.01, bets) && SmallCards(bets, 100)
    ensures Positive(BankrollPath(stake, bets)) && BankrollPath(stake, bets)[0] == 1.0
  {
    var order := Blocks(bets);
    var gains := Returns(stake, bets, order);
    forall i | 0 <= i < |gains|
      ensures gains[i] > -1.0
    {
      assert order[i] in order;
      CardGainAboveMinusOne(stake, bets, order[i]);
    }
    PrefixPositive(gains);
  }

  // ----- the limit is sharp -----

  function Repeat(bet: PricedBet, n: nat): seq<PricedBet> { seq(n, _ => bet) }

  lemma {:induction false} RepeatedLosses(stake: Staking, bet: PricedBet, n: nat)
    requires bet.settlement.Loss? && stake(bet) == Ok(0.01)
    ensures CardReturn(stake, Repeat(bet, n)) == -0.01 * n as real
  {
    if n > 0 {
      RepeatedLosses(stake, bet, n - 1);
      var bets := Repeat(bet, n);
      assert Front(bets) == Repeat(bet, n - 1);
      assert Front(Map(Growth(stake), bets)) == Map(Growth(stake), Front(bets));
    }
  }

  lemma {:induction false} ConstantFirstOccurrences(keys: seq<string>, key: string)
    requires keys != [] && forall i | 0 <= i < |keys| :: keys[i] == key
    ensures FirstOccurrences(keys) == [key]
  {
    var front := Front(keys);
    if front == [] {
      assert FirstOccurrences(front) == [];
    } else {
      ConstantFirstOccurrences(front, key);
    }
  }

  lemma RepeatIsOneCard(bet: PricedBet, n: nat)
    requires n > 0
    ensures Blocks(Repeat(bet, n)) == [bet.BlockId()] && Card(Repeat(bet, n), bet.BlockId()) == Repeat(bet, n)
  {
    FilterAll(InBlock(bet.BlockId()), Repeat(bet, n));
    ConstantFirstOccurrences(Map(BlockOf(), Repeat(bet, n)), bet.BlockId());
  }

  /** Exactly one hundred capped losses on one card take the whole bankroll. */
  lemma HundredLossesRuin(stake: Staking, bet: PricedBet)
    requires bet.settlement.Loss? && stake(bet) == Ok(0.01)
    ensures BankrollPath(stake, Repeat(bet, 100)) == [1.0, 0.0]
    ensures PeakDrawdown(Relative, [1.0, 0.0]) == 1.0
  {
    var bets := Repeat(bet, 100);
    RepeatIsOneCard(bet, 100);
    RepeatedLosses(stake, bet, 100);
    var gains := Returns(stake, bets, Blocks(bets));
    assert gains == [-1.0];
    assert gains[..0] == [] && gains[..1] == gains;
    assert Front(gains) == [] && Product(gains) == 0.0;
    assert Compound(gains) == [1.0, 0.0];
    assert Front([1.0, 0.0]) == [1.0];
  }

  /** The production rule does stake the full cap on a clear favourite. */
  lemma CapIsReached(bet: PricedBet)
    requires bet.modelProb == 0.8 && bet.offeredDecimal == 2.0 && bet.pVoid.None?
    ensures StakeFraction(bet) == Ok(0.01)
  {
    assert KellyFraction(0.8, 2.0) == Ok(0.6) by {
      assert (0.8 * 1.0 - (1.0 - 0.8)) / 1.0 == 0.6;
    }
  }

  // ----- order of arrival -----

  lemma RemoveAt<T>(xs: seq<T>, i: nat)
    requires i < |xs|
    ensures multiset(xs[..i] + xs[i + 1..]) == multiset(xs) - multiset{xs[i]}
  {
    assert xs == xs[..i] + [xs[i]] + xs[i + 1..];
  }

  lemma SumRemoveAt(f: PricedBet -> real, xs: seq<PricedBet>, i: nat)
    requires i < |xs|
    ensures Sum(Map(f, xs)) == Sum(Map(f, xs[..i] + xs[i + 1..])) + f(xs[i])
  {
    var a, b := Map(f, xs[..i]), Map(f, xs[i + 1..]);
    var all := Map(f, xs);
    assert all == (a + [f(xs[i])]) + b;
    SumAppend(a + [f(xs[i])], b);
    SumAppend(a, b);
    assert Front(a + [f(xs[i])]) == a;
    assert Map(f, xs[..i] + xs[i + 1..]) == a + b;
  }

  lemma {:induction false} SumPermutation(f: PricedBet -> real, xs: seq<PricedBet>, ys: seq<PricedBet>)
    requires multiset(xs) == multiset(ys)
    ensures Sum(Map(f, xs)) == Sum(Map(f, ys))
    decreases |xs|
  {
    assert |xs| == |multiset(xs)| == |multiset(ys)| == |ys|;
    if xs != [] {
      var i := PartnerOfLast(xs, ys);
      SumRemoveAt(f, ys, i);
      SumLast(f, xs);
      SumPermutation(f, Front(xs), ys[..i] + ys[i + 1..]);
    }
  }

  lemma SumLast(f: PricedBet -> real, xs: seq<PricedBet>)
    requires xs != []
    ensures Sum(Map(f, xs)) == Sum(Map(f, Front(xs))) + f(Last(xs))
  {
    assert Front(Map(f, xs)) == Map(f, Front(xs));
  }

  /** Where the last member of a sequence sits in a permutation of it. */
  lemma PartnerOfLast(xs: seq<PricedBet>, ys: seq<PricedBet>) returns (i: nat)
    requires xs != [] && multiset(xs) == multiset(ys)
    ensures i < |ys| && ys[i] == Last(xs)
    ensures multiset(Front(xs)) == multiset(ys[..i] + ys[i + 1..])
  {
    var x := Last(xs);
    assert x in multiset(xs);
    assert x in multiset(ys);
    i :| 0 <= i < |ys| && ys[i] == x;
    RemoveAt(ys, i);
    RemoveAt(xs, |xs| - 1);
    assert xs[..|xs| - 1] + xs[|xs|..] == Front(xs);
  }

  lemma CardReturnPermutation(stake: Staking, xs: seq<PricedBet>, ys: seq<PricedBet>, key: string)
    requires multiset(xs) == multiset(ys)
    ensures CardReturn(stake, Card(xs, key)) == CardReturn(stake, Card(ys, key))
  {
    forall b
      ensures multiset(Card(xs, key))[b] == multiset(Card(ys, key))[b]
    {
      FilterMultiset(InBlock(key), xs, b);
      FilterMultiset(InBlock(key), ys, b);
    }
    assert multiset(Card(xs, key)) == multiset(Card(ys, key));
    SumPermutation(Growth(stake), Card(xs, key), Card(ys, key));
  }

  /** Any reordering or interleaving of the bets that keeps the order in which
      cards first appear leaves the path, and so the drawdown, unchanged. */
  lemma PathIgnoresInterleaving(stake: Staking, xs: seq<PricedBet>, ys: seq<PricedBet>)
    requires multiset(xs) == multiset(ys) && Blocks(xs) == Blocks(ys)
    ensures BankrollPath(stake, xs) == BankrollPath(stake, ys)
  {
    var order := Blocks(xs);
    forall i | 0 <= i < |order|
      ensures CardReturn(stake, Card(xs, order[i])) == CardReturn(stake, Card(ys, order[i]))
    {
      CardReturnPermutation(stake, xs, ys, order[i]);
    }
    assert Returns(stake, xs, order) == Returns(stake, ys, order);
  }

  /** The path has one point per distinct card after the start, each obtained from
      the one before by that card's own return. */
  lemma PathShape(stake: Staking, bets: seq<PricedBet>, i: nat)
    requires i < |Blocks(bets)|
    ensures var path := BankrollPath(stake, bets);
            && |path| == |Blocks(bets)| + 1 && path[0] == 1.0
            && path[i + 1] == Grow(path[i], CardReturn(stake, Card(bets, Blocks(bets)[i])))
  {
    var gains := Returns(stake, bets, Blocks(bets));
    Prefix(gains, i);
    assert gains[..0] == [];
  }

  // ----- one more card -----

  /** A whole new card at the end adds one point to the path. */
  lemma AppendCard(stake: Staking, bets: seq<PricedBet>, card: seq<PricedBet>, key: string)
    requires card != [] && (forall b | b in card :: b.BlockId() == key)
    requires forall b | b in bets :: b.BlockId() != key
    ensures Returns(stake, bets + card, Blocks(bets + card))
         == Returns(stake, bets, Blocks(bets)) + [CardReturn(stake, card)]
  {
    BlocksAppend(bets, card, key);
    var order := Blocks(bets);
    FirstOccurrencesDistinct(Map(BlockOf(), bets));
    forall k
      ensures Card(bets + card, k) == if k == key then card else Card(bets, k)
    {
      FilterAppend(InBlock(k), bets, card);
      if k == key {
        FilterAll(InBlock(k), card);
        FilterNone(InBlock(k), bets);
      } else {
        FilterNone(InBlock(k), card);
      }
    }
    forall i | 0 <= i < |order|
      ensures order[i] != key
    {
      assert order[i] in Map(BlockOf(), bets);
    }
  }

  lemma {:induction false} BlocksAppend(bets: seq<PricedBet>, card: seq<PricedBet>, key: string)
    requires card != [] && (forall b | b in card :: b.BlockId() == key)
    requires forall b | b in bets :: b.BlockId() != key
    ensures Blocks(bets + card) == Blocks(bets) + [key]
  {
    var all := Map(BlockOf(), bets + card);
    assert Front(all) == Map(BlockOf(), bets + Front(card)) && Last(all) == key;
    if |card| == 1 {
      assert bets + Front(card) == bets;
      FirstOccurrencesDistinct(Map(BlockOf(), bets));
    } else {
      BlocksAppend(bets, Front(card), key);
    }
  }
}
