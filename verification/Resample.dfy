/** Event-block resampling: whole cards are drawn with replacement and every draw
    becomes a card of its own. */
module Resample {
  import opened Prelude
  import opened Grouping
  import opened Bets
  import opened KellyPath
  import opened KellyLaws
  import opened BettingTotals

  // ----- event blocks -----

  function EventOf(): PricedBet -> string { (bet: PricedBet) => bet.eventId }

  function InEvent(id: string): PricedBet -> bool { (bet: PricedBet) => bet.eventId == id }

  function EventIds(bets: seq<PricedBet>): seq<string> { FirstOccurrences(Map(EventOf(), bets)) }

  function EventBlock(bets: seq<PricedBet>, id: string): seq<PricedBet> { Filter(InEvent(id), bets) }

  ghost predicate IsBlocks(bets: seq<PricedBet>, blocks: map<string, seq<PricedBet>>) {
    && (forall id :: id in blocks <==> id in EventIds(bets))
    && (forall id | id in blocks :: blocks[id] == EventBlock(bets, id) && blocks[id] != [])
  }

  function BlockMap(bets: seq<PricedBet>): map<string, seq<PricedBet>> {
    map id | id in EventIds(bets) :: EventBlock(bets, id)
  }

  lemma BlocksAreTheMap(bets: seq<PricedBet>, blocks: map<string, seq<PricedBet>>)
    requires IsBlocks(bets, blocks)
    ensures blocks == BlockMap(bets)
  {
  }

  lemma GroupsAreBlocks(bets: seq<PricedBet>, blocks: map<string, seq<PricedBet>>)
    requires GroupedBy(EventOf(), InEvent, bets, blocks, EventIds(bets))
    ensures IsBlocks(bets, blocks)
  {
    FirstOccurrencesDistinct(Map(EventOf(), bets));
    forall id | id in blocks
      ensures blocks[id] != []
    {
      var i :| 0 <= i < |bets| && Map(EventOf(), bets)[i] == id;
      FilterMembers(InEvent(id), bets);
      assert bets[i] in blocks[id];
    }
  }

  method EventBlocks(bets: seq<PricedBet>) returns (blocks: map<string, seq<PricedBet>>)
    ensures IsBlocks(bets, blocks)
  {
    blocks := map[];
    for i := 0 to |bets|
      invariant GroupedBy(EventOf(), InEvent, bets[..i], blocks, EventIds(bets[..i]))
    {
      GroupStep(EventOf(), InEvent, bets, i, blocks, EventIds(bets[..i]));
      var id := bets[i].eventId;
      var block := if id in blocks then blocks[id] else [];
      blocks := blocks[id := block + [bets[i]]];
    }
    assert bets[..|bets|] == bets;
    GroupsAreBlocks(bets, blocks);
  }

  function BlockSizes(bets: seq<PricedBet>, ids: seq<string>, b: PricedBet): nat {
    if ids == [] then 0
    else BlockSizes(bets, Front(ids), b) + multiset(EventBlock(bets, Last(ids)))[b]
  }

  lemma {:induction false} OccurrencesInBlocks(bets: seq<PricedBet>, ids: seq<string>, b: PricedBet)
    requires Distinct(ids)
    ensures BlockSizes(bets, ids, b) == if b.eventId in ids then multiset(bets)[b] else 0
  {
    if ids != [] {
      FrontDistinct(ids);
      OccurrencesInBlocks(bets, Front(ids), b);
      FilterMultiset(InEvent(Last(ids)), bets, b);
      Split(ids);
    }
  }

  /** The blocks partition the bets: every bet occurs in the blocks exactly as often
      as in the input, counted over all distinct events. */
  lemma BlocksPartitionBets(bets: seq<PricedBet>, b: PricedBet)
    ensures BlockSizes(bets, EventIds(bets), b) == multiset(bets)[b]
  {
    var ids := Map(EventOf(), bets);
    FirstOccurrencesDistinct(ids);
    OccurrencesInBlocks(bets, EventIds(bets), b);
    if b in bets {
      var j :| 0 <= j < |bets| && bets[j] == b;
      assert ids[j] == b.eventId;
    }
  }

  // ----- occurrence tags -----

  function Digit(d: nat): char
    requires d < 10
  {
    "0123456789"[d]
  }

  function Decimal(n: nat): (s: string)
    ensures s != [] && (|s| == 1 <==> n < 10)
  {
    if n < 10 then [Digit(n)] else Decimal(n / 10) + [Digit(n % 10)]
  }

  function Tag(id: string, index: nat): string { id + "#" + Decimal(index) }

  lemma {:induction false} DecimalHasNoHash(n: nat)
    ensures '#' !in Decimal(n)
  {
    if n >= 10 {
      DecimalHasNoHash(n / 10);
    }
  }

  lemma {:induction false} DecimalInjective(m: nat, n: nat)
    requires Decimal(m) == Decimal(n)
    ensures m == n
  {
    assert Last(Decimal(m)) == Digit(m % 10) && Last(Decimal(n)) == Digit(n % 10);
    assert m % 10 == n % 10;
    if m >= 10 && n >= 10 {
      assert Front(Decimal(m)) == Decimal(m / 10) && Front(Decimal(n)) == Decimal(n / 10);
      DecimalInjective(m / 10, n / 10);
    }
  }

  lemma LastHashSplits(a: string, x: string, b: string, y: string)
    requires a + "#" + x == b + "#" + y && '#' !in x && '#' !in y
    ensures a == b && x == y
  {
    var s := a + "#" + x;
    forall k | |a| < k < |s|
      ensures s[k] != '#'
    {
      assert s[k] == x[k - |a| - 1];
    }
    forall k | |b| < k < |s|
      ensures s[k] != '#'
    {
      assert s[k] == y[k - |b| - 1];
    }
    assert s[|a|] == '#' && s[|b|] == '#';
    assert |a| == |b|;
    assert s[..|a|] == a && s[..|b|] == b;
    assert s[|a| + 1..] == x && s[|b| + 1..] == y;
  }

  /** The tag determines both the event and the draw, whatever the event id contains. */
  lemma TagInjective(a: string, i: nat, b: string, j: nat)
    requires Tag(a, i) == Tag(b, j)
    ensures a == b && i == j
  {
    DecimalHasNoHash(i);
    DecimalHasNoHash(j);
    LastHashSplits(a, Decimal(i), b, Decimal(j));
    DecimalInjective(i, j);
  }

  /** How draws are told apart. */
  type Tagging = (string, nat) -> string

  /** Tags are never empty and determine both the event and the draw. */
  ghost predicate Injective(tag: Tagging) {
    && (forall id: string, index: nat :: tag(id, index) != "")
    && forall a: string, i: nat, b: string, j: nat :: tag(a, i) == tag(b, j) ==> a == b && i == j
  }

  lemma TagsAreInjective()
    ensures Injective(Tag)
  {
    forall a: string, i: nat, b: string, j: nat | Tag(a, i) == Tag(b, j)
      ensures a == b && i == j
    {
      TagInjective(a, i, b, j);
    }
  }

  // ----- one replicate -----

  function Tagged(tag: string): PricedBet -> PricedBet {
    (bet: PricedBet) => bet.(blockOccurrenceId := Some(tag))
  }

  function TaggedBlock(tag: Tagging, blocks: map<string, seq<PricedBet>>, id: string, index: nat): seq<PricedBet> {
    if id in blocks then Map(Tagged(tag(id, index)), blocks[id]) else []
  }

  function Replicate(tag: Tagging, blocks: map<string, seq<PricedBet>>, drawn: seq<string>): seq<PricedBet> {
    if drawn == [] then [] else
      Replicate(tag, blocks, Front(drawn)) + TaggedBlock(tag, blocks, Last(drawn), |drawn| - 1)
  }

  /** Appends a block, each bet marked with the occurrence. */
  method AppendTagged(before: seq<PricedBet>, block: seq<PricedBet>, occurrence: string) returns (out: seq<PricedBet>)
    ensures out == before + Map(Tagged(occurrence), block)
  {
    out := before;
    for j := 0 to |block|
      invariant |out| == |before| + j && out[..|before|] == before
      invariant forall k | 0 <= k < j :: out[|before| + k] == Tagged(occurrence)(block[k])
    {
      out := out + [block[j].(blockOccurrenceId := Some(occurrence))];
    }
  }

  method ResampleEventBlocks(blocks: map<string, seq<PricedBet>>, drawn: seq<string>)
    returns (out: seq<PricedBet>)
    requires forall id | id in drawn :: id in blocks
    ensures out == Replicate(Tag, blocks, drawn)
  {
    out := [];
    for index := 0 to |drawn|
      invariant out == Replicate(Tag, blocks, drawn[..index])
    {
      Prefix(drawn, index);
      var occurrence := Tag(drawn[index], index);
      out := AppendTagged(out, blocks[drawn[index]], occurrence);
    }
    assert drawn[..|drawn|] == drawn;
  }

  /** The stake on a bet does not depend on which occurrence of its card it sits on. */
  ghost predicate OccurrenceBlind(stake: Staking) {
    forall b: PricedBet, tag: string :: stake(b.(blockOccurrenceId := Some(tag))) == stake(b)
  }

  lemma ProductionRuleIsOccurrenceBlind()
    ensures OccurrenceBlind(StakeFraction)
  {
  }

  lemma {:induction false} ReplicateTags(tag: Tagging, blocks: map<string, seq<PricedBet>>, drawn: seq<string>)
    requires Injective(tag)
    ensures forall b | b in Replicate(tag, blocks, drawn) ::
              exists i :: 0 <= i < |drawn| && b.BlockId() == tag(drawn[i], i)
  {
    if drawn != [] {
      ReplicateTags(tag, blocks, Front(drawn));
      var last := |drawn| - 1;
      forall b | b in Replicate(tag, blocks, drawn)
        ensures exists i :: 0 <= i < |drawn| && b.BlockId() == tag(drawn[i], i)
      {
        if b in Replicate(tag, blocks, Front(drawn)) {
          var i :| 0 <= i < last && b.BlockId() == tag(Front(drawn)[i], i);
          assert b.BlockId() == tag(drawn[i], i);
        } else {
          assert b in TaggedBlock(tag, blocks, drawn[last], last);
          assert b.BlockId() == tag(drawn[last], last);
        }
      }
    }
  }

  lemma {:induction false} QualifyingTagged(bets: seq<PricedBet>, tag: string)
    ensures Qualifying(Map(Tagged(tag), bets)) == Map(Tagged(tag), Qualifying(bets))
  {
    var tagged := Map(Tagged(tag), bets);
    if bets != [] {
      QualifyingTagged(Front(bets), tag);
      assert Front(tagged) == Map(Tagged(tag), Front(bets));
    }
  }

  lemma GrowthTagged(stake: Staking, bet: PricedBet, tag: string)
    requires OccurrenceBlind(stake)
    ensures Growth(stake)(Tagged(tag)(bet)) == Growth(stake)(bet)
  {
    assert stake(bet.(blockOccurrenceId := Some(tag))) == stake(bet);
  }

  lemma CardReturnTagged(stake: Staking, bets: seq<PricedBet>, tag: string)
    requires OccurrenceBlind(stake)
    ensures CardReturn(stake, Map(Tagged(tag), bets)) == CardReturn(stake, bets)
  {
    var tagged := Map(Tagged(tag), bets);
    forall i | 0 <= i < |bets|
      ensures Growth(stake)(tagged[i]) == Growth(stake)(bets[i])
    {
      GrowthTagged(stake, bets[i], tag);
    }
    assert Map(Growth(stake), tagged) == Map(Growth(stake), bets);
  }

  function DrawnGains(stake: Staking, blocks: map<string, seq<PricedBet>>, drawn: seq<string>): (r: seq<real>)
    ensures |r| == |drawn|
  {
    seq(|drawn|, i requires 0 <= i < |drawn| =>
      if drawn[i] in blocks then CardReturn(stake, Qualifying(blocks[drawn[i]])) else 0.0)
  }

  function Final(stake: Staking, bets: seq<PricedBet>): real { Last(BankrollPath(stake, bets)) }

  lemma FinalPoint(stake: Staking, bets: seq<PricedBet>)
    ensures Final(stake, bets) == Product(Returns(stake, bets, Blocks(bets)))
  {
    var gains := Returns(stake, bets, Blocks(bets));
    assert gains[..|gains|] == gains;
  }

  /** A card at the end multiplies the final bankroll by its own growth. */
  lemma FinalAfterCard(stake: Staking, bets: seq<PricedBet>, card: seq<PricedBet>, key: string)
    requires (forall b | b in card :: b.BlockId() == key) && forall b | b in bets :: b.BlockId() != key
    ensures Final(stake, bets + card) == Grow(Final(stake, bets), CardReturn(stake, card))
  {
    FinalPoint(stake, bets);
    FinalPoint(stake, bets + card);
    if card == [] {
      assert bets + card == bets;
      assert CardReturn(stake, card) == 0.0;
    } else {
      AppendCard(stake, bets, card, key);
      var gains := Returns(stake, bets, Blocks(bets));
      assert Front(gains + [CardReturn(stake, card)]) == gains;
    }
  }

  lemma TaggedCardReturn(tag: Tagging, stake: Staking, blocks: map<string, seq<PricedBet>>, id: string, index: nat)
    requires OccurrenceBlind(stake) && id in blocks
    ensures CardReturn(stake, Qualifying(TaggedBlock(tag, blocks, id, index)))
         == CardReturn(stake, Qualifying(blocks[id]))
  {
    QualifyingTagged(blocks[id], tag(id, index));
    CardReturnTagged(stake, Qualifying(blocks[id]), tag(id, index));
  }

  lemma LastGain(stake: Staking, blocks: map<string, seq<PricedBet>>, drawn: seq<string>)
    requires drawn != [] && Last(drawn) in blocks
    ensures Product(DrawnGains(stake, blocks, drawn))
         == Grow(Product(DrawnGains(stake, blocks, Front(drawn))), CardReturn(stake, Qualifying(blocks[Last(drawn)])))
  {
    assert Front(DrawnGains(stake, blocks, drawn)) == DrawnGains(stake, blocks, Front(drawn));
  }

  lemma QualifyingReplicate(tag: Tagging, blocks: map<string, seq<PricedBet>>, drawn: seq<string>)
    requires drawn != []
    ensures Qualifying(Replicate(tag, blocks, drawn))
         == Qualifying(Replicate(tag, blocks, Front(drawn)))
            + Qualifying(TaggedBlock(tag, blocks, Last(drawn), |drawn| - 1))
  {
    FilterAppend(Qualifies(), Replicate(tag, blocks, Front(drawn)), TaggedBlock(tag, blocks, Last(drawn), |drawn| - 1));
  }

  /** The bankroll a replicate ends with is the product of the growth of the drawn
      cards, a card counted as often as it is drawn. */
  lemma {:induction false} ReplicateCompoundsDrawnCards(
    tag: Tagging, stake: Staking, blocks: map<string, seq<PricedBet>>, drawn: seq<string>)
    requires Injective(tag)
    requires OccurrenceBlind(stake) && forall id | id in drawn :: id in blocks
    ensures Final(stake, Qualifying(Replicate(tag, blocks, drawn))) == Product(DrawnGains(stake, blocks, drawn))
  {
    if drawn == [] {
      FinalPoint(stake, []);
      assert Returns(stake, [], Blocks([])) == [];
    } else {
      var front, id, last := Front(drawn), Last(drawn), |drawn| - 1;
      ReplicateCompoundsDrawnCards(tag, stake, blocks, front);
      QualifyingReplicate(tag, blocks, drawn);
      EarlierTagsDiffer(tag, blocks, drawn);
      FinalAfterCard(stake, Qualifying(Replicate(tag, blocks, front)),
                     Qualifying(TaggedBlock(tag, blocks, id, last)), tag(id, last));
      TaggedCardReturn(tag, stake, blocks, id, last);
      LastGain(stake, blocks, drawn);
    }
  }

  lemma OtherDrawsHaveOtherTags(
    tag: Tagging, blocks: map<string, seq<PricedBet>>, drawn: seq<string>, id: string, index: nat)
    requires Injective(tag)
    requires |drawn| <= index
    ensures forall b | b in Replicate(tag, blocks, drawn) :: b.BlockId() != tag(id, index)
  {
    ReplicateTags(tag, blocks, drawn);
    forall b | b in Replicate(tag, blocks, drawn)
      ensures b.BlockId() != tag(id, index)
    {
      var i :| 0 <= i < |drawn| && b.BlockId() == tag(drawn[i], i);
      assert i != index;
    }
  }

  lemma EarlierTagsDiffer(tag: Tagging, blocks: map<string, seq<PricedBet>>, drawn: seq<string>)
    requires Injective(tag)
    requires drawn != []
    ensures forall b | b in Qualifying(Replicate(tag, blocks, Front(drawn))) ::
              b.BlockId() != tag(Last(drawn), |drawn| - 1)
    ensures forall b | b in Qualifying(TaggedBlock(tag, blocks, Last(drawn), |drawn| - 1)) ::
              b.BlockId() == tag(Last(drawn), |drawn| - 1)
  {
    FilterMembers(Qualifies(), Replicate(tag, blocks, Front(drawn)));
    FilterMembers(Qualifies(), TaggedBlock(tag, blocks, Last(drawn), |drawn| - 1));
    OtherDrawsHaveOtherTags(tag, blocks, Front(drawn), Last(drawn), |drawn| - 1);
  }

  lemma NoneOnCard(bets: seq<PricedBet>, key: string)
    requires forall b | b in bets :: b.BlockId() != key
    ensures Card(bets, key) == []
  {
    FilterNone(InBlock(key), bets);
  }

  lemma BlockHasItsTag(tag: Tagging, blocks: map<string, seq<PricedBet>>, id: string, index: nat)
    requires Injective(tag)
    ensures Card(TaggedBlock(tag, blocks, id, index), tag(id, index)) == TaggedBlock(tag, blocks, id, index)
  {
    FilterAll(InBlock(tag(id, index)), TaggedBlock(tag, blocks, id, index));
  }

  lemma BlockHasNoOtherTag(
    tag: Tagging, blocks: map<string, seq<PricedBet>>, id: string, index: nat, other: string, at: nat)
    requires Injective(tag)
    requires index != at
    ensures Card(TaggedBlock(tag, blocks, id, index), tag(other, at)) == []
  {
    NoneOnCard(TaggedBlock(tag, blocks, id, index), tag(other, at));
  }

  lemma EarlierDrawsOffTheCard(
    tag: Tagging, blocks: map<string, seq<PricedBet>>, drawn: seq<string>, id: string, index: nat)
    requires Injective(tag)
    requires |drawn| <= index
    ensures Card(Replicate(tag, blocks, drawn), tag(id, index)) == []
  {
    OtherDrawsHaveOtherTags(tag, blocks, drawn, id, index);
    NoneOnCard(Replicate(tag, blocks, drawn), tag(id, index));
  }

  lemma CardOfReplicate(tag: Tagging, blocks: map<string, seq<PricedBet>>, drawn: seq<string>, key: string)
    requires drawn != []
    ensures Card(Replicate(tag, blocks, drawn), key)
         == Card(Replicate(tag, blocks, Front(drawn)), key)
            + Card(TaggedBlock(tag, blocks, Last(drawn), |drawn| - 1), key)
  {
    FilterAppend(
      InBlock(key), Replicate(tag, blocks, Front(drawn)), TaggedBlock(tag, blocks, Last(drawn), |drawn| - 1));
  }

  /** The bets of one draw, as a card of the replicate. */
  ghost predicate OneCard(
    tag: Tagging, blocks: map<string, seq<PricedBet>>, drawn: seq<string>, id: string, index: nat)
  {
    Card(Replicate(tag, blocks, drawn), tag(id, index)) == TaggedBlock(tag, blocks, id, index)
  }

  lemma LastDrawIsOneCard(tag: Tagging, blocks: map<string, seq<PricedBet>>, drawn: seq<string>)
    requires Injective(tag)
    requires drawn != []
    ensures OneCard(tag, blocks, drawn, Last(drawn), |drawn| - 1)
  {
    var id, last := Last(drawn), |drawn| - 1;
    CardOfReplicate(tag, blocks, drawn, tag(id, last));
    BlockHasItsTag(tag, blocks, id, last);
    EarlierDrawsOffTheCard(tag, blocks, Front(drawn), id, last);
  }

  lemma EarlierDrawStaysOneCard(
    tag: Tagging, blocks: map<string, seq<PricedBet>>, drawn: seq<string>, id: string, index: nat)
    requires Injective(tag)
    requires drawn != [] && index < |drawn| - 1 && OneCard(tag, blocks, Front(drawn), id, index)
    ensures OneCard(tag, blocks, drawn, id, index)
  {
    CardOfReplicate(tag, blocks, drawn, tag(id, index));
    BlockHasNoOtherTag(tag, blocks, Last(drawn), |drawn| - 1, id, index);
  }

  /** All bets of one draw stay together and in order under their own tag. */
  lemma {:induction false} DrawIsOneCard(tag: Tagging, blocks: map<string, seq<PricedBet>>, drawn: seq<string>, i: nat)
    requires Injective(tag)
    requires i < |drawn|
    ensures OneCard(tag, blocks, drawn, drawn[i], i)
  {
    if i == |drawn| - 1 {
      LastDrawIsOneCard(tag, blocks, drawn);
    } else {
      DrawIsOneCard(tag, blocks, Front(drawn), i);
      EarlierDrawStaysOneCard(tag, blocks, drawn, drawn[i], i);
    }
  }
}
