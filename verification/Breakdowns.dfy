/** Flat rows of a run, the check that every slicing of them adds up, and the
    selection counts. */
module Breakdowns {
  import opened Prelude
  import opened Slices
  import opened Bets
  import opened MarketScores
  import opened Quotes

  datatype AttemptRow = AttemptRow(
    eventId: string, boutId: string, season: int, seriesVariant: string, exclusionReason: Option<Exclusion>,
    predicted: bool, abstained: bool, unavailable: bool, excluded: bool, lockedNotAccessed: bool,
    priced: bool, thresholdOnly: bool, prePolicyCandidate: bool,
    nPriced: nat, nThreshold: nat, thresholdFamilies: seq<string>)

  // ----- reconciliation -----

  const VARIANTS: seq<string> := ["standard", "brazil"]

  function VariantOfRow(): AttemptRow -> string { (r: AttemptRow) => r.seriesVariant }

  function SeasonOfRow(): AttemptRow -> int { (r: AttemptRow) => r.season }

  function PricedOfRow(): AttemptRow -> nat { (r: AttemptRow) => r.nPriced }

  function ThresholdOfRow(): AttemptRow -> nat { (r: AttemptRow) => r.nThreshold }

  function VariantOfBet(): PricedBet -> string { (b: PricedBet) => b.seriesVariant }

  function FamilyOfBet(): PricedBet -> string { (b: PricedBet) => b.marketFamily }

  function FamilyOfMarketRow(): MarketRow -> string { (m: MarketRow) => m.marketFamily }

  function SourceOf(): PricedBet -> string {
    (b: PricedBet) =>
      b.sourceKind + ":" + (if b.provider.Some? then b.provider.value else "") + ":"
      + (if b.bookmakerKey.Some? then b.bookmakerKey.value else "")
  }

  function IsFamily(family: string): string -> bool { (f: string) => f == family }

  /** How often one family is listed over all rows. */
  function ListedIn(rows: seq<AttemptRow>, family: string): nat {
    if rows == [] then 0
    else ListedIn(Front(rows), family) + Count(IsFamily(family), Last(rows).thresholdFamilies)
  }

  function ListedTotal(rows: seq<AttemptRow>, families: seq<string>): nat {
    if families == [] then 0 else ListedTotal(rows, Front(families)) + ListedIn(rows, Last(families))
  }

  datatype Mismatch =
    | StandardBrazil | Years | BetVariants | BetMarkets | ThresholdMarkets | PricedRows
    | OutcomeMarkets | YearsPriced | YearsThreshold | Sources

  /** The first slicing that does not add up. */
  function Reconcile(rows: seq<AttemptRow>, bets: seq<PricedBet>, markets: seq<MarketRow>): Option<Mismatch> {
    var nThreshold := Weigh(ThresholdOfRow(), rows);
    if SliceTotal(VariantOfRow(), One(), rows, VARIANTS) != |rows| then Some(StandardBrazil)
    else if SliceTotal(SeasonOfRow(), One(), rows, KeysOf(SeasonOfRow(), rows)) != |rows| then Some(Years)
    else if SliceTotal(VariantOfBet(), One(), bets, VARIANTS) != |bets| then Some(BetVariants)
    else if SliceTotal(FamilyOfBet(), One(), bets, KeysOf(FamilyOfBet(), bets)) != |bets| then Some(BetMarkets)
    else if ListedTotal(rows, FAMILIES) != nThreshold then Some(ThresholdMarkets)
    else if Weigh(PricedOfRow(), rows) != |bets| then Some(PricedRows)
    else if SliceTotal(FamilyOfMarketRow(), One(), markets, FAMILIES) != |markets| then Some(OutcomeMarkets)
    else if SliceTotal(SeasonOfRow(), PricedOfRow(), rows, KeysOf(SeasonOfRow(), rows)) != |bets|
      then Some(YearsPriced)
    else if SliceTotal(SeasonOfRow(), ThresholdOfRow(), rows, KeysOf(SeasonOfRow(), rows)) != nThreshold
      then Some(YearsThreshold)
    else if SliceTotal(SourceOf(), One(), bets, KeysOf(SourceOf(), bets)) != |bets| then Some(Sources)
    else None
  }

  lemma FamiliesDistinct()
    ensures Distinct(FAMILIES) && Distinct(VARIANTS)
  {
    assert |MONEYLINE| == 9 && |TOTALS| == 6 && |GOES_DISTANCE| == 13;
    assert |METHOD| == 6 && |FIGHTER_BY_METHOD| == 17 && |EXACT_ROUND| == 11;
    assert TOTALS[0] != METHOD[0];
    assert |"standard"| == 8 && |"brazil"| == 6;
  }

  /** The fixed slices: two series variants and six families. */
  lemma SlicesSpelledOut(slice: string)
    ensures slice in VARIANTS <==> slice == "standard" || slice == "brazil"
    ensures slice in FAMILIES <==>
              || slice == "moneyline" || slice == "totals" || slice == "goes_distance"
              || slice == "method" || slice == "fighter_by_method" || slice == "exact_round"
  {
  }

  /** All threshold families of the rows, one after the other. */
  function Listed(rows: seq<AttemptRow>): seq<string> {
    if rows == [] then [] else Listed(Front(rows)) + Last(rows).thresholdFamilies
  }

  function Self(): string -> string { (f: string) => f }

  lemma {:induction false} ListedInIsCount(rows: seq<AttemptRow>, family: string)
    ensures ListedIn(rows, family) == Weigh(One(), Filter(HasKey(Self(), family), Listed(rows)))
  {
    if rows != [] {
      ListedInIsCount(Front(rows), family);
      var before, own := Listed(Front(rows)), Last(rows).thresholdFamilies;
      FilterAppend(HasKey(Self(), family), before, own);
      WeighAppend(One(), Filter(HasKey(Self(), family), before), Filter(HasKey(Self(), family), own));
      FilterAgree(IsFamily(family), HasKey(Self(), family), own);
      WeighOnes(Filter(IsFamily(family), own));
    }
  }

  lemma {:induction false} ListedTotalIsSliceTotal(rows: seq<AttemptRow>, families: seq<string>)
    ensures ListedTotal(rows, families) == SliceTotal(Self(), One(), Listed(rows), families)
  {
    if families != [] {
      ListedTotalIsSliceTotal(rows, Front(families));
      ListedInIsCount(rows, Last(families));
    }
  }

  /** The listed threshold families that are known. */
  function KnownListed(rows: seq<AttemptRow>): nat { Count(KeyIn(Self(), FAMILIES), Listed(rows)) }

  /** For any rows, bets and market rows: half of the slicings cannot fail, and the check
      passes exactly when variants and market-row families are known, the known threshold
      families account for the threshold rows, and the priced rows account for the bets. */
  lemma ReconcilesIff(rows: seq<AttemptRow>, bets: seq<PricedBet>, markets: seq<MarketRow>)
    ensures Reconcile(rows, bets, markets).None? <==>
              && (forall r | r in rows :: r.seriesVariant in VARIANTS)
              && (forall b | b in bets :: b.seriesVariant in VARIANTS)
              && KnownListed(rows) == Weigh(ThresholdOfRow(), rows)
              && Weigh(PricedOfRow(), rows) == |bets|
              && (forall m | m in markets :: m.marketFamily in FAMILIES)
  {
    FamiliesDistinct();
    FixedSlicesCountAllIff(VariantOfRow(), rows, VARIANTS);
    FixedSlicesCountAllIff(VariantOfBet(), bets, VARIANTS);
    FixedSlicesCountAllIff(FamilyOfMarketRow(), markets, FAMILIES);
    KnownListedTotal(rows);
    OwnSlicesCoverEverything(SeasonOfRow(), One(), rows);
    WeighOnes(rows);
    OwnSlicesCoverEverything(FamilyOfBet(), One(), bets);
    WeighOnes(bets);
    OwnSlicesCoverEverything(SourceOf(), One(), bets);
    OwnSlicesCoverEverything(SeasonOfRow(), PricedOfRow(), rows);
    OwnSlicesCoverEverything(SeasonOfRow(), ThresholdOfRow(), rows);
  }

  lemma KnownListedTotal(rows: seq<AttemptRow>)
    ensures ListedTotal(rows, FAMILIES) == KnownListed(rows)
  {
    FamiliesDistinct();
    ListedTotalIsSliceTotal(rows, FAMILIES);
    SlicesAddUp(Self(), One(), Listed(rows), FAMILIES);
    WeighOnes(Filter(KeyIn(Self(), FAMILIES), Listed(rows)));
  }

  /** Where each row lists one family per threshold row, the families account for them
      exactly when all of them are known. */
  lemma ListedAccountIff(rows: seq<AttemptRow>)
    requires forall r | r in rows :: r.nThreshold == |r.thresholdFamilies|
    ensures KnownListed(rows) == Weigh(ThresholdOfRow(), rows) <==> forall f | f in Listed(rows) :: f in FAMILIES
  {
    ListedLength(rows);
    FullFilter(KeyIn(Self(), FAMILIES), Listed(rows));
  }

  lemma {:induction false} ListedLength(rows: seq<AttemptRow>)
    requires forall r | r in rows :: r.nThreshold == |r.thresholdFamilies|
    ensures |Listed(rows)| == Weigh(ThresholdOfRow(), rows)
  {
    if rows != [] {
      ListedLength(Front(rows));
      assert Last(rows) in rows;
    }
  }
}
