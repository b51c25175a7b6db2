/** Row dictionaries of the engine and the gate that keeps betting figures off
    threshold-only rows. */
module Gates {

  datatype Column =
    // figures that only a priced row may carry
    | ExpectedValue | ClosingEv | ProbabilityClv | FlatUnitProfit | RealizedRoi
    | QuarterKellyFraction | StakeFraction | Turnover | MaximumDrawdown | LongestLosingRun
    // everything else
    | AvailabilityReason | Available | Family | LinePoint | OutcomeKey | P25 | P50 | Scope
    | QuoteExclusion | OfferedDecimal | Availability | BookmakerKey | Eligible | IsAmbiguous
    | IsReplacement | Lifecycle | ObservedAt | Provider | QuoteId | SourceKind | Stale

  datatype Cell = Null | Text(text: string) | Number(number: real) | Whole(whole: int) | Flag(flag: bool)

  /** A missing column reads as null. */
  type Row = map<Column, Cell>

  const THRESHOLD_SCOPE := Text("threshold_only")

  predicate Synthetic(c: Column) {
    || c.ExpectedValue? || c.ClosingEv? || c.ProbabilityClv? || c.FlatUnitProfit? || c.RealizedRoi?
    || c.QuarterKellyFraction? || c.StakeFraction? || c.Turnover? || c.MaximumDrawdown? || c.LongestLosingRun?
  }

  function Read(row: Row, c: Column): Cell { if c in row then row[c] else Null }

  /** The gate refuses a threshold-scope row that carries any betting figure. */
  predicate PassesScopeGate(row: Row) {
    Read(row, Scope) == THRESHOLD_SCOPE ==> forall c | c in row && Synthetic(c) :: row[c].Null?
  }

  predicate ThresholdOnlyClean(rows: seq<Row>) {
    forall i | 0 <= i < |rows| :: PassesScopeGate(rows[i])
  }

  /** Columns taken from elsewhere keep a row clean when none of them is a betting
      figure or the scope itself. */
  lemma UpdateKeepsClean(row: Row, extra: Row)
    requires PassesScopeGate(row) && forall c | c in extra :: !Synthetic(c) && !c.Scope?
    ensures PassesScopeGate(row + extra)
  {
  }
}
