/**
 * The portfolio records: a tax lot (`Position`), the per-symbol aggregate, the
 * portfolio valuation, daily snapshots and their history, and the performance
 * breakdown. Money is `real`, dates are day numbers, and the optional fields of
 * the records are `Option`s exactly where the records allow `None`.
 */
module PortfolioModels {
  import opened Options
  import Text

  /** The failures the ledger and the records report. */
  datatype Failure =
    | ValidationError       // a record field violates its declared constraint
    | NoUpdatesSpecified    // an update that names no field
    | PositionNotFound(id: int)
    | ConstraintViolation   // the lot table's CHECK constraint rejected a row

  /**
   * One tax lot. The first six fields are stored; the rest are filled in by a
   * valuation pass and are `None` on a lot read from the ledger.
   */
  datatype Position = Position(
    id: int,
    symbol: string,
    shares: real,
    purchasePrice: real,
    purchaseDate: int,
    notes: Option<string>,
    currentPrice: Option<real>,
    currentValue: Option<real>,
    costBasis: Option<real>,
    unrealizedGain: Option<real>,
    unrealizedGainPct: Option<real>,
    dayChange: Option<real>,
    dayChangePct: Option<real>)

  /** The symbol field's validator: `v.upper().strip()`. */
  function NormalizeSymbol(s: string): (r: string)
    ensures Text.Trimmed(r)
    ensures forall i :: 0 <= i < |r| ==> !Text.IsLowerLetter(r[i])
    ensures |r| <= |s|
  {
    Text.Strip(Text.Upper(s))
  }

  /** Normalising a symbol twice gives the same symbol as normalising it once. */
  lemma {:induction false} NormalizeSymbolIdempotent(s: string)
    ensures NormalizeSymbol(NormalizeSymbol(s)) == NormalizeSymbol(s)
  {
    var u := Text.Upper(s);
    var t := Text.Strip(u);
    var i := |u| - |Text.LStrip(u)|;
    Text.UpperSlice(u, i, i + |t|);
    Text.UpperIdempotent(u[i..i + |t|]);
    assert Text.Upper(t) == t;
    Text.StripIdempotent(u);
  }

  /** Upper-casing before the validator runs changes nothing. */
  lemma {:induction false} NormalizeUpper(s: string)
    ensures NormalizeSymbol(Text.Upper(s)) == NormalizeSymbol(s)
  {
    Text.UpperIdempotent(s);
  }

  /**
   * Building a `Position`: the record refuses `shares <= 0` and
   * `purchase_price <= 0`, and normalises the symbol. No bound is put on the
   * purchase date.
   */
  function NewPosition(id: int, symbol: string, shares: real, purchasePrice: real,
                       purchaseDate: int, notes: Option<string>): (r: Result<Position, Failure>)
    ensures r.Err? <==> shares <= 0.0 || purchasePrice <= 0.0
    ensures r.Err? ==> r.error == ValidationError
    ensures r.Ok? ==> r.value.shares > 0.0 && r.value.purchasePrice > 0.0
    ensures r.Ok? ==> r.value.id == id && r.value.symbol == NormalizeSymbol(symbol)
                      && r.value.purchaseDate == purchaseDate && r.value.notes == notes
    ensures r.Ok? ==> r.value.currentValue.None? && r.value.costBasis.None? && r.value.dayChange.None?
  {
    if shares <= 0.0 || purchasePrice <= 0.0 then Err(ValidationError)
    else Ok(Position(id, NormalizeSymbol(symbol), shares, purchasePrice, purchaseDate, notes,
                     None, None, None, None, None, None, None))
  }

  /** `holding_period_days`: whole days from the purchase date to `today`. */
  function HoldingPeriodDays(p: Position, today: int): (days: int)
    ensures days < 0 <==> p.purchaseDate > today
    ensures p.purchaseDate + days == today
  {
    today - p.purchaseDate
  }

  /** `is_long_term`: held for strictly more than 365 days. */
  function IsLongTerm(p: Position, today: int): (b: bool)
    ensures b <==> p.purchaseDate < today - 365
  {
    HoldingPeriodDays(p, today) > 365
  }

  /**
   * A percentage as the records compute it: `part / whole * 100` when the whole is
   * positive, 0 otherwise (a change over its start, a gain over its cost, a value
   * over the total).
   */
  function Percent(part: real, whole: real): (pct: real)
    ensures whole > 0.0 ==> pct * whole == part * 100.0
    ensures whole <= 0.0 ==> pct == 0.0
  {
    if whole > 0.0 then part / whole * 100.0 else 0.0
  }

  /** All lots of one symbol, rolled into one position. */
  datatype AggregatedPosition = AggregatedPosition(
    symbol: string,
    totalShares: real,
    totalCostBasis: real,
    averageCost: real,
    currentPrice: Option<real>,
    currentValue: Option<real>,
    unrealizedGain: Option<real>,
    unrealizedGainPct: Option<real>,
    weightPct: Option<real>,
    sector: Option<string>,
    industry: Option<string>,
    lots: seq<Position>)

  /** One valuation pass over the whole ledger. */
  datatype Portfolio = Portfolio(
    positions: seq<Position>,
    aggregated: seq<AggregatedPosition>,
    totalCostBasis: real,
    totalCurrentValue: real,
    totalUnrealizedGain: real,
    totalUnrealizedGainPct: real,
    totalDayChange: real,
    totalDayChangePct: real,
    numPositions: int,
    numSymbols: int,
    sectorAllocation: map<string, real>)

  /** `Portfolio()`: the value of an empty ledger. */
  function EmptyPortfolio(): (p: Portfolio)
    ensures p.positions == [] && p.aggregated == [] && p.sectorAllocation == map[]
    ensures p.totalCostBasis == 0.0 && p.totalCurrentValue == 0.0 && p.totalUnrealizedGain == 0.0
    ensures p.totalUnrealizedGainPct == 0.0 && p.totalDayChange == 0.0 && p.totalDayChangePct == 0.0
    ensures p.numPositions == 0 && p.numSymbols == 0
  {
    Portfolio([], [], 0.0, 0.0, 0.0, 0.0, 0.0, 0.0, 0, 0, map[])
  }

  /** The totals of one day. `id` is the row id, absent on a snapshot not read back from storage. */
  datatype PortfolioSnapshot = PortfolioSnapshot(
    id: Option<int>,
    snapshotDate: int,
    totalValue: real,
    totalCostBasis: real,
    totalGain: real,
    totalGainPct: real,
    numPositions: int)

  /** The snapshots of a trailing window, oldest first, and their summary. */
  datatype PortfolioHistory = PortfolioHistory(
    snapshots: seq<PortfolioSnapshot>,
    earliestDate: Option<int>,
    latestDate: Option<int>,
    startingValue: Option<real>,
    currentValue: Option<real>,
    totalChange: Option<real>,
    totalChangePct: Option<real>,
    highValue: Option<real>,
    highDate: Option<int>,
    lowValue: Option<real>,
    lowDate: Option<int>)

  /** `PortfolioHistory()`: no snapshots and every summary field absent. */
  function EmptyHistory(): (h: PortfolioHistory)
    ensures h.snapshots == []
    ensures h.earliestDate.None? && h.latestDate.None? && h.startingValue.None? && h.currentValue.None?
    ensures h.totalChange.None? && h.totalChangePct.None?
    ensures h.highValue.None? && h.highDate.None? && h.lowValue.None? && h.lowDate.None?
  {
    PortfolioHistory([], None, None, None, None, None, None, None, None, None, None)
  }

  /** One priced holding in the performance breakdown. */
  datatype HoldingPerformance = HoldingPerformance(
    symbol: string,
    currentValue: real,
    costBasis: real,
    unrealizedGain: real,
    unrealizedGainPct: real,
    weightPct: real,
    contributionPct: real,
    sector: Option<string>)

  datatype PortfolioPerformance = PortfolioPerformance(
    holdings: seq<HoldingPerformance>,
    topGainers: seq<HoldingPerformance>,
    topLosers: seq<HoldingPerformance>,
    totalValue: real,
    totalCostBasis: real,
    totalGain: real,
    totalGainPct: real,
    sectorPerformance: map<string, real>)

  /** `PortfolioPerformance()`: empty lists and maps, totals 0. */
  function EmptyPerformance(): (p: PortfolioPerformance)
    ensures p.holdings == [] && p.topGainers == [] && p.topLosers == [] && p.sectorPerformance == map[]
    ensures p.totalValue == 0.0 && p.totalCostBasis == 0.0 && p.totalGain == 0.0 && p.totalGainPct == 0.0
  {
    PortfolioPerformance([], [], [], 0.0, 0.0, 0.0, 0.0, map[])
  }
}
