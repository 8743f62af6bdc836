/**
 * The portfolio service: the lot table and the snapshot table it owns, the CRUD
 * operations on lots, the valuation of the whole ledger, the daily snapshot and
 * the history window. The lot table is kept as its rows in row order, the
 * snapshot table as a map keyed by its unique date; both id counters are those
 * of AUTOINCREMENT columns. The current date, the quote provider's answers and
 * the `include_prices` switch are parameters.
 */
module Ledger {
  import opened Options
  import opened PortfolioModels
  import opened LedgerOrder
  import Text
  import Seqs
  import Valuation
  import History

  /** `_row_to_position`: the record's validator normalises the stored symbol; no computed field is set. */
  function ReadLot(row: LotRow): (p: Position)
    ensures p.id == row.id && p.symbol == NormalizeSymbol(row.symbol)
    ensures p.shares == row.shares && p.purchasePrice == row.purchasePrice
    ensures p.purchaseDate == row.purchaseDate && p.notes == row.notes
    ensures Valuation.Unvalued(p)
  {
    Position(row.id, NormalizeSymbol(row.symbol), row.shares, row.purchasePrice, row.purchaseDate, row.notes,
             None, None, None, None, None, None, None)
  }

  /** The index of the row with id `id`, if there is one. */
  function FindLot(rows: seq<LotRow>, id: int): (k: Option<nat>)
    ensures k.Some? ==> k.value < |rows| && rows[k.value].id == id
    ensures k.None? ==> forall i :: 0 <= i < |rows| ==> rows[i].id != id
  {
    if rows == [] then None
    else if rows[0].id == id then Some(0)
    else
      var k := FindLot(rows[1..], id);
      if k.Some? then Some(k.value + 1) else None
  }

  /** `DELETE ... WHERE id = ?`: every row but those with that id, in row order. */
  function Without(rows: seq<LotRow>, id: int): (r: seq<LotRow>)
    ensures forall x :: x in r <==> x in rows && x.id != id
    ensures |r| <= |rows|
  {
    if rows == [] then []
    else (if rows[0].id == id then [] else [rows[0]]) + Without(rows[1..], id)
  }

  /** `WHERE symbol = ?`: the rows with that stored symbol, in row order. */
  function Matching(rows: seq<LotRow>, symbol: string): (r: seq<LotRow>)
    ensures forall x :: x in r <==> x in rows && x.symbol == symbol
    ensures forall i :: 0 <= i < |r| ==> r[i].symbol == symbol
  {
    if rows == [] then []
    else (if rows[0].symbol == symbol then [rows[0]] else []) + Matching(rows[1..], symbol)
  }

  /** The columns an update sets: shares and notes when given, the rest kept. */
  function Updated(row: LotRow, shares: Option<real>, notes: Option<string>): (r: LotRow)
    ensures r.id == row.id && r.symbol == row.symbol
    ensures r.purchasePrice == row.purchasePrice && r.purchaseDate == row.purchaseDate
    ensures r.shares == (if shares.Some? then shares.value else row.shares)
    ensures r.notes == (if notes.Some? then notes else row.notes)
  {
    row.(shares := shares.GetOr(row.shares), notes := if notes.Some? then notes else row.notes)
  }

  /** `get_all_positions` on the rows. */
  function AllPositions(rows: seq<LotRow>): seq<Position> {
    Seqs.Map(SortLots(rows), ReadLot)
  }

  /** `get_portfolio` on the rows: the empty portfolio without lots, otherwise the valuation. */
  function LedgerPortfolio(rows: seq<LotRow>, quotes: map<string, Valuation.Quote>, includePrices: bool): Portfolio {
    var positions := AllPositions(rows);
    if positions == [] then EmptyPortfolio()
    else Valuation.PortfolioSpec(positions, Valuation.PriceData(Valuation.SymbolSet(positions), quotes, includePrices))
  }

  /**
   * Valuing the ledger: one position per stored row, the cost basis of every row
   * counted whether priced or not, the total value equal to the summed value of the
   * aggregated positions, and weights summing to 100 when that value is positive.
   */
  lemma {:induction false} LedgerValuation(rows: seq<LotRow>, quotes: map<string, Valuation.Quote>, includePrices: bool)
    ensures var p := LedgerPortfolio(rows, quotes, includePrices);
      && p.numPositions == |rows|
      && p.numSymbols == |p.aggregated|
      && p.totalCostBasis == Seqs.Sum(AllPositions(rows), Valuation.LotCost)
      && p.totalCurrentValue == Seqs.Sum(p.aggregated, Valuation.AggValue)
      && (p.totalCurrentValue > 0.0 ==> Seqs.Sum(p.aggregated, Valuation.WeightOrZero) == 100.0)
  {
    var positions := AllPositions(rows);
    assert |positions| == |rows|;
    if positions == [] {
      assert Seqs.Sum(positions, Valuation.LotCost) == 0.0;
    } else {
      var priceData := Valuation.PriceData(Valuation.SymbolSet(positions), quotes, includePrices);
      Valuation.PortfolioCostBasis(positions, priceData);
      Valuation.PortfolioValue(positions, priceData);
      Valuation.PortfolioCounts(positions, priceData);
      if Valuation.PortfolioSpec(positions, priceData).totalCurrentValue > 0.0 {
        Valuation.PortfolioWeights(positions, priceData);
      }
    }
  }

  /** A row of the snapshot table, keyed by its date. */
  datatype SnapshotRow = SnapshotRow(
    id: int,
    totalValue: real,
    totalCostBasis: real,
    totalGain: real,
    totalGainPct: real,
    numPositions: int)

  function ReadSnapshot(date: int, row: SnapshotRow): (s: PortfolioSnapshot)
    ensures s.id == Some(row.id) && s.snapshotDate == date && s.totalValue == row.totalValue
  {
    PortfolioSnapshot(Some(row.id), date, row.totalValue, row.totalCostBasis, row.totalGain, row.totalGainPct,
                      row.numPositions)
  }

  /**
   * The upsert on the date: a new row with the next id when the date is new, the
   * old row's id with the new values otherwise. Returns the table and the counter.
   */
  function Upsert(table: map<int, SnapshotRow>, nextId: int, date: int, values: PortfolioSnapshot)
    : (r: (map<int, SnapshotRow>, int))
    ensures date in r.0 && r.0.Keys == table.Keys + {date}
    ensures forall d :: d in table && d != date ==> r.0[d] == table[d]
    ensures r.0[date].totalValue == values.totalValue && r.0[date].totalCostBasis == values.totalCostBasis
    ensures r.0[date].totalGain == values.totalGain && r.0[date].totalGainPct == values.totalGainPct
    ensures r.0[date].numPositions == values.numPositions
    ensures date in table ==> r.0[date].id == table[date].id && r.1 == nextId
    ensures date !in table ==> r.0[date].id == nextId && r.1 == nextId + 1
  {
    var id := if date in table then table[date].id else nextId;
    var row := SnapshotRow(id, values.totalValue, values.totalCostBasis, values.totalGain, values.totalGainPct,
                           values.numPositions);
    (table[date := row], if date in table then nextId else nextId + 1)
  }

  /** Saving the same values twice on one day leaves the tables as saving once: no second row. */
  lemma {:induction false} UpsertTwice(table: map<int, SnapshotRow>, nextId: int, date: int, values: PortfolioSnapshot)
    ensures var once := Upsert(table, nextId, date, values);
      Upsert(once.0, once.1, date, values) == once
  {
    var once := Upsert(table, nextId, date, values);
    var twice := Upsert(once.0, once.1, date, values);
    assert twice.0[date] == once.0[date];
    assert twice.0 == once.0;
  }

  /** A non-empty finite set of integers has a least element. */
  lemma {:induction false} MinExists(s: set<int>)
    requires s != {}
    ensures exists d :: d in s && forall e :: e in s ==> d <= e
  {
    var m := Least(s);
    assert m in s && forall e :: e in s ==> m <= e;
  }

  lemma {:induction false} Least(s: set<int>) returns (m: int)
    requires s != {}
    ensures m in s && forall e :: e in s ==> m <= e
    decreases |s|
  {
    if forall y :: y !in s {
      assert false;
    }
    var x :| x in s;
    if s == {x} {
      m := x;
    } else {
      var others := s - {x};
      assert x in s - others;
      assert |others| < |s|;
      var rest := Least(others);
      m := if x < rest then x else rest;
      forall e | e in s ensures m <= e {
        if e != x {
          assert e in others;
        }
      }
    }
  }

  /** Every entry of `window` is the stored snapshot of a date from `cutoff` on. */
  ghost predicate FromTable(window: seq<PortfolioSnapshot>, table: map<int, SnapshotRow>, cutoff: int) {
    forall i :: 0 <= i < |window| ==>
      window[i].snapshotDate in table && window[i].snapshotDate >= cutoff
      && window[i] == ReadSnapshot(window[i].snapshotDate, table[window[i].snapshotDate])
  }

  /** Every date of the table from `cutoff` on is still pending or has its entry in `window`. */
  ghost predicate Covered(window: seq<PortfolioSnapshot>, pending: set<int>, table: map<int, SnapshotRow>, cutoff: int) {
    forall d :: d in table && d >= cutoff ==> d in pending || exists i :: 0 <= i < |window| && window[i].snapshotDate == d
  }

  /** The dates still pending all come after every date already in `window`. */
  ghost predicate Before(window: seq<PortfolioSnapshot>, pending: set<int>) {
    forall i, d :: 0 <= i < |window| && d in pending ==> window[i].snapshotDate < d
  }

  /** Moving the earliest pending date to the end of the window keeps it ascending and ahead of the rest. */
  lemma {:induction false} OrderStep(window: seq<PortfolioSnapshot>, pending: set<int>, row: PortfolioSnapshot)
    requires History.Ascending(window) && Before(window, pending)
    requires row.snapshotDate in pending && forall e :: e in pending ==> row.snapshotDate <= e
    ensures History.Ascending(window + [row]) && Before(window + [row], pending - {row.snapshotDate})
  {
    var next := window + [row];
    assert forall i :: 0 <= i < |window| ==> next[i] == window[i];
  }

  /** ... and keeps every entry a stored snapshot and every date of the table accounted for. */
  lemma {:induction false} CoverStep(window: seq<PortfolioSnapshot>, pending: set<int>, table: map<int, SnapshotRow>,
                                     cutoff: int, d: int)
    requires d in pending && d in table && d >= cutoff
    requires FromTable(window, table, cutoff) && Covered(window, pending, table, cutoff)
    ensures var next := window + [ReadSnapshot(d, table[d])];
      FromTable(next, table, cutoff) && Covered(next, pending - {d}, table, cutoff)
  {
    var next := window + [ReadSnapshot(d, table[d])];
    assert forall i :: 0 <= i < |window| ==> next[i] == window[i];
    forall e | e in table && e >= cutoff
      ensures e in pending - {d} || exists i :: 0 <= i < |next| && next[i].snapshotDate == e
    {
      if e == d {
        assert next[|window|].snapshotDate == e;
      } else if e !in pending {
        var i :| 0 <= i < |window| && window[i].snapshotDate == e;
        assert next[i].snapshotDate == e;
      }
    }
  }

  /**
   * `WHERE snapshot_date >= cutoff ORDER BY snapshot_date ASC`: the snapshots from
   * `cutoff` on, one per date, oldest first.
   */
  method Window(table: map<int, SnapshotRow>, cutoff: int) returns (window: seq<PortfolioSnapshot>)
    ensures History.Ascending(window)
    ensures forall i :: 0 <= i < |window| ==>
              window[i].snapshotDate in table && window[i].snapshotDate >= cutoff
              && window[i] == ReadSnapshot(window[i].snapshotDate, table[window[i].snapshotDate])
    ensures forall d :: d in table && d >= cutoff ==> exists i :: 0 <= i < |window| && window[i].snapshotDate == d
  {
    var pending := set d | d in table && d >= cutoff;
    window := [];
    while pending != {}
      invariant forall d :: d in pending ==> d in table && d >= cutoff
      invariant History.Ascending(window) && FromTable(window, table, cutoff)
      invariant Before(window, pending) && Covered(window, pending, table, cutoff)
      decreases pending
    {
      MinExists(pending);
      var d :| d in pending && forall e :: e in pending ==> d <= e;
      OrderStep(window, pending, ReadSnapshot(d, table[d]));
      CoverStep(window, pending, table, cutoff, d);
      window := window + [ReadSnapshot(d, table[d])];
      pending := pending - {d};
    }
  }

  /** Row ids increase in row order, as AUTOINCREMENT ids do. */
  ghost predicate IdsIncreasing(rows: seq<LotRow>) {
    forall i, j :: 0 <= i < j < |rows| ==> rows[i].id < rows[j].id
  }

  /** Every id is positive and below the counter. */
  ghost predicate IdsBelow(rows: seq<LotRow>, nextId: int) {
    forall i :: 0 <= i < |rows| ==> 1 <= rows[i].id < nextId
  }

  /** Every row meets `CHECK (shares > 0)` and `CHECK (purchase_price > 0)`. */
  ghost predicate Checked(rows: seq<LotRow>) {
    forall i :: 0 <= i < |rows| ==> rows[i].shares > 0.0 && rows[i].purchasePrice > 0.0
  }

  ghost predicate SnapshotIdsBelow(table: map<int, SnapshotRow>, nextId: int) {
    forall d :: d in table ==> 1 <= table[d].id < nextId
  }

  /** Appending a row under the counter's id keeps the ids increasing and below the advanced counter. */
  lemma {:induction false} AppendRow(rows: seq<LotRow>, nextId: int, row: LotRow)
    requires IdsIncreasing(rows) && IdsBelow(rows, nextId) && Checked(rows)
    requires row.id == nextId >= 1 && row.shares > 0.0 && row.purchasePrice > 0.0
    ensures IdsIncreasing(rows + [row]) && IdsBelow(rows + [row], nextId + 1) && Checked(rows + [row])
    ensures forall i :: 0 <= i < |rows| ==> rows[i].id != row.id
  {
  }

  /** Replacing one row by an update with a positive quantity keeps the table's invariants. */
  lemma {:induction false} UpdateRow(rows: seq<LotRow>, nextId: int, k: nat, shares: Option<real>, notes: Option<string>)
    requires IdsIncreasing(rows) && IdsBelow(rows, nextId) && Checked(rows)
    requires k < |rows| && (shares.Some? ==> shares.value > 0.0)
    ensures var r := rows[k := Updated(rows[k], shares, notes)];
      IdsIncreasing(r) && IdsBelow(r, nextId) && Checked(r)
  {
  }

  /** Removing rows keeps the table's invariants. */
  lemma {:induction false} RemoveRows(rows: seq<LotRow>, nextId: int, id: int)
    requires IdsIncreasing(rows) && IdsBelow(rows, nextId) && Checked(rows)
    ensures var r := Without(rows, id);
      IdsIncreasing(r) && IdsBelow(r, nextId) && Checked(r)
  {
    WithoutKeepsOrder(rows, id);
    var r := Without(rows, id);
    forall i | 0 <= i < |r| ensures 1 <= r[i].id < nextId && r[i].shares > 0.0 && r[i].purchasePrice > 0.0 {
      assert r[i] in rows;
    }
  }

  class PortfolioService {
    var lots: seq<LotRow>
    var nextId: int
    var snapshots: map<int, SnapshotRow>
    var nextSnapshotId: int

    /**
     * Ids are positive, increasing in row order and below the counter; every row
     * meets the table's CHECK constraints.
     */
    ghost predicate Valid()
      reads this
    {
      && 1 <= nextId && 1 <= nextSnapshotId
      && IdsIncreasing(lots) && IdsBelow(lots, nextId) && Checked(lots)
      && SnapshotIdsBelow(snapshots, nextSnapshotId)
    }

    /** A new database: both tables empty. */
    constructor ()
      ensures Valid()
      ensures lots == [] && snapshots == map[] && nextId == 1 && nextSnapshotId == 1
    {
      lots := [];
      nextId := 1;
      snapshots := map[];
      nextSnapshotId := 1;
    }

    /**
     * `add_position`: the row stores `symbol.upper()` under the next id; the CHECK
     * constraints refuse a non-positive quantity or price. The returned record is
     * built from the same values, so its symbol is normalised.
     */
    method AddPosition(symbol: string, shares: real, purchasePrice: real, purchaseDate: int, notes: Option<string>)
      returns (r: Result<Position, Failure>)
      requires Valid()
      modifies this
      ensures Valid()
      ensures snapshots == old(snapshots) && nextSnapshotId == old(nextSnapshotId)
      ensures shares <= 0.0 || purchasePrice <= 0.0 ==>
                r == Err(ConstraintViolation) && lots == old(lots) && nextId == old(nextId)
      ensures shares > 0.0 && purchasePrice > 0.0 ==>
                && lots == old(lots) + [LotRow(old(nextId), Text.Upper(symbol), shares, purchasePrice, purchaseDate, notes)]
                && nextId == old(nextId) + 1
                && r == NewPosition(old(nextId), symbol, shares, purchasePrice, purchaseDate, notes)
                && r == Ok(ReadLot(lots[|lots| - 1]))
                && forall i :: 0 <= i < |old(lots)| ==> old(lots)[i].id != r.value.id
    {
      if shares <= 0.0 || purchasePrice <= 0.0 {
        return Err(ConstraintViolation);
      }
      var stored := Text.Upper(symbol);
      var positionId := nextId;
      InsertRow(LotRow(positionId, stored, shares, purchasePrice, purchaseDate, notes));
      NormalizeUpper(symbol);
      r := NewPosition(positionId, stored, shares, purchasePrice, purchaseDate, notes);
    }

    /** `INSERT INTO positions ...`: the row is stored under the counter's id, which then advances. */
    method InsertRow(row: LotRow)
      requires Valid() && row.id == nextId && row.shares > 0.0 && row.purchasePrice > 0.0
      modifies this
      ensures Valid()
      ensures lots == old(lots) + [row] && nextId == old(nextId) + 1
      ensures forall i :: 0 <= i < |old(lots)| ==> old(lots)[i].id != row.id
      ensures snapshots == old(snapshots) && nextSnapshotId == old(nextSnapshotId)
    {
      AppendRow(lots, nextId, row);
      lots := lots + [row];
      nextId := nextId + 1;
    }

    /** `remove_position`: true exactly when a row had that id; every other row stays, in order. */
    method RemovePosition(positionId: int) returns (removed: bool)
      requires Valid()
      modifies this
      ensures Valid()
      ensures removed <==> exists i :: 0 <= i < |old(lots)| && old(lots)[i].id == positionId
      ensures lots == Without(old(lots), positionId)
      ensures nextId == old(nextId) && snapshots == old(snapshots) && nextSnapshotId == old(nextSnapshotId)
    {
      removed := FindLot(lots, positionId).Some?;
      RemoveRows(lots, nextId, positionId);
      lots := Without(lots, positionId);
    }

    /**
     * `get_position`: the record of the row with that id, or the not-found failure.
     */
    method GetPosition(positionId: int) returns (r: Result<Position, Failure>)
      ensures r.Err? <==> forall i :: 0 <= i < |lots| ==> lots[i].id != positionId
      ensures r.Err? ==> r.error == PositionNotFound(positionId)
      ensures r.Ok? ==> exists i :: 0 <= i < |lots| && lots[i].id == positionId && r.value == ReadLot(lots[i])
    {
      var k := FindLot(lots, positionId);
      if k.None? {
        return Err(PositionNotFound(positionId));
      }
      r := Ok(ReadLot(lots[k.value]));
    }

    /**
     * `update_position`: an update naming neither field is refused before the
     * table is touched; a non-positive quantity on an existing row breaks the CHECK
     * constraint; an unknown id changes nothing and is reported by the read-back.
     */
    method UpdatePosition(positionId: int, shares: Option<real>, notes: Option<string>)
      returns (r: Result<Position, Failure>)
      requires Valid()
      modifies this
      ensures Valid()
      ensures nextId == old(nextId) && snapshots == old(snapshots) && nextSnapshotId == old(nextSnapshotId)
      ensures shares.None? && notes.None? ==> r == Err(NoUpdatesSpecified) && lots == old(lots)
      ensures (shares.Some? || notes.Some?) && FindLot(old(lots), positionId).None? ==>
                r == Err(PositionNotFound(positionId)) && lots == old(lots)
      ensures (shares.Some? || notes.Some?) && FindLot(old(lots), positionId).Some? ==>
                var k := FindLot(old(lots), positionId).value;
                if shares.Some? && shares.value <= 0.0 then r == Err(ConstraintViolation) && lots == old(lots)
                else lots == old(lots)[k := Updated(old(lots)[k], shares, notes)]
                     && r == Ok(ReadLot(lots[k]))
    {
      if shares.None? && notes.None? {
        return Err(NoUpdatesSpecified);
      }
      var k := FindLot(lots, positionId);
      if k.None? {
        r := GetPosition(positionId);
        return;
      }
      if shares.Some? && shares.value <= 0.0 {
        return Err(ConstraintViolation);
      }
      SetColumns(k.value, shares, notes);
      r := GetPosition(positionId);
      UniqueIds(lots, k.value, positionId);
    }

    /** `UPDATE positions SET ... WHERE id = ?` on the row at index `k`, with a positive quantity if any. */
    method SetColumns(k: nat, shares: Option<real>, notes: Option<string>)
      requires Valid() && k < |lots| && (shares.Some? ==> shares.value > 0.0)
      modifies this
      ensures Valid()
      ensures lots == old(lots)[k := Updated(old(lots)[k], shares, notes)]
      ensures nextId == old(nextId) && snapshots == old(snapshots) && nextSnapshotId == old(nextSnapshotId)
    {
      UpdateRow(lots, nextId, k, shares, notes);
      lots := lots[k := Updated(lots[k], shares, notes)];
    }

    /** `get_all_positions`: every row, by stored symbol and then purchase date. */
    method GetAllPositions() returns (positions: seq<Position>)
      ensures positions == AllPositions(lots)
    {
      positions := Seqs.Map(SortLots(lots), ReadLot);
    }

    /** `get_positions_by_symbol`: the rows whose stored symbol is `symbol.upper()`, by purchase date. */
    method GetPositionsBySymbol(symbol: string) returns (positions: seq<Position>)
      ensures positions == AllPositions(Matching(lots, Text.Upper(symbol)))
    {
      positions := Seqs.Map(SortLots(Matching(lots, Text.Upper(symbol))), ReadLot);
    }

    /** `get_portfolio`: the empty portfolio without lots; otherwise fetch the quotes and value the lots. */
    method GetPortfolio(quotes: map<string, Valuation.Quote>, includePrices: bool) returns (portfolio: Portfolio)
      ensures portfolio == LedgerPortfolio(lots, quotes, includePrices)
    {
      var positions := GetAllPositions();
      if positions == [] {
        return EmptyPortfolio();
      }
      var priceData := Valuation.FetchPrices(Valuation.SymbolSet(positions), quotes, includePrices);
      portfolio := Valuation.ValuePortfolio(positions, priceData);
    }

    /**
     * `save_snapshot`: the portfolio's totals under `today`, replacing the values
     * of a snapshot already saved that day.
     */
    method SaveSnapshot(portfolio: Portfolio, today: int) returns (snapshot: PortfolioSnapshot)
      requires Valid()
      modifies this
      ensures Valid()
      ensures snapshot == PortfolioSnapshot(None, today, portfolio.totalCurrentValue, portfolio.totalCostBasis,
                                            portfolio.totalUnrealizedGain, portfolio.totalUnrealizedGainPct,
                                            portfolio.numPositions)
      ensures (snapshots, nextSnapshotId) == Upsert(old(snapshots), old(nextSnapshotId), today, snapshot)
      ensures lots == old(lots) && nextId == old(nextId)
    {
      snapshot := PortfolioSnapshot(None, today, portfolio.totalCurrentValue, portfolio.totalCostBasis,
                                    portfolio.totalUnrealizedGain, portfolio.totalUnrealizedGainPct,
                                    portfolio.numPositions);
      var row := SnapshotRow(if today in snapshots then snapshots[today].id else nextSnapshotId,
                             snapshot.totalValue, snapshot.totalCostBasis, snapshot.totalGain,
                             snapshot.totalGainPct, snapshot.numPositions);
      if today !in snapshots {
        nextSnapshotId := nextSnapshotId + 1;
      }
      snapshots := snapshots[today := row];
    }

    /**
     * `get_history`: the snapshots of the last `days` days up to `today`, oldest
     * first, and their summary.
     */
    method GetHistory(days: nat, today: int) returns (history: PortfolioHistory)
      ensures History.Ascending(history.snapshots)
      ensures forall s :: s in history.snapshots ==>
                s.snapshotDate in snapshots && s.snapshotDate >= today - days
                && s == ReadSnapshot(s.snapshotDate, snapshots[s.snapshotDate])
      ensures forall d :: d in snapshots && d >= today - days ==>
                exists s :: s in history.snapshots && s.snapshotDate == d
      ensures history == History.Summarize(history.snapshots)
    {
      var window := Window(snapshots, today - days);
      history := History.Summarize(window);
    }
  }

  /** Row ids are increasing, so the row found by id is the only one with it. */
  lemma {:induction false} UniqueIds(rows: seq<LotRow>, k: nat, id: int)
    requires k < |rows| && rows[k].id == id
    requires IdsIncreasing(rows)
    ensures forall i :: 0 <= i < |rows| && rows[i].id == id ==> i == k
  {
  }

  /** Every row left after removing rows from the tail has a larger id than the first row. */
  lemma {:induction false} TailAbove(rows: seq<LotRow>, id: int)
    requires rows != [] && IdsIncreasing(rows)
    ensures var rest := Without(rows[1..], id);
      forall k :: 0 <= k < |rest| ==> rows[0].id < rest[k].id
  {
    var rest := Without(rows[1..], id);
    forall k | 0 <= k < |rest| ensures rows[0].id < rest[k].id {
      assert rest[k] in rest;
      var j :| 0 <= j < |rows[1..]| && rows[1..][j] == rest[k];
      assert rows[j + 1] == rest[k];
    }
  }

  /** Putting a row with a smaller id in front of increasing rows keeps them increasing. */
  lemma {:induction false} ConsIncreasing(row: LotRow, rest: seq<LotRow>)
    requires IdsIncreasing(rest)
    requires forall k :: 0 <= k < |rest| ==> row.id < rest[k].id
    ensures IdsIncreasing([row] + rest)
  {
    var r := [row] + rest;
    forall i, j | 0 <= i < j < |r| ensures r[i].id < r[j].id {
      assert r[j] == rest[j - 1];
      if i > 0 {
        assert r[i] == rest[i - 1];
      }
    }
  }

  /** Removing rows keeps the others in their order, so ids stay increasing. */
  lemma {:induction false} WithoutKeepsOrder(rows: seq<LotRow>, id: int)
    requires IdsIncreasing(rows)
    ensures IdsIncreasing(Without(rows, id))
    decreases |rows|
  {
    if rows != [] {
      var tail := rows[1..];
      assert IdsIncreasing(tail) by {
        forall i, j | 0 <= i < j < |tail| ensures tail[i].id < tail[j].id {
          assert tail[i] == rows[i + 1] && tail[j] == rows[j + 1];
        }
      }
      WithoutKeepsOrder(tail, id);
      TailAbove(rows, id);
      if rows[0].id != id {
        ConsIncreasing(rows[0], Without(tail, id));
      }
    }
  }
}
