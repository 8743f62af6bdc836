/**
 * One valuation pass over the lot ledger: join every lot with the quote of its
 * symbol, group the lots into one aggregated position per symbol, sort the
 * positions by value, and roll up portfolio totals and the sector allocation.
 * The quote provider is represented by its answers: a map from symbol to quote,
 * where a symbol whose fetch failed has no entry.
 */
module Valuation {
  import opened Options
  import opened PortfolioModels
  import Seqs

  /** What the quote provider returned for one symbol (the fields the engine reads). */
  datatype Quote = Quote(
    currentPrice: Option<real>,
    previousClose: Option<real>,
    sector: Option<string>,
    industry: Option<string>)

  /** `set(p.symbol for p in positions)` */
  function SymbolSet(ps: seq<Position>): set<string> {
    set p | p in ps :: p.symbol
  }

  /** A symbol has a usable price: a quote was fetched and its price is truthy (not `None`, not 0). */
  predicate Priced(symbol: string, priceData: map<string, Quote>) {
    symbol in priceData && Truthy(priceData[symbol].currentPrice)
  }

  /** The usable price of a symbol, 0 when it has none. */
  function PriceOf(symbol: string, priceData: map<string, Quote>): real {
    if Priced(symbol, priceData) then priceData[symbol].currentPrice.value else 0.0
  }

  /** Both the price and the previous close are truthy, so a day change can be computed. */
  predicate DayPriced(symbol: string, priceData: map<string, Quote>) {
    Priced(symbol, priceData) && Truthy(priceData[symbol].previousClose)
  }

  // ---------------------------------------------------------------- fetching quotes

  /** The quotes gathered for `symbols`: those the provider answered, none when prices are skipped. */
  function PriceData(symbols: set<string>, quotes: map<string, Quote>, includePrices: bool): map<string, Quote> {
    if includePrices then map s | s in symbols && s in quotes :: quotes[s] else map[]
  }

  /**
   * The fetch loop: one request per distinct symbol; a symbol whose request fails
   * (no entry in `quotes`) is skipped and the others are still fetched.
   */
  method FetchPrices(symbols: set<string>, quotes: map<string, Quote>, includePrices: bool)
    returns (priceData: map<string, Quote>)
    ensures priceData == PriceData(symbols, quotes, includePrices)
    ensures priceData.Keys == if includePrices then symbols * quotes.Keys else {}
    ensures forall s :: s in priceData ==> priceData[s] == quotes[s]
  {
    priceData := map[];
    if includePrices {
      var pending := symbols;
      while pending != {}
        invariant pending <= symbols
        invariant priceData == map s | s in symbols - pending && s in quotes :: quotes[s]
        decreases pending
      {
        var symbol :| symbol in pending;
        if symbol in quotes {
          priceData := priceData[symbol := quotes[symbol]];
        }
        pending := pending - {symbol};
      }
    }
  }

  // ---------------------------------------------------------------- enriching lots

  /** A lot as read from the ledger: no computed field filled in yet. */
  predicate Unvalued(p: Position) {
    p.currentPrice.None? && p.currentValue.None? && p.costBasis.None? && p.unrealizedGain.None?
    && p.unrealizedGainPct.None? && p.dayChange.None? && p.dayChangePct.None?
  }

  /** The stored fields of two lots agree. */
  predicate SameLot(a: Position, b: Position) {
    a.id == b.id && a.symbol == b.symbol && a.shares == b.shares && a.purchasePrice == b.purchasePrice
    && a.purchaseDate == b.purchaseDate && a.notes == b.notes
  }

  /** Step one for every lot: the cost basis, shares x purchase price. */
  function WithCost(p: Position): (r: Position)
    ensures r.costBasis == Some(p.shares * p.purchasePrice)
  {
    p.(costBasis := Some(p.shares * p.purchasePrice))
  }

  /** A lot valued at `price`: value, gain over the cost basis, and the gain as a percent of cost (0 without cost). */
  function Valued(p: Position, price: real): (r: Position)
    ensures r.currentValue.Some? && r.unrealizedGain.Some? && r.unrealizedGainPct.Some?
    ensures r.currentValue.value == p.shares * price
    ensures r.unrealizedGain.value == r.currentValue.value - OrZero(p.costBasis)
    ensures OrZero(p.costBasis) > 0.0 ==>
              r.unrealizedGainPct.value * OrZero(p.costBasis) == r.unrealizedGain.value * 100.0
    ensures OrZero(p.costBasis) <= 0.0 ==> r.unrealizedGainPct.value == 0.0
    ensures r == p.(currentValue := r.currentValue, unrealizedGain := r.unrealizedGain,
                    unrealizedGainPct := r.unrealizedGainPct)
  {
    var value := p.shares * price;
    var cost := OrZero(p.costBasis);
    var gain := value - cost;
    p.(currentValue := Some(value), unrealizedGain := Some(gain),
       unrealizedGainPct := Some(if cost > 0.0 then gain / cost * 100.0 else 0.0))
  }

  /** A lot's move since the previous close, in money and as a percent of the close. */
  function DayMoved(p: Position, price: real, previousClose: real): (r: Position)
    requires previousClose != 0.0
    ensures r.dayChange.Some? && r.dayChangePct.Some?
    ensures r.dayChange.value == (price - previousClose) * p.shares
    ensures r.dayChangePct.value * previousClose == (price - previousClose) * 100.0
    ensures r == p.(dayChange := r.dayChange, dayChangePct := r.dayChangePct)
  {
    var move := price - previousClose;
    p.(dayChange := Some(move * p.shares), dayChangePct := Some(move / previousClose * 100.0))
  }

  /** The computed fields one lot receives from the quote of its symbol. */
  function Enrich(p: Position, priceData: map<string, Quote>): Position {
    var withCost := WithCost(p);
    if p.symbol !in priceData then withCost
    else
      var q := priceData[p.symbol];
      var withPrice := withCost.(currentPrice := q.currentPrice);
      var withValue := if Truthy(q.currentPrice) then Valued(withPrice, PriceOf(p.symbol, priceData)) else withPrice;
      if Truthy(q.currentPrice) && Truthy(q.previousClose)
      then DayMoved(withValue, PriceOf(p.symbol, priceData), q.previousClose.value)
      else withValue
  }

  function EnrichAll(ps: seq<Position>, priceData: map<string, Quote>): (r: seq<Position>)
    ensures |r| == |ps|
    ensures forall i :: 0 <= i < |ps| ==> r[i] == Enrich(ps[i], priceData)
  {
    seq(|ps|, i requires 0 <= i < |ps| => Enrich(ps[i], priceData))
  }

  /** Value a lot at a truthy price: market value, gain over cost, gain percent. */
  method ValueLot(lot: Position, price: real) returns (position: Position)
    requires lot.costBasis.Some?
    ensures position == Valued(lot, price)
  {
    position := lot;
    var currentValue := position.shares * price;
    position := position.(currentValue := Some(currentValue));
    var unrealizedGain := position.currentValue.value - position.costBasis.value;
    position := position.(unrealizedGain := Some(unrealizedGain));
    var unrealizedGainPct :=
      if position.costBasis.value > 0.0 then position.unrealizedGain.value / position.costBasis.value * 100.0 else 0.0;
    position := position.(unrealizedGainPct := Some(unrealizedGainPct));
    assert currentValue == Valued(lot, price).currentValue.value;
  }

  /** Record a lot's move since the previous close. */
  method MoveLot(lot: Position, price: real, previousClose: real) returns (position: Position)
    requires previousClose != 0.0
    ensures position == DayMoved(lot, price, previousClose)
  {
    position := lot;
    var dayChange := (price - previousClose) * position.shares;
    position := position.(dayChange := Some(dayChange));
    var dayChangePct := (price - previousClose) / previousClose * 100.0;
    position := position.(dayChangePct := Some(dayChangePct));
    assert dayChange == DayMoved(lot, price, previousClose).dayChange.value;
  }

  /**
   * The body of the enrichment loop for one lot: its cost basis always; with a quote,
   * the quoted price; with a truthy price, value, gain and gain percent; with a
   * truthy previous close as well, the day change.
   */
  method EnrichLot(lot: Position, priceData: map<string, Quote>) returns (position: Position)
    ensures position == Enrich(lot, priceData)
  {
    position := lot;
    var costBasis := position.shares * position.purchasePrice;
    position := position.(costBasis := Some(costBasis));
    assert costBasis == WithCost(lot).costBasis.value;
    if position.symbol in priceData {
      var analysis := priceData[position.symbol];
      position := position.(currentPrice := analysis.currentPrice);
      if Truthy(analysis.currentPrice) {
        assert analysis.currentPrice.value == PriceOf(lot.symbol, priceData);
        position := ValueLot(position, analysis.currentPrice.value);
      }
      if Truthy(analysis.currentPrice) && Truthy(analysis.previousClose) {
        position := MoveLot(position, analysis.currentPrice.value, analysis.previousClose.value);
      }
    }
  }

  /** The enrichment loop over all lots, in ledger order. */
  method EnrichPositions(positions: seq<Position>, priceData: map<string, Quote>) returns (enriched: seq<Position>)
    ensures enriched == EnrichAll(positions, priceData)
  {
    enriched := [];
    for i := 0 to |positions|
      invariant enriched == EnrichAll(positions[..i], priceData)
    {
      var position := EnrichLot(positions[i], priceData);
      assert positions[..i + 1] == positions[..i] + [positions[i]];
      enriched := enriched + [position];
    }
    assert positions[..|positions|] == positions;
  }

  /**
   * What enrichment gives a lot read from the ledger: its cost basis always; a value,
   * gain and gain percent exactly when its symbol is priced; a day change exactly
   * when the previous close is truthy too. The stored fields are untouched.
   */
  lemma {:induction false} EnrichedLot(p: Position, priceData: map<string, Quote>)
    requires Unvalued(p)
    ensures var e := Enrich(p, priceData);
      && SameLot(e, p)
      && e.costBasis == Some(p.shares * p.purchasePrice)
      && (e.currentPrice.Some? ==> p.symbol in priceData)
      && (e.currentValue.Some? <==> Priced(p.symbol, priceData))
      && (e.unrealizedGain.Some? <==> e.currentValue.Some?)
      && (e.unrealizedGainPct.Some? <==> e.currentValue.Some?)
      && (e.dayChange.Some? <==> DayPriced(p.symbol, priceData))
      && (e.dayChangePct.Some? <==> DayPriced(p.symbol, priceData))
  {
    EnrichKeepsCost(p, priceData);
  }

  /** A priced lot is worth its shares x the price; its gain is value - cost, and the gain percent is relative to the cost. */
  lemma {:induction false} EnrichedValue(p: Position, priceData: map<string, Quote>)
    requires Unvalued(p) && Priced(p.symbol, priceData)
    ensures var e := Enrich(p, priceData);
      && e.currentValue.Some? && e.unrealizedGain.Some? && e.unrealizedGainPct.Some?
      && e.currentValue.value == p.shares * PriceOf(p.symbol, priceData)
      && e.unrealizedGain.value == e.currentValue.value - p.shares * p.purchasePrice
      && (p.shares * p.purchasePrice > 0.0 ==>
            e.unrealizedGainPct.value * (p.shares * p.purchasePrice) == e.unrealizedGain.value * 100.0)
  {
    var withPrice := WithCost(p).(currentPrice := priceData[p.symbol].currentPrice);
    assert withPrice.shares == p.shares && OrZero(withPrice.costBasis) == p.shares * p.purchasePrice;
    var v := Valued(withPrice, PriceOf(p.symbol, priceData));
    assert Enrich(p, priceData).currentValue == v.currentValue;
    assert Enrich(p, priceData).unrealizedGain == v.unrealizedGain;
    assert Enrich(p, priceData).unrealizedGainPct == v.unrealizedGainPct;
  }

  /** The day change of a lot whose price and previous close are truthy: the price move x shares. */
  lemma {:induction false} EnrichedDayChange(p: Position, priceData: map<string, Quote>)
    requires Unvalued(p) && DayPriced(p.symbol, priceData)
    ensures var e := Enrich(p, priceData);
      && e.dayChange.Some? && e.dayChangePct.Some?
      && e.dayChange.value == (PriceOf(p.symbol, priceData) - priceData[p.symbol].previousClose.value) * p.shares
      && e.dayChangePct.value * priceData[p.symbol].previousClose.value
         == (PriceOf(p.symbol, priceData) - priceData[p.symbol].previousClose.value) * 100.0
  {
  }

  // ---------------------------------------------------------------- per-lot quantities

  function Shares(p: Position): real { p.shares }

  /** shares x purchase price */
  function LotCost(p: Position): real { p.shares * p.purchasePrice }

  /** `p.cost_basis or 0` */
  function CostOrZero(p: Position): real { OrZero(p.costBasis) }

  /** `p.current_value or 0` */
  function ValueOrZero(p: Position): real { OrZero(p.currentValue) }

  /** `p.day_change or 0` */
  function DayChangeOrZero(p: Position): real { OrZero(p.dayChange) }

  /** `x.current_value or 0`: the sort key of the aggregated positions. */
  function AggValue(a: AggregatedPosition): real { OrZero(a.currentValue) }

  /** `x.weight_pct or 0` */
  function WeightOrZero(a: AggregatedPosition): real { OrZero(a.weightPct) }

  function SymbolOf(a: AggregatedPosition): string { a.symbol }

  // ---------------------------------------------------------------- grouping

  /** The symbols of `ps` in order of first appearance: the key order of the grouping dict. */
  function DistinctSymbols(ps: seq<Position>): (r: seq<string>)
    ensures Seqs.NoDup(r)
    ensures forall s :: s in r <==> s in SymbolSet(ps)
  {
    if ps == [] then []
    else
      var d := DistinctSymbols(ps[..|ps| - 1]);
      var s := ps[|ps| - 1].symbol;
      assert ps == ps[..|ps| - 1] + [ps[|ps| - 1]];
      assert SymbolSet(ps) == SymbolSet(ps[..|ps| - 1]) + {s};
      if s in d then d else d + [s]
  }

  /** One group: the lots of `symbol`, in ledger order. */
  function LotsOf(ps: seq<Position>, symbol: string): (r: seq<Position>)
    ensures |r| <= |ps|
    ensures forall i :: 0 <= i < |r| ==> r[i].symbol == symbol && r[i] in ps
    ensures symbol !in SymbolSet(ps) ==> r == []
  {
    if ps == [] then []
    else
      var last := ps[|ps| - 1];
      assert ps == ps[..|ps| - 1] + [last];
      LotsOf(ps[..|ps| - 1], symbol) + (if last.symbol == symbol then [last] else [])
  }

  lemma {:induction false} LotsOfSnoc(ps: seq<Position>, x: Position, symbol: string)
    ensures LotsOf(ps + [x], symbol) == LotsOf(ps, symbol) + (if x.symbol == symbol then [x] else [])
  {
    assert (ps + [x])[..|ps|] == ps;
  }

  /** `x / y` when `y` is positive, 0 otherwise. */
  function Quotient(x: real, y: real): (q: real)
    ensures y > 0.0 ==> q * y == x
    ensures y <= 0.0 ==> q == 0.0
  {
    if y > 0.0 then x / y else 0.0
  }

  /**
   * The aggregated position of one group. `portfolioValue` is the sum of all lot
   * values, the denominator of the weight.
   */
  function Aggregate(symbol: string, lots: seq<Position>, priceData: map<string, Quote>,
                     portfolioValue: real): (a: AggregatedPosition)
    ensures a.symbol == symbol && a.lots == lots
  {
    var totalShares := Seqs.Sum(lots, Shares);
    var totalCost := Seqs.Sum(lots, LotCost);
    var averageCost := Quotient(totalCost, totalShares);
    var quote := if symbol in priceData then Some(priceData[symbol]) else None;
    var currentPrice := if quote.Some? then quote.value.currentPrice else None;
    var currentValue := if Priced(symbol, priceData) then Some(totalShares * PriceOf(symbol, priceData)) else None;
    var unrealizedGain := if Truthy(currentValue) then Some(currentValue.value - totalCost) else None;
    var unrealizedGainPct :=
      if unrealizedGain.Some? && totalCost > 0.0 then Some(Percent(unrealizedGain.value, totalCost)) else None;
    var weightPct :=
      if Truthy(currentValue) && portfolioValue > 0.0 then Some(Percent(currentValue.value, portfolioValue)) else None;
    AggregatedPosition(
      symbol, totalShares, totalCost, averageCost, currentPrice, currentValue, unrealizedGain,
      unrealizedGainPct, weightPct,
      if quote.Some? then quote.value.sector else None,
      if quote.Some? then quote.value.industry else None,
      lots)
  }
  /**
   * What one aggregated position holds: the summed shares and cost, the average
   * cost, and, from a truthy price, the value, the gain and its percent, and the
   * weight in the portfolio; the quote's price, sector and industry when there is a quote.
   */
  lemma {:induction false} AggregateMeaning(symbol: string, lots: seq<Position>, priceData: map<string, Quote>,
                                            portfolioValue: real)
    ensures var a := Aggregate(symbol, lots, priceData, portfolioValue);
      && a.totalShares == Seqs.Sum(lots, Shares)
      && a.totalCostBasis == Seqs.Sum(lots, LotCost)
      && (a.totalShares > 0.0 ==> a.averageCost * a.totalShares == a.totalCostBasis)
      && (a.totalShares <= 0.0 ==> a.averageCost == 0.0)
      && (a.currentValue.Some? <==> Priced(symbol, priceData))
      && (a.currentValue.Some? ==> a.currentValue.value == a.totalShares * PriceOf(symbol, priceData))
      && (a.unrealizedGain.Some? <==> Truthy(a.currentValue))
      && (a.unrealizedGain.Some? ==> a.unrealizedGain.value == a.currentValue.value - a.totalCostBasis)
      && (a.unrealizedGainPct.Some? <==> a.unrealizedGain.Some? && a.totalCostBasis > 0.0)
      && (a.unrealizedGainPct.Some? ==> a.unrealizedGainPct.value * a.totalCostBasis == a.unrealizedGain.value * 100.0)
      && (a.weightPct.Some? <==> Truthy(a.currentValue) && portfolioValue > 0.0)
      && (a.weightPct.Some? ==> a.weightPct.value * portfolioValue == a.currentValue.value * 100.0)
      && (symbol !in priceData ==> a.currentPrice.None? && a.sector.None? && a.industry.None?)
      && (symbol in priceData ==> a.currentPrice == priceData[symbol].currentPrice
                                  && a.sector == priceData[symbol].sector
                                  && a.industry == priceData[symbol].industry)
  {
  }


  /** The aggregated positions of the groups named in `symbols`, in that order. */
  function AggregateAll(symbols: seq<string>, ps: seq<Position>, priceData: map<string, Quote>,
                        portfolioValue: real): (r: seq<AggregatedPosition>)
    ensures |r| == |symbols|
  {
    if symbols == [] then []
    else AggregateAll(symbols[..|symbols| - 1], ps, priceData, portfolioValue)
         + [Aggregate(symbols[|symbols| - 1], LotsOf(ps, symbols[|symbols| - 1]), priceData, portfolioValue)]
  }

  lemma {:induction false} AggregateAllSnoc(symbols: seq<string>, symbol: string, ps: seq<Position>, priceData: map<string, Quote>,
                         portfolioValue: real)
    ensures AggregateAll(symbols + [symbol], ps, priceData, portfolioValue)
         == AggregateAll(symbols, ps, priceData, portfolioValue)
            + [Aggregate(symbol, LotsOf(ps, symbol), priceData, portfolioValue)]
  {
    assert (symbols + [symbol])[..|symbols|] == symbols;
  }

  /**
   * The result of the aggregation: one position per distinct symbol, built in order
   * of first appearance and then stably sorted by value, largest first, with an
   * unpriced position counting as 0.
   */
  function AggregateSpec(ps: seq<Position>, priceData: map<string, Quote>): seq<AggregatedPosition> {
    Seqs.SortDesc(AggregateAll(DistinctSymbols(ps), ps, priceData, Seqs.Sum(ps, ValueOrZero)), AggValue)
  }

  /** The grouping dict after the lots of `ps` have been appended one by one. */
  function Groups(ps: seq<Position>): map<string, seq<Position>> {
    if ps == [] then map[]
    else
      var g := Groups(ps[..|ps| - 1]);
      var x := ps[|ps| - 1];
      g[x.symbol := (if x.symbol in g then g[x.symbol] else []) + [x]]
  }

  /** The grouping dict has one key per symbol, holding exactly that symbol's lots in ledger order. */
  lemma {:induction false} GroupsAreLots(ps: seq<Position>)
    ensures Groups(ps).Keys == SymbolSet(ps)
    ensures forall s :: s in Groups(ps) ==> Groups(ps)[s] == LotsOf(ps, s)
  {
    if ps != [] {
      var init := ps[..|ps| - 1];
      var x := ps[|ps| - 1];
      GroupsAreLots(init);
      assert ps == init + [x];
      assert SymbolSet(ps) == SymbolSet(init) + {x.symbol};
      forall s | s in Groups(ps) ensures Groups(ps)[s] == LotsOf(ps, s) {
        LotsOfSnoc(init, x, s);
        if s !in Groups(init) {
          assert LotsOf(init, s) == [] by {
            assert s !in SymbolSet(init);
          }
        }
      }
    }
  }

  /** The grouping loop: a dict from symbol to its lots, whose keys keep the order of first appearance. */
  method GroupBySymbol(positions: seq<Position>) returns (order: seq<string>, symbolGroups: map<string, seq<Position>>)
    ensures order == DistinctSymbols(positions)
    ensures symbolGroups == Groups(positions)
  {
    order := [];
    symbolGroups := map[];
    for i := 0 to |positions|
      invariant order == DistinctSymbols(positions[..i])
      invariant symbolGroups == Groups(positions[..i])
    {
      var position := positions[i];
      assert positions[..i + 1][..i] == positions[..i];
      GroupsAreLots(positions[..i]);
      if position.symbol !in symbolGroups {
        symbolGroups := symbolGroups[position.symbol := []];
        order := order + [position.symbol];
      }
      symbolGroups := symbolGroups[position.symbol := symbolGroups[position.symbol] + [position]];
    }
    assert positions[..|positions|] == positions;
  }

  /** The body of the building loop: the aggregated position of one group. */
  method AggregateGroup(symbol: string, lots: seq<Position>, priceData: map<string, Quote>,
                        totalPortfolioValue: real) returns (agg: AggregatedPosition)
    ensures agg == Aggregate(symbol, lots, priceData, totalPortfolioValue)
  {
    var totalShares := Seqs.Sum(lots, Shares);
    var totalCost := Seqs.Sum(lots, LotCost);
    var averageCost := if totalShares > 0.0 then totalCost / totalShares else 0.0;

    var currentPrice: Option<real> := None;
    var currentValue: Option<real> := None;
    var sector: Option<string> := None;
    var industry: Option<string> := None;
    if symbol in priceData {
      var analysis := priceData[symbol];
      currentPrice := analysis.currentPrice;
      sector := analysis.sector;
      industry := analysis.industry;
      if Truthy(currentPrice) {
        currentValue := Some(totalShares * currentPrice.value);
        assert currentValue.value == Aggregate(symbol, lots, priceData, totalPortfolioValue).currentValue.value;
      }
    }
    var unrealizedGain := if Truthy(currentValue) then Some(currentValue.value - totalCost) else None;
    var unrealizedGainPct :=
      if unrealizedGain.Some? && totalCost > 0.0 then Some(unrealizedGain.value / totalCost * 100.0) else None;
    var weightPct :=
      if Truthy(currentValue) && totalPortfolioValue > 0.0
      then Some(currentValue.value / totalPortfolioValue * 100.0) else None;
    agg := AggregatedPosition(
      symbol, totalShares, totalCost, averageCost, currentPrice, currentValue, unrealizedGain,
      unrealizedGainPct, weightPct, sector, industry, lots);
  }

  /** The building loop: one aggregated position per group, in the key order of the grouping dict. */
  method BuildAggregates(order: seq<string>, symbolGroups: map<string, seq<Position>>, positions: seq<Position>,
                         priceData: map<string, Quote>, totalPortfolioValue: real)
    returns (aggregated: seq<AggregatedPosition>)
    requires forall s :: s in order ==> s in symbolGroups && symbolGroups[s] == LotsOf(positions, s)
    ensures aggregated == AggregateAll(order, positions, priceData, totalPortfolioValue)
  {
    aggregated := [];
    for k := 0 to |order|
      invariant aggregated == AggregateAll(order[..k], positions, priceData, totalPortfolioValue)
    {
      var symbol := order[k];
      var agg := AggregateGroup(symbol, symbolGroups[symbol], priceData, totalPortfolioValue);
      assert order[..k + 1] == order[..k] + [symbol];
      AggregateAllSnoc(order[..k], symbol, positions, priceData, totalPortfolioValue);
      aggregated := aggregated + [agg];
    }
    assert order[..|order|] == order;
  }

  /** The aggregation: group by symbol, build one position per group in key order, then sort by value. */
  method AggregatePositions(positions: seq<Position>, priceData: map<string, Quote>)
    returns (aggregated: seq<AggregatedPosition>)
    ensures aggregated == AggregateSpec(positions, priceData)
  {
    var order, symbolGroups := GroupBySymbol(positions);
    GroupsAreLots(positions);
    var totalPortfolioValue := Seqs.Sum(positions, ValueOrZero);
    aggregated := BuildAggregates(order, symbolGroups, positions, priceData, totalPortfolioValue);
    aggregated := Seqs.SortDesc(aggregated, AggValue);
  }

  // ---------------------------------------------------------------- what the aggregation computes

  lemma {:induction false} AggregateAllAt(symbols: seq<string>, ps: seq<Position>, priceData: map<string, Quote>,
                                          portfolioValue: real, i: int)
    requires 0 <= i < |symbols|
    ensures AggregateAll(symbols, ps, priceData, portfolioValue)[i]
         == Aggregate(symbols[i], LotsOf(ps, symbols[i]), priceData, portfolioValue)
    decreases |symbols|
  {
    var n := |symbols| - 1;
    var r := AggregateAll(symbols, ps, priceData, portfolioValue);
    var init := symbols[..n];
    assert r[..n] == AggregateAll(init, ps, priceData, portfolioValue);
    if i < n {
      AggregateAllAt(init, ps, priceData, portfolioValue, i);
      assert r[i] == r[..n][i];
      assert init[i] == symbols[i];
    }
  }

  lemma {:induction false} AggregateAllSymbols(symbols: seq<string>, ps: seq<Position>, priceData: map<string, Quote>, portfolioValue: real)
    ensures Seqs.Map(AggregateAll(symbols, ps, priceData, portfolioValue), SymbolOf) == symbols
  {
    var r := AggregateAll(symbols, ps, priceData, portfolioValue);
    forall i | 0 <= i < |symbols| ensures SymbolOf(r[i]) == symbols[i] {
      AggregateAllAt(symbols, ps, priceData, portfolioValue, i);
    }
  }

  /** No symbol has two entries in the aggregation. */
  lemma {:induction false} AggregationNoDup(ps: seq<Position>, priceData: map<string, Quote>)
    ensures Seqs.NoDup(Seqs.Map(AggregateSpec(ps, priceData), SymbolOf))
  {
    var d := DistinctSymbols(ps);
    var u := AggregateAll(d, ps, priceData, Seqs.Sum(ps, ValueOrZero));
    AggregateAllSymbols(d, ps, priceData, Seqs.Sum(ps, ValueOrZero));
    Seqs.SortDescNoDup(u, AggValue, SymbolOf);
  }

  /** The aggregation has as many entries as the ledger has distinct symbols. */
  lemma {:induction false} AggregationCount(ps: seq<Position>, priceData: map<string, Quote>)
    ensures |AggregateSpec(ps, priceData)| == |SymbolSet(ps)|
  {
    var d := DistinctSymbols(ps);
    Seqs.NoDupCard(d);
    assert (set x | x in d) == SymbolSet(ps);
  }

  /** The symbols of the aggregation are exactly the symbols of the ledger. */
  lemma {:induction false} AggregationMembers(ps: seq<Position>, priceData: map<string, Quote>)
    ensures forall s :: s in Seqs.Map(AggregateSpec(ps, priceData), SymbolOf) <==> s in SymbolSet(ps)
  {
    var d := DistinctSymbols(ps);
    var u := AggregateAll(d, ps, priceData, Seqs.Sum(ps, ValueOrZero));
    var m := Seqs.Map(AggregateSpec(ps, priceData), SymbolOf);
    AggregateAllSymbols(d, ps, priceData, Seqs.Sum(ps, ValueOrZero));
    Seqs.SortDescMapMultiset(u, AggValue, SymbolOf);
    assert multiset(m) == multiset(d);
    forall s ensures s in m <==> s in SymbolSet(ps) {
      assert s in m <==> s in multiset(m);
      assert s in d <==> s in multiset(d);
    }
  }

  /**
   * Each entry of the aggregation is the aggregate of exactly its symbol's lots,
   * weighted against the sum of all lot values.
   */
  lemma {:induction false} AggregationEntries(ps: seq<Position>, priceData: map<string, Quote>)
    ensures var r := AggregateSpec(ps, priceData);
      forall i :: 0 <= i < |r| ==>
        r[i] == Aggregate(r[i].symbol, LotsOf(ps, r[i].symbol), priceData, Seqs.Sum(ps, ValueOrZero))
  {
    var d := DistinctSymbols(ps);
    var v := Seqs.Sum(ps, ValueOrZero);
    var u := AggregateAll(d, ps, priceData, v);
    var r := AggregateSpec(ps, priceData);
    forall i | 0 <= i < |r|
      ensures r[i] == Aggregate(r[i].symbol, LotsOf(ps, r[i].symbol), priceData, v)
    {
      assert r[i] in multiset(u);
      var j :| 0 <= j < |u| && u[j] == r[i];
      AggregateAllAt(d, ps, priceData, v, j);
    }
  }

  /**
   * The aggregation is non-increasing in value, an unpriced entry counting as 0,
   * and entries of equal value keep the order in which their symbols first appear.
   */
  lemma {:induction false} AggregationOrder(ps: seq<Position>, priceData: map<string, Quote>)
    ensures Seqs.SortedDesc(AggregateSpec(ps, priceData), AggValue)
    ensures forall k ::
              Seqs.WithKey(AggregateSpec(ps, priceData), AggValue, k)
              == Seqs.WithKey(AggregateAll(DistinctSymbols(ps), ps, priceData, Seqs.Sum(ps, ValueOrZero)), AggValue, k)
  {
    var u := AggregateAll(DistinctSymbols(ps), ps, priceData, Seqs.Sum(ps, ValueOrZero));
    forall k ensures Seqs.WithKey(Seqs.SortDesc(u, AggValue), AggValue, k) == Seqs.WithKey(u, AggValue, k) {
      Seqs.SortDescStable(u, AggValue, k);
    }
  }

  // ---------------------------------------------------------------- sums over the groups

  /** The sum of `f` over the lots of each symbol of `symbols`, group after group. */
  function GroupSum(symbols: seq<string>, ps: seq<Position>, f: Position -> real): real {
    if symbols == [] then 0.0
    else GroupSum(symbols[..|symbols| - 1], ps, f) + Seqs.Sum(LotsOf(ps, symbols[|symbols| - 1]), f)
  }

  /** The last lot of the ledger adds to the sum of its own group only. */
  lemma {:induction false} LotSumLast(ps: seq<Position>, symbol: string, f: Position -> real)
    requires ps != []
    ensures var init := ps[..|ps| - 1]; var x := ps[|ps| - 1];
      Seqs.Sum(LotsOf(ps, symbol), f) == Seqs.Sum(LotsOf(init, symbol), f) + (if x.symbol == symbol then f(x) else 0.0)
  {
    var init := ps[..|ps| - 1];
    var x := ps[|ps| - 1];
    if x.symbol == symbol {
      Seqs.SumAppend(LotsOf(init, symbol), [x], f);
      assert [x][..0] == [];
    } else {
      assert LotsOf(init, symbol) + [] == LotsOf(init, symbol);
    }
  }

  /** Over groups of distinct symbols, the last lot of the ledger counts once when its symbol is among them. */
  lemma {:induction false} GroupSumLast(symbols: seq<string>, ps: seq<Position>, f: Position -> real)
    requires ps != [] && Seqs.NoDup(symbols)
    ensures var init := ps[..|ps| - 1]; var x := ps[|ps| - 1];
      GroupSum(symbols, ps, f) == GroupSum(symbols, init, f) + (if x.symbol in symbols then f(x) else 0.0)
    decreases |symbols|
  {
    if symbols != [] {
      var init := symbols[..|symbols| - 1];
      var s := symbols[|symbols| - 1];
      assert symbols == init + [s];
      Seqs.NoDupInit(symbols);
      GroupSumLast(init, ps, f);
      LotSumLast(ps, s, f);
    }
  }

  /** The last lot, of a symbol not seen before, opens a group holding just that lot. */
  lemma {:induction false} GroupSumNewLast(ps: seq<Position>, f: Position -> real)
    requires ps != [] && ps[|ps| - 1].symbol !in DistinctSymbols(ps[..|ps| - 1])
    ensures var d := DistinctSymbols(ps[..|ps| - 1]);
      GroupSum(DistinctSymbols(ps), ps, f) == GroupSum(d, ps, f) + f(ps[|ps| - 1])
  {
    var init := ps[..|ps| - 1];
    var x := ps[|ps| - 1];
    var d := DistinctSymbols(init);
    var d' := d + [x.symbol];
    assert DistinctSymbols(ps) == d';
    assert d'[..|d|] == d;
    LotSumLast(ps, x.symbol, f);
    assert x.symbol !in SymbolSet(init);
    assert LotsOf(init, x.symbol) == [];
  }

  /** Grouping partitions the lots: summing group after group gives the sum over the whole ledger. */
  lemma {:induction false} GroupSumPartition(ps: seq<Position>, f: Position -> real)
    ensures GroupSum(DistinctSymbols(ps), ps, f) == Seqs.Sum(ps, f)
    decreases |ps|
  {
    if ps != [] {
      var init := ps[..|ps| - 1];
      var x := ps[|ps| - 1];
      var d := DistinctSymbols(init);
      GroupSumPartition(init, f);
      GroupSumLast(d, ps, f);
      if x.symbol !in d {
        GroupSumNewLast(ps, f);
      }
    }
  }

  // ---------------------------------------------------------------- values and weights

  /** A lot's value is shares x quoted price when its symbol is priced, and absent otherwise. */
  predicate ValuedLot(p: Position, priceData: map<string, Quote>) {
    && (p.currentValue.Some? <==> Priced(p.symbol, priceData))
    && (p.currentValue.Some? ==> p.currentValue.value == p.shares * PriceOf(p.symbol, priceData))
  }

  ghost predicate ValuedBy(ps: seq<Position>, priceData: map<string, Quote>) {
    forall p :: p in ps ==> ValuedLot(p, priceData)
  }

  /** Enriching lots read from the ledger values each of them by its symbol's quote. */
  lemma {:induction false} EnrichedValued(ps: seq<Position>, priceData: map<string, Quote>)
    requires forall i :: 0 <= i < |ps| ==> Unvalued(ps[i])
    ensures ValuedBy(EnrichAll(ps, priceData), priceData)
  {
    var e := EnrichAll(ps, priceData);
    forall p | p in e ensures ValuedLot(p, priceData) {
      var i :| 0 <= i < |e| && e[i] == p;
      EnrichedLotValued(ps[i], priceData);
    }
  }

  lemma {:induction false} EnrichedLotValued(p: Position, priceData: map<string, Quote>)
    requires Unvalued(p)
    ensures ValuedLot(Enrich(p, priceData), priceData)
  {
    EnrichedLot(p, priceData);
    if Priced(p.symbol, priceData) {
      EnrichedValue(p, priceData);
    }
  }

  /** The value of an aggregated position: total shares x price when priced, 0 otherwise. */
  lemma {:induction false} AggregateValue(symbol: string, lots: seq<Position>, priceData: map<string, Quote>, portfolioValue: real)
    ensures AggValue(Aggregate(symbol, lots, priceData, portfolioValue))
         == if Priced(symbol, priceData) then Seqs.Sum(lots, Shares) * PriceOf(symbol, priceData) else 0.0
  {
  }

  /** The lot values of a priced group add up to its total shares x price. */
  lemma {:induction false} LotValuesPriced(symbol: string, lots: seq<Position>, priceData: map<string, Quote>)
    requires forall i :: 0 <= i < |lots| ==> lots[i].symbol == symbol
    requires ValuedBy(lots, priceData)
    requires Priced(symbol, priceData)
    ensures Seqs.Sum(lots, ValueOrZero) == Seqs.Sum(lots, Shares) * PriceOf(symbol, priceData)
  {
    PricedLots(symbol, lots, priceData);
    ScaledSum(lots, PriceOf(symbol, priceData));
  }

  /** Lots each worth their shares x `price` are worth their total shares x `price`. */
  lemma {:induction false} ScaledSum(lots: seq<Position>, price: real)
    requires forall i :: 0 <= i < |lots| ==> ValueOrZero(lots[i]) == Shares(lots[i]) * price
    ensures Seqs.Sum(lots, ValueOrZero) == Seqs.Sum(lots, Shares) * price
  {
    Seqs.SumScale(lots, ValueOrZero, Shares, price);
  }

  /** In a priced group every lot is worth its shares x the group's price. */
  lemma {:induction false} PricedLots(symbol: string, lots: seq<Position>, priceData: map<string, Quote>)
    requires forall i :: 0 <= i < |lots| ==> lots[i].symbol == symbol
    requires ValuedBy(lots, priceData)
    requires Priced(symbol, priceData)
    ensures forall i :: 0 <= i < |lots| ==> ValueOrZero(lots[i]) == Shares(lots[i]) * PriceOf(symbol, priceData)
  {
    forall i | 0 <= i < |lots| ensures ValueOrZero(lots[i]) == Shares(lots[i]) * PriceOf(symbol, priceData) {
      assert ValuedLot(lots[i], priceData);
    }
  }

  /** The lots of an unpriced group have no value. */
  lemma {:induction false} LotValuesUnpriced(symbol: string, lots: seq<Position>, priceData: map<string, Quote>)
    requires forall i :: 0 <= i < |lots| ==> lots[i].symbol == symbol
    requires ValuedBy(lots, priceData)
    requires !Priced(symbol, priceData)
    ensures Seqs.Sum(lots, ValueOrZero) == 0.0
  {
    forall i | 0 <= i < |lots| ensures ValueOrZero(lots[i]) == 0.0 {
      assert ValuedLot(lots[i], priceData);
    }
    Seqs.SumZero(lots, ValueOrZero);
  }

  /** The value of an aggregated position is the sum of the values of its lots. */
  lemma {:induction false} GroupValue(symbol: string, lots: seq<Position>, priceData: map<string, Quote>, portfolioValue: real)
    requires forall i :: 0 <= i < |lots| ==> lots[i].symbol == symbol
    requires ValuedBy(lots, priceData)
    ensures AggValue(Aggregate(symbol, lots, priceData, portfolioValue)) == Seqs.Sum(lots, ValueOrZero)
  {
    AggregateValue(symbol, lots, priceData, portfolioValue);
    if Priced(symbol, priceData) {
      LotValuesPriced(symbol, lots, priceData);
    } else {
      LotValuesUnpriced(symbol, lots, priceData);
    }
  }

  lemma {:induction false} AggregateAllValue(symbols: seq<string>, ps: seq<Position>, priceData: map<string, Quote>,
                                             portfolioValue: real)
    requires ValuedBy(ps, priceData)
    ensures Seqs.Sum(AggregateAll(symbols, ps, priceData, portfolioValue), AggValue) == GroupSum(symbols, ps, ValueOrZero)
    decreases |symbols|
  {
    if symbols != [] {
      var n := |symbols| - 1;
      var r := AggregateAll(symbols, ps, priceData, portfolioValue);
      AggregateAllValue(symbols[..n], ps, priceData, portfolioValue);
      GroupValue(symbols[n], LotsOf(ps, symbols[n]), priceData, portfolioValue);
      assert r[..n] == AggregateAll(symbols[..n], ps, priceData, portfolioValue);
    }
  }

  /** The values of the aggregated positions add up to the sum of the lot values. */
  lemma {:induction false} AggregationValueTotal(ps: seq<Position>, priceData: map<string, Quote>)
    requires ValuedBy(ps, priceData)
    ensures Seqs.Sum(AggregateSpec(ps, priceData), AggValue) == Seqs.Sum(ps, ValueOrZero)
  {
    var d := DistinctSymbols(ps);
    var v := Seqs.Sum(ps, ValueOrZero);
    AggregateAllValue(d, ps, priceData, v);
    GroupSumPartition(ps, ValueOrZero);
    Seqs.SortDescSum(AggregateAll(d, ps, priceData, v), AggValue, AggValue);
  }

  /**
   * An aggregated position's weight is its share of the portfolio value in percent,
   * `c` being 100 / the portfolio value; an unvalued position has weight 0.
   */
  lemma {:induction false} WeightIsShare(symbol: string, lots: seq<Position>, priceData: map<string, Quote>, portfolioValue: real, c: real)
    requires portfolioValue > 0.0 && c == 100.0 / portfolioValue
    ensures var a := Aggregate(symbol, lots, priceData, portfolioValue);
      WeightOrZero(a) == AggValue(a) * c
  {
    var a := Aggregate(symbol, lots, priceData, portfolioValue);
    if Truthy(a.currentValue) {
      assert a.weightPct.value * portfolioValue == a.currentValue.value * 100.0;
    }
  }

  lemma {:induction false} EntryWeights(ps: seq<Position>, priceData: map<string, Quote>, t: real, c: real)
    requires t == Seqs.Sum(ps, ValueOrZero) && t > 0.0 && c == 100.0 / t
    ensures forall i :: 0 <= i < |AggregateSpec(ps, priceData)| ==>
              WeightOrZero(AggregateSpec(ps, priceData)[i]) == AggValue(AggregateSpec(ps, priceData)[i]) * c
  {
    AggregationEntries(ps, priceData);
    GroupWeights(AggregateSpec(ps, priceData), ps, priceData, t, c);
  }

  lemma {:induction false} GroupWeights(r: seq<AggregatedPosition>, ps: seq<Position>, priceData: map<string, Quote>, t: real, c: real)
    requires t > 0.0 && c == 100.0 / t
    requires forall i :: 0 <= i < |r| ==> r[i] == Aggregate(r[i].symbol, LotsOf(ps, r[i].symbol), priceData, t)
    ensures forall i :: 0 <= i < |r| ==> WeightOrZero(r[i]) == AggValue(r[i]) * c
  {
    forall i | 0 <= i < |r| ensures WeightOrZero(r[i]) == AggValue(r[i]) * c {
      WeightIsShare(r[i].symbol, LotsOf(ps, r[i].symbol), priceData, t, c);
    }
  }

  /** With a positive portfolio value, the weights of the aggregated positions add up to 100. */
  lemma {:induction false} WeightsSumTo100(ps: seq<Position>, priceData: map<string, Quote>)
    requires ValuedBy(ps, priceData)
    requires Seqs.Sum(ps, ValueOrZero) > 0.0
    ensures Seqs.Sum(AggregateSpec(ps, priceData), WeightOrZero) == 100.0
  {
    var t := Seqs.Sum(ps, ValueOrZero);
    var c := 100.0 / t;
    assert c * t == 100.0;
    AggregationValueTotal(ps, priceData);
    EntryWeights(ps, priceData, t, c);
    AggregationShares(ps, priceData, t, c);
  }

  lemma {:induction false} AggregationShares(ps: seq<Position>, priceData: map<string, Quote>, t: real, c: real)
    requires t > 0.0 && c * t == 100.0
    requires Seqs.Sum(AggregateSpec(ps, priceData), AggValue) == t
    requires forall i :: 0 <= i < |AggregateSpec(ps, priceData)| ==>
               WeightOrZero(AggregateSpec(ps, priceData)[i]) == AggValue(AggregateSpec(ps, priceData)[i]) * c
    ensures Seqs.Sum(AggregateSpec(ps, priceData), WeightOrZero) == 100.0
  {
    SharesOfTotal(AggregateSpec(ps, priceData), t, c);
  }

  lemma {:induction false} SharesOfTotal(r: seq<AggregatedPosition>, t: real, c: real)
    requires Seqs.Sum(r, AggValue) == t && c * t == 100.0
    requires forall i :: 0 <= i < |r| ==> WeightOrZero(r[i]) == AggValue(r[i]) * c
    ensures Seqs.Sum(r, WeightOrZero) == 100.0
  {
    Seqs.SumScale(r, WeightOrZero, AggValue, c);
    WholeIsHundred(t, Seqs.Sum(r, AggValue), Seqs.Sum(r, WeightOrZero), c);
  }

  lemma {:induction false} WholeIsHundred(t: real, s: real, w: real, c: real)
    requires s == t && c * t == 100.0 && w == s * c
    ensures w == 100.0
  {
  }

  /** Every lot gets its cost basis whatever the quotes, so the total cost is the sum of shares x purchase price. */
  lemma {:induction false} TotalCostIgnoresQuotes(ps: seq<Position>, priceData: map<string, Quote>)
    ensures Seqs.Sum(EnrichAll(ps, priceData), CostOrZero) == Seqs.Sum(ps, LotCost)
  {
    var e := EnrichAll(ps, priceData);
    forall i | 0 <= i < |ps| ensures CostOrZero(e[i]) == LotCost(ps[i]) {
      EnrichKeepsCost(ps[i], priceData);
    }
    Seqs.SumPointwise(e, CostOrZero, ps, LotCost);
  }

  lemma {:induction false} EnrichKeepsCost(p: Position, priceData: map<string, Quote>)
    ensures Enrich(p, priceData).costBasis == Some(p.shares * p.purchasePrice)
  {
    var e := Enrich(p, priceData);
    assert e.costBasis == WithCost(p).costBasis;
  }

  // ---------------------------------------------------------------- sector allocation

  /** An aggregated position counts toward the sector allocation: it has a sector and a value, and the total is positive. */
  predicate Allocated(a: AggregatedPosition, totalValue: real) {
    TruthyText(a.sector) && Truthy(a.currentValue) && totalValue > 0.0
  }

  /** The sector-allocation dict after the aggregated positions of `aggs` have been visited in order. */
  function SectorAllocation(aggs: seq<AggregatedPosition>, totalValue: real): map<string, real> {
    if aggs == [] then map[]
    else
      var m := SectorAllocation(aggs[..|aggs| - 1], totalValue);
      var a := aggs[|aggs| - 1];
      if Allocated(a, totalValue) then
        m[a.sector.value := (if a.sector.value in m then m[a.sector.value] else 0.0)
                            + a.currentValue.value / totalValue * 100.0]
      else m
  }

  /** The summed weight of the allocated positions of `sector`, independently of any dict. */
  function SectorShare(aggs: seq<AggregatedPosition>, sector: string, totalValue: real): real {
    if aggs == [] then 0.0
    else
      var a := aggs[|aggs| - 1];
      SectorShare(aggs[..|aggs| - 1], sector, totalValue)
      + (if Allocated(a, totalValue) && a.sector.value == sector then a.currentValue.value / totalValue * 100.0 else 0.0)
  }

  /** The sectors of the allocated positions of `aggs`. */
  ghost function AllocatedSectors(aggs: seq<AggregatedPosition>, totalValue: real): set<string> {
    if aggs == [] then {}
    else
      var a := aggs[|aggs| - 1];
      AllocatedSectors(aggs[..|aggs| - 1], totalValue) + (if Allocated(a, totalValue) then {a.sector.value} else {})
  }

  lemma {:induction false} AllocatedSectorsMembers(aggs: seq<AggregatedPosition>, totalValue: real, k: string)
    ensures k in AllocatedSectors(aggs, totalValue) <==>
              exists i :: 0 <= i < |aggs| && Allocated(aggs[i], totalValue) && aggs[i].sector.value == k
    decreases |aggs|
  {
    if aggs != [] {
      var n := |aggs| - 1;
      var init := aggs[..n];
      AllocatedSectorsMembers(init, totalValue, k);
      if exists i :: 0 <= i < |init| && Allocated(init[i], totalValue) && init[i].sector.value == k {
        var i :| 0 <= i < |init| && Allocated(init[i], totalValue) && init[i].sector.value == k;
        assert aggs[i] == init[i];
      }
      if exists i :: 0 <= i < |aggs| && Allocated(aggs[i], totalValue) && aggs[i].sector.value == k {
        var i :| 0 <= i < |aggs| && Allocated(aggs[i], totalValue) && aggs[i].sector.value == k;
        if i < n {
          assert init[i] == aggs[i];
        }
      }
    }
  }

  /** The allocation's keys are the allocated sectors, each holding its sector's share; other sectors have none. */
  lemma {:induction false} SectorAllocationKeys(aggs: seq<AggregatedPosition>, totalValue: real)
    ensures SectorAllocation(aggs, totalValue).Keys == AllocatedSectors(aggs, totalValue)
    ensures forall k :: k in SectorAllocation(aggs, totalValue) ==>
              SectorAllocation(aggs, totalValue)[k] == SectorShare(aggs, k, totalValue)
    ensures forall k :: k !in AllocatedSectors(aggs, totalValue) ==> SectorShare(aggs, k, totalValue) == 0.0
    decreases |aggs|
  {
    if aggs != [] {
      SectorAllocationKeys(aggs[..|aggs| - 1], totalValue);
    }
  }

  /**
   * The allocation has a key for exactly the sectors of allocated positions (so it
   * is empty unless the total value is positive), and each key maps to the summed
   * weight of the allocated positions of that sector.
   */
  lemma {:induction false} SectorAllocationMeaning(aggs: seq<AggregatedPosition>, totalValue: real)
    ensures forall k :: k in SectorAllocation(aggs, totalValue) <==>
              exists i :: 0 <= i < |aggs| && Allocated(aggs[i], totalValue) && aggs[i].sector.value == k
    ensures forall k :: k in SectorAllocation(aggs, totalValue) ==>
              SectorAllocation(aggs, totalValue)[k] == SectorShare(aggs, k, totalValue)
    ensures forall k :: k !in SectorAllocation(aggs, totalValue) ==> SectorShare(aggs, k, totalValue) == 0.0
  {
    SectorAllocationKeys(aggs, totalValue);
    forall k ensures k in SectorAllocation(aggs, totalValue) <==>
                     exists i :: 0 <= i < |aggs| && Allocated(aggs[i], totalValue) && aggs[i].sector.value == k
    {
      AllocatedSectorsMembers(aggs, totalValue, k);
    }
  }

  // ---------------------------------------------------------------- the valuation

  /** The day change as a percent of the value before it, 0 without a positive base. */
  function DayChangePct(dayChange: real, value: real): (pct: real)
    ensures value - dayChange > 0.0 ==> pct * (value - dayChange) == dayChange * 100.0
    ensures value - dayChange <= 0.0 ==> pct == 0.0
  {
    if value - dayChange > 0.0 then dayChange / (value - dayChange) * 100.0 else 0.0
  }

  /** The portfolio built from the enriched lots, their aggregates and the symbol count. */
  function PortfolioOf(enriched: seq<Position>, aggregated: seq<AggregatedPosition>, numSymbols: nat): Portfolio {
    var totalCost := Seqs.Sum(enriched, CostOrZero);
    var totalValue := Seqs.Sum(enriched, ValueOrZero);
    var totalDayChange := Seqs.Sum(enriched, DayChangeOrZero);
    Portfolio(
      enriched, aggregated, totalCost, totalValue, totalValue - totalCost, Percent(totalValue - totalCost, totalCost),
      totalDayChange, DayChangePct(totalDayChange, totalValue),
      |enriched|, numSymbols, SectorAllocation(aggregated, totalValue))
  }

  /** The valuation of the ledger's lots against the fetched quotes. */
  function PortfolioSpec(positions: seq<Position>, priceData: map<string, Quote>): Portfolio {
    var enriched := EnrichAll(positions, priceData);
    PortfolioOf(enriched, AggregateSpec(enriched, priceData), |SymbolSet(positions)|)
  }

  /** The sector-allocation loop: each aggregate with a sector and a value adds its share of the total. */
  method AllocateSectors(aggregated: seq<AggregatedPosition>, totalCurrentValue: real)
    returns (sectorAllocation: map<string, real>)
    ensures sectorAllocation == SectorAllocation(aggregated, totalCurrentValue)
  {
    sectorAllocation := map[];
    for k := 0 to |aggregated|
      invariant sectorAllocation == SectorAllocation(aggregated[..k], totalCurrentValue)
    {
      var agg := aggregated[k];
      assert aggregated[..k + 1][..k] == aggregated[..k];
      if TruthyText(agg.sector) && Truthy(agg.currentValue) && totalCurrentValue > 0.0 {
        if agg.sector.value !in sectorAllocation {
          sectorAllocation := sectorAllocation[agg.sector.value := 0.0];
        }
        var share := agg.currentValue.value / totalCurrentValue * 100.0;
        sectorAllocation := sectorAllocation[agg.sector.value := sectorAllocation[agg.sector.value] + share];
      }
    }
    assert aggregated[..|aggregated|] == aggregated;
  }

  /** The portfolio totals, summed over the enriched lots with a missing field counted as 0. */
  method RollUpTotals(enrichedPositions: seq<Position>)
    returns (totalCostBasis: real, totalCurrentValue: real, totalUnrealizedGain: real,
             totalUnrealizedGainPct: real, totalDayChange: real, totalDayChangePct: real)
    ensures totalCostBasis == Seqs.Sum(enrichedPositions, CostOrZero)
    ensures totalCurrentValue == Seqs.Sum(enrichedPositions, ValueOrZero)
    ensures totalUnrealizedGain == totalCurrentValue - totalCostBasis
    ensures totalUnrealizedGainPct == Percent(totalUnrealizedGain, totalCostBasis)
    ensures totalDayChange == Seqs.Sum(enrichedPositions, DayChangeOrZero)
    ensures totalDayChangePct == DayChangePct(totalDayChange, totalCurrentValue)
  {
    totalCostBasis := Seqs.Sum(enrichedPositions, CostOrZero);
    totalCurrentValue := Seqs.Sum(enrichedPositions, ValueOrZero);
    totalUnrealizedGain := totalCurrentValue - totalCostBasis;
    totalDayChange := Seqs.Sum(enrichedPositions, DayChangeOrZero);
    totalUnrealizedGainPct := 0.0;
    if totalCostBasis > 0.0 {
      totalUnrealizedGainPct := totalUnrealizedGain / totalCostBasis * 100.0;
    }
    totalDayChangePct := 0.0;
    var previousValue := totalCurrentValue - totalDayChange;
    if previousValue > 0.0 {
      totalDayChangePct := totalDayChange / previousValue * 100.0;
    }
  }

  /**
   * The valuation after the fetch: enrich the lots, aggregate them, roll up the
   * totals, and accumulate the sector allocation over the aggregated positions.
   */
  method ValuePortfolio(positions: seq<Position>, priceData: map<string, Quote>) returns (portfolio: Portfolio)
    ensures portfolio == PortfolioSpec(positions, priceData)
  {
    var symbols := SymbolSet(positions);
    var enrichedPositions := EnrichPositions(positions, priceData);
    var aggregated := AggregatePositions(enrichedPositions, priceData);
    portfolio := AssemblePortfolio(enrichedPositions, aggregated, |symbols|);
  }

  /** The totals and the sector allocation of the enriched, aggregated lots. */
  method AssemblePortfolio(enrichedPositions: seq<Position>, aggregated: seq<AggregatedPosition>, numSymbols: nat)
    returns (portfolio: Portfolio)
    ensures portfolio == PortfolioOf(enrichedPositions, aggregated, numSymbols)
  {
    var totalCostBasis, totalCurrentValue, totalUnrealizedGain, totalUnrealizedGainPct, totalDayChange, totalDayChangePct
      := RollUpTotals(enrichedPositions);
    var sectorAllocation := AllocateSectors(aggregated, totalCurrentValue);
    portfolio := Portfolio(
      enrichedPositions, aggregated, totalCostBasis, totalCurrentValue, totalUnrealizedGain,
      totalUnrealizedGainPct, totalDayChange, totalDayChangePct,
      |enrichedPositions|, numSymbols, sectorAllocation);
  }

  /** The total cost basis counts every lot, priced or not: Σ shares x purchase price. */
  lemma {:induction false} PortfolioCostBasis(positions: seq<Position>, priceData: map<string, Quote>)
    ensures PortfolioSpec(positions, priceData).totalCostBasis == Seqs.Sum(positions, LotCost)
  {
    TotalCostIgnoresQuotes(positions, priceData);
  }

  /** The total value, summed over the lots, equals the summed value of the aggregated positions. */
  lemma {:induction false} PortfolioValue(positions: seq<Position>, priceData: map<string, Quote>)
    requires forall i :: 0 <= i < |positions| ==> Unvalued(positions[i])
    ensures var p := PortfolioSpec(positions, priceData);
      p.totalCurrentValue == Seqs.Sum(p.aggregated, AggValue)
  {
    EnrichedValued(positions, priceData);
    AggregationValueTotal(EnrichAll(positions, priceData), priceData);
  }

  /** When the portfolio has a positive value, the weights of its aggregated positions sum to 100. */
  lemma {:induction false} PortfolioWeights(positions: seq<Position>, priceData: map<string, Quote>)
    requires forall i :: 0 <= i < |positions| ==> Unvalued(positions[i])
    requires PortfolioSpec(positions, priceData).totalCurrentValue > 0.0
    ensures Seqs.Sum(PortfolioSpec(positions, priceData).aggregated, WeightOrZero) == 100.0
  {
    EnrichedValued(positions, priceData);
    WeightsSumTo100(EnrichAll(positions, priceData), priceData);
  }

  /** Enrichment keeps every lot's symbol, so the symbols of the enriched lots are those of the ledger. */
  lemma {:induction false} EnrichKeepsSymbols(positions: seq<Position>, priceData: map<string, Quote>)
    ensures SymbolSet(EnrichAll(positions, priceData)) == SymbolSet(positions)
  {
    var e := EnrichAll(positions, priceData);
    forall s | s in SymbolSet(positions) ensures s in SymbolSet(e) {
      var i :| 0 <= i < |positions| && positions[i].symbol == s;
      assert e[i].symbol == s;
    }
    forall s | s in SymbolSet(e) ensures s in SymbolSet(positions) {
      var i :| 0 <= i < |e| && e[i].symbol == s;
      assert positions[i].symbol == s;
    }
  }

  /** One position per lot, and the symbol count is the number of aggregated positions. */
  lemma {:induction false} PortfolioCounts(positions: seq<Position>, priceData: map<string, Quote>)
    ensures var p := PortfolioSpec(positions, priceData);
      p.numPositions == |positions| && p.numSymbols == |p.aggregated|
  {
    EnrichKeepsSymbols(positions, priceData);
    AggregationCount(EnrichAll(positions, priceData), priceData);
  }

  /** With no lots, the valuation is the empty portfolio. */
  lemma {:induction false} EmptyLedger(priceData: map<string, Quote>)
    ensures PortfolioSpec([], priceData) == EmptyPortfolio()
  {
    assert EnrichAll([], priceData) == [];
    assert SymbolSet([]) == {};
  }
}
