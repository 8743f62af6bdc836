/**
 * The performance breakdown of a valued portfolio: one record per priced holding
 * with its contribution to the total gain, the five largest gainers and losers,
 * and the return of each sector.
 */
module Attribution {
  import opened Options
  import opened PortfolioModels
  import Seqs

  // ---------------------------------------------------------------- contribution

  /**
   * A holding's contribution to the total gain: its gain as a percent of the size
   * of the total, made negative whenever holding and total move in opposite
   * directions. A total of 0 gives 0.
   */
  function Contribution(gain: real, totalGain: real): (c: real)
    ensures totalGain == 0.0 ==> c == 0.0
    ensures totalGain > 0.0 ==> c * totalGain == gain * 100.0
    ensures totalGain < 0.0 && gain >= 0.0 ==> c * totalGain == gain * 100.0
    ensures totalGain < 0.0 && gain <= 0.0 ==> c * totalGain == -gain * 100.0
  {
    var size := if totalGain < 0.0 then -totalGain else totalGain;
    var share := if totalGain != 0.0 then gain / size * 100.0 else 0.0;
    var magnitude := if share < 0.0 then -share else share;
    if totalGain > 0.0 && gain < 0.0 then -magnitude
    else if totalGain < 0.0 && gain > 0.0 then -magnitude
    else share
  }

  /**
   * With a losing portfolio every contribution is at most 0, that of a losing
   * holding included: the rule keeps the sign of the holding's own gain there.
   */
  lemma {:induction false} LosingTotalContributions(gain: real, totalGain: real)
    requires totalGain < 0.0
    ensures Contribution(gain, totalGain) <= 0.0
  {
    var c := Contribution(gain, totalGain);
    if gain >= 0.0 {
      assert c * totalGain == gain * 100.0;
    } else {
      assert c * totalGain == -gain * 100.0;
    }
  }

  /** With a winning portfolio the contribution has the sign of the holding's gain. */
  lemma {:induction false} WinningTotalContributions(gain: real, totalGain: real)
    requires totalGain > 0.0
    ensures Contribution(gain, totalGain) < 0.0 <==> gain < 0.0
    ensures Contribution(gain, totalGain) > 0.0 <==> gain > 0.0
  {
    var c := Contribution(gain, totalGain);
    assert c * totalGain == gain * 100.0;
  }

  /** A holding that lost 20 in a portfolio that lost 100 contributes -20, not +20. */
  lemma {:induction false} LosingHoldingInLosingPortfolio()
    ensures Contribution(-20.0, -100.0) == -20.0
  {
  }

  // ---------------------------------------------------------------- holdings

  /** An aggregated position enters the breakdown only with both a value and a gain. */
  predicate Reported(a: AggregatedPosition) {
    a.currentValue.Some? && a.unrealizedGain.Some?
  }

  /** The breakdown record of one reported position. */
  function Holding(a: AggregatedPosition, totalGain: real): (h: HoldingPerformance)
    requires Reported(a)
    ensures h.symbol == a.symbol && h.sector == a.sector
    ensures h.currentValue == a.currentValue.value && h.unrealizedGain == a.unrealizedGain.value
    ensures h.costBasis == a.totalCostBasis
    ensures h.unrealizedGainPct == OrZero(a.unrealizedGainPct) && h.weightPct == OrZero(a.weightPct)
    ensures h.contributionPct == Contribution(a.unrealizedGain.value, totalGain)
  {
    HoldingPerformance(
      a.symbol, a.currentValue.value, a.totalCostBasis, a.unrealizedGain.value,
      OrZero(a.unrealizedGainPct), OrZero(a.weightPct),
      Contribution(a.unrealizedGain.value, totalGain), a.sector)
  }

  /** The records of the reported positions of `aggs`, in their order. */
  function Holdings(aggs: seq<AggregatedPosition>, totalGain: real): seq<HoldingPerformance> {
    if aggs == [] then []
    else
      var a := aggs[|aggs| - 1];
      Holdings(aggs[..|aggs| - 1], totalGain) + (if Reported(a) then [Holding(a, totalGain)] else [])
  }

  /** The number of reported positions of `aggs`. */
  function ReportedCount(aggs: seq<AggregatedPosition>): nat {
    if aggs == [] then 0
    else ReportedCount(aggs[..|aggs| - 1]) + (if Reported(aggs[|aggs| - 1]) then 1 else 0)
  }

  /**
   * Every reported position gives exactly one record, and every record comes from
   * a reported position of the same symbol.
   */
  lemma {:induction false} HoldingsMeaning(aggs: seq<AggregatedPosition>, totalGain: real)
    ensures |Holdings(aggs, totalGain)| == ReportedCount(aggs)
    ensures forall h :: h in Holdings(aggs, totalGain) ==>
              exists a :: a in aggs && Reported(a) && h == Holding(a, totalGain)
    ensures forall a :: a in aggs && Reported(a) ==> Holding(a, totalGain) in Holdings(aggs, totalGain)
    decreases |aggs|
  {
    if aggs != [] {
      var n := |aggs| - 1;
      HoldingsMeaning(aggs[..n], totalGain);
      assert aggs == aggs[..n] + [aggs[n]];
      forall a | a in aggs && Reported(a) ensures Holding(a, totalGain) in Holdings(aggs, totalGain) {
        if a != aggs[n] {
          assert a in aggs[..n];
        }
      }
    }
  }

  /** The loop that skips positions without a value or a gain and records the others. */
  method CollectHoldings(aggregated: seq<AggregatedPosition>, totalGain: real)
    returns (holdings: seq<HoldingPerformance>)
    ensures holdings == Holdings(aggregated, totalGain)
  {
    holdings := [];
    for k := 0 to |aggregated|
      invariant holdings == Holdings(aggregated[..k], totalGain)
    {
      var agg := aggregated[k];
      assert aggregated[..k + 1][..k] == aggregated[..k];
      if agg.currentValue.None? || agg.unrealizedGain.None? {
        continue;
      }
      var contributionPct := Contribution(agg.unrealizedGain.value, totalGain);
      holdings := holdings + [HoldingPerformance(
        agg.symbol, agg.currentValue.value, agg.totalCostBasis, agg.unrealizedGain.value,
        OrZero(agg.unrealizedGainPct), OrZero(agg.weightPct), contributionPct, agg.sector)];
    }
    assert aggregated[..|aggregated|] == aggregated;
  }

  // ---------------------------------------------------------------- rankings

  function Gain(h: HoldingPerformance): real { h.unrealizedGain }
  function CostOf(h: HoldingPerformance): real { h.costBasis }
  predicate IsGainer(h: HoldingPerformance) { h.unrealizedGain > 0.0 }
  predicate IsLoser(h: HoldingPerformance) { h.unrealizedGain < 0.0 }

  /** `[h for h in sorted_by_gain if gain > 0][:5]` */
  function TopGainers(sorted: seq<HoldingPerformance>): seq<HoldingPerformance> {
    Seqs.Take(Seqs.Filter(sorted, IsGainer), 5)
  }

  /** `[h for h in reversed(sorted_by_gain) if gain < 0][:5]` */
  function TopLosers(sorted: seq<HoldingPerformance>): seq<HoldingPerformance> {
    Seqs.Take(Seqs.Filter(Seqs.Reverse(sorted), IsLoser), 5)
  }

  /**
   * The top gainers are at most five holdings with a positive gain, largest first,
   * and no gainer left out has a larger gain than any that was kept.
   */
  lemma {:induction false} TopGainersRanked(sorted: seq<HoldingPerformance>)
    requires Seqs.SortedDesc(sorted, Gain)
    ensures var top := TopGainers(sorted);
      && |top| <= 5
      && (forall h :: h in top ==> h in sorted && h.unrealizedGain > 0.0)
      && Seqs.SortedDesc(top, Gain)
      && (forall h :: h in sorted && h.unrealizedGain > 0.0 && h !in top ==>
            |top| == 5 && forall t :: t in top ==> h.unrealizedGain <= t.unrealizedGain)
  {
    var gainers := Seqs.Filter(sorted, IsGainer);
    Seqs.FilterSortedDesc(sorted, IsGainer, Gain);
    Seqs.TakeDesc(gainers, 5, Gain);
  }

  /** The losers of the reversed ranking are the holdings with a negative gain, most negative first. */
  lemma {:induction false} LosersAscending(sorted: seq<HoldingPerformance>)
    requires Seqs.SortedDesc(sorted, Gain)
    ensures Seqs.SortedAsc(Seqs.Filter(Seqs.Reverse(sorted), IsLoser), Gain)
  {
    Seqs.ReverseSortedDesc(sorted, Gain);
    Seqs.FilterSortedAsc(Seqs.Reverse(sorted), IsLoser, Gain);
  }

  /** Every holding of `sorted` appears in its reversal. */
  lemma {:induction false} InReverse(sorted: seq<HoldingPerformance>, h: HoldingPerformance)
    ensures h in Seqs.Reverse(sorted) <==> h in sorted
  {
    var reversed := Seqs.Reverse(sorted);
    if h in sorted {
      var k :| 0 <= k < |sorted| && sorted[k] == h;
      assert reversed[|sorted| - 1 - k] == h;
    }
    if h in reversed {
      var i :| 0 <= i < |reversed| && reversed[i] == h;
      assert sorted[|sorted| - 1 - i] == h;
    }
  }

  /**
   * The top losers are at most five holdings with a negative gain, most negative
   * first, and no loser left out lost more than any that was kept.
   */
  lemma {:induction false} TopLosersRanked(sorted: seq<HoldingPerformance>)
    requires Seqs.SortedDesc(sorted, Gain)
    ensures var top := TopLosers(sorted);
      && |top| <= 5
      && (forall h :: h in top ==> h in sorted && h.unrealizedGain < 0.0)
      && Seqs.SortedAsc(top, Gain)
      && (forall h :: h in sorted && h.unrealizedGain < 0.0 && h !in top ==>
            |top| == 5 && forall t :: t in top ==> t.unrealizedGain <= h.unrealizedGain)
  {
    var losers := Seqs.Filter(Seqs.Reverse(sorted), IsLoser);
    LosersAscending(sorted);
    Seqs.TakeAsc(losers, 5, Gain);
    forall h | h in sorted ensures h in Seqs.Reverse(sorted) {
      InReverse(sorted, h);
    }
    forall h | h in TopLosers(sorted) ensures h in sorted {
      InReverse(sorted, h);
    }
  }

  /** No holding is both a top gainer and a top loser. */
  lemma {:induction false} TopListsDisjoint(sorted: seq<HoldingPerformance>)
    ensures forall h :: h in TopGainers(sorted) ==> h !in TopLosers(sorted)
  {
    forall h | h in TopGainers(sorted) ensures h !in TopLosers(sorted) {
      var g := Seqs.Filter(sorted, IsGainer);
      var i :| 0 <= i < |TopGainers(sorted)| && TopGainers(sorted)[i] == h;
      assert g[i] == h;
      assert IsGainer(h);
    }
  }

  // ---------------------------------------------------------------- sector return

  /** The sector a holding is grouped under: its own when truthy, "Unknown" otherwise. */
  function SectorOf(h: HoldingPerformance): (s: string)
    ensures h.sector.None? || h.sector.value == "" ==> s == "Unknown"
    ensures h.sector.Some? && h.sector.value != "" ==> s == h.sector.value
  {
    if TruthyText(h.sector) then h.sector.value else "Unknown"
  }

  /** A per-sector dict after the holdings of `hs` have been added in order: `d[sector] = d.get(sector, 0) + f(h)`. */
  function SectorTotals(hs: seq<HoldingPerformance>, f: HoldingPerformance -> real): map<string, real> {
    if hs == [] then map[]
    else
      var m := SectorTotals(hs[..|hs| - 1], f);
      var h := hs[|hs| - 1];
      var sector := SectorOf(h);
      m[sector := (if sector in m then m[sector] else 0.0) + f(h)]
  }

  /** Σ f over the holdings of one sector, independently of any dict. */
  function SectorTotal(hs: seq<HoldingPerformance>, sector: string, f: HoldingPerformance -> real): real {
    if hs == [] then 0.0
    else
      var h := hs[|hs| - 1];
      SectorTotal(hs[..|hs| - 1], sector, f) + (if SectorOf(h) == sector then f(h) else 0.0)
  }

  /** The sectors the holdings of `hs` are grouped under. */
  ghost function Sectors(hs: seq<HoldingPerformance>): set<string> {
    if hs == [] then {} else Sectors(hs[..|hs| - 1]) + {SectorOf(hs[|hs| - 1])}
  }

  lemma {:induction false} SectorsMembers(hs: seq<HoldingPerformance>, k: string)
    ensures k in Sectors(hs) <==> exists i :: 0 <= i < |hs| && SectorOf(hs[i]) == k
    decreases |hs|
  {
    if hs != [] {
      var n := |hs| - 1;
      var init := hs[..n];
      SectorsMembers(init, k);
      if exists i :: 0 <= i < |init| && SectorOf(init[i]) == k {
        var i :| 0 <= i < |init| && SectorOf(init[i]) == k;
        assert hs[i] == init[i];
      }
      if exists i :: 0 <= i < |hs| && SectorOf(hs[i]) == k {
        var i :| 0 <= i < |hs| && SectorOf(hs[i]) == k;
        if i < n {
          assert init[i] == hs[i];
        }
      }
    }
  }

  /** The dict's keys are the sectors and each holds its sector's total; other sectors total 0. */
  lemma {:induction false} SectorTotalsKeys(hs: seq<HoldingPerformance>, f: HoldingPerformance -> real)
    ensures SectorTotals(hs, f).Keys == Sectors(hs)
    ensures forall k :: k in SectorTotals(hs, f) ==> SectorTotals(hs, f)[k] == SectorTotal(hs, k, f)
    ensures forall k :: k !in Sectors(hs) ==> SectorTotal(hs, k, f) == 0.0
    decreases |hs|
  {
    if hs != [] {
      SectorTotalsKeys(hs[..|hs| - 1], f);
    }
  }

  /** The dict has a key for exactly the sectors of the holdings, holding that sector's total. */
  lemma {:induction false} SectorTotalsMeaning(hs: seq<HoldingPerformance>, f: HoldingPerformance -> real)
    ensures forall k :: k in SectorTotals(hs, f) <==> exists i :: 0 <= i < |hs| && SectorOf(hs[i]) == k
    ensures forall k :: k in SectorTotals(hs, f) ==> SectorTotals(hs, f)[k] == SectorTotal(hs, k, f)
    ensures forall k :: k !in SectorTotals(hs, f) ==> SectorTotal(hs, k, f) == 0.0
  {
    SectorTotalsKeys(hs, f);
    forall k ensures k in SectorTotals(hs, f) <==> exists i :: 0 <= i < |hs| && SectorOf(hs[i]) == k {
      SectorsMembers(hs, k);
    }
  }

  /** The sector returns of the holdings, keyed by every sector that has a holding. */
  function SectorReturns(hs: seq<HoldingPerformance>): map<string, real> {
    map sector | sector in SectorTotals(hs, Gain) :: Percent(SectorTotal(hs, sector, Gain), SectorTotal(hs, sector, CostOf))
  }

  /** Adding the next holding to the dict of those before it. */
  lemma {:induction false} SectorTotalsStep(hs: seq<HoldingPerformance>, k: nat, f: HoldingPerformance -> real)
    requires k < |hs|
    ensures var m := SectorTotals(hs[..k], f);
      SectorTotals(hs[..k + 1], f)
      == m[SectorOf(hs[k]) := (if SectorOf(hs[k]) in m then m[SectorOf(hs[k])] else 0.0) + f(hs[k])]
  {
    assert hs[..k + 1][..k] == hs[..k];
  }

  /** The sector loop: the gains and the costs summed per sector. */
  method SumBySector(holdings: seq<HoldingPerformance>)
    returns (sectorGains: map<string, real>, sectorValues: map<string, real>)
    ensures sectorGains == SectorTotals(holdings, Gain)
    ensures sectorValues == SectorTotals(holdings, CostOf)
  {
    sectorGains := map[];
    sectorValues := map[];
    for k := 0 to |holdings|
      invariant sectorGains == SectorTotals(holdings[..k], Gain)
      invariant sectorValues == SectorTotals(holdings[..k], CostOf)
    {
      var h := holdings[k];
      SectorTotalsStep(holdings, k, Gain);
      SectorTotalsStep(holdings, k, CostOf);
      var sector := SectorOf(h);
      sectorGains := sectorGains[sector := (if sector in sectorGains then sectorGains[sector] else 0.0) + h.unrealizedGain];
      sectorValues := sectorValues[sector := (if sector in sectorValues then sectorValues[sector] else 0.0) + h.costBasis];
    }
    assert holdings[..|holdings|] == holdings;
  }

  /** Both per-sector dicts have the same keys: the sectors of the holdings. */
  lemma {:induction false} SectorKeys(hs: seq<HoldingPerformance>)
    ensures SectorTotals(hs, Gain).Keys == SectorTotals(hs, CostOf).Keys
  {
    SectorTotalsMeaning(hs, Gain);
    SectorTotalsMeaning(hs, CostOf);
  }

  /**
   * The sector returns: one per sector holding a record ("Unknown" for a missing or
   * empty sector), each the return of the sector's summed gain over its summed cost.
   */
  lemma {:induction false} SectorReturnsMeaning(hs: seq<HoldingPerformance>)
    ensures forall k :: k in SectorReturns(hs) <==> exists i :: 0 <= i < |hs| && SectorOf(hs[i]) == k
    ensures forall k :: k in SectorReturns(hs) ==>
              SectorReturns(hs)[k] == Percent(SectorTotal(hs, k, Gain), SectorTotal(hs, k, CostOf))
  {
    SectorTotalsMeaning(hs, Gain);
  }

  /** The comprehension over the two per-sector dicts gives the sector returns. */
  method SectorPerformance(holdings: seq<HoldingPerformance>, sectorGains: map<string, real>,
                           sectorValues: map<string, real>)
    returns (sectorPerformance: map<string, real>)
    requires sectorGains == SectorTotals(holdings, Gain)
    requires sectorValues == SectorTotals(holdings, CostOf)
    ensures sectorPerformance == SectorReturns(holdings)
  {
    SectorKeys(holdings);
    SectorTotalsMeaning(holdings, Gain);
    SectorTotalsMeaning(holdings, CostOf);
    sectorPerformance := map sector | sector in sectorGains :: Percent(sectorGains[sector], sectorValues[sector]);
  }

  // ---------------------------------------------------------------- the breakdown

  /** The breakdown of a portfolio, the empty one when it has no aggregated position. */
  function PerformanceSpec(portfolio: Portfolio): PortfolioPerformance {
    if portfolio.aggregated == [] then EmptyPerformance()
    else
      var holdings := Holdings(portfolio.aggregated, portfolio.totalUnrealizedGain);
      var sorted := Seqs.SortDesc(holdings, Gain);
      PortfolioPerformance(
        sorted, TopGainers(sorted), TopLosers(sorted), portfolio.totalCurrentValue, portfolio.totalCostBasis,
        portfolio.totalUnrealizedGain, portfolio.totalUnrealizedGainPct, SectorReturns(holdings))
  }

  /** The performance breakdown: holdings, rankings and sector returns. */
  method GetPerformance(portfolio: Portfolio) returns (performance: PortfolioPerformance)
    ensures performance == PerformanceSpec(portfolio)
  {
    if portfolio.aggregated == [] {
      return EmptyPerformance();
    }
    var totalGain := portfolio.totalUnrealizedGain;
    var holdings := CollectHoldings(portfolio.aggregated, totalGain);
    var sortedByGain := Seqs.SortDesc(holdings, Gain);
    var topGainers := TopGainers(sortedByGain);
    var topLosers := TopLosers(sortedByGain);
    var sectorGains, sectorValues := SumBySector(holdings);
    var sectorPerformance := SectorPerformance(holdings, sectorGains, sectorValues);
    performance := PortfolioPerformance(
      sortedByGain, topGainers, topLosers, portfolio.totalCurrentValue, portfolio.totalCostBasis,
      totalGain, portfolio.totalUnrealizedGainPct, sectorPerformance);
  }

  /**
   * The breakdown of a non-empty portfolio lists every reported position once,
   * sorted by gain, largest first.
   */
  lemma {:induction false} PerformanceHoldings(portfolio: Portfolio)
    requires portfolio.aggregated != []
    ensures var p := PerformanceSpec(portfolio);
      && multiset(p.holdings) == multiset(Holdings(portfolio.aggregated, portfolio.totalUnrealizedGain))
      && |p.holdings| == ReportedCount(portfolio.aggregated)
      && Seqs.SortedDesc(p.holdings, Gain)
      && p.topGainers == TopGainers(p.holdings) && p.topLosers == TopLosers(p.holdings)
  {
    HoldingsMeaning(portfolio.aggregated, portfolio.totalUnrealizedGain);
  }

  /** The totals are those of the portfolio, except for a portfolio without positions, whose totals are 0. */
  lemma {:induction false} PerformanceTotals(portfolio: Portfolio)
    ensures var p := PerformanceSpec(portfolio);
      && (portfolio.aggregated == [] ==> p == EmptyPerformance())
      && (portfolio.aggregated != [] ==>
            p.totalValue == portfolio.totalCurrentValue && p.totalCostBasis == portfolio.totalCostBasis
            && p.totalGain == portfolio.totalUnrealizedGain && p.totalGainPct == portfolio.totalUnrealizedGainPct)
  {
  }
}
