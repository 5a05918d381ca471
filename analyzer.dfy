/** The snapshot summariser of core/analyzer.py: it reduces the buy and the
    sell listings of one pair to one summary row. Listings are the raw,
    loosely keyed records, read through `ad["price"]`,
    `ad["dynamicMaxSingleTransAmount"]` and `ad["nickName"]`. */
module Analyzer {
  import opened PyValue
  import opened Stats

  const PriceKey: string := "price"
  const VolumeKey: string := "dynamicMaxSingleTransAmount"
  const NickKey: string := "nickName"

  /** The summary row, without its timestamp. `spreadPct` is `None` where
      numpy's division by a zero buy mean yields inf or nan. `priceVariance`
      is the population variance of all prices, whose square root divided by
      their mean is the row's `coef_var`. */
  datatype Summary = Summary(
    pair: string,
    rowsFetched: nat,
    avgPriceSimple: real,
    avgPriceWeighted: real,
    spreadPct: Option<real>,
    priceVariance: real,
    totalExposedVolume: real,
    top1Price: real,
    top1Vol: real,
    top1Nick: Value,
    top3Prices: seq<real>,
    arbCopToVesPct: int,
    arbVesToCopPct: int)

  /** `np.average(ps, weights=ws)`: it raises when the weights sum to zero. */
  function Average(ps: seq<real>, ws: seq<real>): (r: Result<real>)
    requires |ps| == |ws|
    ensures r.Err? <==> Sum(ws) == 0.0
    ensures r.Err? ==> r.error == ZeroDivisionError
    ensures r.Ok? ==> r.value == WeightedMean(ps, ws)
  {
    if Sum(ws) == 0.0 then Err(ZeroDivisionError) else Ok(WeightedMean(ps, ws))
  }

  /** The spread on numpy floats: dividing by a zero buy mean does not raise
      but gives a non-finite value. */
  function NumpySpread(avgBuy: real, avgSell: real): (r: Option<real>)
    ensures r.None? <==> avgBuy == 0.0
  {
    if avgBuy == 0.0 then None else Some(SpreadPct(avgBuy, avgSell))
  }

  function Take3(xs: seq<real>): (r: seq<real>)
    ensures |r| == if |xs| < 3 then |xs| else 3
    ensures r <= xs
  {
    if |xs| < 3 then xs else xs[..3]
  }

  /** `analyze_ads(pair, buy_ads, sell_ads)`: `Ok(None)` for an empty side,
      `Err` for the exception the first unusable field raises. */
  function AnalyzeAds(pair: string, buyAds: seq<Value>, sellAds: seq<Value>): Result<Option<Summary>> {
    if buyAds == [] || sellAds == [] then Ok(None)
    else
      var buyPrices :- FloatColumn(buyAds, PriceKey);
      var sellPrices :- FloatColumn(sellAds, PriceKey);
      var buyWeights :- FloatColumn(buyAds, VolumeKey);
      var sellWeights :- FloatColumn(sellAds, VolumeKey);
      var buyWeighted :- Average(buyPrices, buyWeights);
      var sellWeighted :- Average(sellPrices, sellWeights);
      var topNick :- Subscript(sellAds[0], NickKey);
      Ok(Some(Summarise(pair, |buyAds| + |sellAds|, buyPrices, sellPrices, buyWeights, sellWeights,
                        buyWeighted, sellWeighted, topNick)))
  }

  /** The summary row of parsed columns and the two weighted side means:
      the arithmetic of `analyze_ads` once every field has been read. */
  function Summarise(pair: string, rows: nat, bp: seq<real>, sp: seq<real>, bw: seq<real>, sw: seq<real>,
                     buyWeighted: real, sellWeighted: real, topNick: Value): Summary
    requires |bp| == |bw| > 0 && |sp| == |sw| > 0
  {
    var avgBuy, avgSell := Mean(bp), Mean(sp);
    Summary(
      pair := pair,
      rowsFetched := rows,
      avgPriceSimple := (avgBuy + avgSell) / 2.0,
      avgPriceWeighted := (buyWeighted + sellWeighted) / 2.0,
      spreadPct := NumpySpread(avgBuy, avgSell),
      priceVariance := PopVariance(bp + sp),
      totalExposedVolume := Sum(bw + sw),
      top1Price := sp[0],
      top1Vol := sw[0],
      top1Nick := topNick,
      top3Prices := Take3(sp),
      arbCopToVesPct := 0,
      arbVesToCopPct := 0)
  }

  /** Every field the summary reads is present and usable. */
  predicate Analysable(buyAds: seq<Value>, sellAds: seq<Value>) {
    && FloatColumn(buyAds, PriceKey).Ok?
    && FloatColumn(sellAds, PriceKey).Ok?
    && FloatColumn(buyAds, VolumeKey).Ok?
    && FloatColumn(sellAds, VolumeKey).Ok?
    && Sum(FloatColumn(buyAds, VolumeKey).value) != 0.0
    && Sum(FloatColumn(sellAds, VolumeKey).value) != 0.0
    && sellAds != [] && Subscript(sellAds[0], NickKey).Ok?
  }

  // ---------------------------------------------------------------------
  // Properties
  // ---------------------------------------------------------------------

  /** A produced summary is the arithmetic of the four parsed columns; the
      weighted side means are those `Average` returned. */
  lemma AnalyzeAdsSummarise(pair: string, buyAds: seq<Value>, sellAds: seq<Value>, s: Summary)
    requires AnalyzeAds(pair, buyAds, sellAds) == Ok(Some(s))
    ensures buyAds != [] && sellAds != [] && Analysable(buyAds, sellAds)
    ensures s == Summarise(pair, |buyAds| + |sellAds|,
                           FloatColumn(buyAds, PriceKey).value, FloatColumn(sellAds, PriceKey).value,
                           FloatColumn(buyAds, VolumeKey).value, FloatColumn(sellAds, VolumeKey).value,
                           WeightedMean(FloatColumn(buyAds, PriceKey).value, FloatColumn(buyAds, VolumeKey).value),
                           WeightedMean(FloatColumn(sellAds, PriceKey).value, FloatColumn(sellAds, VolumeKey).value),
                           sellAds[0].entries[NickKey])
  {
  }

  /** The result is `None` exactly when one side has no listings. */
  lemma AnalyzeAdsNone(pair: string, buyAds: seq<Value>, sellAds: seq<Value>)
    ensures AnalyzeAds(pair, buyAds, sellAds) == Ok(None) <==> buyAds == [] || sellAds == []
  {
  }

  /** With both sides present, a summary is produced exactly when every
      price and volume parses, neither side's volumes sum to zero and the
      first sell listing names its advertiser; otherwise an exception is
      raised. A zero volume sum raises `ZeroDivisionError`. */
  lemma AnalyzeAdsOutcome(pair: string, buyAds: seq<Value>, sellAds: seq<Value>)
    requires buyAds != [] && sellAds != []
    ensures AnalyzeAds(pair, buyAds, sellAds).Ok? <==> Analysable(buyAds, sellAds)
    ensures AnalyzeAds(pair, buyAds, sellAds).Ok? ==> AnalyzeAds(pair, buyAds, sellAds).value.Some?
    ensures FloatColumn(buyAds, PriceKey).Err? ==>
              AnalyzeAds(pair, buyAds, sellAds) == Err(FloatColumn(buyAds, PriceKey).error)
    ensures && FloatColumn(buyAds, PriceKey).Ok? && FloatColumn(sellAds, PriceKey).Ok?
            && FloatColumn(buyAds, VolumeKey).Ok? && FloatColumn(sellAds, VolumeKey).Ok?
            && Sum(FloatColumn(buyAds, VolumeKey).value) == 0.0
            ==> AnalyzeAds(pair, buyAds, sellAds) == Err(ZeroDivisionError)
  {
  }

  /** Counts, the pair, the top-of-book fields and the fixed arbitrage
      estimates of a produced summary. */
  lemma AnalyzeAdsFields(pair: string, buyAds: seq<Value>, sellAds: seq<Value>, s: Summary)
    requires AnalyzeAds(pair, buyAds, sellAds) == Ok(Some(s))
    ensures s.pair == pair
    ensures s.rowsFetched == |buyAds| + |sellAds|
    ensures FloatField(sellAds[0], PriceKey) == Ok(s.top1Price)
    ensures FloatField(sellAds[0], VolumeKey) == Ok(s.top1Vol)
    ensures NickKey in sellAds[0].entries && s.top1Nick == sellAds[0].entries[NickKey]
    ensures |s.top3Prices| == if |sellAds| < 3 then |sellAds| else 3
    ensures forall i :: 0 <= i < |s.top3Prices| ==> FloatField(sellAds[i], PriceKey) == Ok(s.top3Prices[i])
    ensures s.top3Prices != [] && s.top3Prices[0] == s.top1Price
    ensures s.arbCopToVesPct == 0 && s.arbVesToCopPct == 0
  {
    AnalyzeAdsSummarise(pair, buyAds, sellAds, s);
    var sp := FloatColumn(sellAds, PriceKey).value;
    assert s.top3Prices == Take3(sp);
    assert forall i :: 0 <= i < |s.top3Prices| ==> s.top3Prices[i] == sp[i];
  }

  /** Both side means lie within their side's price range, the simple
      average is their midpoint and so within the range of all prices, and
      the spread's sign is that of `avg_sell - avg_buy` for a positive buy
      mean. */
  lemma AnalyzeAdsPrices(pair: string, buyAds: seq<Value>, sellAds: seq<Value>, s: Summary,
                         bp: seq<real>, sp: seq<real>)
    requires AnalyzeAds(pair, buyAds, sellAds) == Ok(Some(s))
    requires FloatColumn(buyAds, PriceKey) == Ok(bp) && FloatColumn(sellAds, PriceKey) == Ok(sp)
    ensures |bp| > 0 && |sp| > 0
    ensures Min(bp) <= Mean(bp) <= Max(bp) && Min(sp) <= Mean(sp) <= Max(sp)
    ensures s.avgPriceSimple == (Mean(bp) + Mean(sp)) / 2.0
    ensures Min(bp + sp) <= s.avgPriceSimple <= Max(bp + sp)
    ensures s.spreadPct.None? <==> Mean(bp) == 0.0
    ensures Mean(bp) > 0.0 ==> (s.spreadPct.value > 0.0 <==> Mean(sp) > Mean(bp))
    ensures Mean(bp) > 0.0 ==> (s.spreadPct.value == 0.0 <==> Mean(sp) == Mean(bp))
    ensures Mean(bp) > 0.0 ==> (s.spreadPct.value < 0.0 <==> Mean(sp) < Mean(bp))
  {
    AnalyzeAdsSummarise(pair, buyAds, sellAds, s);
    MeanBounds(bp);
    MeanBounds(sp);
    JointBounds(bp, sp);
    MidpointBounds(Mean(bp), Mean(sp), Min(bp + sp), Max(bp + sp));
    if Mean(bp) > 0.0 { SpreadSign(Mean(bp), Mean(sp)); }
  }

  /** The range of a concatenation covers the ranges of both parts. */
  lemma JointBounds(a: seq<real>, b: seq<real>)
    requires |a| > 0 && |b| > 0
    ensures Min(a + b) <= Min(a) && Min(a + b) <= Min(b)
    ensures Max(a + b) >= Max(a) && Max(a + b) >= Max(b)
  {
    var ab := a + b;
    assert Min(a) in a && Min(b) in b && Max(a) in a && Max(b) in b;
    assert forall i :: 0 <= i < |a| ==> ab[i] == a[i];
    assert forall i :: 0 <= i < |b| ==> ab[|a| + i] == b[i];
  }

  /** When every buy and sell price is the same non-zero value, the spread
      is zero and all prices have no variance. */
  lemma AnalyzeAdsEqualPrices(pair: string, buyAds: seq<Value>, sellAds: seq<Value>, s: Summary,
                              bp: seq<real>, sp: seq<real>, c: real)
    requires AnalyzeAds(pair, buyAds, sellAds) == Ok(Some(s))
    requires FloatColumn(buyAds, PriceKey) == Ok(bp) && FloatColumn(sellAds, PriceKey) == Ok(sp)
    requires c != 0.0 && AllEqual(bp, c) && AllEqual(sp, c)
    ensures s.spreadPct == Some(0.0)
    ensures s.avgPriceSimple == c
    ensures s.priceVariance == 0.0
  {
    AnalyzeAdsSummarise(pair, buyAds, sellAds, s);
    SummariseEqualPrices(pair, |buyAds| + |sellAds|, bp, sp, FloatColumn(buyAds, VolumeKey).value,
                         FloatColumn(sellAds, VolumeKey).value, sellAds[0].entries[NickKey], c);
  }

  lemma SummariseEqualPrices(pair: string, rows: nat, bp: seq<real>, sp: seq<real>, bw: seq<real>, sw: seq<real>,
                             topNick: Value, c: real)
    requires |bp| == |bw| > 0 && |sp| == |sw| > 0 && Sum(bw) != 0.0 && Sum(sw) != 0.0
    requires c != 0.0 && AllEqual(bp, c) && AllEqual(sp, c)
    ensures Summarise(pair, rows, bp, sp, bw, sw, WeightedMean(bp, bw), WeightedMean(sp, sw), topNick).spreadPct == Some(0.0)
    ensures Summarise(pair, rows, bp, sp, bw, sw, WeightedMean(bp, bw), WeightedMean(sp, sw), topNick).avgPriceSimple == c
    ensures Summarise(pair, rows, bp, sp, bw, sw, WeightedMean(bp, bw), WeightedMean(sp, sw), topNick).priceVariance == 0.0
  {
    MeanConstant(bp, c);
    MeanConstant(sp, c);
    assert AllEqual(bp + sp, c);
    VarianceConstant(bp + sp, c);
  }

  /** The exposed volume is the sum of every listing's volume, and with
      non-negative volumes the weighted average lies within the range of all
      prices. */
  lemma AnalyzeAdsVolumes(pair: string, buyAds: seq<Value>, sellAds: seq<Value>, s: Summary,
                          bp: seq<real>, sp: seq<real>, bw: seq<real>, sw: seq<real>)
    requires AnalyzeAds(pair, buyAds, sellAds) == Ok(Some(s))
    requires FloatColumn(buyAds, PriceKey) == Ok(bp) && FloatColumn(sellAds, PriceKey) == Ok(sp)
    requires FloatColumn(buyAds, VolumeKey) == Ok(bw) && FloatColumn(sellAds, VolumeKey) == Ok(sw)
    ensures s.totalExposedVolume == Sum(bw) + Sum(sw)
    ensures NonNegative(bw) && NonNegative(sw) ==> Min(bp + sp) <= s.avgPriceWeighted <= Max(bp + sp)
  {
    AnalyzeAdsSummarise(pair, buyAds, sellAds, s);
    SummariseVolumes(pair, |buyAds| + |sellAds|, bp, sp, bw, sw, sellAds[0].entries[NickKey]);
  }

  lemma SummariseVolumes(pair: string, rows: nat, bp: seq<real>, sp: seq<real>, bw: seq<real>, sw: seq<real>,
                         topNick: Value)
    requires |bp| == |bw| > 0 && |sp| == |sw| > 0 && Sum(bw) != 0.0 && Sum(sw) != 0.0
    ensures Summarise(pair, rows, bp, sp, bw, sw, WeightedMean(bp, bw), WeightedMean(sp, sw), topNick).totalExposedVolume == Sum(bw) + Sum(sw)
    ensures NonNegative(bw) && NonNegative(sw) ==>
              Min(bp + sp) <= Summarise(pair, rows, bp, sp, bw, sw, WeightedMean(bp, bw), WeightedMean(sp, sw), topNick).avgPriceWeighted <= Max(bp + sp)
  {
    SumAppend(bw, sw);
    if NonNegative(bw) && NonNegative(sw) {
      WeightedMeanBounds(bp, bw);
      WeightedMeanBounds(sp, sw);
      JointBounds(bp, sp);
      MidpointBounds(WeightedMean(bp, bw), WeightedMean(sp, sw), Min(bp + sp), Max(bp + sp));
    }
  }

  /** Equal volumes within each side make the weighted average the simple
      one. */
  lemma AnalyzeAdsEqualVolumes(pair: string, buyAds: seq<Value>, sellAds: seq<Value>, s: Summary,
                               bw: seq<real>, sw: seq<real>, cb: real, cs: real)
    requires AnalyzeAds(pair, buyAds, sellAds) == Ok(Some(s))
    requires FloatColumn(buyAds, VolumeKey) == Ok(bw) && FloatColumn(sellAds, VolumeKey) == Ok(sw)
    requires AllEqual(bw, cb) && AllEqual(sw, cs)
    ensures s.avgPriceWeighted == s.avgPriceSimple
  {
    AnalyzeAdsSummarise(pair, buyAds, sellAds, s);
    SummariseEqualVolumes(pair, |buyAds| + |sellAds|, FloatColumn(buyAds, PriceKey).value,
                          FloatColumn(sellAds, PriceKey).value, bw, sw, sellAds[0].entries[NickKey], cb, cs);
  }

  lemma SummariseEqualVolumes(pair: string, rows: nat, bp: seq<real>, sp: seq<real>, bw: seq<real>, sw: seq<real>,
                              topNick: Value, cb: real, cs: real)
    requires |bp| == |bw| > 0 && |sp| == |sw| > 0 && Sum(bw) != 0.0 && Sum(sw) != 0.0
    requires AllEqual(bw, cb) && AllEqual(sw, cs)
    ensures Summarise(pair, rows, bp, sp, bw, sw, WeightedMean(bp, bw), WeightedMean(sp, sw), topNick).avgPriceWeighted
         == Summarise(pair, rows, bp, sp, bw, sw, WeightedMean(bp, bw), WeightedMean(sp, sw), topNick).avgPriceSimple
  {
    SumConstant(bw, cb);
    SumConstant(sw, cs);
    assert cb != 0.0 && cs != 0.0;
    WeightedMeanEqualWeights(bp, bw, cb);
    WeightedMeanEqualWeights(sp, sw, cs);
  }
}
