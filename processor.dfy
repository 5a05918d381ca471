/** The basic spread calculator of core/processor.py: simple side means, the
    spread between them and the side counts. The arithmetic is on Python
    floats, so a zero buy mean raises `ZeroDivisionError`. */
module Processor {
  import opened PyValue
  import opened Stats

  const PriceKey: string := "price"

  /** The returned dictionary, with the three numbers before `fmt` turns
      them into one-decimal text. */
  datatype Basic = Basic(
    pair: string,
    avgBuy: real,
    avgSell: real,
    spreadPct: real,
    countBuy: nat,
    countSell: nat)

  /** `((avg_sell - avg_buy) / avg_buy) * 100` on Python floats. */
  function FloatSpread(avgBuy: real, avgSell: real): (r: Result<real>)
    ensures r.Err? <==> avgBuy == 0.0
    ensures r.Err? ==> r.error == ZeroDivisionError
  {
    if avgBuy == 0.0 then Err(ZeroDivisionError) else Ok(SpreadPct(avgBuy, avgSell))
  }

  /** `analyze_ads(pair, buy_ads, sell_ads)` of the processor. */
  function AnalyzeAds(pair: string, buyAds: seq<Value>, sellAds: seq<Value>): Result<Option<Basic>> {
    if buyAds == [] || sellAds == [] then Ok(None)
    else
      var buyPrices :- FloatColumn(buyAds, PriceKey);
      var sellPrices :- FloatColumn(sellAds, PriceKey);
      var basic :- Calculate(pair, buyPrices, sellPrices);
      Ok(Some(basic))
  }

  /** The arithmetic of `analyze_ads` once the prices have been read. */
  function Calculate(pair: string, bp: seq<real>, sp: seq<real>): Result<Basic>
    requires |bp| > 0 && |sp| > 0
  {
    var avgBuy := Sum(bp) / |bp| as real;
    var avgSell := Sum(sp) / |sp| as real;
    var spread :- FloatSpread(avgBuy, avgSell);
    Ok(Basic(pair, avgBuy, avgSell, spread, |bp|, |sp|))
  }

  // ---------------------------------------------------------------------
  // Properties
  // ---------------------------------------------------------------------

  /** The result is `None` exactly when one side has no listings. */
  lemma AnalyzeAdsNone(pair: string, buyAds: seq<Value>, sellAds: seq<Value>)
    ensures AnalyzeAds(pair, buyAds, sellAds) == Ok(None) <==> buyAds == [] || sellAds == []
  {
  }

  /** With both sides present, a result is produced exactly when every price
      parses and the buy mean is not zero; a zero buy mean raises
      `ZeroDivisionError`. */
  lemma AnalyzeAdsOutcome(pair: string, buyAds: seq<Value>, sellAds: seq<Value>, bp: seq<real>, sp: seq<real>)
    requires buyAds != [] && sellAds != []
    requires FloatColumn(buyAds, PriceKey) == Ok(bp) && FloatColumn(sellAds, PriceKey) == Ok(sp)
    ensures AnalyzeAds(pair, buyAds, sellAds).Ok? <==> Mean(bp) != 0.0
    ensures Mean(bp) == 0.0 ==> AnalyzeAds(pair, buyAds, sellAds) == Err(ZeroDivisionError)
    ensures Mean(bp) != 0.0 ==> AnalyzeAds(pair, buyAds, sellAds).value.Some?
  {
  }

  /** The side means lie within their side's price range, the counts are the
      input lengths, the pair is passed through, and for a positive buy mean
      the spread has the sign of `avg_sell - avg_buy`. */
  lemma AnalyzeAdsResult(pair: string, buyAds: seq<Value>, sellAds: seq<Value>, b: Basic, bp: seq<real>, sp: seq<real>)
    requires AnalyzeAds(pair, buyAds, sellAds) == Ok(Some(b))
    requires FloatColumn(buyAds, PriceKey) == Ok(bp) && FloatColumn(sellAds, PriceKey) == Ok(sp)
    ensures b.pair == pair
    ensures b.countBuy == |buyAds| && b.countSell == |sellAds|
    ensures |bp| > 0 && |sp| > 0
    ensures b.avgBuy == Mean(bp) && b.avgSell == Mean(sp)
    ensures Min(bp) <= b.avgBuy <= Max(bp) && Min(sp) <= b.avgSell <= Max(sp)
    ensures b.avgBuy > 0.0 ==> (b.spreadPct > 0.0 <==> b.avgSell > b.avgBuy)
    ensures b.avgBuy > 0.0 ==> (b.spreadPct == 0.0 <==> b.avgSell == b.avgBuy)
    ensures b.avgBuy > 0.0 ==> (b.spreadPct < 0.0 <==> b.avgSell < b.avgBuy)
  {
    AnalyzeAdsUnfold(pair, buyAds, sellAds, b, bp, sp);
    CalculateResult(pair, bp, sp, b);
  }

  lemma AnalyzeAdsUnfold(pair: string, buyAds: seq<Value>, sellAds: seq<Value>, b: Basic, bp: seq<real>, sp: seq<real>)
    requires AnalyzeAds(pair, buyAds, sellAds) == Ok(Some(b))
    requires FloatColumn(buyAds, PriceKey) == Ok(bp) && FloatColumn(sellAds, PriceKey) == Ok(sp)
    ensures |bp| == |buyAds| > 0 && |sp| == |sellAds| > 0
    ensures Calculate(pair, bp, sp) == Ok(b)
  {
  }

  lemma CalculateResult(pair: string, bp: seq<real>, sp: seq<real>, b: Basic)
    requires |bp| > 0 && |sp| > 0 && Calculate(pair, bp, sp) == Ok(b)
    ensures b == Basic(pair, Mean(bp), Mean(sp), SpreadPct(Mean(bp), Mean(sp)), |bp|, |sp|)
    ensures Min(bp) <= b.avgBuy <= Max(bp) && Min(sp) <= b.avgSell <= Max(sp)
    ensures b.avgBuy > 0.0 ==> (b.spreadPct > 0.0 <==> b.avgSell > b.avgBuy)
    ensures b.avgBuy > 0.0 ==> (b.spreadPct == 0.0 <==> b.avgSell == b.avgBuy)
    ensures b.avgBuy > 0.0 ==> (b.spreadPct < 0.0 <==> b.avgSell < b.avgBuy)
  {
    MeanBounds(bp);
    MeanBounds(sp);
    if b.avgBuy > 0.0 { SpreadSign(b.avgBuy, b.avgSell); }
  }

  /** When every buy and sell price is the same non-zero value, a result is
      produced and its spread is zero. */
  lemma AnalyzeAdsEqualPrices(pair: string, buyAds: seq<Value>, sellAds: seq<Value>, bp: seq<real>, sp: seq<real>, c: real)
    requires buyAds != [] && sellAds != []
    requires FloatColumn(buyAds, PriceKey) == Ok(bp) && FloatColumn(sellAds, PriceKey) == Ok(sp)
    requires c != 0.0 && AllEqual(bp, c) && AllEqual(sp, c)
    ensures AnalyzeAds(pair, buyAds, sellAds) == Ok(Some(Basic(pair, c, c, 0.0, |buyAds|, |sellAds|)))
  {
    MeanConstant(bp, c);
    MeanConstant(sp, c);
  }
}
