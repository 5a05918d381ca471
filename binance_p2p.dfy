/** The listing normaliser of adapters/binance_p2p.py: `simplify` turns the
    raw records of the P2P search endpoint into flat listings, skipping a
    record that fails to parse, and `get_ads` applies it to the BUY and the
    SELL side of one fiat currency. The HTTP request is an abstract source
    that yields the endpoint's `data` list, or an empty list on failure. */
module BinanceP2P {
  import opened PyValue

  const DefaultFiat: string := "COP"

  datatype TradeType = Buy | Sell

  /** One flat listing, as `simplify` appends it. */
  datatype Listing = Listing(
    price: real,
    min: real,
    max: real,
    nick: Value,
    orders: Value,
    rate: Value)

  /** The body of the `try` block for one raw record. */
  function SimplifyOne(adv: Value): Result<Listing> {
    var ad :- Subscript(adv, "adv");
    var advertiser :- Get(adv, "advertiser", Dict(map[]));
    var price :- FloatField(ad, "price");
    var lo :- FloatField(ad, "minSingleTransAmount");
    var hi :- FloatField(ad, "dynamicMaxSingleTransAmount");
    var nick :- Get(advertiser, "nickName", Str("N/A"));
    var orders :- Get(advertiser, "monthOrderCount", Int(0));
    var rate :- Get(advertiser, "monthFinishRate", Str("0%"));
    Ok(Listing(price, lo, hi, nick, orders, rate))
  }

  /** The records `simplify` keeps: a dictionary whose `adv` entry holds a
      parseable price, minimum and maximum, and whose `advertiser` entry, if
      any, is a dictionary. */
  predicate Parses(adv: Value) {
    && adv.Dict? && "adv" in adv.entries
    && FloatField(adv.entries["adv"], "price").Ok?
    && FloatField(adv.entries["adv"], "minSingleTransAmount").Ok?
    && FloatField(adv.entries["adv"], "dynamicMaxSingleTransAmount").Ok?
    && ("advertiser" in adv.entries ==> adv.entries["advertiser"].Dict?)
  }

  /** The listings `simplify(raws)` returns, specified from the last record
      back. */
  function Kept(raws: seq<Value>): (r: seq<Listing>)
    ensures |r| <= |raws|
  {
    if raws == [] then []
    else
      var init := Kept(raws[..|raws| - 1]);
      match SimplifyOne(raws[|raws| - 1])
      case Ok(l) => init + [l]
      case Err(_) => init
  }

  /** Positions of the records that `simplify` keeps. */
  function KeptIndices(raws: seq<Value>): seq<nat> {
    if raws == [] then []
    else
      var init := KeptIndices(raws[..|raws| - 1]);
      if SimplifyOne(raws[|raws| - 1]).Ok? then init + [|raws| - 1] else init
  }

  /** `simplify(raw_list)`: the loop appends each record that parses and logs
      and skips the others. */
  method Simplify(rawList: seq<Value>) returns (ads: seq<Listing>)
    ensures ads == Kept(rawList)
  {
    ads := [];
    var i := 0;
    while i < |rawList|
      invariant 0 <= i <= |rawList|
      invariant ads == Kept(rawList[..i])
    {
      assert rawList[..i + 1][..i] == rawList[..i];
      match SimplifyOne(rawList[i]) {
        case Ok(l) => ads := ads + [l];
        case Err(_) =>
      }
      i := i + 1;
    }
    assert rawList[..i] == rawList;
  }

  /** `get_ads(fiat)`: the BUY side is fetched and simplified first, the SELL
      side second. */
  method GetAds(fetch: (TradeType, string) -> seq<Value>, fiat: string := DefaultFiat)
    returns (buyAds: seq<Listing>, sellAds: seq<Listing>)
    ensures buyAds == Kept(fetch(Buy, fiat))
    ensures sellAds == Kept(fetch(Sell, fiat))
    ensures fetch(Buy, fiat) == [] ==> buyAds == []
    ensures fetch(Sell, fiat) == [] ==> sellAds == []
  {
    var buyData := fetch(Buy, fiat);
    var sellData := fetch(Sell, fiat);
    buyAds := Simplify(buyData);
    sellAds := Simplify(sellData);
  }

  // ---------------------------------------------------------------------
  // Properties
  // ---------------------------------------------------------------------

  /** A record is kept exactly when it parses; a kept listing takes its
      bounds from the record's `minSingleTransAmount` and
      `dynamicMaxSingleTransAmount`, and an absent advertiser gives the
      defaults "N/A", 0 and "0%". */
  lemma SimplifyOneSpec(adv: Value)
    ensures SimplifyOne(adv).Ok? <==> Parses(adv)
    ensures Parses(adv) ==>
              var ad := adv.entries["adv"];
              var l := SimplifyOne(adv).value;
              && FloatField(ad, "price") == Ok(l.price)
              && FloatField(ad, "minSingleTransAmount") == Ok(l.min)
              && FloatField(ad, "dynamicMaxSingleTransAmount") == Ok(l.max)
    ensures Parses(adv) && "advertiser" !in adv.entries ==>
              var l := SimplifyOne(adv).value;
              l.nick == Str("N/A") && l.orders == Int(0) && l.rate == Str("0%")
    ensures Parses(adv) && "advertiser" in adv.entries ==>
              var who := adv.entries["advertiser"].entries;
              var l := SimplifyOne(adv).value;
              && l.nick == (if "nickName" in who then who["nickName"] else Str("N/A"))
              && l.orders == (if "monthOrderCount" in who then who["monthOrderCount"] else Int(0))
              && l.rate == (if "monthFinishRate" in who then who["monthFinishRate"] else Str("0%"))
  {
  }

  /** A record without `adv`, or whose price, minimum or maximum is missing
      or unparseable, or whose advertiser is not a dictionary, is dropped. */
  lemma MalformedDropped(adv: Value)
    requires !Parses(adv)
    ensures Kept([adv]) == []
  {
    SimplifyOneSpec(adv);
    assert [adv][..0] == [];
  }

  /** Simplifying a concatenation simplifies each part. */
  lemma {:induction false} KeptAppend(a: seq<Value>, b: seq<Value>)
    ensures Kept(a + b) == Kept(a) + Kept(b)
  {
    if b == [] {
      assert a + b == a;
    } else {
      var b' := b[..|b| - 1];
      assert (a + b)[..|a + b| - 1] == a + b';
      assert (a + b)[|a + b| - 1] == b[|b| - 1];
      KeptAppend(a, b');
    }
  }

  /** A malformed record does not abort the pass: the records after it are
      still simplified. */
  lemma SkipDoesNotAbort(before: seq<Value>, bad: Value, after: seq<Value>)
    requires !Parses(bad)
    ensures Kept(before + [bad] + after) == Kept(before) + Kept(after)
  {
    KeptAppend(before + [bad], after);
    KeptAppend(before, [bad]);
    MalformedDropped(bad);
  }

  /** The output is the subsequence of the records that parse, in input
      order: `KeptIndices` lists their positions, increasing, and a position
      is listed exactly when its record parses. */
  lemma KeptOrder(raws: seq<Value>)
    ensures |KeptIndices(raws)| == |Kept(raws)|
    ensures forall k :: 0 <= k < |KeptIndices(raws)| ==>
              KeptIndices(raws)[k] < |raws| && SimplifyOne(raws[KeptIndices(raws)[k]]) == Ok(Kept(raws)[k])
    ensures forall k, l :: 0 <= k < l < |KeptIndices(raws)| ==> KeptIndices(raws)[k] < KeptIndices(raws)[l]
    ensures forall i :: 0 <= i < |raws| ==> (SimplifyOne(raws[i]).Ok? <==> i in KeptIndices(raws))
  {
    KeptIndicesMatch(raws);
    KeptIndicesIncreasing(raws);
    KeptIndicesComplete(raws);
  }

  /** The listed positions are in range and increasing. */
  lemma {:induction false} KeptIndicesIncreasing(raws: seq<Value>)
    ensures forall k :: 0 <= k < |KeptIndices(raws)| ==> KeptIndices(raws)[k] < |raws|
    ensures forall k, l :: 0 <= k < l < |KeptIndices(raws)| ==> KeptIndices(raws)[k] < KeptIndices(raws)[l]
  {
    if raws != [] {
      KeptIndicesIncreasing(raws[..|raws| - 1]);
    }
  }

  /** The k-th listed position holds the record of the k-th listing. */
  lemma {:induction false} KeptIndicesMatch(raws: seq<Value>)
    ensures |KeptIndices(raws)| == |Kept(raws)|
    ensures forall k :: 0 <= k < |KeptIndices(raws)| ==>
              KeptIndices(raws)[k] < |raws| && SimplifyOne(raws[KeptIndices(raws)[k]]) == Ok(Kept(raws)[k])
  {
    if raws != [] {
      var init := raws[..|raws| - 1];
      KeptIndicesMatch(init);
      assert forall i :: 0 <= i < |init| ==> raws[i] == init[i];
    }
  }

  /** A position is listed exactly when its record parses. */
  lemma {:induction false} KeptIndicesComplete(raws: seq<Value>)
    ensures forall i :: 0 <= i < |raws| ==> (SimplifyOne(raws[i]).Ok? <==> i in KeptIndices(raws))
  {
    if raws != [] {
      var init := raws[..|raws| - 1];
      KeptIndicesComplete(init);
      KeptIndicesIncreasing(init);
      assert forall i :: 0 <= i < |init| ==> raws[i] == init[i];
    }
  }

  /** When every record parses, nothing is dropped. */
  lemma {:induction false} KeptAll(raws: seq<Value>)
    requires forall i :: 0 <= i < |raws| ==> Parses(raws[i])
    ensures |Kept(raws)| == |raws|
  {
    if raws != [] {
      var init := raws[..|raws| - 1];
      assert forall i :: 0 <= i < |init| ==> init[i] == raws[i];
      KeptAll(init);
      SimplifyOneSpec(raws[|raws| - 1]);
    }
  }
}
