/** The remittance-rate notifier of p2p_info.py: from the COP buy listings
    and the VES sell listings it builds three margin-scaled COP/VES rates,
    and it sends them only in the scheduled local hours. The two HTTP
    requests become the `data` lists they return, the clock becomes the
    local hour, and the chat message is the quote it would render. */
module P2PInfo {
  import opened PyValue

  /** Margin multipliers for 5%, 7.5% and 10%. */
  const Margin1: real := 1.05
  const Margin2: real := 1.075
  const Margin3: real := 1.10

  /** `horas_programadas`. */
  const ScheduledHours: seq<int> := [6, 10, 14, 18]

  /** The prices as listed (the message shows them verbatim) and the three
      rates before `round(·, 2)`. */
  datatype Quote = Quote(copPrice: Value, vesPrice: Value, rate1: real, rate2: real, rate3: real)

  /** `listings[i]['adv']['price']`. */
  function ListedPrice(listings: seq<Value>, i: nat): Result<Value> {
    var entry :- Index(listings, i);
    var adv :- Subscript(entry, "adv");
    Subscript(adv, "price")
  }

  /** `buy_copusdt()` on the two fetched `data` lists: the 5th COP buy
      listing against the first VES sell listing. */
  function BuyCopUsdt(buyData: seq<Value>, sellData: seq<Value>): Result<Quote> {
    var copPrice :- ListedPrice(buyData, 4);
    var vesPrice :- ListedPrice(sellData, 0);
    var cop :- ToFloat(copPrice);
    var ves :- ToFloat(vesPrice);
    if ves == 0.0 then Err(ZeroDivisionError)
    else Ok(Quote(copPrice, vesPrice, cop / ves * Margin1, cop / ves * Margin2, cop / ves * Margin3))
  }

  /** `bogota_time.hour in horas_programadas`. */
  function ShouldSend(hour: int): bool {
    hour in ScheduledHours
  }

  /** One pass of the scheduling loop: no message outside the scheduled
      hours, otherwise the quote to send or the exception that ends the
      loop. */
  function Cycle(hour: int, buyData: seq<Value>, sellData: seq<Value>): Result<Option<Quote>> {
    if ShouldSend(hour) then
      var q :- BuyCopUsdt(buyData, sellData);
      Ok(Some(q))
    else Ok(None)
  }

  // ---------------------------------------------------------------------
  // Properties
  // ---------------------------------------------------------------------

  /** A quote needs at least five buy listings and one sell listing; with
      fewer, `IndexError` is raised. */
  lemma BuyCopUsdtIndexError(buyData: seq<Value>, sellData: seq<Value>)
    ensures |buyData| < 5 ==> BuyCopUsdt(buyData, sellData) == Err(IndexError)
    ensures BuyCopUsdt(buyData, sellData).Ok? ==> |buyData| >= 5 && |sellData| >= 1
  {
  }

  /** A produced quote uses the 5th buy price and the first sell price, and
      each rate is their ratio times its margin. */
  lemma BuyCopUsdtRates(buyData: seq<Value>, sellData: seq<Value>, q: Quote)
    requires BuyCopUsdt(buyData, sellData) == Ok(q)
    ensures ListedPrice(buyData, 4) == Ok(q.copPrice) && ListedPrice(sellData, 0) == Ok(q.vesPrice)
    ensures ToFloat(q.vesPrice).Ok? && ToFloat(q.vesPrice).value != 0.0
    ensures var ratio := ToFloat(q.copPrice).value / ToFloat(q.vesPrice).value;
            q.rate1 == ratio * 1.05 && q.rate2 == ratio * 1.075 && q.rate3 == ratio * 1.10
  {
  }

  /** A zero VES price raises `ZeroDivisionError`. */
  lemma BuyCopUsdtZeroPrice(buyData: seq<Value>, sellData: seq<Value>)
    requires ListedPrice(buyData, 4).Ok? && ListedPrice(sellData, 0).Ok?
    requires ToFloat(ListedPrice(buyData, 4).value).Ok?
    requires ToFloat(ListedPrice(sellData, 0).value) == Ok(0.0)
    ensures BuyCopUsdt(buyData, sellData) == Err(ZeroDivisionError)
  {
  }

  /** The rates increase strictly with the margin exactly when the first
      rate is positive, which is the case for two positive prices. */
  lemma RatesIncreasing(buyData: seq<Value>, sellData: seq<Value>, q: Quote)
    requires BuyCopUsdt(buyData, sellData) == Ok(q)
    ensures q.rate1 < q.rate2 <==> q.rate1 > 0.0
    ensures q.rate1 > 0.0 ==> q.rate1 < q.rate2 < q.rate3
    ensures ToFloat(q.copPrice).value > 0.0 && ToFloat(q.vesPrice).value > 0.0 ==> q.rate1 > 0.0
  {
    var ratio := ToFloat(q.copPrice).value / ToFloat(q.vesPrice).value;
    assert q.rate1 == ratio * Margin1 && q.rate2 == ratio * Margin2 && q.rate3 == ratio * Margin3;
    if ToFloat(q.copPrice).value > 0.0 && ToFloat(q.vesPrice).value > 0.0 {
      PositiveQuotient(ToFloat(q.copPrice).value, ToFloat(q.vesPrice).value);
    }
  }

  lemma PositiveQuotient(a: real, b: real)
    requires a > 0.0 && b > 0.0
    ensures a / b > 0.0
  {
    assert a / b * b == a;
  }

  /** The ratio of the 10% rate to the 5% rate is 1.10 / 1.05 whatever the
      prices, provided the COP price is not zero. */
  lemma RateRatioFixed(buyData: seq<Value>, sellData: seq<Value>, q: Quote)
    requires BuyCopUsdt(buyData, sellData) == Ok(q)
    requires ToFloat(q.copPrice).value != 0.0
    ensures q.rate1 != 0.0
    ensures q.rate3 / q.rate1 == 1.10 / 1.05
  {
    var cop, ves := ToFloat(q.copPrice).value, ToFloat(q.vesPrice).value;
    var ratio := cop / ves;
    assert ratio * ves == cop;
    assert ratio != 0.0;
    assert q.rate3 / q.rate1 == (ratio * Margin3) / (ratio * Margin1);
  }

  /** The send hours are exactly the hours from 6 to 18 that leave 2 when
      divided by 4. */
  lemma ShouldSendHours(hour: int)
    ensures ShouldSend(hour) <==> 6 <= hour <= 18 && hour % 4 == 2
  {
  }

  /** A message is produced exactly in a scheduled hour whose quote can be
      computed. */
  lemma CycleSends(hour: int, buyData: seq<Value>, sellData: seq<Value>)
    ensures Cycle(hour, buyData, sellData) == Ok(None) <==> !ShouldSend(hour)
    ensures (Cycle(hour, buyData, sellData).Ok? && Cycle(hour, buyData, sellData).value.Some?)
            <==> ShouldSend(hour) && BuyCopUsdt(buyData, sellData).Ok?
    ensures Cycle(hour, buyData, sellData).Ok? && Cycle(hour, buyData, sellData).value.Some? ==>
              Cycle(hour, buyData, sellData).value.value == BuyCopUsdt(buyData, sellData).value
  {
  }
}
