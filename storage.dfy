/** The CSV sinks of core/storage.py. A file opened in append mode is an
    in-memory sequence of lines; `csv.DictWriter` turns a row dictionary into
    the cells of one line, in field-name order. `save_ads_raw` writes one
    row per raw listing and skips a listing whose row fails;
    `save_snapshot_summary` writes one summary row. Both write the header
    only when the file is empty when opened. */
module Storage {
  import opened PyValue

  const DefaultExchange: string := "binance_p2p"

  /** Longest `raw_json` kept in a row. */
  const RawJsonLimit: nat := 500

  const AdsFields: seq<string> := [
    "timestamp_utc", "exchange", "pair", "tradeType", "adv_id",
    "advertiser_nick", "monthFinishRate", "monthOrderCount",
    "price", "dynamicMaxSingleTransAmount", "maxSingleTransAmount",
    "minSingleTransAmount", "payment_methods", "raw_json"]

  const SnapshotFields: seq<string> := [
    "timestamp_utc", "pair", "rows_fetched", "avg_price_simple",
    "avg_price_weighted", "spread_pct", "coef_var",
    "total_exposed_volume", "top1_price", "top1_vol", "top1_nick",
    "top3_prices", "arb_estimate_cop_to_ves_pct",
    "arb_estimate_ves_to_cop_pct"]

  /** One line of a CSV file: the header or a row of cells. */
  datatype Line = Header(names: seq<string>) | Row(cells: seq<Value>)

  /** A file opened for appending. */
  class CsvFile {
    var lines: seq<Line>

    constructor (initial: seq<Line>)
      ensures lines == initial
    {
      lines := initial;
    }
  }

  /** True when every key of `row` is one of the field names. */
  predicate KeysAreFields(row: map<string, Value>, fieldnames: seq<string>) {
    forall k :: k in row ==> k in fieldnames
  }

  /** The cell of one field: its value, or "" when the row lacks it. */
  function Cell(row: map<string, Value>, name: string): Value {
    if name in row then row[name] else Str("")
  }

  /** The cells of a row, in field-name order. */
  function Cells(fieldnames: seq<string>, row: map<string, Value>): (c: seq<Value>)
    ensures |c| == |fieldnames|
    ensures forall i :: 0 <= i < |fieldnames| ==> c[i] == Cell(row, fieldnames[i])
  {
    if fieldnames == [] then [] else [Cell(row, fieldnames[0])] + Cells(fieldnames[1..], row)
  }

  /** What `DictWriter.writerow` puts on the line: the cells of the row, and
      `ValueError` for a key that is not a field. */
  function RowCells(fieldnames: seq<string>, row: map<string, Value>): (r: Result<seq<Value>>)
    ensures r.Ok? <==> KeysAreFields(row, fieldnames)
    ensures r.Err? ==> r.error == ValueError
    ensures r.Ok? ==> r.value == Cells(fieldnames, row)
  {
    if KeysAreFields(row, fieldnames) then Ok(Cells(fieldnames, row)) else Err(ValueError)
  }

  /** `csv.DictWriter(f, fieldnames=...)`. */
  class DictWriter {
    const file: CsvFile
    const fieldnames: seq<string>

    constructor (f: CsvFile, names: seq<string>)
      ensures file == f && fieldnames == names
    {
      file := f;
      fieldnames := names;
    }

    method WriteHeader()
      modifies file
      ensures file.lines == old(file.lines) + [Header(fieldnames)]
    {
      file.lines := file.lines + [Header(fieldnames)];
    }

    /** Writes the row, or raises and writes nothing. */
    method WriteRow(row: map<string, Value>) returns (err: Option<Error>)
      modifies file
      ensures err.None? <==> RowCells(fieldnames, row).Ok?
      ensures err.Some? ==> err.value == ValueError
      ensures file.lines == old(file.lines) + RowLine(fieldnames, row)
    {
      match RowCells(fieldnames, row) {
        case Ok(cells) =>
          file.lines := file.lines + [Row(cells)];
          err := None;
        case Err(e) =>
          err := Some(e);
      }
    }
  }

  /** The line `writerow` adds for `row`: one, or none when it raises. */
  function RowLine(fieldnames: seq<string>, row: map<string, Value>): seq<Line> {
    match RowCells(fieldnames, row)
    case Ok(cells) => [Row(cells)]
    case Err(_) => []
  }

  /** The file after opening and the `f.tell() == 0` header check. */
  function Opened(lines: seq<Line>, fieldnames: seq<string>): (r: seq<Line>)
    ensures r != []
    ensures lines == [] ==> r == [Header(fieldnames)]
    ensures lines != [] ==> r == lines
  {
    if lines == [] then [Header(fieldnames)] else lines
  }

  /** `",".join(m.get("tradeMethodName", "") for m in trade_methods)`, where
      iterating a string yields strings and iterating a dictionary yields its
      string keys, neither of which has `get`. */
  function PaymentMethods(tradeMethods: Value): Result<string> {
    match tradeMethods
    case List(items) =>
      var names :- MethodNames(items);
      Ok(Join(",", names))
    case Str(s) => if s == "" then Ok("") else Err(AttributeError)
    case Dict(m) => if |m| == 0 then Ok("") else Err(AttributeError)
    case _ => Err(TypeError)
  }

  /** True when every trade method is a dictionary whose name is a string. */
  predicate NamedMethods(items: seq<Value>) {
    forall i :: 0 <= i < |items| ==> items[i].Dict? && MethodName(items[i]).Str?
  }

  /** The names of the trade methods; `join` raises `TypeError` for a name
      that is not a string. */
  function MethodNames(items: seq<Value>): (r: Result<seq<string>>)
    ensures r.Ok? <==> NamedMethods(items)
    ensures r.Ok? ==> |r.value| == |items|
    ensures r.Ok? ==> forall i :: 0 <= i < |items| ==> r.value[i] == MethodName(items[i]).s
  {
    if items == [] then Ok([])
    else
      var first :- Get(items[0], "tradeMethodName", Str(""));
      var rest :- MethodNames(items[1..]);
      if first.Str? then Ok([first.s] + rest) else Err(TypeError)
  }

  /** `m.get("tradeMethodName", "")` of a trade-method dictionary. */
  function MethodName(m: Value): Value {
    if m.Dict? && "tradeMethodName" in m.entries then m.entries["tradeMethodName"] else Str("")
  }

  /** True when `.get` can be called on `parent.get(key, {})`: the entry is
      absent or a dictionary. */
  predicate SubMapUsable(parent: map<string, Value>, key: string) {
    key in parent ==> parent[key].Dict?
  }

  /** The entries of `parent.get(key, {})` when it is a dictionary. */
  function Sub(parent: map<string, Value>, key: string): map<string, Value> {
    if key in parent && parent[key].Dict? then parent[key].entries else map[]
  }

  /** The entry `parent.get(key, {}).get(field)`, `None` when absent. */
  function Nested(parent: map<string, Value>, key: string, field: string): (r: Value)
    ensures key !in parent ==> r == Null
  {
    Lookup(Sub(parent, key), field)
  }

  /** The entries of a value on which `.get` is called; anything but a
      dictionary raises `AttributeError`. */
  function EntriesOf(v: Value): (r: Result<map<string, Value>>)
    ensures r.Ok? <==> v.Dict?
    ensures r.Ok? ==> r.value == v.entries
    ensures r.Err? ==> r.error == AttributeError
  {
    if v.Dict? then Ok(v.entries) else Err(AttributeError)
  }

  /** `m.get(key)`: `None` when absent. */
  function Lookup(m: map<string, Value>, key: string): Value {
    if key in m then m[key] else Null
  }

  /** `ad.get("adv", {}).get("tradeMethods", [])`. */
  function TradeMethods(ad: map<string, Value>): Value {
    if "adv" in ad && ad["adv"].Dict? && "tradeMethods" in ad["adv"].entries then ad["adv"].entries["tradeMethods"]
    else List([])
  }

  /** The row dictionary `save_ads_raw` builds for one raw listing;
      `dumps` is `json.dumps`. The entries are evaluated in the literal's
      order: `ad.get` first, then the `.get` calls on the `adv` entry and on
      the `advertiser` entry, then the payment-method text. */
  function AdRow(now: string, exchange: string, pair: string, tradeType: string, ad: Value,
                 dumps: Value -> string): Result<map<string, Value>>
  {
    var entries :- EntriesOf(ad);
    var adv :- EntriesOf(if "adv" in entries then entries["adv"] else Dict(map[]));
    var who :- EntriesOf(if "advertiser" in entries then entries["advertiser"] else Dict(map[]));
    var methods :- PaymentMethods(TradeMethods(entries));
    Ok(RowOf(now, exchange, pair, tradeType, adv, who, methods, Prefix(dumps(ad), RawJsonLimit)))
  }

  /** The row built from the `adv` and `advertiser` entries, the
      payment-method text and the truncated serialisation. */
  function RowOf(now: string, exchange: string, pair: string, tradeType: string,
                 adv: map<string, Value>, who: map<string, Value>, methods: string, raw: string)
    : map<string, Value>
  {
    map[
      "timestamp_utc" := Str(now),
      "exchange" := Str(exchange),
      "pair" := Str(pair),
      "tradeType" := Str(tradeType),
      "adv_id" := Lookup(adv, "advNo"),
      "advertiser_nick" := Lookup(who, "nickName"),
      "monthFinishRate" := Lookup(who, "monthFinishRate"),
      "monthOrderCount" := Lookup(who, "monthOrderCount"),
      "price" := Lookup(adv, "price"),
      "dynamicMaxSingleTransAmount" := Lookup(adv, "dynamicMaxSingleTransAmount"),
      "maxSingleTransAmount" := Lookup(adv, "maxSingleTransAmount"),
      "minSingleTransAmount" := Lookup(adv, "minSingleTransAmount"),
      "payment_methods" := Str(methods),
      "raw_json" := Str(raw)]
  }

  /** Builds the row dictionary of one listing, or raises. */
  type Builder = Value -> Result<map<string, Value>>

  /** The row builder of one `save_ads_raw` call. */
  function AdBuilder(now: string, exchange: string, pair: string, tradeType: string, dumps: Value -> string)
    : Builder
  {
    ad => AdRow(now, exchange, pair, tradeType, ad, dumps)
  }

  /** The lines a loop of `try: writer.writerow(build(ad))` appends: one per
      listing whose row can be built and written, in input order. */
  function WrittenLines(fieldnames: seq<string>, build: Builder, ads: seq<Value>): (r: seq<Line>)
    ensures |r| <= |ads|
  {
    if ads == [] then []
    else
      var init := WrittenLines(fieldnames, build, ads[..|ads| - 1]);
      match build(ads[|ads| - 1])
      case Ok(row) => init + RowLine(fieldnames, row)
      case Err(_) => init
  }

  /** `save_ads_raw(pair, tradeType, ads, exchange)` appending to `file`,
      with `now` for the clock. */
  method SaveAdsRaw(file: CsvFile, pair: string, tradeType: string, ads: seq<Value>,
                    now: string, dumps: Value -> string, exchange: string := DefaultExchange)
    modifies file
    ensures file.lines == Opened(old(file.lines), AdsFields)
                          + WrittenLines(AdsFields, AdBuilder(now, exchange, pair, tradeType, dumps), ads)
  {
    var writer := new DictWriter(file, AdsFields);
    if file.lines == [] {
      writer.WriteHeader();
    }
    assert file.lines == Opened(old(file.lines), AdsFields);
    WriteRows(writer, AdBuilder(now, exchange, pair, tradeType, dumps), ads);
  }

  /** The `for ad in ads: try: writer.writerow(...) except: ...` loop: each
      listing's row is built and written, and a listing whose row raises is
      skipped. */
  method WriteRows(writer: DictWriter, build: Builder, ads: seq<Value>)
    modifies writer.file
    ensures writer.file.lines == old(writer.file.lines) + WrittenLines(writer.fieldnames, build, ads)
  {
    var i := 0;
    while i < |ads|
      invariant 0 <= i <= |ads|
      invariant writer.file.lines == old(writer.file.lines) + WrittenLines(writer.fieldnames, build, ads[..i])
    {
      WrittenLinesStep(writer.fieldnames, build, ads, i);
      var row := build(ads[i]);
      if row.Ok? {
        var _ := writer.WriteRow(row.value);
      }
      i := i + 1;
    }
    assert ads[..i] == ads;
  }

  /** `save_snapshot_summary(pair, summary)` appending to `file`. A summary
      key that is not a field raises `ValueError` after the header check. */
  method SaveSnapshotSummary(file: CsvFile, summary: map<string, Value>) returns (err: Option<Error>)
    modifies file
    ensures err.None? <==> forall k :: k in summary ==> k in SnapshotFields
    ensures file.lines == Opened(old(file.lines), SnapshotFields) + RowLine(SnapshotFields, summary)
  {
    var writer := new DictWriter(file, SnapshotFields);
    if file.lines == [] {
      writer.WriteHeader();
    }
    assert file.lines == Opened(old(file.lines), SnapshotFields);
    err := writer.WriteRow(summary);
  }

  // ---------------------------------------------------------------------
  // Properties
  // ---------------------------------------------------------------------

  /** A file whose only header is its first line. */
  predicate HeaderOnce(lines: seq<Line>, fieldnames: seq<string>) {
    lines != [] ==> lines[0] == Header(fieldnames) && forall i :: 0 < i < |lines| ==> lines[i].Row?
  }

  predicate AllRows(lines: seq<Line>) {
    forall i :: 0 <= i < |lines| ==> lines[i].Row?
  }

  /** Appending rows after the header check keeps one header at the top, and
      leaves the existing content unchanged in front. */
  lemma AppendKeepsHeaderOnce(lines: seq<Line>, fieldnames: seq<string>, rows: seq<Line>)
    requires HeaderOnce(lines, fieldnames) && AllRows(rows)
    ensures HeaderOnce(Opened(lines, fieldnames) + rows, fieldnames)
    ensures lines <= Opened(lines, fieldnames) + rows
    ensures lines != [] ==> |Opened(lines, fieldnames) + rows| == |lines| + |rows|
  {
    var r := Opened(lines, fieldnames) + rows;
    assert forall i :: |Opened(lines, fieldnames)| <= i < |r| ==> r[i] == rows[i - |Opened(lines, fieldnames)|];
  }

  /** The listing loop writes only rows. */
  lemma {:induction false} WrittenLinesAreRows(fieldnames: seq<string>, build: Builder, ads: seq<Value>)
    ensures AllRows(WrittenLines(fieldnames, build, ads))
  {
    if ads != [] {
      WrittenLinesAreRows(fieldnames, build, ads[..|ads| - 1]);
    }
  }

  /** Saving raw listings keeps the header-once shape of the file. */
  lemma SaveAdsRawKeepsHeaderOnce(lines: seq<Line>, now: string, exchange: string, pair: string,
                                  tradeType: string, ads: seq<Value>, dumps: Value -> string)
    requires HeaderOnce(lines, AdsFields)
    ensures HeaderOnce(Opened(lines, AdsFields)
                       + WrittenLines(AdsFields, AdBuilder(now, exchange, pair, tradeType, dumps), ads), AdsFields)
  {
    var build := AdBuilder(now, exchange, pair, tradeType, dumps);
    WrittenLinesAreRows(AdsFields, build, ads);
    AppendKeepsHeaderOnce(lines, AdsFields, WrittenLines(AdsFields, build, ads));
  }

  /** A row is built exactly when the listing is a dictionary whose `adv`
      and `advertiser` entries are absent or dictionaries and whose trade
      methods give a payment-method text. */
  lemma AdRowOutcome(now: string, exchange: string, pair: string, tradeType: string, ad: Value,
                     dumps: Value -> string)
    ensures AdRow(now, exchange, pair, tradeType, ad, dumps).Ok? <==>
              && ad.Dict? && SubMapUsable(ad.entries, "adv") && SubMapUsable(ad.entries, "advertiser")
              && PaymentMethods(TradeMethods(ad.entries)).Ok?
  {
  }

  lemma AdRowUnfold(now: string, exchange: string, pair: string, tradeType: string, ad: Value,
                    dumps: Value -> string, row: map<string, Value>)
    requires AdRow(now, exchange, pair, tradeType, ad, dumps) == Ok(row)
    ensures ad.Dict? && PaymentMethods(TradeMethods(ad.entries)).Ok?
    ensures row == RowOf(now, exchange, pair, tradeType, Sub(ad.entries, "adv"), Sub(ad.entries, "advertiser"),
                         PaymentMethods(TradeMethods(ad.entries)).value, Prefix(dumps(ad), RawJsonLimit))
  {
  }

  lemma RowOfFields(now: string, exchange: string, pair: string, tradeType: string,
                    adv: map<string, Value>, who: map<string, Value>, methods: string, raw: string)
    ensures var row := RowOf(now, exchange, pair, tradeType, adv, who, methods, raw);
      && row["timestamp_utc"] == Str(now)
      && row["exchange"] == Str(exchange) && row["pair"] == Str(pair) && row["tradeType"] == Str(tradeType)
      && row["payment_methods"] == Str(methods)
      && row["raw_json"] == Str(raw)
  {
  }

  lemma RowOfAdvFields(now: string, exchange: string, pair: string, tradeType: string,
                       adv: map<string, Value>, who: map<string, Value>, methods: string, raw: string)
    ensures var row := RowOf(now, exchange, pair, tradeType, adv, who, methods, raw);
      && row["adv_id"] == Lookup(adv, "advNo")
      && row["price"] == Lookup(adv, "price")
      && row["dynamicMaxSingleTransAmount"] == Lookup(adv, "dynamicMaxSingleTransAmount")
      && row["maxSingleTransAmount"] == Lookup(adv, "maxSingleTransAmount")
      && row["minSingleTransAmount"] == Lookup(adv, "minSingleTransAmount")
  {
  }

  lemma RowOfAdvertiserFields(now: string, exchange: string, pair: string, tradeType: string,
                              adv: map<string, Value>, who: map<string, Value>, methods: string, raw: string)
    ensures var row := RowOf(now, exchange, pair, tradeType, adv, who, methods, raw);
      && row["advertiser_nick"] == Lookup(who, "nickName")
      && row["monthFinishRate"] == Lookup(who, "monthFinishRate")
      && row["monthOrderCount"] == Lookup(who, "monthOrderCount")
  {
  }

  lemma RowOfKeys(now: string, exchange: string, pair: string, tradeType: string,
                  adv: map<string, Value>, who: map<string, Value>, methods: string, raw: string)
    ensures forall k :: k in RowOf(now, exchange, pair, tradeType, adv, who, methods, raw) <==> k in AdsFields
  {
  }

  /** A built row has exactly the file's fields and carries the given
      exchange, pair and trade type. A missing `adv` or `advertiser` gives
      `None` in the fields read from it. `payment_methods` is the
      payment-method text and `raw_json` a prefix of the serialisation of at
      most 500 characters, the whole of it when it is short enough. */
  lemma AdRowFields(now: string, exchange: string, pair: string, tradeType: string, ad: Value,
                    dumps: Value -> string, row: map<string, Value>)
    requires AdRow(now, exchange, pair, tradeType, ad, dumps) == Ok(row)
    ensures ad.Dict?
    ensures forall k :: k in row <==> k in AdsFields
    ensures row["timestamp_utc"] == Str(now)
    ensures row["exchange"] == Str(exchange) && row["pair"] == Str(pair) && row["tradeType"] == Str(tradeType)
    ensures row["adv_id"] == Nested(ad.entries, "adv", "advNo")
    ensures row["price"] == Nested(ad.entries, "adv", "price")
    ensures row["dynamicMaxSingleTransAmount"] == Nested(ad.entries, "adv", "dynamicMaxSingleTransAmount")
    ensures row["maxSingleTransAmount"] == Nested(ad.entries, "adv", "maxSingleTransAmount")
    ensures row["minSingleTransAmount"] == Nested(ad.entries, "adv", "minSingleTransAmount")
    ensures row["advertiser_nick"] == Nested(ad.entries, "advertiser", "nickName")
    ensures row["monthFinishRate"] == Nested(ad.entries, "advertiser", "monthFinishRate")
    ensures row["monthOrderCount"] == Nested(ad.entries, "advertiser", "monthOrderCount")
    ensures "adv" !in ad.entries ==> row["adv_id"] == Null && row["price"] == Null
    ensures "advertiser" !in ad.entries ==> row["advertiser_nick"] == Null
    ensures PaymentMethods(TradeMethods(ad.entries)).Ok?
    ensures row["payment_methods"] == Str(PaymentMethods(TradeMethods(ad.entries)).value)
    ensures row["raw_json"].Str? && |row["raw_json"].s| <= RawJsonLimit && row["raw_json"].s <= dumps(ad)
    ensures |dumps(ad)| <= RawJsonLimit ==> row["raw_json"].s == dumps(ad)
  {
    AdRowUnfold(now, exchange, pair, tradeType, ad, dumps, row);
    RowOfFields(now, exchange, pair, tradeType, Sub(ad.entries, "adv"), Sub(ad.entries, "advertiser"),
                PaymentMethods(TradeMethods(ad.entries)).value, Prefix(dumps(ad), RawJsonLimit));
    RowOfAdvFields(now, exchange, pair, tradeType, Sub(ad.entries, "adv"), Sub(ad.entries, "advertiser"),
                   PaymentMethods(TradeMethods(ad.entries)).value, Prefix(dumps(ad), RawJsonLimit));
    RowOfAdvertiserFields(now, exchange, pair, tradeType, Sub(ad.entries, "adv"), Sub(ad.entries, "advertiser"),
                          PaymentMethods(TradeMethods(ad.entries)).value, Prefix(dumps(ad), RawJsonLimit));
    RowOfKeys(now, exchange, pair, tradeType, Sub(ad.entries, "adv"), Sub(ad.entries, "advertiser"),
              PaymentMethods(TradeMethods(ad.entries)).value, Prefix(dumps(ad), RawJsonLimit));
  }

  /** A built row is always written: its keys are all fields. */
  lemma AdRowWritten(now: string, exchange: string, pair: string, tradeType: string, ad: Value,
                     dumps: Value -> string, row: map<string, Value>)
    requires AdRow(now, exchange, pair, tradeType, ad, dumps) == Ok(row)
    ensures RowCells(AdsFields, row).Ok?
    ensures |RowLine(AdsFields, row)| == 1
  {
    AdRowFields(now, exchange, pair, tradeType, ad, dumps, row);
  }

  /** A list of trade-method dictionaries with string names gives their
      names joined by commas, which split back into the same names when no
      name holds a comma. */
  lemma PaymentMethodsJoin(items: seq<Value>, names: seq<string>)
    requires |items| == |names|
    requires forall i :: 0 <= i < |items| ==> items[i].Dict? && MethodName(items[i]) == Str(names[i])
    ensures PaymentMethods(List(items)) == Ok(Join(",", names))
    ensures names != [] && (forall i, j :: 0 <= i < |names| && 0 <= j < |names[i]| ==> names[i][j] != ',')
            ==> Split(',', Join(",", names)) == names
  {
    assert MethodNames(items).Ok?;
    assert MethodNames(items).value == names;
    if names != [] && (forall i, j :: 0 <= i < |names| && 0 <= j < |names[i]| ==> names[i][j] != ',') {
      SplitJoin(',', names);
    }
  }

  /** Writing listings in two batches appends the same lines as one. */
  lemma {:induction false} WrittenLinesAppend(fieldnames: seq<string>, build: Builder, a: seq<Value>, b: seq<Value>)
    ensures WrittenLines(fieldnames, build, a + b)
         == WrittenLines(fieldnames, build, a) + WrittenLines(fieldnames, build, b)
  {
    if b == [] {
      assert a + b == a;
    } else {
      var b' := b[..|b| - 1];
      assert (a + b)[..|a + b| - 1] == a + b';
      assert (a + b)[|a + b| - 1] == b[|b| - 1];
      WrittenLinesAppend(fieldnames, build, a, b');
    }
  }

  /** A listing whose row fails is skipped and the listings after it are
      still written. */
  lemma FailedRowSkipped(fieldnames: seq<string>, build: Builder, before: seq<Value>, bad: Value, after: seq<Value>)
    requires build(bad).Err?
    ensures WrittenLines(fieldnames, build, before + [bad] + after)
         == WrittenLines(fieldnames, build, before) + WrittenLines(fieldnames, build, after)
  {
    WrittenLinesAppend(fieldnames, build, before + [bad], after);
    WrittenLinesAppend(fieldnames, build, before, [bad]);
    assert [bad][..0] == [];
  }

  /** The lines written for one listing. */
  function Written(fieldnames: seq<string>, build: Builder, ad: Value): seq<Line> {
    match build(ad)
    case Ok(row) => RowLine(fieldnames, row)
    case Err(_) => []
  }

  lemma WrittenLinesSnoc(fieldnames: seq<string>, build: Builder, init: seq<Value>, last: Value)
    ensures WrittenLines(fieldnames, build, init + [last])
         == WrittenLines(fieldnames, build, init) + Written(fieldnames, build, last)
  {
    var ads := init + [last];
    assert ads[..|ads| - 1] == init;
  }

  lemma WrittenLinesStep(fieldnames: seq<string>, build: Builder, ads: seq<Value>, i: nat)
    requires i < |ads|
    ensures WrittenLines(fieldnames, build, ads[..i + 1])
         == WrittenLines(fieldnames, build, ads[..i]) + Written(fieldnames, build, ads[i])
  {
    assert ads[..i + 1][..i] == ads[..i];
  }

  lemma SnocIndex<T>(front: seq<T>, x: T, lines: seq<T>)
    requires lines == front + [x]
    ensures |lines| == |front| + 1 && lines[|front|] == x
    ensures forall i :: 0 <= i < |front| ==> lines[i] == front[i]
  {
  }

  /** When every listing gets one line, the `i`-th line written is the
      `i`-th listing's. */
  lemma {:induction false} OneLineEach(fieldnames: seq<string>, build: Builder, ads: seq<Value>)
    requires forall i :: 0 <= i < |ads| ==> |Written(fieldnames, build, ads[i])| == 1
    ensures |WrittenLines(fieldnames, build, ads)| == |ads|
    ensures forall i :: 0 <= i < |ads| ==> WrittenLines(fieldnames, build, ads)[i] == Written(fieldnames, build, ads[i])[0]
  {
    if ads != [] {
      var init, last := ads[..|ads| - 1], ads[|ads| - 1];
      assert forall i :: 0 <= i < |init| ==> init[i] == ads[i];
      OneLineEach(fieldnames, build, init);
      WrittenLinesSnoc(fieldnames, build, init, last);
      assert init + [last] == ads;
      var w := Written(fieldnames, build, last);
      assert w == [w[0]];
      SnocIndex(WrittenLines(fieldnames, build, init), w[0], WrittenLines(fieldnames, build, ads));
    }
  }

  /** When every listing's row is built and has only field keys, exactly one
      row per listing is written, the `i`-th line holding the cells of the
      `i`-th listing's row. */
  lemma OneRowPerListing(fieldnames: seq<string>, build: Builder, ads: seq<Value>)
    requires forall i :: 0 <= i < |ads| ==> build(ads[i]).Ok? && KeysAreFields(build(ads[i]).value, fieldnames)
    ensures |WrittenLines(fieldnames, build, ads)| == |ads|
    ensures forall i :: 0 <= i < |ads| ==>
              WrittenLines(fieldnames, build, ads)[i] == Row(Cells(fieldnames, build(ads[i]).value))
  {
    OneLineEach(fieldnames, build, ads);
  }

  /** Every raw listing whose row can be built gets exactly one row, in
      input order. */
  lemma AdsOneRowEach(now: string, exchange: string, pair: string, tradeType: string,
                      ads: seq<Value>, dumps: Value -> string)
    requires forall i :: 0 <= i < |ads| ==> AdRow(now, exchange, pair, tradeType, ads[i], dumps).Ok?
    ensures |WrittenLines(AdsFields, AdBuilder(now, exchange, pair, tradeType, dumps), ads)| == |ads|
    ensures forall i :: 0 <= i < |ads| ==>
              WrittenLines(AdsFields, AdBuilder(now, exchange, pair, tradeType, dumps), ads)[i]
              == Row(Cells(AdsFields, AdBuilder(now, exchange, pair, tradeType, dumps)(ads[i]).value))
  {
    var build := AdBuilder(now, exchange, pair, tradeType, dumps);
    forall i | 0 <= i < |ads|
      ensures build(ads[i]).Ok? && KeysAreFields(build(ads[i]).value, AdsFields)
    {
      AdRowWritten(now, exchange, pair, tradeType, ads[i], dumps, AdRow(now, exchange, pair, tradeType, ads[i], dumps).value);
    }
    OneRowPerListing(AdsFields, build, ads);
  }

  /** Saving a summary whose keys are all fields appends exactly one row
      after the header check. */
  lemma SnapshotOneRow(lines: seq<Line>, summary: map<string, Value>)
    requires forall k :: k in summary ==> k in SnapshotFields
    ensures |RowLine(SnapshotFields, summary)| == 1
    ensures |Opened(lines, SnapshotFields) + RowLine(SnapshotFields, summary)|
         == (if lines == [] then 2 else |lines| + 1)
  {
  }
}
