/** Loosely keyed records as the Python code sees them: decoded JSON values,
    the exceptions the code can raise on them, and the few built-in
    operations the core applies to them (subscripting, `dict.get`, `float()`,
    slicing and `str.join`). */
module PyValue {

  /** A decoded JSON value. Dictionary keys are strings, as in JSON. */
  datatype Value =
    | Null
    | Bool(b: bool)
    | Int(i: int)
    | Float(x: real)
    | Str(s: string)
    | List(items: seq<Value>)
    | Dict(entries: map<string, Value>)

  /** The exceptions the modelled code can raise. */
  datatype Error =
    | KeyError(key: string)
    | TypeError
    | ValueError
    | AttributeError
    | IndexError
    | ZeroDivisionError

  datatype Option<+T> = None | Some(value: T)

  /** Either a returned value or a raised exception. */
  datatype Result<+T> = Ok(value: T) | Err(error: Error) {
    predicate IsFailure() { Err? }
    function PropagateFailure<U>(): Result<U> requires Err? { Err(error) }
    function Extract(): T requires Ok? { value }
  }

  /** `v[key]` with a string key: only a dictionary holding the key answers. */
  function Subscript(v: Value, key: string): (r: Result<Value>)
    ensures r.Ok? <==> v.Dict? && key in v.entries
    ensures r.Ok? ==> r.value == v.entries[key]
    ensures v.Dict? && key !in v.entries ==> r == Err(KeyError(key))
  {
    match v
    case Dict(m) => if key in m then Ok(m[key]) else Err(KeyError(key))
    case _ => Err(TypeError)
  }

  /** `v.get(key, default)`: only dictionaries have a `get` method. */
  function Get(v: Value, key: string, default: Value): (r: Result<Value>)
    ensures r.Ok? <==> v.Dict?
    ensures v.Dict? ==> r.value == if key in v.entries then v.entries[key] else default
    ensures !v.Dict? ==> r == Err(AttributeError)
  {
    match v
    case Dict(m) => Ok(if key in m then m[key] else default)
    case _ => Err(AttributeError)
  }

  /** `xs[i]` for a non-negative index. */
  function Index(xs: seq<Value>, i: nat): (r: Result<Value>)
    ensures r.Ok? <==> i < |xs|
    ensures r.Ok? ==> r.value == xs[i]
    ensures i >= |xs| ==> r == Err(IndexError)
  {
    if i < |xs| then Ok(xs[i]) else Err(IndexError)
  }

  predicate IsDigit(c: char) { '0' <= c <= '9' }

  predicate AllDigits(s: string) { forall i :: 0 <= i < |s| ==> IsDigit(s[i]) }

  /** The natural number a string of decimal digits denotes. */
  function DigitsValue(s: string): nat
    requires AllDigits(s)
  {
    if s == [] then 0 else DigitsValue(s[..|s| - 1]) * 10 + (s[|s| - 1] as int - '0' as int)
  }

  function Pow10(n: nat): (r: nat)
    ensures r > 0
  {
    if n == 0 then 1 else 10 * Pow10(n - 1)
  }

  /** Position of the first '.' in `s`, or `|s|` when there is none. */
  function DotIndex(s: string): (k: nat)
    ensures k <= |s|
    ensures k < |s| ==> s[k] == '.'
  {
    if s == [] then 0 else if s[0] == '.' then 0 else 1 + DotIndex(s[1..])
  }

  /** The value of the literal `whole.frac`. */
  function DecimalValue(whole: string, frac: string): real
    requires AllDigits(whole) && AllDigits(frac)
  {
    DigitsValue(whole) as real + DigitsValue(frac) as real / Pow10(|frac|) as real
  }

  /** An unsigned decimal literal `digits[.digits]` with at least one digit,
      as `float()` reads it ("12", "12.", ".5", "3950.00"). */
  function ParseUnsigned(s: string): (r: Option<real>)
    ensures r.Some? ==> r.value >= 0.0
  {
    var k := DotIndex(s);
    var whole := s[..k];
    var frac := if k < |s| then s[k + 1..] else [];
    if AllDigits(whole) && AllDigits(frac) && |whole| + |frac| > 0 then
      Some(DecimalValue(whole, frac))
    else
      None
  }

  /** A decimal literal with an optional sign. */
  function ParseDecimal(s: string): Option<real> {
    if |s| > 0 && s[0] == '-' then
      match ParseUnsigned(s[1..])
      case Some(x) => Some(-x)
      case None => None
    else if |s| > 0 && s[0] == '+' then ParseUnsigned(s[1..])
    else ParseUnsigned(s)
  }

  /** Python's `float(v)` on a decoded JSON value. */
  function ToFloat(v: Value): (r: Result<real>)
    ensures r.Ok? <==> v.Int? || v.Float? || v.Bool? || (v.Str? && ParseDecimal(v.s).Some?)
    ensures v.Int? ==> r == Ok(v.i as real)
    ensures v.Float? ==> r == Ok(v.x)
    ensures v.Str? && ParseDecimal(v.s).None? ==> r == Err(ValueError)
    ensures v.Null? || v.List? || v.Dict? ==> r == Err(TypeError)
  {
    match v
    case Null => Err(TypeError)
    case Bool(b) => Ok(if b then 1.0 else 0.0)
    case Int(i) => Ok(i as real)
    case Float(x) => Ok(x)
    case Str(s) => (match ParseDecimal(s) case Some(x) => Ok(x) case None => Err(ValueError))
    case List(_) => Err(TypeError)
    case Dict(_) => Err(TypeError)
  }

  /** `float(ad[key])`. */
  function FloatField(ad: Value, key: string): Result<real> {
    var v :- Subscript(ad, key);
    ToFloat(v)
  }

  /** `[float(ad[key]) for ad in ads]`: the first failing element raises. */
  function FloatColumn(ads: seq<Value>, key: string): (r: Result<seq<real>>)
    ensures r.Ok? <==> forall i :: 0 <= i < |ads| ==> FloatField(ads[i], key).Ok?
    ensures r.Ok? ==> |r.value| == |ads|
    ensures r.Ok? ==> forall i :: 0 <= i < |ads| ==> FloatField(ads[i], key) == Ok(r.value[i])
    ensures r.Err? ==> exists i :: 0 <= i < |ads| && FloatField(ads[i], key) == Err(r.error)
                                   && forall j :: 0 <= j < i ==> FloatField(ads[j], key).Ok?
  {
    if ads == [] then Ok([])
    else
      var x :- FloatField(ads[0], key);
      var rest :- FloatColumn(ads[1..], key);
      Ok([x] + rest)
  }

  /** `s[:n]`. */
  function Prefix(s: string, n: nat): (r: string)
    ensures |r| <= n
    ensures r <= s
    ensures |s| <= n ==> r == s
    ensures |s| > n ==> |r| == n
  {
    if |s| <= n then s else s[..n]
  }

  /** `sep.join(parts)`. */
  function Join(sep: string, parts: seq<string>): string {
    if parts == [] then ""
    else if |parts| == 1 then parts[0]
    else parts[0] + sep + Join(sep, parts[1..])
  }

  /** Splitting on a one-character separator: the reading a consumer of the
      joined text applies. */
  function Split(sep: char, s: string): (r: seq<string>)
    ensures |r| >= 1
  {
    if s == [] then [""]
    else
      var rest := Split(sep, s[1..]);
      if s[0] == sep then [""] + rest else [[s[0]] + rest[0]] + rest[1..]
  }

  // ---------------------------------------------------------------------
  // Properties of the parsing and string operations
  // ---------------------------------------------------------------------

  /** A plain digit string is read as the integer it spells. */
  lemma ParseDigits(s: string)
    requires AllDigits(s) && s != []
    ensures ParseDecimal(s) == Some(DigitsValue(s) as real)
  {
    assert s[0] != '-' && s[0] != '+' by { assert IsDigit(s[0]); }
    DotIndexNone(s);
    assert s[..|s|] == s;
    UnsignedParts(s, s, []);
    assert DecimalValue(s, []) == DigitsValue(s) as real + 0.0 / 1.0;
  }

  lemma {:induction false} DotIndexNone(s: string)
    requires AllDigits(s)
    ensures DotIndex(s) == |s|
  {
    if s != [] {
      assert IsDigit(s[0]);
      DotIndexNone(s[1..]);
    }
  }

  /** No dot comes before the one `DotIndex` finds. */
  lemma {:induction false} DotIndexFirst(s: string, j: nat)
    requires j < DotIndex(s)
    ensures s[j] != '.'
  {
    if j > 0 {
      DotIndexFirst(s[1..], j - 1);
    }
  }

  /** A literal whose first dot splits it into two digit strings, not both
      empty, reads as their decimal value. */
  lemma UnsignedParts(s: string, whole: string, frac: string)
    requires s[..DotIndex(s)] == whole
    requires frac == if DotIndex(s) < |s| then s[DotIndex(s) + 1..] else []
    requires AllDigits(whole) && AllDigits(frac) && |whole| + |frac| > 0
    ensures ParseUnsigned(s) == Some(DecimalValue(whole, frac))
  {
  }

  /** A leading minus sign negates the value of an unsigned literal. */
  lemma ParseNegative(s: string)
    requires ParseUnsigned(s).Some?
    ensures ParseDecimal("-" + s) == Some(-ParseUnsigned(s).value)
  {
    assert ("-" + s)[1..] == s;
  }

  /** A joined list of separator-free names reads back as the same list. */
  lemma {:induction false} SplitJoin(sep: char, parts: seq<string>)
    requires parts != []
    requires forall i, j :: 0 <= i < |parts| && 0 <= j < |parts[i]| ==> parts[i][j] != sep
    ensures Split(sep, Join([sep], parts)) == parts
  {
    if |parts| == 1 {
      SplitNoSep(sep, parts[0]);
    } else {
      SplitJoin(sep, parts[1..]);
      SplitPrefix(sep, parts[0], Join([sep], parts[1..]));
      assert Join([sep], parts) == parts[0] + [sep] + Join([sep], parts[1..]);
      assert [parts[0]] + parts[1..] == parts;
    }
  }

  lemma {:induction false} SplitNoSep(sep: char, w: string)
    requires forall j :: 0 <= j < |w| ==> w[j] != sep
    ensures Split(sep, w) == [w]
  {
    if w != [] {
      SplitNoSep(sep, w[1..]);
      assert [w[0]] + w[1..] == w;
    }
  }

  lemma {:induction false} SplitPrefix(sep: char, w: string, rest: string)
    requires forall j :: 0 <= j < |w| ==> w[j] != sep
    ensures Split(sep, w + [sep] + rest) == [w] + Split(sep, rest)
  {
    if w == [] {
      assert w + [sep] + rest == [sep] + rest;
      assert ([sep] + rest)[1..] == rest;
    } else {
      var t := w + [sep] + rest;
      assert t[0] == w[0];
      assert t[1..] == w[1..] + [sep] + rest;
      SplitPrefix(sep, w[1..], rest);
      assert [w[0]] + w[1..] == w;
    }
  }
}
