/** The data the survey layer moves around: cells, columns, tables and errors. */
module Values {
  import opened Wrappers

  /** One cell of a response table. `Missing` is a NaN float; `List` is a Python list
      (a multi-coded answer); `Arr` is a row of a two-dimensional numpy array. */
  datatype Value = Num(x: real) | Missing | Str(s: string) | List(elems: seq<Value>) | Arr(elems: seq<Value>)

  /** Lists and numpy rows cannot be dict keys. */
  predicate Unhashable(v: Value)
  {
    v.List? || v.Arr?
  }

  /** What Python raises when an unhashable cell is looked up in a dict. */
  function HashError(v: Value): Error
  {
    if v.Arr? then TypeError("unhashable type: 'numpy.ndarray'") else TypeError("unhashable type: 'list'")
  }

  /** What numpy raises when the rows of a new array do not all have one shape. */
  const Ragged := ValueError("setting an array element with a sequence")

  /** The Python container a column lives in: a pandas Series read from a table,
      a numpy array built by a converter, or a plain list. */
  datatype Container = SeriesC | ArrayC | ListC

  datatype Column = Column(kind: Container, values: seq<Value>)

  /** A response table: column name to the column's cells, one per respondent. */
  type Table = map<string, seq<Value>>

  /** The Python exceptions the core raises or lets through. */
  datatype Error =
    | KeyError(key: Value)
    | ValueError(msg: string)
    | TypeError(msg: string)
    | AttributeError(attr: string)
    | NotImplementedError
    | NameError(name: string)
    | AssertionError(msg: string)
    | IndexError(msg: string)
    | AxisError
    | Wrapped(msg: string, cause: Error)

  /** `str(type(data))` for the three containers. */
  function TypeName(k: Container): string
  {
    match k
    case SeriesC => "<class 'pandas.core.series.Series'>"
    case ArrayC => "<class 'numpy.ndarray'>"
    case ListC => "<class 'list'>"
  }

  /** `df[key]`: the column selected by `key`, as a pandas Series, or KeyError. */
  function GetColumn(t: Table, key: string): (r: Result<Column, Error>)
    ensures r.Success? <==> key in t
    ensures r.Success? ==> r.value == Column(SeriesC, t[key])
    ensures r.Failure? ==> r.error == KeyError(Str(key))
  {
    if key in t then Success(Column(SeriesC, t[key])) else Failure(KeyError(Str(key)))
  }

  // ---- `str(x)` of a Python float ----

  function DigitChar(d: nat): char
    requires d < 10
  {
    "0123456789"[d]
  }

  /** The decimal digits of a natural number. */
  function NatText(n: nat): (s: string)
    ensures |s| > 0
    decreases n
  {
    if n < 10 then [DigitChar(n)] else NatText(n / 10) + [DigitChar(n % 10)]
  }

  /** The last `w` decimal digits of `n`, zeros in front. */
  function Padded(n: nat, w: nat): (s: string)
    ensures |s| == w
  {
    if w == 0 then "" else Padded(n / 10, w - 1) + [DigitChar(n % 10)]
  }

  function Pow10(k: nat): (r: nat)
    ensures r >= 1
  {
    if k == 0 then 1 else 10 * Pow10(k - 1)
  }

  /** `x * 10^k`, one factor of ten at a time. */
  function Scaled(x: real, k: nat): (r: real)
    ensures x >= 0.0 ==> r >= 0.0
  {
    if k == 0 then x else 10.0 * Scaled(x, k - 1)
  }

  /** `x / 10^k`, one factor of ten at a time. */
  function Shrunk(x: real, k: nat): (r: real)
    ensures x >= 0.0 ==> r >= 0.0
  {
    if k == 0 then x else Shrunk(x, k - 1) / 10.0
  }

  predicate Whole(x: real)
  {
    x == x.Floor as real
  }

  /** The fewest decimal places, from `p` up to `cap`, that spell `x` exactly, or
      `cap` when its expansion is longer. */
  function Places(x: real, p: nat, cap: nat): (r: nat)
    requires p <= cap
    ensures p <= r <= cap
    ensures r < cap ==> Whole(Scaled(x, r))
    decreases cap - p
  {
    if p == cap || Whole(Scaled(x, p)) then p else Places(x, p + 1, cap)
  }

  /** `x` written with `p` places after the point (at least one, dropped when `bare`
      and `p` is zero), `x` cut off below its last place. */
  function Decimal(x: real, p: nat, bare: bool): (s: string)
    requires x >= 0.0
    ensures |s| > 0
  {
    var units := Scaled(x, p).Floor;
    var ds := NatText(units);
    var digits := if |ds| <= p then Padded(0, p + 1 - |ds|) + ds else ds;
    if p == 0 then digits + (if bare then "" else ".0")
    else digits[..|digits| - p] + "." + digits[|digits| - p..]
  }

  /** The exponent of `x`: the least `e` from the given one up with `x < 10^(e+1)`
      (doubles stop below `10^309`). */
  function ExponentUp(x: real, e: nat): (r: nat)
    requires e <= 309
    ensures e <= r <= 309
    decreases 309 - e
  {
    if e == 309 || Shrunk(x, e + 1) < 1.0 then e else ExponentUp(x, e + 1)
  }

  /** The least `k` from the given one up with `1 <= x * 10^k` (doubles stop above
      `10^-324`). */
  function ExponentDown(x: real, k: nat): (r: nat)
    requires k <= 324
    ensures k <= r <= 324
    decreases 324 - k
  {
    if k == 324 || 1.0 <= Scaled(x, k) then k else ExponentDown(x, k + 1)
  }

  /** A mantissa in `[1, 10)` with the fewest places (up to 16) that spell it,
      then `e`, a sign and the exponent in at least two digits. */
  function Scientific(m: real, sign: string, k: nat): string
    requires m >= 0.0
  {
    Decimal(m, Places(m, 0, 16), true) + "e" + sign + (if k < 100 then Padded(k, 2) else NatText(k))
  }

  /** `str(x)` (the shortest repr) of a float: fixed notation with at least one
      place when `1e-4 <= |x| < 1e16` or `x` is zero, scientific notation otherwise. */
  function FloatText(x: real): (s: string)
    ensures |s| > 0
  {
    if x < 0.0 then "-" + Magnitude(-x) else Magnitude(x)
  }

  /** `str(x)` of a float that is not negative. */
  function Magnitude(x: real): (s: string)
    requires x >= 0.0
    ensures |s| > 0
  {
    if x == 0.0 || (1.0 / 10000.0 <= x && x < 10000000000000000.0) then Decimal(x, Places(x, 0, 17), false)
    else if x >= 10000000000000000.0 then
      var e := ExponentUp(x, 16);
      Scientific(Shrunk(x, e), "+", e)
    else
      var k := ExponentDown(x, 5);
      Scientific(Scaled(x, k), "-", k)
  }

  /** A whole float prints with one zero place. */
  lemma FloatTextWhole()
    ensures FloatText(1.0) == "1.0" && FloatText(2.0) == "2.0"
  {
    assert Places(1.0, 0, 17) == 0;
    assert Places(2.0, 0, 17) == 0;
    assert NatText(2) == "2";
  }

  /** Whole floats of two digits print as such. */
  lemma FloatTextTens()
    ensures FloatText(9.0) == "9.0" && FloatText(10.0) == "10.0"
  {
    assert Places(9.0, 0, 17) == 0;
    assert Places(10.0, 0, 17) == 0;
    assert NatText(9) == "9";
    assert NatText(10) == NatText(1) + "0" == "10";
  }

  /** A half prints its one place. */
  lemma FloatTextHalf()
    ensures FloatText(0.5) == "0.5"
  {
    assert !Whole(Scaled(0.5, 0));
    assert Scaled(0.5, 1) == 5.0;
    assert Places(0.5, 0, 17) == 1;
    assert NatText(5) == "5";
    assert Padded(0, 1) == "0";
  }

  lemma {:induction false} ShrunkLinear(y: real, j: nat)
    ensures Shrunk(10.0 * y, j) == 10.0 * Shrunk(y, j)
  {
    if j > 0 {
      ShrunkLinear(y, j - 1);
    }
  }

  /** `10^k / 10^k` is one. */
  lemma {:induction false} ShrunkPower(k: nat)
    ensures Shrunk(Pow10(k) as real, k) == 1.0
  {
    if k > 0 {
      ShrunkPower(k - 1);
      ShrunkLinear(Pow10(k - 1) as real, k - 1);
    }
  }

  lemma {:induction false} Pow10Add(a: nat, b: nat)
    ensures Pow10(a + b) == Pow10(a) * Pow10(b)
  {
    if a > 0 {
      Pow10Add(a - 1, b);
    }
  }

  /** From `1e16` on, Python switches to scientific notation. */
  lemma FloatTextLarge()
    ensures FloatText(10000000000000000.0) == "1e+16"
  {
    assert Pow10(4) == 10000;
    Pow10Add(4, 4);
    Pow10Add(8, 8);
    ShrunkPower(16);
    assert Shrunk(10000000000000000.0, 17) < 1.0;
    assert ExponentUp(10000000000000000.0, 16) == 16;
    assert Places(1.0, 0, 16) == 0;
    assert Padded(1, 1) == "1";
    assert Padded(16, 2) == "16";
  }
}
