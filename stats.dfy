/** NaN-aware descriptive statistics over real numbers, as numpy computes them for
    a NumericItem (`itemie/core/item.py`) and a NumericGroup (`itemie/core/group.py`).
    `None` stands for a NaN. */
module Stats {
  import opened Wrappers
  import opened Values

  /** A cell as a number, if it is one. */
  function AsNumber(v: Value): Option<real>
  {
    if v.Num? then Some(v.x) else None
  }

  /** The cells of a numeric column as numbers; strings and lists make numpy raise. */
  function Numbers(vs: seq<Value>): (r: Result<seq<Option<real>>, Error>)
    ensures r.Success? <==> forall i :: 0 <= i < |vs| ==> vs[i].Num? || vs[i].Missing?
    ensures r.Success? ==> |r.value| == |vs| && forall i :: 0 <= i < |vs| ==> r.value[i] == AsNumber(vs[i])
    ensures r.Failure? ==> r.error == NonNumeric
  {
    if |vs| == 0 then Success([])
    else if !(vs[0].Num? || vs[0].Missing?) then Failure(NonNumeric)
    else
      match Numbers(vs[1..])
      case Failure(e) =>
        assert forall i :: 0 < i < |vs| ==> vs[i] == vs[1..][i - 1];
        Failure(e)
      case Success(rest) => Success([AsNumber(vs[0])] + rest)
  }

  const NonNumeric := TypeError("unsupported operand type(s)")

  /** `-x + offset`, cell by cell; NaN stays NaN. */
  function Reversed(xs: seq<Option<real>>, offset: real): (r: seq<Option<real>>)
    ensures |r| == |xs|
    ensures forall i :: 0 <= i < |xs| ==> r[i] == if xs[i].Some? then Some(-xs[i].value + offset) else None
  {
    if |xs| == 0 then []
    else [if xs[0].Some? then Some(-xs[0].value + offset) else None] + Reversed(xs[1..], offset)
  }

  /** The non-missing numbers, in order. */
  function Present(xs: seq<Option<real>>): (r: seq<real>)
    ensures |r| <= |xs|
    ensures forall j :: 0 <= j < |r| ==> Some(r[j]) in xs
    ensures (|r| == 0) <==> forall i :: 0 <= i < |xs| ==> xs[i].None?
  {
    if |xs| == 0 then []
    else
      var rest := Present(xs[1..]);
      assert forall i :: 0 < i < |xs| ==> xs[i] == xs[1..][i - 1];
      if xs[0].Some? then [xs[0].value] + rest else rest
  }

  function Sum(rs: seq<real>): real
  {
    if |rs| == 0 then 0.0 else rs[0] + Sum(rs[1..])
  }

  /** `np.nanmean`: the mean of the non-missing numbers, NaN when there are none. */
  function NanMean(xs: seq<Option<real>>): (r: Option<real>)
    ensures r.None? <==> forall i :: 0 <= i < |xs| ==> xs[i].None?
  {
    var ps := Present(xs);
    if |ps| == 0 then None else Some(Sum(ps) / |ps| as real)
  }

  /** `np.nanmax` of a non-empty series: the largest non-missing number, NaN when all are missing. */
  function NanMax(xs: seq<Option<real>>): (r: Option<real>)
    ensures r.None? <==> forall i :: 0 <= i < |xs| ==> xs[i].None?
    ensures r.Some? ==> r in xs && forall i :: 0 <= i < |xs| && xs[i].Some? ==> xs[i].value <= r.value
  {
    if |xs| == 0 then None
    else
      var rest := NanMax(xs[1..]);
      assert forall i :: 0 < i < |xs| ==> xs[i] == xs[1..][i - 1];
      if xs[0].None? then rest
      else if rest.None? || rest.value <= xs[0].value then xs[0]
      else rest
  }

  /** `np.nanmin` of a non-empty series: the smallest non-missing number, NaN when all are missing. */
  function NanMin(xs: seq<Option<real>>): (r: Option<real>)
    ensures r.None? <==> forall i :: 0 <= i < |xs| ==> xs[i].None?
    ensures r.Some? ==> r in xs && forall i :: 0 <= i < |xs| && xs[i].Some? ==> r.value <= xs[i].value
  {
    if |xs| == 0 then None
    else
      var rest := NanMin(xs[1..]);
      assert forall i :: 0 < i < |xs| ==> xs[i] == xs[1..][i - 1];
      if xs[0].None? then rest
      else if rest.None? || xs[0].value <= rest.value then xs[0]
      else rest
  }

  lemma {:induction false} SumBounds(rs: seq<real>, lo: real, hi: real)
    requires forall j :: 0 <= j < |rs| ==> lo <= rs[j] <= hi
    ensures (|rs| as real) * lo <= Sum(rs) <= (|rs| as real) * hi
  {
    if |rs| > 0 {
      SumBounds(rs[1..], lo, hi);
    }
  }

  /** The NaN-aware mean lies between the NaN-aware minimum and maximum. */
  lemma NanMeanBetween(xs: seq<Option<real>>)
    requires NanMean(xs).Some?
    ensures NanMin(xs).value <= NanMean(xs).value <= NanMax(xs).value
  {
    MeanWithin(xs, NanMin(xs).value, NanMax(xs).value);
  }

  lemma MeanWithin(xs: seq<Option<real>>, lo: real, hi: real)
    requires forall i :: 0 <= i < |xs| && xs[i].Some? ==> lo <= xs[i].value <= hi
    requires |Present(xs)| > 0
    ensures lo <= Sum(Present(xs)) / (|Present(xs)| as real) <= hi
  {
    PresentBetween(xs, lo, hi);
    AverageWithin(Present(xs), lo, hi);
  }

  lemma AverageWithin(rs: seq<real>, lo: real, hi: real)
    requires |rs| > 0 && forall j :: 0 <= j < |rs| ==> lo <= rs[j] <= hi
    ensures lo <= Sum(rs) / (|rs| as real) <= hi
  {
    SumBounds(rs, lo, hi);
    QuotientBetween(Sum(rs), |rs| as real, lo, hi);
  }

  lemma {:induction false} PresentBetween(xs: seq<Option<real>>, lo: real, hi: real)
    requires forall i :: 0 <= i < |xs| && xs[i].Some? ==> lo <= xs[i].value <= hi
    ensures forall j :: 0 <= j < |Present(xs)| ==> lo <= Present(xs)[j] <= hi
  {
    if |xs| > 0 {
      assert forall i :: 0 < i < |xs| ==> xs[i] == xs[1..][i - 1];
      PresentBetween(xs[1..], lo, hi);
    }
  }

  lemma QuotientBetween(s: real, n: real, lo: real, hi: real)
    requires n > 0.0 && n * lo <= s <= n * hi
    ensures lo <= s / n <= hi
  {
    assert (s / n) * n == s;
  }

  lemma UnitQuotient(a: real, d: real)
    requires d > 0.0 && 0.0 <= a <= d
    ensures 0.0 <= a / d <= 1.0
    ensures a / d == 0.0 <==> a == 0.0
    ensures a / d == 1.0 <==> a == d
  {
    assert (a / d) * d == a;
  }

  /** `np.max`, which propagates NaN. */
  function PlainMax(xs: seq<Option<real>>): (r: Option<real>)
    requires |xs| > 0
    ensures r.Some? <==> forall i :: 0 <= i < |xs| ==> xs[i].Some?
    ensures r.Some? ==> r in xs && forall i :: 0 <= i < |xs| ==> xs[i].value <= r.value
  {
    if xs[0].None? then None
    else if |xs| == 1 then xs[0]
    else
      var rest := PlainMax(xs[1..]);
      assert forall i :: 0 < i < |xs| ==> xs[i] == xs[1..][i - 1];
      if rest.None? then None
      else if rest.value <= xs[0].value then xs[0]
      else rest
  }

  /** `x - m` cell by cell; NaN on either side gives NaN. */
  function Shifted(xs: seq<Option<real>>, m: Option<real>): (r: seq<Option<real>>)
    ensures |r| == |xs|
    ensures forall i :: 0 <= i < |xs| ==> r[i] == if xs[i].Some? && m.Some? then Some(xs[i].value - m.value) else None
  {
    if |xs| == 0 then []
    else [if xs[0].Some? && m.Some? then Some(xs[0].value - m.value) else None] + Shifted(xs[1..], m)
  }

  /** `out / top`, cell by cell (what each cell becomes is `ScaledAt`). */
  function Scaled(out: seq<Option<real>>, top: real): (r: seq<Option<real>>)
    requires top != 0.0
    ensures |r| == |out|
  {
    if |out| == 0 then []
    else [if out[0].Some? then Some(out[0].value / top) else None] + Scaled(out[1..], top)
  }

  function AllMissing(n: nat): (r: seq<Option<real>>)
    ensures |r| == n && forall i :: 0 <= i < n ==> r[i].None?
  {
    if n == 0 then [] else [None] + AllMissing(n - 1)
  }

  /** The error numpy raises when a maximum is asked of an empty series: a pandas
      series goes through `np.amax`, a plain float array through `np.fmax.reduce`. */
  function EmptyMaxError(kind: Container): Error
  {
    ValueError("zero-size array to reduction operation " + (if kind == SeriesC then "maximum" else "fmax") + " which has no identity")
  }

  /** What `np.max` raises on an empty numpy array. */
  const EmptyArrayMax := ValueError("zero-size array to reduction operation " + "maximum" + " which has no identity")

  /** `out = converted - min; out / np.max(out)`. On a pandas series `np.max` is the
      series' own NaN-skipping maximum, which is NaN for an empty series; on a numpy
      array it propagates NaN and raises on an empty array. A list cannot have a
      number subtracted from it. A NaN maximum makes every cell NaN; a zero maximum
      divides by zero, whose NaN and infinities are all `None` here. */
  function Normalised(kind: Container, xs: seq<Option<real>>, min: Option<real>): (r: Result<seq<Option<real>>, Error>)
    ensures r.Failure? <==> kind.ListC? || (kind.ArrayC? && |xs| == 0)
    ensures r.Failure? ==> r.error == NonNumeric || r.error == EmptyArrayMax
    ensures r.Success? ==> |r.value| == |xs|
  {
    if kind.ListC? then Failure(NonNumeric)
    else if kind.ArrayC? && |xs| == 0 then Failure(EmptyArrayMax)
    else
      var out := Shifted(xs, min);
      var top := if kind.SeriesC? then NanMax(out) else PlainMax(out);
      if top.None? || top.value == 0.0 then Success(AllMissing(|xs|))
      else Success(Scaled(out, top.value))
  }

  /** `y` is where `x` of the range `[lo, hi]` belongs on the unit scale: inside
      [0, 1], at 0 exactly for the minimum and at 1 exactly for the maximum. */
  predicate OnUnitScale(y: Option<real>, x: real, lo: real, hi: real)
  {
    && y.Some? && 0.0 <= y.value <= 1.0
    && (y.value == 0.0 <==> x == lo)
    && (y.value == 1.0 <==> x == hi)
  }

  /** Normalising a complete series (series or array) by its own minimum sends the
      minimum to 0, the maximum to 1 and everything into [0, 1], provided the series
      is not constant. */
  lemma NormalisedEndpoints(kind: Container, xs: seq<Option<real>>)
    requires kind != ListC
    requires |xs| > 0 && forall i :: 0 <= i < |xs| ==> xs[i].Some?
    requires NanMin(xs).value < NanMax(xs).value
    ensures Normalised(kind, xs, NanMin(xs)).Success?
    ensures forall i :: 0 <= i < |xs| ==>
      OnUnitScale(Normalised(kind, xs, NanMin(xs)).value[i], xs[i].value, NanMin(xs).value, NanMax(xs).value)
  {
    var lo, hi := NanMin(xs).value, NanMax(xs).value;
    var top :| 0 <= top < |xs| && xs[top] == NanMax(xs);
    assert forall i :: 0 <= i < |xs| ==> xs[i].Some? && lo <= xs[i].value <= hi;
    NormalisedRange(kind, xs, lo, hi, top);
  }

  lemma NormalisedRange(kind: Container, xs: seq<Option<real>>, lo: real, hi: real, top: nat)
    requires kind != ListC
    requires forall i :: 0 <= i < |xs| ==> xs[i].Some? && lo <= xs[i].value <= hi
    requires lo < hi && top < |xs| && xs[top] == Some(hi)
    ensures Normalised(kind, xs, Some(lo)).Success?
    ensures forall i :: 0 <= i < |xs| ==> OnUnitScale(Normalised(kind, xs, Some(lo)).value[i], xs[i].value, lo, hi)
  {
    ShiftedTop(xs, lo, hi, top);
    NormalisedIsScaled(kind, xs, Some(lo), hi - lo);
    forall i | 0 <= i < |xs|
      ensures OnUnitScale(Scaled(Shifted(xs, Some(lo)), hi - lo)[i], xs[i].value, lo, hi)
    {
      ScaledCellOnUnitScale(xs, lo, hi, i);
    }
  }

  /** On a Series the maximum skips NaN, so the same holds with NaN cells among the
      numbers: every number lands on the unit scale of any bounds `lo < hi` of which
      `hi` is reached (the Series' own minimum and maximum, say), and every NaN stays
      NaN. */
  lemma SeriesRange(xs: seq<Option<real>>, lo: real, hi: real, top: nat)
    requires forall i :: 0 <= i < |xs| && xs[i].Some? ==> lo <= xs[i].value <= hi
    requires lo < hi && top < |xs| && xs[top] == Some(hi)
    ensures Normalised(SeriesC, xs, Some(lo)) == Success(Scaled(Shifted(xs, Some(lo)), hi - lo))
    ensures forall i :: 0 <= i < |xs| && xs[i].Some? ==> OnUnitScale(Normalised(SeriesC, xs, Some(lo)).value[i], xs[i].value, lo, hi)
    ensures forall i :: 0 <= i < |xs| && xs[i].None? ==> Normalised(SeriesC, xs, Some(lo)).value[i].None?
  {
    ShiftedNanTop(xs, lo, hi, top);
    SeriesNormalisedIsScaled(xs, Some(lo), hi - lo);
    var out := Shifted(xs, Some(lo));
    forall i | 0 <= i < |xs|
      ensures xs[i].Some? ==> OnUnitScale(Scaled(out, hi - lo)[i], xs[i].value, lo, hi)
      ensures xs[i].None? ==> Scaled(out, hi - lo)[i].None?
    {
      ScaledAt(out, hi - lo, i);
      if xs[i].Some? {
        ScaledCellOnUnitScale(xs, lo, hi, i);
      }
    }
  }

  /** Shifting numbers by their minimum makes the range the NaN-skipping maximum. */
  lemma ShiftedNanTop(xs: seq<Option<real>>, lo: real, hi: real, top: nat)
    requires forall i :: 0 <= i < |xs| && xs[i].Some? ==> lo <= xs[i].value <= hi
    requires top < |xs| && xs[top] == Some(hi)
    ensures NanMax(Shifted(xs, Some(lo))) == Some(hi - lo)
  {
    var out := Shifted(xs, Some(lo));
    var b := hi - lo;
    forall i | 0 <= i < |out| && out[i].Some?
      ensures out[i].value <= b
    {
      assert out[i] == Some(xs[i].value - lo);
    }
    assert out[top] == Some(b);
    NanMaxIs(out, b, top);
  }

  lemma ScaledCellOnUnitScale(xs: seq<Option<real>>, lo: real, hi: real, i: nat)
    requires lo < hi && i < |xs| && xs[i].Some? && lo <= xs[i].value <= hi
    ensures OnUnitScale(Scaled(Shifted(xs, Some(lo)), hi - lo)[i], xs[i].value, lo, hi)
  {
    ScaledShiftedAt(xs, lo, hi - lo, i);
    UnitCell(Scaled(Shifted(xs, Some(lo)), hi - lo)[i], xs[i].value, lo, hi);
  }

  lemma UnitCell(y: Option<real>, x: real, lo: real, hi: real)
    requires lo < hi && lo <= x <= hi && y == Some((x - lo) / (hi - lo))
    ensures OnUnitScale(y, x, lo, hi)
  {
    UnitQuotient(x - lo, hi - lo);
  }

  /** Once the maximum of `out` is known and non-zero, the result is `out / top`. */
  lemma NormalisedIsScaled(kind: Container, xs: seq<Option<real>>, m: Option<real>, b: real)
    requires kind != ListC && |xs| > 0 && b != 0.0
    requires PlainMax(Shifted(xs, m)) == Some(b) && NanMax(Shifted(xs, m)) == Some(b)
    ensures Normalised(kind, xs, m) == Success(Scaled(Shifted(xs, m), b))
  {
  }

  lemma SeriesNormalisedIsScaled(xs: seq<Option<real>>, m: Option<real>, b: real)
    requires b != 0.0 && NanMax(Shifted(xs, m)) == Some(b)
    ensures Normalised(SeriesC, xs, m) == Success(Scaled(Shifted(xs, m), b))
  {
  }

  lemma {:induction false} ScaledAt(out: seq<Option<real>>, top: real, i: nat)
    requires top != 0.0 && i < |out|
    ensures Scaled(out, top)[i] == if out[i].Some? then Some(out[i].value / top) else None
  {
    if i > 0 {
      ScaledAt(out[1..], top, i - 1);
    }
  }

  lemma ScaledShiftedAt(xs: seq<Option<real>>, lo: real, b: real, i: nat)
    requires b != 0.0 && i < |xs| && xs[i].Some?
    ensures Scaled(Shifted(xs, Some(lo)), b)[i] == Some((xs[i].value - lo) / b)
  {
    var out := Shifted(xs, Some(lo));
    assert out[i] == Some(xs[i].value - lo);
    ScaledAt(out, b, i);
  }

  /** Shifting a complete series by its minimum makes the range its maximum, with
      or without NaN skipping. */
  lemma ShiftedTop(xs: seq<Option<real>>, lo: real, hi: real, top: nat)
    requires forall i :: 0 <= i < |xs| ==> xs[i].Some? && lo <= xs[i].value <= hi
    requires top < |xs| && xs[top] == Some(hi)
    ensures PlainMax(Shifted(xs, Some(lo))) == Some(hi - lo)
    ensures NanMax(Shifted(xs, Some(lo))) == Some(hi - lo)
  {
    var out := Shifted(xs, Some(lo));
    var b := hi - lo;
    forall i | 0 <= i < |out|
      ensures out[i].Some? && out[i].value <= b
    {
      assert out[i] == Some(xs[i].value - lo);
    }
    assert out[top] == Some(b);
    PlainMaxIs(out, b, top);
    NanMaxIs(out, b, top);
  }

  /** A complete series whose cells are all at most `b`, one of them equal to it,
      has maximum `b`. */
  lemma PlainMaxIs(xs: seq<Option<real>>, b: real, top: nat)
    requires forall i :: 0 <= i < |xs| ==> xs[i].Some? && xs[i].value <= b
    requires top < |xs| && xs[top] == Some(b)
    ensures PlainMax(xs) == Some(b)
  {
    var j :| 0 <= j < |xs| && xs[j] == PlainMax(xs);
    assert PlainMax(xs).value == b;
  }

  /** The same for the NaN-skipping maximum, which needs only the present cells
      bounded. */
  lemma NanMaxIs(xs: seq<Option<real>>, b: real, top: nat)
    requires forall i :: 0 <= i < |xs| && xs[i].Some? ==> xs[i].value <= b
    requires top < |xs| && xs[top] == Some(b)
    ensures NanMax(xs) == Some(b)
  {
    var j :| 0 <= j < |xs| && xs[j] == NanMax(xs);
    assert NanMax(xs).value == b;
  }

  /** The maximum that `Normalised` divides by skips NaN on a series ... */
  lemma NormalisedSkipsNanOnSeries()
    ensures Normalised(SeriesC, [Some(1.0), None, Some(3.0)], Some(1.0)) == Success([Some(0.0), None, Some(1.0)])
  {
    var xs := [Some(1.0), None, Some(3.0)];
    ShiftedSkipsNan();
    SeriesNormalisedIsScaled(xs, Some(1.0), 2.0);
    ScaledSkipsNan();
  }

  lemma ShiftedSkipsNan()
    ensures Shifted([Some(1.0), None, Some(3.0)], Some(1.0)) == [Some(0.0), None, Some(2.0)]
    ensures NanMax([Some(0.0), None, Some(2.0)]) == Some(2.0)
  {
    var out := Shifted([Some(1.0), None, Some(3.0)], Some(1.0));
    assert out[0] == Some(0.0) && out[1] == None && out[2] == Some(2.0);
    assert out == [Some(0.0), None, Some(2.0)];
    NanMaxIs(out, 2.0, 2);
  }

  lemma ScaledSkipsNan()
    ensures Scaled([Some(0.0), None, Some(2.0)], 2.0) == [Some(0.0), None, Some(1.0)]
  {
    var out: seq<Option<real>> := [Some(0.0), None, Some(2.0)];
    var r := Scaled(out, 2.0);
    ScaledAt(out, 2.0, 0);
    ScaledAt(out, 2.0, 1);
    ScaledAt(out, 2.0, 2);
    assert r[0] == Some(0.0) && r[1] == None && r[2] == Some(1.0);
  }

  /** ... and propagates it on an array, so one NaN blanks the whole result. */
  lemma NormalisedPropagatesNanOnArray()
    ensures Normalised(ArrayC, [Some(1.0), None, Some(3.0)], Some(1.0)) == Success([None, None, None])
  {
    var out := Shifted([Some(1.0), None, Some(3.0)], Some(1.0));
    assert out[1] == None;
    assert PlainMax(out) == None;
    assert AllMissing(3) == [None, None, None] by {
      assert AllMissing(1) == [None];
      assert AllMissing(2) == [None, None];
    }
  }

  /** numpy's `np.max` on an empty array raises, the series' maximum does not. */
  lemma NormalisedOfEmpty()
    ensures Normalised(ArrayC, [], Some(1.0)).Failure?
    ensures Normalised(SeriesC, [], Some(1.0)) == Success([])
  {
  }

  /** The sum of the squared deviations of `rs` from `m`. */
  function SquaredDeviations(rs: seq<real>, m: real): (r: real)
    ensures r >= 0.0
  {
    if |rs| == 0 then 0.0
    else
      var d := rs[0] - m;
      SquareNonNegative(d);
      d * d + SquaredDeviations(rs[1..], m)
  }

  lemma SquareNonNegative(d: real)
    ensures d * d >= 0.0
  {
    if d < 0.0 {
      assert d * d == (-d) * (-d);
    }
  }

  /** `np.nanvar(xs, ddof=ddof)`: the squared deviations from the NaN-aware mean,
      divided by the number of present values less `ddof`; NaN when that divisor is
      not positive. */
  function NanVar(xs: seq<Option<real>>, ddof: nat): (r: Option<real>)
    ensures r.Some? <==> |Present(xs)| > ddof
    ensures r.Some? ==> r.value >= 0.0
  {
    var ps := Present(xs);
    if |ps| <= ddof then None
    else Some(SquaredDeviations(ps, Sum(ps) / |ps| as real) / (|ps| - ddof) as real)
  }

  /** `np.sqrt` of a number that may be NaN, with the square root supplied by the caller. */
  function Root(sqrt: real -> real, v: Option<real>): Option<real>
  {
    if v.Some? then Some(sqrt(v.value)) else None
  }

  /** `a / b` on numbers that may be NaN; a division by zero (an infinity or a NaN) is `None`. */
  function Quotient(a: Option<real>, b: Option<real>): (r: Option<real>)
    ensures r.Some? <==> a.Some? && b.Some? && b.value != 0.0
    ensures r.Some? ==> r.value * b.value == a.value
  {
    if a.Some? && b.Some? && b.value != 0.0 then Some(a.value / b.value) else None
  }

  /** `(converted - mean) / std`, cell by cell. */
  function Standardised(xs: seq<Option<real>>, mean: Option<real>, std: Option<real>): (r: seq<Option<real>>)
    ensures |r| == |xs|
    ensures forall i :: 0 <= i < |xs| ==> r[i] == Quotient(Shifted(xs, mean)[i], std)
  {
    var out := Shifted(xs, mean);
    seq(|xs|, i requires 0 <= i < |xs| => Quotient(out[i], std))
  }

  /** `np.nanmean(values, axis=1)` of the item-by-respondent columns: for every
      respondent, the mean of the items that are not missing. */
  function RowMeans(cols: seq<seq<Option<real>>>, n: nat): (r: seq<Option<real>>)
    requires forall c :: c in cols ==> |c| == n
    ensures |r| == n
  {
    seq(n, row requires 0 <= row < n => NanMean(Row(cols, n, row)))
  }

  /** One respondent's values across the items. */
  function Row(cols: seq<seq<Option<real>>>, n: nat, row: nat): (r: seq<Option<real>>)
    requires forall c :: c in cols ==> |c| == n
    requires row < n
    ensures |r| == |cols|
  {
    seq(|cols|, i requires 0 <= i < |cols| => assert cols[i] in cols; cols[i][row])
  }

  /** A respondent's group value is missing exactly when every item is missing for
      them, and lies between their smallest and largest item value otherwise. */
  lemma RowMeanMeaning(cols: seq<seq<Option<real>>>, n: nat, row: nat)
    requires forall c :: c in cols ==> |c| == n
    requires row < n
    ensures RowMeans(cols, n)[row].None? <==> forall i :: 0 <= i < |cols| ==> cols[i][row].None?
    ensures RowMeans(cols, n)[row].Some? ==>
      forall i :: 0 <= i < |cols| && cols[i][row].Some? ==>
        NanMin(Row(cols, n, row)).value <= RowMeans(cols, n)[row].value <= NanMax(Row(cols, n, row)).value
  {
    var xs := Row(cols, n, row);
    assert forall i :: 0 <= i < |cols| ==> xs[i] == cols[i][row];
    if NanMean(xs).Some? {
      NanMeanBetween(xs);
    }
  }
}
