/** Converters: the pluggable value transforms an item applies between its raw
    column and its converted column (`itemie/core/convert.py`). */
module Convert {
  import opened Wrappers
  import opened Values

  /** The converter classes of the core. `Function` wraps a Python callable, which
      may raise; `Pipeline` holds its stages in order. */
  datatype Converter =
    | BaseConverter
    | Replacer(keyvals: map<Value, Value>)
    | Function(func: Value -> Result<Value, Error>)
    | Pipeline(stages: seq<Converter>)

  /** `[dct[k] for k in data]`: looks every cell up, raising at the first cell that
      is a list or an array row (TypeError: unhashable) or is not a key (KeyError). */
  function Replace(keyvals: map<Value, Value>, data: seq<Value>): (r: Result<seq<Value>, Error>)
    ensures r.Success? <==> forall i :: 0 <= i < |data| ==> !Unhashable(data[i]) && data[i] in keyvals
    ensures r.Success? ==> |r.value| == |data| && forall i :: 0 <= i < |data| ==> r.value[i] == keyvals[data[i]]
    ensures r.Failure? ==>
      exists j :: 0 <= j < |data| &&
        (if Unhashable(data[j]) then r.error == HashError(data[j])
         else data[j] !in keyvals && r.error == KeyError(data[j])) &&
        forall i :: 0 <= i < j ==> !Unhashable(data[i]) && data[i] in keyvals
  {
    if |data| == 0 then Success([])
    else if Unhashable(data[0]) then Failure(HashError(data[0]))
    else if data[0] !in keyvals then Failure(KeyError(data[0]))
    else
      match Replace(keyvals, data[1..])
      case Failure(e) =>
        assert forall i :: 0 < i < |data| ==> data[i] == data[1..][i - 1];
        Failure(e)
      case Success(rest) => Success([keyvals[data[0]]] + rest)
  }

  /** `[func(val) for val in data]`: applies the callable to every cell, in order,
      letting the first exception through. */
  function Apply(func: Value -> Result<Value, Error>, data: seq<Value>): (r: Result<seq<Value>, Error>)
    ensures r.Success? <==> forall i :: 0 <= i < |data| ==> func(data[i]).Success?
    ensures r.Success? ==> |r.value| == |data| && forall i :: 0 <= i < |data| ==> r.value[i] == func(data[i]).value
    ensures r.Failure? ==>
      exists j :: 0 <= j < |data| && func(data[j]).Failure? && r.error == func(data[j]).error &&
        forall i :: 0 <= i < j ==> func(data[i]).Success?
  {
    if |data| == 0 then Success([])
    else
      match func(data[0])
      case Failure(e) => Failure(e)
      case Success(v) =>
        match Apply(func, data[1..])
        case Failure(e) =>
          assert forall i :: 0 < i < |data| ==> data[i] == data[1..][i - 1];
          Failure(e)
        case Success(rest) => Success([v] + rest)
  }

  // ---- `np.array(results)` ----

  /** No result is a list or an array row: numpy builds a one-dimensional array. */
  predicate Flat(vs: seq<Value>)
  {
    forall i :: 0 <= i < |vs| ==> !Unhashable(vs[i])
  }

  /** Every result is a list or an array row, all of one length: numpy builds a
      two-dimensional array whose rows are the results. */
  predicate Rectangular(vs: seq<Value>)
  {
    |vs| > 0 && Unhashable(vs[0]) && forall i :: 0 <= i < |vs| ==> Unhashable(vs[i]) && |vs[i].elems| == |vs[0].elems|
  }

  predicate AnyStr(vs: seq<Value>)
  {
    exists i :: 0 <= i < |vs| && vs[i].Str?
  }

  /** Some element of some row is a string. */
  predicate AnyStrInRows(vs: seq<Value>)
  {
    exists i, k :: 0 <= i < |vs| && Unhashable(vs[i]) && 0 <= k < |vs[i].elems| && vs[i].elems[k].Str?
  }

  /** A float as numpy stores it in an array of strings: its `str`. */
  function AsText(v: Value): Value
  {
    match v
    case Num(x) => Str(FloatText(x))
    case Missing => Str("nan")
    case _ => v
  }

  /** The cells as one numpy array holds them: all of them as text once one is text. */
  function Stored(vs: seq<Value>, textual: bool): (r: seq<Value>)
    ensures |r| == |vs|
    ensures !textual ==> r == vs
    ensures textual ==> forall i :: 0 <= i < |vs| ==> r[i] == AsText(vs[i])
  {
    if textual then seq(|vs|, i requires 0 <= i < |vs| => AsText(vs[i])) else vs
  }

  /** `np.array(vs)`: a one-dimensional array of the results, a two-dimensional one
      when they are lists of one length, and ValueError when they are lists of
      different lengths or lists beside other values. An array holding a string
      holds only strings. */
  function ArrayOf(vs: seq<Value>): (r: Result<Column, Error>)
    ensures r.Success? <==> Flat(vs) || Rectangular(vs)
    ensures r.Failure? ==> r.error == Ragged
    ensures r.Success? ==> r.value.kind == ArrayC && |r.value.values| == |vs|
    ensures Flat(vs) && !AnyStr(vs) ==> r.value.values == vs
    ensures Flat(vs) && AnyStr(vs) ==> forall i :: 0 <= i < |vs| ==>
      r.value.values[i].Str? && (vs[i].Str? ==> r.value.values[i] == vs[i]) &&
      (vs[i].Num? ==> r.value.values[i] == Str(FloatText(vs[i].x)))
    ensures Rectangular(vs) && !Flat(vs) ==> forall i :: 0 <= i < |vs| ==>
      r.value.values[i].Arr? && |r.value.values[i].elems| == |vs[i].elems|
  {
    if Flat(vs) then Success(Column(ArrayC, Stored(vs, AnyStr(vs))))
    else if Rectangular(vs) then
      var textual := AnyStrInRows(vs);
      Success(Column(ArrayC, seq(|vs|, i requires 0 <= i < |vs| => Arr(Stored(vs[i].elems, textual)))))
    else Failure(Ragged)
  }

  /** `converter.convert(data)`. The base class raises NotImplementedError; the
      element-wise converters build a fresh numpy array of their results; a pipeline returns what its
      last stage returned, or its input itself when it has no stages. */
  function Convert(c: Converter, data: Column): Result<Column, Error>
    decreases c, 1
  {
    match c
    case BaseConverter => Failure(NotImplementedError)
    case Replacer(keyvals) =>
      var vs :- Replace(keyvals, data.values);
      ArrayOf(vs)
    case Function(func) =>
      var vs :- Apply(func, data.values);
      ArrayOf(vs)
    case Pipeline(stages) => ConvertPrefix(c, |stages|, data)
  }

  /** What a pipeline's loop holds after its first `k` stages. */
  function ConvertPrefix(p: Converter, k: nat, data: Column): Result<Column, Error>
    requires p.Pipeline? && k <= |p.stages|
    decreases p, 0, k
  {
    if k == 0 then Success(data)
    else
      var mid :- ConvertPrefix(p, k - 1, data);
      Convert(p.stages[k - 1], mid)
  }

  /** Runs a converter the way the Python objects do: element-wise converters by a
      comprehension, a pipeline by feeding each stage's output to the next stage. */
  method Run(c: Converter, data: Column) returns (r: Result<Column, Error>)
    ensures r == Convert(c, data)
    decreases c
  {
    match c
    case BaseConverter =>
      r := Failure(NotImplementedError);
    case Replacer(keyvals) =>
      var vs := Replace(keyvals, data.values);
      r := if vs.Failure? then Failure(vs.error) else ArrayOf(vs.value);
    case Function(func) =>
      var vs := Apply(func, data.values);
      r := if vs.Failure? then Failure(vs.error) else ArrayOf(vs.value);
    case Pipeline(stages) =>
      var transformed := data;
      var i := 0;
      while i < |stages|
        invariant 0 <= i <= |stages|
        invariant ConvertPrefix(c, i, data) == Success(transformed)
      {
        assert stages[i] in stages;
        var next := Run(stages[i], transformed);
        if next.Failure? {
          assert ConvertPrefix(c, i + 1, data) == next;
          PrefixFailureSticks(c, i + 1, |stages|, data);
          return next;
        }
        transformed := next.value;
        i := i + 1;
      }
      r := Success(transformed);
  }

  /** Once a stage raises, the pipeline raises that same exception. */
  lemma {:induction false} PrefixFailureSticks(p: Converter, i: nat, k: nat, data: Column)
    requires p.Pipeline? && i <= k <= |p.stages|
    requires ConvertPrefix(p, i, data).Failure?
    ensures ConvertPrefix(p, k, data) == ConvertPrefix(p, i, data)
    decreases k
  {
    if k > i {
      PrefixFailureSticks(p, i, k - 1, data);
    }
  }

  /** A converter that succeeds returns one cell per input cell. */
  lemma {:induction false} ConvertKeepsLength(c: Converter, data: Column)
    ensures Convert(c, data).Success? ==> |Convert(c, data).value.values| == |data.values|
    decreases c, 1
  {
    match c
    case BaseConverter =>
    case Replacer(_) =>
    case Function(_) =>
    case Pipeline(stages) => PrefixKeepsLength(c, |stages|, data);
  }

  lemma {:induction false} PrefixKeepsLength(p: Converter, k: nat, data: Column)
    requires p.Pipeline? && k <= |p.stages|
    ensures ConvertPrefix(p, k, data).Success? ==> |ConvertPrefix(p, k, data).value.values| == |data.values|
    decreases p, 0, k
  {
    if k > 0 {
      PrefixKeepsLength(p, k - 1, data);
      var mid := ConvertPrefix(p, k - 1, data);
      if mid.Success? {
        ConvertKeepsLength(p.stages[k - 1], mid.value);
      }
    }
  }

  /** A converter that succeeds returns a numpy array, or its input's own container
      when every stage it runs is an empty pipeline. */
  lemma {:induction false} ConvertContainer(c: Converter, data: Column)
    ensures Convert(c, data).Success? ==>
      Convert(c, data).value.kind == ArrayC || Convert(c, data).value.kind == data.kind
    decreases c, 1
  {
    match c
    case BaseConverter =>
    case Replacer(_) =>
    case Function(_) =>
    case Pipeline(stages) => PrefixContainer(c, |stages|, data);
  }

  lemma {:induction false} PrefixContainer(p: Converter, k: nat, data: Column)
    requires p.Pipeline? && k <= |p.stages|
    ensures ConvertPrefix(p, k, data).Success? ==>
      ConvertPrefix(p, k, data).value.kind == ArrayC || ConvertPrefix(p, k, data).value.kind == data.kind
    decreases p, 0, k
  {
    if k > 0 {
      PrefixContainer(p, k - 1, data);
      var mid := ConvertPrefix(p, k - 1, data);
      if mid.Success? {
        ConvertContainer(p.stages[k - 1], mid.value);
      }
    }
  }

  /** Feeding a result on to a further converter, stopping at an exception. */
  function Then(r: Result<Column, Error>, c: Converter): Result<Column, Error>
  {
    match r
    case Failure(e) => Failure(e)
    case Success(mid) => Convert(c, mid)
  }

  /** A pipeline of `first + second` is the pipeline `first` followed by the
      pipeline `second`: stages run left to right. */
  lemma {:induction false} PipelineAppend(first: seq<Converter>, second: seq<Converter>, data: Column)
    ensures Convert(Pipeline(first + second), data) == Then(Convert(Pipeline(first), data), Pipeline(second))
  {
    PrefixAppend(first, second, |second|, data);
    assert second[..|second|] == second;
  }

  lemma {:induction false} PrefixAppend(first: seq<Converter>, second: seq<Converter>, k: nat, data: Column)
    requires k <= |second|
    ensures ConvertPrefix(Pipeline(first + second), |first| + k, data)
         == Then(Convert(Pipeline(first), data), Pipeline(second[..k]))
  {
    var p := Pipeline(first + second);
    if k == 0 {
      assert p.stages[..|first|] == first == Pipeline(first).stages[..|first|];
      PrefixOfSame(p, Pipeline(first), |first|, data);
      assert second[..0] == [];
      match Convert(Pipeline(first), data)
      case Failure(_) =>
      case Success(mid) =>
        assert Convert(Pipeline([]), mid) == ConvertPrefix(Pipeline([]), 0, mid) == Success(mid);
    } else {
      PrefixAppend(first, second, k - 1, data);
      assert p.stages[|first| + k - 1] == second[k - 1];
      PrefixOfSame(Pipeline(second[..k]), Pipeline(second[..k - 1]), k - 1, data);
      match Convert(Pipeline(first), data)
      case Failure(_) =>
      case Success(mid) =>
        var q, q' := Pipeline(second[..k]), Pipeline(second[..k - 1]);
        PrefixOfSame(q, q', k - 1, mid);
        assert q.stages[k - 1] == second[k - 1];
        assert Convert(q', mid) == ConvertPrefix(q', k - 1, mid);
        assert Convert(q, mid) == ConvertPrefix(q, k, mid);
    }
  }

  /** Two pipelines whose first `k` stages agree agree after those `k` stages. */
  lemma {:induction false} PrefixOfSame(p: Converter, q: Converter, k: nat, data: Column)
    requires p.Pipeline? && q.Pipeline? && k <= |p.stages| && k <= |q.stages|
    requires p.stages[..k] == q.stages[..k]
    ensures ConvertPrefix(p, k, data) == ConvertPrefix(q, k, data)
  {
    if k > 0 {
      assert p.stages[..k - 1] == q.stages[..k - 1] by {
        assert p.stages[..k - 1] == p.stages[..k][..k - 1];
        assert q.stages[..k - 1] == q.stages[..k][..k - 1];
      }
      assert p.stages[k - 1] == p.stages[..k][k - 1];
      PrefixOfSame(p, q, k - 1, data);
    }
  }

  /** An empty pipeline hands back its input unchanged. */
  lemma EmptyPipelineIsIdentity(data: Column)
    ensures Convert(Pipeline([]), data) == Success(data)
  {
  }

  /** `Pipeline(c1, c2).convert(x) == c2.convert(c1.convert(x))`. */
  lemma {:induction false} TwoStagePipeline(c1: Converter, c2: Converter, data: Column)
    ensures Convert(Pipeline([c1, c2]), data) == Then(Convert(c1, data), c2)
  {
    var p := Pipeline([c1, c2]);
    assert p.stages[0] == c1 && p.stages[1] == c2;
    assert ConvertPrefix(p, 1, data) == Convert(c1, data);
    match Convert(c1, data)
    case Failure(_) =>
    case Success(mid) =>
  }

  /** The repository's replacement example: apples become 1.0 and pears 2.0. */
  lemma ReplacerExample()
    ensures Convert(Replacer(map[Str("apple") := Num(1.0), Str("pear") := Num(2.0)]),
                    Column(SeriesC, [Str("apple"), Str("pear"), Str("apple"), Str("apple"), Str("pear")]))
         == Success(Column(ArrayC, [Num(1.0), Num(2.0), Num(1.0), Num(1.0), Num(2.0)]))
  {
    var keyvals := map[Str("apple") := Num(1.0), Str("pear") := Num(2.0)];
    var data := [Str("apple"), Str("pear"), Str("apple"), Str("apple"), Str("pear")];
    var r := Replace(keyvals, data);
    assert forall i :: 0 <= i < |data| ==> data[i] in keyvals;
    assert r.value == [Num(1.0), Num(2.0), Num(1.0), Num(1.0), Num(2.0)];
  }

  /** There is no fallback bucket: an unmapped cell raises KeyError naming it. */
  lemma ReplacerHasNoFallback()
    ensures Convert(Replacer(map[Str("apple") := Num(1.0)]), Column(SeriesC, [Str("apple"), Str("kiwi")]))
         == Failure(KeyError(Str("kiwi")))
  {
  }

  /** Results mixing floats and strings come back as strings: numpy picks one
      string dtype for the whole array. */
  lemma ReplacerMixedResultsAreText()
    ensures Convert(Replacer(map[Str("a") := Num(1.0), Str("b") := Str("x")]), Column(SeriesC, [Str("a"), Str("b")]))
         == Success(Column(ArrayC, [Str("1.0"), Str("x")]))
  {
    var keyvals, data, vs := map[Str("a") := Num(1.0), Str("b") := Str("x")], [Str("a"), Str("b")], [Num(1.0), Str("x")];
    var r := Replace(keyvals, data);
    assert forall i :: 0 <= i < |data| ==> !Unhashable(data[i]) && data[i] in keyvals;
    assert r.value[0] == vs[0] && r.value[1] == vs[1];
    assert r.value == vs;
    assert AnyStr(vs) by { assert vs[1].Str?; }
    assert Flat(vs);
    FloatTextWhole();
    var a := ArrayOf(vs);
    assert a.value.values == Stored(vs, true);
    assert a.value.values[0] == Str("1.0") && a.value.values[1] == Str("x");
    assert a.value.values == [Str("1.0"), Str("x")];
  }

  /** A list cell is not a dict key. */
  lemma ReplacerRefusesLists()
    ensures Convert(Replacer(map[Str("a") := Num(1.0)]), Column(SeriesC, [Str("a"), List([Str("a")])]))
         == Failure(TypeError("unhashable type: 'list'"))
  {
  }

  /** Results that are lists of one length become the rows of a two-dimensional array. */
  lemma FunctionListsBecomeRows()
    ensures Convert(Function(v => Success(List([v, v]))), Column(SeriesC, [Num(1.0), Num(2.0)]))
         == Success(Column(ArrayC, [Arr([Num(1.0), Num(1.0)]), Arr([Num(2.0), Num(2.0)])]))
  {
    var f: Value -> Result<Value, Error> := v => Success(List([v, v]));
    var data, vs := [Num(1.0), Num(2.0)], [List([Num(1.0), Num(1.0)]), List([Num(2.0), Num(2.0)])];
    var r := Apply(f, data);
    assert forall i :: 0 <= i < |data| ==> f(data[i]).Success?;
    assert r.value[0] == vs[0] && r.value[1] == vs[1];
    assert r.value == vs;
    assert !Flat(vs) by { assert Unhashable(vs[0]); }
    assert Rectangular(vs);
    assert !AnyStrInRows(vs);
    var a := ArrayOf(vs);
    assert a.value.values[0] == Arr(vs[0].elems) && a.value.values[1] == Arr(vs[1].elems);
    assert a.value.values == [Arr([Num(1.0), Num(1.0)]), Arr([Num(2.0), Num(2.0)])];
  }

  /** Lists of different lengths make numpy raise. */
  lemma FunctionRaggedResults()
    ensures Convert(Function(v => if v == Num(1.0) then Success(List([v])) else Success(List([]))),
                    Column(SeriesC, [Num(1.0), Num(2.0)]))
         == Failure(Ragged)
  {
    var f: Value -> Result<Value, Error> := v => if v == Num(1.0) then Success(List([v])) else Success(List([]));
    var data, vs := [Num(1.0), Num(2.0)], [List([Num(1.0)]), List([])];
    var r := Apply(f, data);
    assert forall i :: 0 <= i < |data| ==> f(data[i]).Success?;
    assert r.value[0] == vs[0] && r.value[1] == vs[1];
    assert r.value == vs;
    assert !Flat(vs) by { assert Unhashable(vs[0]); }
    assert !Rectangular(vs) by { assert |vs[1].elems| != |vs[0].elems|; }
  }
}
