/** Survey items (`itemie/core/item.py`). An item reads one column of a response
    table, passes it through its converter, and keeps two sets of slots: the fitted
    ones (written by `fit`) and the current ones (written by `transform`). A
    NumericItem also keeps statistics of the fitted numbers; a PhraseCount keeps
    the phrase counts of the current column. */
module Items {
  import opened Wrappers
  import opened Values
  import Convert
  import Stats
  import Linearise
  import Phrases

  /** The item classes and what each adds to BaseItem's constructor. BaseItem and
      Item behave alike (`Plain`); a NumericItem may have a reverse offset; a
      PhraseCount may have a vocabulary (its `seq` argument). */
  datatype Kind =
    | Plain
    | MultiCoded
    | Numeric(reverseOffset: Option<real>)
    | PhraseCount(vocab: Option<seq<Value>>)

  /** The constructor arguments of an item. */
  datatype Spec = Spec(name: string, key: string, converter: Option<Convert.Converter>, text: Option<string>, kind: Kind)

  /** What `_sem` is computed from: the NaN-aware variance with one degree of
      freedom removed, and the number of cells of the fitted series. */
  datatype Sem = Sem(sampleVariance: Option<real>, size: nat)

  /** An item's instance attributes. `raw` starts as `None`; every other slot
      starts unassigned, and reading it raises AttributeError. `variance` holds
      the square of `_std`. */
  datatype ItemState = ItemState(
    rawFitted: Slot<Column>,
    convertedFitted: Slot<Column>,
    raw: Option<Column>,
    converted: Slot<Column>,
    mean: Slot<Option<real>>,
    variance: Slot<Option<real>>,
    max: Slot<Option<real>>,
    min: Slot<Option<real>>,
    sem: Slot<Sem>,
    counts: Slot<Phrases.Tally>)

  const Initial := ItemState(Unset, Unset, None, Unset, Unset, Unset, Unset, Unset, Unset, Unset)

  /** The three operations that read a table into an item. */
  datatype Op = Fit | Transform | FitTransform

  /** What an item hands back from `values`: Python's `None`, a column, a float
      series (standardised or normalised), or a PhraseCount's counts. */
  datatype View = NoneView | Cells(col: Column) | Floats(xs: seq<Option<real>>) | Counts(tally: Phrases.Tally)

  const UnaryMinusOnList := TypeError("bad operand type for unary -: 'list'")

  // ---- reading and converting a column ----

  /** `_convert`: the column itself without a converter. */
  function ConvertWith(converter: Option<Convert.Converter>, series: Column): Result<Column, Error>
  {
    if converter.None? then Success(series) else Convert.Convert(converter.value, series)
  }

  /** `get_raw` followed by `_convert`. */
  function Pull(sp: Spec, df: Table): (r: Result<(Column, Column), Error>)
    ensures r.Success? ==> sp.key in df && r.value.0 == Column(SeriesC, df[sp.key])
    ensures r.Success? ==> Success(r.value.1) == ConvertWith(sp.converter, r.value.0)
    ensures sp.key !in df ==> r == Failure(KeyError(Str(sp.key)))
  {
    var raw :- GetColumn(df, sp.key);
    var converted :- ConvertWith(sp.converter, raw);
    Success((raw, converted))
  }

  // ---- the hooks ----

  /** `_post_fit`. A NumericItem negates and offsets the numbers when it has a
      reverse offset, then sets the mean and the standard deviation, then the
      maximum, which raises on an empty series (leaving the maximum, the minimum and
      the standard error as they were), then the minimum and the standard error. */
  function PostFitStep(kind: Kind, s: ItemState, converted: Column): (ItemState, Outcome<Error>)
  {
    match kind
    case Numeric(offset) =>
      if offset.Some? && converted.kind.ListC? then (s, Fail(UnaryMinusOnList))
      else if Stats.Numbers(converted.values).Failure? then (s, Fail(Stats.Numbers(converted.values).error))
      else
        var xs := Stats.Numbers(converted.values).value;
        Summarise(s, if offset.Some? then Stats.Reversed(xs, offset.value) else xs, converted.kind)
    case _ => (s, Pass)
  }

  /** The statistics `_post_fit` records, in its order: mean and spread first, so
      that an empty series, on which `nanmax` raises, leaves those two set. */
  function Summarise(s: ItemState, ys: seq<Option<real>>, kind: Container): (ItemState, Outcome<Error>)
  {
    var s1 := s.(mean := Set(Stats.NanMean(ys)), variance := Set(Stats.NanVar(ys, 0)));
    if |ys| == 0 then (s1, Fail(Stats.EmptyMaxError(kind)))
    else (s1.(max := Set(Stats.NanMax(ys)), min := Set(Stats.NanMin(ys)), sem := Set(Sem(Stats.NanVar(ys, 1), |ys|))), Pass)
  }

  /** `_post_transform`. A NumericItem with a reverse offset computes the reversed
      series and drops it, which can only raise; a PhraseCount counts its phrases. */
  function PostTransformStep(kind: Kind, s: ItemState, transformed: Column): (ItemState, Outcome<Error>)
  {
    match kind
    case Numeric(offset) =>
      if offset.None? then (s, Pass)
      else if transformed.kind.ListC? then (s, Fail(UnaryMinusOnList))
      else if Stats.Numbers(transformed.values).Failure? then (s, Fail(Stats.Numbers(transformed.values).error))
      else (s, Pass)
    case PhraseCount(vocab) =>
      var c := Phrases.Counted(vocab, transformed.values);
      if c.Failure? then (s, Fail(c.error)) else (s.(counts := Set(c.value)), Pass)
    case _ => (s, Pass)
  }

  // ---- fit, transform, fit_transform ----

  function FitStep(sp: Spec, s: ItemState, df: Table): (ItemState, Outcome<Error>)
  {
    match Pull(sp, df)
    case Failure(e) => (s, Fail(e))
    case Success((raw, converted)) =>
      PostFitStep(sp.kind, s.(rawFitted := Set(raw), convertedFitted := Set(converted)), converted)
  }

  function TransformStep(sp: Spec, s: ItemState, df: Table): (ItemState, Result<Column, Error>)
  {
    match Pull(sp, df)
    case Failure(e) => (s, Failure(e))
    case Success((raw, converted)) =>
      var (s1, o) := PostTransformStep(sp.kind, s.(raw := Some(raw), converted := Set(converted)), converted);
      (s1, if o.Fail? then Failure(o.error) else Success(s1.converted.value))
  }

  /** `fit_transform` reads and converts the column once, then runs both halves. */
  function FitTransformStep(sp: Spec, s: ItemState, df: Table): (ItemState, Result<Column, Error>)
  {
    match Pull(sp, df)
    case Failure(e) => (s, Failure(e))
    case Success((raw, converted)) =>
      var (s1, o1) := PostFitStep(sp.kind, s.(rawFitted := Set(raw), convertedFitted := Set(converted)), converted);
      if o1.Fail? then (s1, Failure(o1.error))
      else
        var (s2, o2) := PostTransformStep(sp.kind, s1.(raw := Some(raw), converted := Set(converted)), converted);
        (s2, if o2.Fail? then Failure(o2.error) else Success(converted))
  }

  /** Any of the three operations, with what it returns: `fit` returns `None`,
      the other two the converted column. */
  function Run(op: Op, sp: Spec, s: ItemState, df: Table): (ItemState, Result<Option<Column>, Error>)
  {
    match op
    case Fit =>
      var (t, o) := FitStep(sp, s, df);
      (t, if o.Fail? then Failure(o.error) else Success(None))
    case Transform =>
      var (t, r) := TransformStep(sp, s, df);
      (t, if r.Failure? then Failure(r.error) else Success(Some(r.value)))
    case FitTransform =>
      var (t, r) := FitTransformStep(sp, s, df);
      (t, if r.Failure? then Failure(r.error) else Success(Some(r.value)))
  }

  // ---- reading an item ----

  /** Reading an instance attribute. */
  function Attribute<T>(slot: Slot<T>, attr: string): (r: Result<T, Error>)
    ensures r.Success? <==> slot.Set?
    ensures slot.Set? ==> r.value == slot.value
    ensures slot.Unset? ==> r == Failure(AttributeError(attr))
  {
    if slot.Set? then Success(slot.value) else Failure(AttributeError(attr))
  }

  /** `str(typ)`. */
  function TypText(typ: Option<string>): string
  {
    if typ.Some? then typ.value else "None"
  }

  /** The `typ` arguments an item's `values` understands. */
  function Accepted(kind: Kind): set<string>
  {
    match kind
    case Numeric(_) => {"raw", "default", "converted", "standardised", "normalised"}
    case PhraseCount(_) => {"raw", "default", "converted", "counts"}
    case _ => {"raw", "default", "converted"}
  }

  function NotUnderstood(sp: Spec, typ: Option<string>): Error
  {
    ValueError("Item " + sp.name + " — typ not understood:" + TypText(typ))
  }

  lemma NotUnderstoodIsNotEmptyMax(sp: Spec, typ: Option<string>)
    ensures NotUnderstood(sp, typ) != Stats.EmptyArrayMax
  {
    assert Stats.EmptyArrayMax.msg[0] == 'z';
    assert NotUnderstood(sp, typ).msg[0] == 'I';
  }

  /** BaseItem's `values`. */
  function BaseValues(sp: Spec, s: ItemState, typ: Option<string>): Result<View, Error>
  {
    if typ == Some("raw") then Success(if s.raw.Some? then Cells(s.raw.value) else NoneView)
    else if typ == Some("default") || typ == Some("converted") then
      var c :- Attribute(s.converted, "_converted");
      Success(Cells(c))
    else Failure(NotUnderstood(sp, typ))
  }

  /** NumericItem's `standardised`: the current converted numbers less the fitted
      mean, over the fitted standard deviation. The square root is supplied. */
  function StandardisedOf(s: ItemState, sqrt: real -> real): Result<View, Error>
  {
    var c :- Attribute(s.converted, "_converted");
    var mean :- Attribute(s.mean, "_mean");
    var xs :- if c.kind.ListC? then Failure(Stats.NonNumeric) else Stats.Numbers(c.values);
    var variance :- Attribute(s.variance, "_std");
    Success(Floats(Stats.Standardised(xs, mean, Stats.Root(sqrt, variance))))
  }

  /** NumericItem's `normalised`: the current converted numbers, not reversed,
      against the fitted minimum, which is the minimum of the reversed numbers. */
  function NormalisedOf(s: ItemState): Result<View, Error>
  {
    var c :- Attribute(s.converted, "_converted");
    var min :- Attribute(s.min, "_min");
    var xs :- Stats.Numbers(c.values);
    var out :- Stats.Normalised(c.kind, xs, min);
    Success(Floats(out))
  }

  /** `values(typ)`, dispatched on the item's class. */
  function ValuesOf(sp: Spec, s: ItemState, typ: Option<string>, sqrt: real -> real): (r: Result<View, Error>)
    ensures r == Failure(NotUnderstood(sp, typ)) <==> typ.None? || typ.value !in Accepted(sp.kind)
    ensures typ == Some("raw") ==> r == Success(if s.raw.Some? then Cells(s.raw.value) else NoneView)
    ensures typ == Some("converted") ==> r == (if s.converted.Set? then Success(Cells(s.converted.value)) else Failure(AttributeError("_converted")))
    ensures typ == Some("counts") && sp.kind.PhraseCount? ==> r == (if s.counts.Set? then Success(Counts(s.counts.value)) else Failure(AttributeError("_counts")))
  {
    match sp.kind
    case Numeric(_) =>
      if typ == Some("default") || typ == Some("standardised") then StandardisedOf(s, sqrt)
      else if typ == Some("normalised") then
        NotUnderstoodIsNotEmptyMax(sp, typ);
        NormalisedOf(s)
      else BaseValues(sp, s, typ)
    case PhraseCount(_) =>
      if typ == Some("default") || typ == Some("counts") then
        var t :- Attribute(s.counts, "_counts");
        Success(Counts(t))
      else BaseValues(sp, s, typ)
    case _ => BaseValues(sp, s, typ)
  }

  /** `len(values)`. */
  function Len(v: View): (r: Result<nat, Error>)
  {
    match v
    case NoneView => Failure(TypeError("object of type 'NoneType' has no len()"))
    case Cells(c) => Success(|c.values|)
    case Floats(xs) => Success(|xs|)
    case Counts(t) => Success(|t.keys|)
  }

  /** `size`: the length of the raw column, or of the converted one for a NumericItem. */
  function SizeOf(sp: Spec, s: ItemState): (r: Result<nat, Error>)
  {
    if sp.kind.Numeric? then
      var c :- Attribute(s.converted, "_converted");
      Success(|c.values|)
    else if s.raw.None? then Failure(TypeError("object of type 'NoneType' has no len()"))
    else Success(|s.raw.value.values|)
  }

  /** `data_dict(typ, match_size)`: the item's values under its name, or nothing
      when sizes are to match and do not. A MultiCodedItem would add its wide coding
      table, which `set_coded` never gets to build (see `SetCodedFails`). */
  function DataDictOf(sp: Spec, s: ItemState, typ: Option<string>, matchSize: bool, sqrt: real -> real): (r: Result<map<string, View>, Error>)
    ensures ValuesOf(sp, s, typ, sqrt).Failure? ==> r == Failure(ValuesOf(sp, s, typ, sqrt).error)
    ensures !matchSize && ValuesOf(sp, s, typ, sqrt).Success? ==> r == Success(map[sp.name := ValuesOf(sp, s, typ, sqrt).value])
    ensures r.Success? ==>
      var v := ValuesOf(sp, s, typ, sqrt).value;
      && (r.value == map[] || r.value == map[sp.name := v])
      && (r.value == map[] <==> matchSize && Len(v) != SizeOf(sp, s))
  {
    var v :- ValuesOf(sp, s, typ, sqrt);
    if matchSize then
      var n :- Len(v);
      var size :- SizeOf(sp, s);
      if n != size then Success(map[])
      else
        assert sp.name in map[sp.name := v];
        Success(map[sp.name := v])
    else
      assert sp.name in map[sp.name := v];
      Success(map[sp.name := v])
  }

  /** The `mean`, `min` and `max` properties, which only a NumericItem has. */
  function MeanOf(sp: Spec, s: ItemState): Result<Option<real>, Error>
  {
    if sp.kind.Numeric? then Attribute(s.mean, "_mean") else Failure(AttributeError("mean"))
  }

  function MinOf(sp: Spec, s: ItemState): Result<Option<real>, Error>
  {
    if sp.kind.Numeric? then Attribute(s.min, "_min") else Failure(AttributeError("min"))
  }

  function MaxOf(sp: Spec, s: ItemState): Result<Option<real>, Error>
  {
    if sp.kind.Numeric? then Attribute(s.max, "_max") else Failure(AttributeError("max"))
  }

  const StatLabels := ["mean", "std", "min", "max", "sem", "ci95"]

  /** `x * c` on a number that may be NaN. */
  function Times(x: Option<real>, c: real): Option<real>
  {
    if x.Some? then Some(x.value * c) else None
  }

  /** NumericItem's `stats()`: the labels and, in the same order, the mean, the
      standard deviation, the minimum, the maximum, the standard error and 1.95996
      standard errors. */
  function StatsOf(sp: Spec, s: ItemState, sqrt: real -> real): (r: Result<(seq<string>, seq<Option<real>>), Error>)
    ensures r.Success? ==> sp.kind.Numeric? && r.value.0 == StatLabels && |r.value.1| == |StatLabels|
    ensures r.Success? ==> && s.mean == Set(r.value.1[0]) && s.min == Set(r.value.1[2]) && s.max == Set(r.value.1[3])
    ensures r.Success? ==> r.value.1[5] == Times(r.value.1[4], 1.95996)
  {
    if !sp.kind.Numeric? then Failure(AttributeError("stats"))
    else
      var mean :- Attribute(s.mean, "_mean");
      var variance :- Attribute(s.variance, "_std");
      var min :- Attribute(s.min, "_min");
      var max :- Attribute(s.max, "_max");
      var sem :- Attribute(s.sem, "_sem");
      var se := Stats.Quotient(Stats.Root(sqrt, sem.sampleVariance), Some(sqrt(sem.size as real)));
      Success((StatLabels, [mean, Stats.Root(sqrt, variance), min, max, se, Times(se, 1.95996)]))
  }

  // ---- MultiCodedItem ----

  /** `linearised(data)`: the given data, or the current converted column. */
  function LinearisedOf(sp: Spec, s: ItemState, data: Option<Column>): Result<Linearise.Linear, Error>
  {
    if !sp.kind.MultiCoded? then Failure(AttributeError("linearised"))
    else
      var d :- if data.Some? then Success(data.value) else Attribute(s.converted, "_converted");
      Linearise.Linearised(d)
  }

  /** The check `set_coded` makes before it pivots: the coding table (given by
      the length of its `index` column, `None` when it has none) must have one row
      per linearised code. */
  function CodingCheck(name: string, lin: Linearise.Linear, index: Option<nat>): (r: Outcome<Error>)
    ensures r.Pass? <==> index == Some(|lin.mapping|)
    ensures index.None? ==> r == Fail(KeyError(Str("index")))
    ensures index.Some? && index.value != |lin.mapping| ==>
      r == Fail(ValueError("Coding DataFrame is the wrong length for item " + name + "."))
  {
    if index.None? then Fail(KeyError(Str("index")))
    else if |lin.mapping| != index.value then Fail(ValueError("Coding DataFrame is the wrong length for item " + name + "."))
    else Pass
  }

  /** `set_coded` up to its length check (what follows it is a pandas pivot). */
  function SetCodedOf(sp: Spec, s: ItemState, index: Option<nat>): Outcome<Error>
  {
    if !sp.kind.MultiCoded? then Fail(AttributeError("set_coded"))
    else
      match LinearisedOf(sp, s, None)
      case Failure(e) => Fail(e)
      case Success(lin) => CodingCheck(sp.name, lin, index)
  }

  /** Every column an item holds came from a table or a converter, so none is a Python list. */
  predicate Reachable(s: ItemState)
  {
    && (s.rawFitted.Set? ==> s.rawFitted.value.kind == SeriesC)
    && (s.raw.Some? ==> s.raw.value.kind == SeriesC)
    && (s.convertedFitted.Set? ==> !s.convertedFitted.value.kind.ListC?)
    && (s.converted.Set? ==> !s.converted.value.kind.ListC?)
  }

  // ---- the item object ----

  class Item {
    const spec: Spec
    var rawFitted: Slot<Column>
    var convertedFitted: Slot<Column>
    var raw: Option<Column>
    var converted: Slot<Column>
    var mean: Slot<Option<real>>
    var variance: Slot<Option<real>>
    var max: Slot<Option<real>>
    var min: Slot<Option<real>>
    var sem: Slot<Sem>
    var counts: Slot<Phrases.Tally>

    function State(): ItemState
      reads this
    {
      ItemState(rawFitted, convertedFitted, raw, converted, mean, variance, max, min, sem, counts)
    }

    constructor (spec: Spec)
      ensures this.spec == spec && State() == Initial
    {
      this.spec := spec;
      rawFitted, convertedFitted, raw, converted := Unset, Unset, None, Unset;
      mean, variance, max, min, sem, counts := Unset, Unset, Unset, Unset, Unset, Unset;
    }

    /** `_convert`. */
    method ConvertSeries(series: Column) returns (r: Result<Column, Error>)
      ensures r == ConvertWith(spec.converter, series)
    {
      if spec.converter.None? {
        r := Success(series);
      } else {
        r := Convert.Run(spec.converter.value, series);
      }
    }

    method PostFit(converted: Column) returns (r: Outcome<Error>)
      modifies this
      ensures (State(), r) == PostFitStep(spec.kind, old(State()), converted)
    {
      if spec.kind.Numeric? {
        r := PostFitNumbers(converted);
      } else {
        r := Pass;
      }
    }

    /** The NumericItem half of `_post_fit`. */
    method PostFitNumbers(converted: Column) returns (r: Outcome<Error>)
      requires spec.kind.Numeric?
      modifies this
      ensures (State(), r) == PostFitStep(spec.kind, old(State()), converted)
    {
      var offset := spec.kind.reverseOffset;
      if offset.Some? && converted.kind.ListC? {
        return Fail(UnaryMinusOnList);
      }
      var xs := Stats.Numbers(converted.values);
      if xs.Failure? {
        return Fail(xs.error);
      }
      var ys := if offset.Some? then Stats.Reversed(xs.value, offset.value) else xs.value;
      r := Record(ys, converted.kind);
    }

    /** The statistics of the fitted numbers `ys`, field by field. */
    method Record(ys: seq<Option<real>>, kind: Container) returns (r: Outcome<Error>)
      modifies this
      ensures (State(), r) == Summarise(old(State()), ys, kind)
    {
      ghost var s1 := old(State()).(mean := Set(Stats.NanMean(ys)), variance := Set(Stats.NanVar(ys, 0)));
      mean := Set(Stats.NanMean(ys));
      variance := Set(Stats.NanVar(ys, 0));
      assert State() == s1;
      if |ys| == 0 {
        return Fail(Stats.EmptyMaxError(kind));
      }
      max := Set(Stats.NanMax(ys));
      min := Set(Stats.NanMin(ys));
      sem := Set(Sem(Stats.NanVar(ys, 1), |ys|));
      assert State() == s1.(max := Set(Stats.NanMax(ys)), min := Set(Stats.NanMin(ys)), sem := Set(Sem(Stats.NanVar(ys, 1), |ys|)));
      r := Pass;
    }

    method PostTransform(transformed: Column) returns (r: Outcome<Error>)
      modifies this
      ensures (State(), r) == PostTransformStep(spec.kind, old(State()), transformed)
    {
      match spec.kind
      case Numeric(offset) =>
        if offset.Some? {
          if transformed.kind.ListC? {
            return Fail(UnaryMinusOnList);
          }
          var xs := Stats.Numbers(transformed.values);
          if xs.Failure? {
            return Fail(xs.error);
          }
          var dropped := Stats.Reversed(xs.value, offset.value);
        }
        r := Pass;
      case PhraseCount(vocab) =>
        var c := Phrases.Count(vocab, transformed.values);
        if c.Failure? {
          return Fail(c.error);
        }
        counts := Set(c.value);
        r := Pass;
      case Plain => r := Pass;
      case MultiCoded => r := Pass;
    }

    method Fit(df: Table) returns (r: Outcome<Error>)
      modifies this
      ensures (State(), r) == FitStep(spec, old(State()), df)
    {
      var raw := GetColumn(df, spec.key);
      if raw.Failure? {
        return Fail(raw.error);
      }
      var converted := ConvertSeries(raw.value);
      if converted.Failure? {
        return Fail(converted.error);
      }
      rawFitted := Set(raw.value);
      convertedFitted := Set(converted.value);
      r := PostFit(converted.value);
    }

    method Transform(df: Table) returns (r: Result<Column, Error>)
      modifies this
      ensures (State(), r) == TransformStep(spec, old(State()), df)
    {
      var raw := GetColumn(df, spec.key);
      if raw.Failure? {
        return Failure(raw.error);
      }
      var converted := ConvertSeries(raw.value);
      if converted.Failure? {
        return Failure(converted.error);
      }
      this.raw := Some(raw.value);
      this.converted := Set(converted.value);
      var o := PostTransform(converted.value);
      if o.Fail? {
        return Failure(o.error);
      }
      r := Success(this.converted.value);
    }

    method FitTransform(df: Table) returns (r: Result<Column, Error>)
      modifies this
      ensures (State(), r) == FitTransformStep(spec, old(State()), df)
    {
      var raw := GetColumn(df, spec.key);
      if raw.Failure? {
        return Failure(raw.error);
      }
      var converted := ConvertSeries(raw.value);
      if converted.Failure? {
        return Failure(converted.error);
      }
      rawFitted := Set(raw.value);
      convertedFitted := Set(converted.value);
      var o := PostFit(converted.value);
      if o.Fail? {
        return Failure(o.error);
      }
      this.raw := Some(raw.value);
      this.converted := Set(converted.value);
      o := PostTransform(converted.value);
      if o.Fail? {
        return Failure(o.error);
      }
      r := Success(converted.value);
    }

    /** Any of the three operations. */
    method Apply(op: Op, df: Table) returns (r: Result<Option<Column>, Error>)
      modifies this
      ensures (State(), r) == Run(op, spec, old(State()), df)
    {
      match op
      case Fit =>
        var o := Fit(df);
        r := if o.Fail? then Failure(o.error) else Success(None);
      case Transform =>
        var c := Transform(df);
        r := if c.Failure? then Failure(c.error) else Success(Some(c.value));
      case FitTransform =>
        var c := FitTransform(df);
        r := if c.Failure? then Failure(c.error) else Success(Some(c.value));
    }

    function Values(typ: Option<string>, sqrt: real -> real): Result<View, Error>
      reads this
    {
      ValuesOf(spec, State(), typ, sqrt)
    }

    function DataDict(typ: Option<string>, matchSize: bool, sqrt: real -> real): Result<map<string, View>, Error>
      reads this
    {
      DataDictOf(spec, State(), typ, matchSize, sqrt)
    }

    function Size(): Result<nat, Error>
      reads this
    {
      SizeOf(spec, State())
    }

    function StatsRow(sqrt: real -> real): Result<(seq<string>, seq<Option<real>>), Error>
      reads this
    {
      StatsOf(spec, State(), sqrt)
    }

    function Linearised(data: Option<Column>): Result<Linearise.Linear, Error>
      reads this
    {
      LinearisedOf(spec, State(), data)
    }

    function SetCoded(index: Option<nat>): Outcome<Error>
      reads this
    {
      SetCodedOf(spec, State(), index)
    }
  }
}
