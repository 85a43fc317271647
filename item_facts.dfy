/** What the item operations of `itemie/core/item.py` promise, stated over the
    step functions of module Items. */
module ItemFacts {
  import opened Wrappers
  import opened Values
  import Convert
  import Stats
  import Linearise
  import Phrases
  import opened Items

  /** `fit_transform` leaves the item as `fit` followed by `transform` would, and
      returns what `transform` would; when the fitting half raises, it stops there. */
  lemma FitTransformIsFitThenTransform(sp: Spec, s: ItemState, df: Table)
    ensures FitTransformStep(sp, s, df) ==
      if FitStep(sp, s, df).1.Fail? then (FitStep(sp, s, df).0, Failure(FitStep(sp, s, df).1.error))
      else TransformStep(sp, FitStep(sp, s, df).0, df)
  {
    var f := FitStep(sp, s, df);
    if Pull(sp, df).Success? && f.1.Pass? {
      var (raw, converted) := Pull(sp, df).value;
      var s0 := s.(rawFitted := Set(raw), convertedFitted := Set(converted));
      assert f == PostFitStep(sp.kind, s0, converted);
    }
  }

  /** `fit` writes the fitted slots and the statistics only. */
  lemma FitLeavesCurrentSlots(sp: Spec, s: ItemState, df: Table)
    ensures var t := FitStep(sp, s, df).0;
      t.raw == s.raw && t.converted == s.converted && t.counts == s.counts
  {
  }

  /** `transform` writes the current slots and the counts only. */
  lemma TransformLeavesFittedSlots(sp: Spec, s: ItemState, df: Table)
    ensures var t := TransformStep(sp, s, df).0;
      && t.rawFitted == s.rawFitted && t.convertedFitted == s.convertedFitted
      && t.mean == s.mean && t.variance == s.variance && t.min == s.min && t.max == s.max && t.sem == s.sem
  {
  }

  /** A `transform` that returns stores the table's column as `raw` and the
      converted column (never the reversed one) as `converted`, and returns it. */
  lemma TransformStoresConverted(sp: Spec, s: ItemState, df: Table)
    requires TransformStep(sp, s, df).1.Success?
    ensures Pull(sp, df).Success?
    ensures var (t, r) := TransformStep(sp, s, df);
      && t.raw == Some(Column(SeriesC, df[sp.key]))
      && t.converted == Set(r.value)
      && Success(r.value) == ConvertWith(sp.converter, Column(SeriesC, df[sp.key]))
  {
  }

  /** A `fit_transform` that returns fills both sets of slots with the same raw and
      converted columns, and returns the converted one. */
  lemma FitTransformFillsBoth(sp: Spec, s: ItemState, df: Table)
    requires FitTransformStep(sp, s, df).1.Success?
    ensures Pull(sp, df).Success?
    ensures var (t, r) := FitTransformStep(sp, s, df);
      && t.rawFitted == Set(Column(SeriesC, df[sp.key])) && t.raw == Some(Column(SeriesC, df[sp.key]))
      && t.convertedFitted == Set(r.value) && t.converted == Set(r.value)
      && Success(r.value) == ConvertWith(sp.converter, Column(SeriesC, df[sp.key]))
  {
    var (raw, converted) := Pull(sp, df).value;
    var s0 := s.(rawFitted := Set(raw), convertedFitted := Set(converted));
    var s1 := PostFitStep(sp.kind, s0, converted).0;
    assert s1.rawFitted == Set(raw) && s1.convertedFitted == Set(converted);
  }

  /** Without a converter the converted column is the raw column. */
  lemma NoConverterKeepsRaw(sp: Spec, s: ItemState, df: Table)
    requires sp.converter.None? && FitTransformStep(sp, s, df).1.Success?
    ensures var (t, r) := FitTransformStep(sp, s, df);
      r.value == Column(SeriesC, df[sp.key]) && t.raw == Some(r.value) && t.converted == Set(r.value)
  {
    FitTransformFillsBoth(sp, s, df);
  }

  /** Running an operation twice leaves the item as running it once, with the
      same answer: every slot it writes is a function of the table alone. */
  lemma RunIdempotent(op: Op, sp: Spec, s: ItemState, df: Table)
    ensures Run(op, sp, Run(op, sp, s, df).0, df) == Run(op, sp, s, df)
  {
    match op
    case Fit => FitIdempotent(sp, s, df);
    case Transform => TransformIdempotent(sp, s, df);
    case FitTransform =>
      FitTransformIsFitThenTransform(sp, s, df);
      FitTransformIsFitThenTransform(sp, FitTransformStep(sp, s, df).0, df);
      FitIdempotent(sp, s, df);
      var f := FitStep(sp, s, df).0;
      if FitStep(sp, s, df).1.Pass? {
        FitAfterTransform(sp, f, df);
        TransformIdempotent(sp, f, df);
        AnswerIgnoresState(sp, s, TransformStep(sp, f, df).0, df);
      }
  }

  lemma FitIdempotent(sp: Spec, s: ItemState, df: Table)
    ensures FitStep(sp, FitStep(sp, s, df).0, df) == FitStep(sp, s, df)
  {
  }

  lemma TransformIdempotent(sp: Spec, s: ItemState, df: Table)
    ensures TransformStep(sp, TransformStep(sp, s, df).0, df) == TransformStep(sp, s, df)
  {
  }

  /** Fitting again after a transform that followed a fit changes nothing the
      transform did not already leave as the fit left it. */
  lemma FitAfterTransform(sp: Spec, f: ItemState, df: Table)
    requires FitStep(sp, f, df).0 == f
    ensures FitStep(sp, TransformStep(sp, f, df).0, df).0 == TransformStep(sp, f, df).0
    ensures FitStep(sp, TransformStep(sp, f, df).0, df).1 == FitStep(sp, f, df).1
  {
  }

  /** Whether fit, transform or fit_transform raises depends on the table and the
      item's constructor arguments only. */
  lemma AnswerIgnoresState(sp: Spec, s1: ItemState, s2: ItemState, df: Table)
    ensures FitStep(sp, s1, df).1 == FitStep(sp, s2, df).1
    ensures TransformStep(sp, s1, df).1 == TransformStep(sp, s2, df).1
    ensures FitTransformStep(sp, s1, df).1 == FitTransformStep(sp, s2, df).1
  {
  }

  lemma RunAnswerIgnoresState(op: Op, sp: Spec, s1: ItemState, s2: ItemState, df: Table)
    ensures Run(op, sp, s1, df).1 == Run(op, sp, s2, df).1
  {
    AnswerIgnoresState(sp, s1, s2, df);
  }

  /** The numbers a NumericItem's statistics are taken over: reversed when it has
      a reverse offset. */
  function FitNumbers(offset: Option<real>, xs: seq<Option<real>>): (r: seq<Option<real>>)
    ensures |r| == |xs|
  {
    if offset.Some? then Stats.Reversed(xs, offset.value) else xs
  }

  /** A NumericItem's fit sets the mean, minimum and maximum of the (reversed)
      fitted numbers; every present number lies between the minimum and the
      maximum, and so does the mean. */
  lemma NumericFitStatistics(sp: Spec, s: ItemState, df: Table)
    requires sp.kind.Numeric? && FitStep(sp, s, df).1.Pass?
    ensures Pull(sp, df).Success? && Stats.Numbers(Pull(sp, df).value.1.values).Success?
    ensures var t, ys := FitStep(sp, s, df).0, FitNumbers(sp.kind.reverseOffset, Stats.Numbers(Pull(sp, df).value.1.values).value);
      && |ys| > 0
      && t.mean == Set(Stats.NanMean(ys)) && t.min == Set(Stats.NanMin(ys)) && t.max == Set(Stats.NanMax(ys))
      && (forall i :: 0 <= i < |ys| && ys[i].Some? ==> Stats.NanMin(ys).value <= ys[i].value <= Stats.NanMax(ys).value)
      && (Stats.NanMean(ys).Some? ==> Stats.NanMin(ys).value <= Stats.NanMean(ys).value <= Stats.NanMax(ys).value)
  {
    var ys := FitNumbers(sp.kind.reverseOffset, Stats.Numbers(Pull(sp, df).value.1.values).value);
    if Stats.NanMean(ys).Some? {
      Stats.NanMeanBetween(ys);
    }
  }

  /** A fit on an empty numeric column raises after setting the mean and the
      standard deviation, and leaves the maximum and minimum as they were. */
  lemma NumericFitOfEmptyColumn(sp: Spec, s: ItemState, df: Table)
    requires sp.kind.Numeric? && Pull(sp, df).Success? && Pull(sp, df).value.1 == Column(SeriesC, [])
    ensures var (t, o) := FitStep(sp, s, df);
      && o == Fail(Stats.EmptyMaxError(SeriesC))
      && t.mean == Set(None) && t.variance == Set(None)
      && t.max == s.max && t.min == s.min && t.sem == s.sem
  {
  }

  /** A PhraseCount's transform stores the counts of the converted column. */
  lemma PhraseCountTransform(sp: Spec, s: ItemState, df: Table)
    requires sp.kind.PhraseCount? && TransformStep(sp, s, df).1.Success?
    ensures var (t, r) := TransformStep(sp, s, df);
      && Phrases.Counted(sp.kind.vocab, r.value.values).Success?
      && t.counts == Set(Phrases.Counted(sp.kind.vocab, r.value.values).value)
  {
  }

  /** `values("default")` is the converted column for a base item, the
      standardised numbers for a NumericItem and the counts for a PhraseCount. */
  lemma DefaultValues(sp: Spec, s: ItemState, sqrt: real -> real)
    ensures (sp.kind.Plain? || sp.kind.MultiCoded?) ==> ValuesOf(sp, s, Some("default"), sqrt) == ValuesOf(sp, s, Some("converted"), sqrt)
    ensures sp.kind.Numeric? ==> ValuesOf(sp, s, Some("default"), sqrt) == ValuesOf(sp, s, Some("standardised"), sqrt)
    ensures sp.kind.PhraseCount? ==> ValuesOf(sp, s, Some("default"), sqrt) == ValuesOf(sp, s, Some("counts"), sqrt)
  {
  }

  // ---- MultiCodedItem.set_coded ----

  lemma InitialReachable()
    ensures Reachable(Initial)
  {
  }

  /** The hooks never touch the stored columns. */
  lemma HooksKeepColumns(kind: Kind, s: ItemState, c: Column)
    ensures var t := PostFitStep(kind, s, c).0;
      t.rawFitted == s.rawFitted && t.raw == s.raw && t.convertedFitted == s.convertedFitted && t.converted == s.converted
    ensures var t := PostTransformStep(kind, s, c).0;
      t.rawFitted == s.rawFitted && t.raw == s.raw && t.convertedFitted == s.convertedFitted && t.converted == s.converted
  {
  }

  /** The raw column is a Series, and the converted one is never a list. */
  lemma PulledKinds(sp: Spec, df: Table)
    requires Pull(sp, df).Success?
    ensures Pull(sp, df).value.0.kind == SeriesC && !Pull(sp, df).value.1.kind.ListC?
  {
    var (raw, converted) := Pull(sp, df).value;
    if sp.converter.Some? {
      Convert.ConvertContainer(sp.converter.value, raw);
    }
  }

  /** No operation ever stores a Python list in an item. */
  lemma RunKeepsReachable(op: Op, sp: Spec, s: ItemState, df: Table)
    requires Reachable(s)
    ensures Reachable(Run(op, sp, s, df).0)
  {
    if Pull(sp, df).Success? {
      PulledKinds(sp, df);
      var (raw, converted) := Pull(sp, df).value;
      var f := s.(rawFitted := Set(raw), convertedFitted := Set(converted));
      HooksKeepColumns(sp.kind, f, converted);
      var t := s.(raw := Some(raw), converted := Set(converted));
      HooksKeepColumns(sp.kind, t, converted);
      var f1 := PostFitStep(sp.kind, f, converted).0;
      HooksKeepColumns(sp.kind, f1.(raw := Some(raw), converted := Set(converted)), converted);
    }
  }

  /** `set_coded` on its own converted column always raises before its length
      check: that column is a Series or a numpy array, never the list that
      `linearised` demands. So `_df_wide` is never set and `data_dict` never grows. */
  lemma SetCodedFails(sp: Spec, s: ItemState, index: Option<nat>)
    requires Reachable(s)
    ensures SetCodedOf(sp, s, index).Fail?
    ensures var e := SetCodedOf(sp, s, index).error;
      e.AttributeError? || (s.converted.Set? && e == ValueError("Data is not a list: " + TypeName(s.converted.value.kind)))
  {
  }

  /** Given a list, `linearised` would pass the check exactly when the coding
      table has one row per code. */
  lemma CodingCheckOnList(name: string, data: seq<Value>, index: nat)
    requires Linearise.Flatten(data).Success?
    ensures CodingCheck(name, Linearise.Flatten(data).value, Some(index)).Pass? <==> index == Linearise.TotalLength(data)
  {
    Linearise.FlattenLength(data);
  }

  // ---- the fixture of test/core/test_item.py ----

  function Row3(a: real, b: real, c: real): seq<Value>
  {
    [Num(a), Num(b), Num(c)]
  }

  /** Columns a, b, c and d of the three-row table. */
  function Fixture(): Table
  {
    map["a" := Row3(1.0, 2.0, 1.0), "b" := Row3(2.0, 3.0, 2.0), "c" := Row3(3.0, 4.0, 3.0), "d" := Row3(4.0, 5.0, 4.0)]
  }

  /** `BaseItem(name="banana", key="b").fit_transform(df)` returns [2, 3, 2] and
      leaves the same column as raw and converted. */
  lemma BananaExample()
    ensures var (t, r) := FitTransformStep(Spec("banana", "b", None, None, Plain), Initial, Fixture());
      && r == Success(Column(SeriesC, Row3(2.0, 3.0, 2.0)))
      && t.raw == Some(r.value) && t.converted == Set(r.value)
  {
    var df := Fixture();
    assert "b" in df && df["b"] == Row3(2.0, 3.0, 2.0);
  }

  /** The numbers of the column [2, 3, 2]. */
  lemma BananaNumbers()
    ensures Stats.Numbers(Row3(2.0, 3.0, 2.0)) == Success([Some(2.0), Some(3.0), Some(2.0)])
  {
    var vs := Row3(2.0, 3.0, 2.0);
    assert forall i :: 0 <= i < |vs| ==> vs[i].Num?;
    assert Stats.Numbers(vs).Success?;
    var r := Stats.Numbers(vs).value;
    assert |r| == 3;
    assert r[0] == Some(2.0) && r[1] == Some(3.0) && r[2] == Some(2.0);
    var want: seq<Option<real>> := [Some(2.0), Some(3.0), Some(2.0)];
    assert r == want;
  }

  /** `NumericItem(name="banana", key="b")` after fit_transform: mean 7/3, minimum 2,
      maximum 3, and normalised values [0, 1, 0]. */
  lemma NumericBananaExample()
    ensures var (t, r) := FitTransformStep(Spec("banana", "b", None, None, Numeric(None)), Initial, Fixture());
      && r == Success(Column(SeriesC, Row3(2.0, 3.0, 2.0)))
      && t.mean == Set(Some(7.0 / 3.0)) && t.min == Set(Some(2.0)) && t.max == Set(Some(3.0))
      && NormalisedOf(t) == Success(Floats([Some(0.0), Some(1.0), Some(0.0)]))
  {
    var df := Fixture();
    var col := Column(SeriesC, Row3(2.0, 3.0, 2.0));
    assert "b" in df && df["b"] == Row3(2.0, 3.0, 2.0);
    var sp := Spec("banana", "b", None, None, Numeric(None));
    assert Pull(sp, df) == Success((col, col));
    var s0 := Initial.(rawFitted := Set(col), convertedFitted := Set(col));
    NumericBananaFit(s0);
    var s1 := PostFitStep(sp.kind, s0, col).0;
    var t := s1.(raw := Some(col), converted := Set(col));
    assert FitTransformStep(sp, Initial, df) == (t, Success(col));
    NumericBananaNormalised(t);
  }

  /** `_post_fit` of a NumericItem on the column [2, 3, 2]. */
  lemma NumericBananaFit(s: ItemState)
    ensures var (t, o) := PostFitStep(Numeric(None), s, Column(SeriesC, Row3(2.0, 3.0, 2.0)));
      && o == Pass
      && t.mean == Set(Some(7.0 / 3.0)) && t.min == Set(Some(2.0)) && t.max == Set(Some(3.0))
  {
    BananaNumbers();
    FitOfNumbers(None, s, Column(SeriesC, Row3(2.0, 3.0, 2.0)), [Some(2.0), Some(3.0), Some(2.0)]);
    BananaStatistics();
  }

  /** A NumericItem's `_post_fit` on a column of numbers: it sets all five
      statistics of the (possibly reversed) numbers and passes. */
  lemma FitOfNumbers(offset: Option<real>, s: ItemState, col: Column, xs: seq<Option<real>>)
    requires !col.kind.ListC? && Stats.Numbers(col.values) == Success(xs) && |xs| > 0
    ensures var ys := if offset.Some? then Stats.Reversed(xs, offset.value) else xs;
      PostFitStep(Numeric(offset), s, col) ==
        (s.(mean := Set(Stats.NanMean(ys)), variance := Set(Stats.NanVar(ys, 0)),
            max := Set(Stats.NanMax(ys)), min := Set(Stats.NanMin(ys)), sem := Set(Sem(Stats.NanVar(ys, 1), |ys|))), Pass)
  {
  }

  /** The normalised view of a state holding the column [2, 3, 2] and the minimum 2. */
  lemma NumericBananaNormalised(t: ItemState)
    requires t.converted == Set(Column(SeriesC, Row3(2.0, 3.0, 2.0))) && t.min == Set(Some(2.0))
    ensures NormalisedOf(t) == Success(Floats([Some(0.0), Some(1.0), Some(0.0)]))
  {
    BananaNumbers();
    BananaNormalised();
    NormalisedOfSeries(t, [Some(2.0), Some(3.0), Some(2.0)]);
  }

  lemma BananaStatistics()
    ensures Stats.NanMean([Some(2.0), Some(3.0), Some(2.0)]) == Some(7.0 / 3.0)
    ensures Stats.NanMin([Some(2.0), Some(3.0), Some(2.0)]) == Some(2.0)
    ensures Stats.NanMax([Some(2.0), Some(3.0), Some(2.0)]) == Some(3.0)
  {
    var xs: seq<Option<real>> := [Some(2.0), Some(3.0), Some(2.0)];
    assert xs[1..] == [Some(3.0), Some(2.0)] && xs[1..][1..] == [Some(2.0)] && |xs[1..][1..][1..]| == 0;
    assert Stats.Present(xs) == [2.0, 3.0, 2.0];
    var ps: seq<real> := [2.0, 3.0, 2.0];
    assert ps[1..] == [3.0, 2.0] && ps[1..][1..] == [2.0] && |ps[1..][1..][1..]| == 0;
    assert Stats.Sum(ps) == 7.0;
  }

  lemma BananaNormalised()
    ensures Stats.Normalised(SeriesC, [Some(2.0), Some(3.0), Some(2.0)], Some(2.0)) == Success([Some(0.0), Some(1.0), Some(0.0)])
  {
    BananaShifted();
    UnitScaled();
  }

  /** Shifting [2, 3, 2] by its minimum gives [0, 1, 0], whose largest cell is 1. */
  lemma BananaShifted()
    ensures Stats.Shifted([Some(2.0), Some(3.0), Some(2.0)], Some(2.0)) == [Some(0.0), Some(1.0), Some(0.0)]
    ensures Stats.NanMax([Some(0.0), Some(1.0), Some(0.0)]) == Some(1.0)
  {
    var xs: seq<Option<real>> := [Some(2.0), Some(3.0), Some(2.0)];
    var unit: seq<Option<real>> := [Some(0.0), Some(1.0), Some(0.0)];
    var out := Stats.Shifted(xs, Some(2.0));
    assert out[0] == Some(0.0) && out[1] == Some(1.0) && out[2] == Some(0.0);
    assert out == unit;
    assert Stats.NanMax(unit).value >= unit[1].value;
  }

  lemma UnitScaled()
    ensures Stats.Scaled([Some(0.0), Some(1.0), Some(0.0)], 1.0) == [Some(0.0), Some(1.0), Some(0.0)]
  {
    var unit: seq<Option<real>> := [Some(0.0), Some(1.0), Some(0.0)];
    assert unit[1..] == [Some(1.0), Some(0.0)] && unit[1..][1..] == [Some(0.0)] && |unit[1..][1..][1..]| == 0;
  }

  /** With `reverse_offset=6` the statistics are those of [4, 3, 4]: mean 11/3,
      minimum 3 and maximum 4, while the converted column stays [2, 3, 2]; the
      normalised view then subtracts the reversed minimum from the unreversed
      values, giving [-1, 0, -1] with maximum 0, and divides by that 0: numpy's
      [-inf, nan, -inf], which is `None` in every cell here. */
  lemma ReversedBananaExample()
    ensures var (t, r) := FitTransformStep(Spec("banana", "b", None, None, Numeric(Some(6.0))), Initial, Fixture());
      && r == Success(Column(SeriesC, Row3(2.0, 3.0, 2.0)))
      && t.mean == Set(Some(11.0 / 3.0)) && t.min == Set(Some(3.0)) && t.max == Set(Some(4.0))
      && NormalisedOf(t) == Success(Floats([None, None, None]))
  {
    var df := Fixture();
    var col := Column(SeriesC, Row3(2.0, 3.0, 2.0));
    assert "b" in df && df["b"] == Row3(2.0, 3.0, 2.0);
    var sp := Spec("banana", "b", None, None, Numeric(Some(6.0)));
    assert Pull(sp, df) == Success((col, col));
    var s0 := Initial.(rawFitted := Set(col), convertedFitted := Set(col));
    ReversedBananaFit(s0);
    var s1 := PostFitStep(sp.kind, s0, col).0;
    BananaNumbers();
    var t := s1.(raw := Some(col), converted := Set(col));
    assert PostTransformStep(sp.kind, t, col) == (t, Pass);
    assert FitTransformStep(sp, Initial, df) == (t, Success(col));
    ReversedBananaNormalised(t);
  }

  lemma ReversedBananaFit(s: ItemState)
    ensures var (t, o) := PostFitStep(Numeric(Some(6.0)), s, Column(SeriesC, Row3(2.0, 3.0, 2.0)));
      && o == Pass
      && t.mean == Set(Some(11.0 / 3.0)) && t.min == Set(Some(3.0)) && t.max == Set(Some(4.0))
  {
    BananaNumbers();
    FitOfNumbers(Some(6.0), s, Column(SeriesC, Row3(2.0, 3.0, 2.0)), [Some(2.0), Some(3.0), Some(2.0)]);
    BananaReversed();
    ReversedStatistics();
  }

  lemma BananaReversed()
    ensures Stats.Reversed([Some(2.0), Some(3.0), Some(2.0)], 6.0) == [Some(4.0), Some(3.0), Some(4.0)]
  {
    var xs: seq<Option<real>> := [Some(2.0), Some(3.0), Some(2.0)];
    var ys := Stats.Reversed(xs, 6.0);
    var want: seq<Option<real>> := [Some(4.0), Some(3.0), Some(4.0)];
    assert ys[0] == Some(4.0) && ys[1] == Some(3.0) && ys[2] == Some(4.0);
    assert ys == want;
  }

  lemma ReversedStatistics()
    ensures Stats.NanMean([Some(4.0), Some(3.0), Some(4.0)]) == Some(11.0 / 3.0)
    ensures Stats.NanMin([Some(4.0), Some(3.0), Some(4.0)]) == Some(3.0)
    ensures Stats.NanMax([Some(4.0), Some(3.0), Some(4.0)]) == Some(4.0)
  {
    var xs: seq<Option<real>> := [Some(4.0), Some(3.0), Some(4.0)];
    assert xs[1..] == [Some(3.0), Some(4.0)] && xs[1..][1..] == [Some(4.0)] && |xs[1..][1..][1..]| == 0;
    assert Stats.Present(xs) == [4.0, 3.0, 4.0];
    var ps: seq<real> := [4.0, 3.0, 4.0];
    assert ps[1..] == [3.0, 4.0] && ps[1..][1..] == [4.0] && |ps[1..][1..][1..]| == 0;
    assert Stats.Sum(ps) == 11.0;
  }

  lemma ReversedBananaNormalised(t: ItemState)
    requires t.converted == Set(Column(SeriesC, Row3(2.0, 3.0, 2.0))) && t.min == Set(Some(3.0))
    ensures NormalisedOf(t) == Success(Floats([None, None, None]))
  {
    BananaNumbers();
    ReversedBananaScaled();
    NormalisedOfSeries(t, [Some(2.0), Some(3.0), Some(2.0)]);
  }

  /** The normalised view of a series column is numpy's normalisation of its numbers. */
  lemma NormalisedOfSeries(t: ItemState, xs: seq<Option<real>>)
    requires t.converted.Set? && t.converted.value.kind == SeriesC && t.min.Set?
    requires Stats.Numbers(t.converted.value.values) == Success(xs)
    ensures NormalisedOf(t) == Success(Floats(Stats.Normalised(SeriesC, xs, t.min.value).value))
  {
  }

  lemma ReversedBananaScaled()
    ensures Stats.Normalised(SeriesC, [Some(2.0), Some(3.0), Some(2.0)], Some(3.0)) == Success([None, None, None])
  {
    ReversedShiftedTop();
    var want: seq<Option<real>> := [None, None, None];
    assert Stats.AllMissing(3) == want;
  }

  /** Shifting [2, 3, 2] by the reversed minimum 3 leaves 0 as the largest cell. */
  lemma ReversedShiftedTop()
    ensures Stats.NanMax(Stats.Shifted([Some(2.0), Some(3.0), Some(2.0)], Some(3.0))) == Some(0.0)
  {
    var xs: seq<Option<real>> := [Some(2.0), Some(3.0), Some(2.0)];
    var out := Stats.Shifted(xs, Some(3.0));
    var want: seq<Option<real>> := [Some(-1.0), Some(0.0), Some(-1.0)];
    assert out[0] == Some(-1.0) && out[1] == Some(0.0) && out[2] == Some(-1.0);
    assert out == want;
    assert Stats.NanMax(want).value >= want[1].value;
  }
}
