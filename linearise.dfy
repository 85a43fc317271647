/** `MultiCodedItem.linearised` (`itemie/core/item.py`): a list of multi-coded
    answers flattened into one list of codes, each code remembering the index of
    the respondent it came from. */
module Linearise {
  import opened Wrappers
  import opened Values

  /** The flattened codes and, for each, the index of the answer it came from. */
  datatype Linear = Linear(values: seq<Value>, mapping: seq<nat>)

  /** What iterating over one answer yields: a list or an array row yields its
      elements, a string its characters; a float has no `len()`. */
  function Pieces(v: Value): (r: Result<seq<Value>, Error>)
    ensures r.Success? <==> v.List? || v.Arr? || v.Str?
    ensures v.List? || v.Arr? ==> r == Success(v.elems)
    ensures v.Str? ==> r.Success? && |r.value| == |v.s| && forall k :: 0 <= k < |v.s| ==> r.value[k] == Str([v.s[k]])
  {
    match v
    case List(xs) => Success(xs)
    case Arr(xs) => Success(xs)
    case Str(s) => Success(seq(|s|, k requires 0 <= k < |s| => Str([s[k]])))
    case _ => Failure(TypeError("object of type 'float' has no len()"))
  }

  /** `n` copies of `i`: `[i] * n`. */
  function Repeat(i: nat, n: nat): (r: seq<nat>)
    ensures |r| == n && forall k :: 0 <= k < n ==> r[k] == i
  {
    if n == 0 then [] else Repeat(i, n - 1) + [i]
  }

  /** The two comprehensions of `linearised` over a list `data`. The mapping is
      built first over the whole list, so the first answer without a length is the
      one whose error surfaces. */
  function Flatten(data: seq<Value>): (r: Result<Linear, Error>)
    ensures r.Success? <==> forall i :: 0 <= i < |data| ==> Pieces(data[i]).Success?
    ensures r.Success? ==> |r.value.values| == |r.value.mapping|
  {
    if |data| == 0 then Success(Linear([], []))
    else
      var init := Flatten(data[..|data| - 1]);
      assert forall i :: 0 <= i < |data| - 1 ==> data[..|data| - 1][i] == data[i];
      if init.Failure? then Failure(init.error)
      else
        match Pieces(data[|data| - 1])
        case Failure(e) => Failure(e)
        case Success(p) => Success(Linear(init.value.values + p, init.value.mapping + Repeat(|data| - 1, |p|)))
  }

  /** `linearised(data)`: only a Python list is accepted. */
  function Linearised(data: Column): (r: Result<Linear, Error>)
    ensures data.kind != ListC ==> r == Failure(ValueError("Data is not a list: " + TypeName(data.kind)))
    ensures data.kind == ListC ==> r == Flatten(data.values)
  {
    if data.kind != ListC then Failure(ValueError("Data is not a list: " + TypeName(data.kind)))
    else Flatten(data.values)
  }

  /** The first answer that has no length. */
  function FirstUnsized(data: seq<Value>): (i: nat)
    requires exists j :: 0 <= j < |data| && Pieces(data[j]).Failure?
    ensures i < |data| && Pieces(data[i]).Failure?
    ensures forall j :: 0 <= j < i ==> Pieces(data[j]).Success?
  {
    if Pieces(data[0]).Failure? then 0
    else
      assert exists j :: 0 <= j < |data[1..]| && Pieces(data[1..][j]).Failure? by {
        var j :| 0 <= j < |data| && Pieces(data[j]).Failure?;
        assert data[1..][j - 1] == data[j];
      }
      var k := FirstUnsized(data[1..]);
      assert data[1..][k] == data[k + 1];
      k + 1
  }

  function TotalLength(data: seq<Value>): nat
    requires forall i :: 0 <= i < |data| ==> Pieces(data[i]).Success?
  {
    if |data| == 0 then 0
    else
      assert forall i :: 0 <= i < |data| - 1 ==> data[..|data| - 1][i] == data[i];
      TotalLength(data[..|data| - 1]) + |Pieces(data[|data| - 1]).value|
  }

  /** A failing flatten reports the error of the first answer without a length. */
  lemma {:induction false} FlattenFailure(data: seq<Value>)
    requires Flatten(data).Failure?
    ensures Flatten(data).error == Pieces(data[FirstUnsized(data)]).error
  {
    var n := |data| - 1;
    var init := data[..n];
    assert forall i :: 0 <= i < n ==> init[i] == data[i];
    if Flatten(init).Failure? {
      FlattenFailure(init);
      assert FirstUnsized(init) == FirstUnsized(data) by {
        FirstUnsizedPrefix(data, n);
      }
    } else {
      assert FirstUnsized(data) == n by {
        FirstUnsizedPrefix(data, n);
      }
    }
  }

  /** The first answer without a length is the same in the list and in any prefix
      holding such an answer, and lies beyond a prefix without one. */
  lemma {:induction false} FirstUnsizedPrefix(data: seq<Value>, n: nat)
    requires n <= |data| && exists j :: 0 <= j < |data| && Pieces(data[j]).Failure?
    ensures (exists j :: 0 <= j < n && Pieces(data[j]).Failure?) ==> FirstUnsized(data[..n]) == FirstUnsized(data)
    ensures (forall j :: 0 <= j < n ==> Pieces(data[j]).Success?) ==> n <= FirstUnsized(data)
  {
    var f := FirstUnsized(data);
    assert forall j :: 0 <= j < n ==> data[..n][j] == data[j];
    if exists j :: 0 <= j < n && Pieces(data[j]).Failure? {
      var g := FirstUnsized(data[..n]);
      assert Pieces(data[g]).Failure?;
      assert f <= g;
      assert f < n;
      assert Pieces(data[..n][f]).Failure?;
      FirstUnsizedIsLeast(data[..n], f);
    }
  }

  lemma FirstUnsizedIsLeast(data: seq<Value>, f: nat)
    requires f < |data| && Pieces(data[f]).Failure?
    requires forall j :: 0 <= j < f ==> Pieces(data[j]).Success?
    ensures FirstUnsized(data) == f
  {
  }

  /** There are as many codes, and as many mapping entries, as the answers' lengths add up to. */
  lemma {:induction false} FlattenLength(data: seq<Value>)
    requires Flatten(data).Success?
    ensures |Flatten(data).value.values| == |Flatten(data).value.mapping| == TotalLength(data)
  {
    if |data| > 0 {
      var init := data[..|data| - 1];
      assert forall i :: 0 <= i < |init| ==> init[i] == data[i];
      FlattenLength(init);
    }
  }

  /** The mapping counts up from 0 without gaps in order: it never decreases and
      every entry is the index of an answer. */
  lemma {:induction false} MappingOrdered(data: seq<Value>)
    requires Flatten(data).Success?
    ensures var m := Flatten(data).value.mapping;
      && (forall j :: 0 <= j < |m| ==> m[j] < |data|)
      && (forall j, k :: 0 <= j <= k < |m| ==> m[j] <= m[k])
  {
    if |data| > 0 {
      var init := data[..|data| - 1];
      assert forall i :: 0 <= i < |init| ==> init[i] == data[i];
      MappingOrdered(init);
    }
  }

  /** Answer `i` contributes exactly as many mapping entries as it has elements. */
  lemma {:induction false} MappingCounts(data: seq<Value>, i: nat)
    requires Flatten(data).Success? && i < |data|
    ensures multiset(Flatten(data).value.mapping)[i] == |Pieces(data[i]).value|
  {
    var n := |data| - 1;
    var init := data[..n];
    assert forall j :: 0 <= j < n ==> init[j] == data[j];
    var p := Pieces(data[n]).value;
    var m := Flatten(init).value.mapping;
    assert Flatten(data).value.mapping == m + Repeat(n, |p|);
    RepeatCount(n, |p|, i);
    if i < n {
      MappingCounts(init, i);
    } else {
      MappingOrdered(init);
      assert i !in multiset(m);
    }
  }

  lemma {:induction false} RepeatCount(i: nat, n: nat, k: nat)
    ensures multiset(Repeat(i, n))[k] == if k == i then n else 0
  {
    if n > 0 {
      RepeatCount(i, n - 1, k);
      assert Repeat(i, n) == Repeat(i, n - 1) + [i];
    }
  }

  /** Every code comes from the answer its mapping entry names. */
  lemma {:induction false} CodesComeFromTheirAnswer(data: seq<Value>)
    requires Flatten(data).Success?
    ensures var l := Flatten(data).value;
      forall j :: 0 <= j < |l.values| ==> l.mapping[j] < |data| && l.values[j] in Pieces(data[l.mapping[j]]).value
  {
    if |data| > 0 {
      var n := |data| - 1;
      var init := data[..n];
      assert forall i :: 0 <= i < n ==> init[i] == data[i];
      CodesComeFromTheirAnswer(init);
      MappingOrdered(init);
      var l0 := Flatten(init).value;
      var p := Pieces(data[n]).value;
      var l := Flatten(data).value;
      assert l.values == l0.values + p && l.mapping == l0.mapping + Repeat(n, |p|);
      forall j | 0 <= j < |l.values|
        ensures l.mapping[j] < |data| && l.values[j] in Pieces(data[l.mapping[j]]).value
      {
        if j < |l0.values| {
          assert l.values[j] == l0.values[j] && l.mapping[j] == l0.mapping[j];
        } else {
          assert l.values[j] == p[j - |l0.values|] && l.mapping[j] == n;
        }
      }
    }
  }

  /** One more answer at the end adds its pieces, all mapped to its index. */
  lemma FlattenSnoc(data: seq<Value>, v: Value)
    requires Flatten(data).Success? && Pieces(v).Success?
    ensures Flatten(data + [v]) ==
      Success(Linear(Flatten(data).value.values + Pieces(v).value, Flatten(data).value.mapping + Repeat(|data|, |Pieces(v).value|)))
  {
    assert (data + [v])[..|data|] == data;
  }

  /** The example of a list-valued answer, a string answer and an empty answer:
      three answers give four codes, from answers 0, 0, 1 and 1. */
  lemma FlattenExample()
    ensures Flatten([List([Str("a"), Str("b")]), Str("cd"), List([])])
      == Success(Linear([Str("a"), Str("b"), Str("c"), Str("d")], [0, 0, 1, 1]))
  {
    var x, y, z := List([Str("a"), Str("b")]), Str("cd"), List([]);
    FlattenExampleTwo();
    FlattenSnoc([x, y], z);
    assert [x, y] + [z] == [x, y, z];
    var l := Flatten([x, y]).value;
    assert Repeat(2, 0) == [];
    assert l.values + [] == l.values && l.mapping + [] == l.mapping;
  }

  lemma FlattenExampleTwo()
    ensures Flatten([List([Str("a"), Str("b")]), Str("cd")])
      == Success(Linear([Str("a"), Str("b"), Str("c"), Str("d")], [0, 0, 1, 1]))
  {
    var x, y := List([Str("a"), Str("b")]), Str("cd");
    FlattenExampleOne();
    assert "cd"[0] == 'c' && "cd"[1] == 'd';
    assert Pieces(y).value == [Str("c"), Str("d")];
    var m := Repeat(1, 2);
    assert m == [1, 1];
    FlattenSnoc([x], y);
    assert [x] + [y] == [x, y];
    assert [0, 0] + m == [0, 0, 1, 1];
    assert [Str("a"), Str("b")] + [Str("c"), Str("d")] == [Str("a"), Str("b"), Str("c"), Str("d")];
  }

  lemma FlattenExampleOne()
    ensures Flatten([List([Str("a"), Str("b")])]) == Success(Linear([Str("a"), Str("b")], [0, 0]))
  {
    var x := List([Str("a"), Str("b")]);
    var m := Repeat(0, 2);
    assert m == [0, 0];
    FlattenSnoc([], x);
    assert [] + [x] == [x];
    assert Flatten([]).value == Linear([], []);
    assert [] + x.elems == x.elems && [] + m == m;
  }
}
