/** The insertion-ordered dictionaries of the object model: a group's and a
    survey's `_items`, and the dictionaries built from `zip(names, values)`. A
    Python dict keeps its keys in first-insertion order; assigning to a key that is
    already there replaces its value and keeps its place. */
module Registry {

  datatype Ordered<V> = Ordered(keys: seq<string>, at: map<string, V>) {

    /** The keys are distinct and are exactly the keys of the lookup map. */
    predicate Valid()
    {
      && (forall i, j :: 0 <= i < j < |keys| ==> keys[i] != keys[j])
      && (forall k :: k in keys ==> k in at)
      && (forall k :: k in at ==> k in keys)
    }

    /** `d[k] = v`. */
    function Put(k: string, v: V): (r: Ordered<V>)
      ensures r.at == at[k := v]
      ensures k in at ==> r.keys == keys
      ensures k !in at ==> r.keys == keys + [k]
    {
      if k in at then Ordered(keys, at[k := v]) else Ordered(keys + [k], at[k := v])
    }

    /** `list(d.values())`, in key order. */
    function Values(): (r: seq<V>)
      requires Valid()
      ensures |r| == |keys| && forall i :: 0 <= i < |keys| ==> r[i] == at[keys[i]]
    {
      seq(|keys|, i requires 0 <= i < |keys| => at[keys[i]])
    }

    /** `len(d)`. */
    function Size(): nat
    {
      |keys|
    }
  }

  /** `{}`. */
  function Empty<V>(): (r: Ordered<V>)
    ensures r.Valid() && |r.keys| == 0
  {
    Ordered([], map[])
  }

  /** The assignments `d[k] = v` for each pair, in order. */
  function PutAll<V>(d: Ordered<V>, entries: seq<(string, V)>): Ordered<V>
  {
    if |entries| == 0 then d
    else PutAll(d, entries[..|entries| - 1]).Put(entries[|entries| - 1].0, entries[|entries| - 1].1)
  }

  /** The pairs of `zip(names, values)`: as many as the shorter list has. */
  function Zip<V>(names: seq<string>, values: seq<V>): (r: seq<(string, V)>)
    ensures |r| == if |names| <= |values| then |names| else |values|
    ensures forall i :: 0 <= i < |r| ==> r[i] == (names[i], values[i])
  {
    var n := if |names| <= |values| then |names| else |values|;
    seq(n, i requires 0 <= i < n => (names[i], values[i]))
  }

  /** `{name: value for name, value in zip(names, values)}`. */
  function ZipDict<V>(names: seq<string>, values: seq<V>): Ordered<V>
  {
    PutAll(Empty(), Zip(names, values))
  }

  /** Assignment keeps the dictionary well formed; it adds an entry exactly when
      the key is new, and only the assigned key changes its value. */
  lemma PutValid<V>(d: Ordered<V>, k: string, v: V)
    requires d.Valid()
    ensures d.Put(k, v).Valid()
    ensures d.Put(k, v).Size() == if k in d.at then d.Size() else d.Size() + 1
    ensures d.Put(k, v).at[k] == v
    ensures forall j :: j in d.at && j != k ==> d.Put(k, v).at[j] == d.at[j]
  {
  }

  /** The names the pairs assign. */
  function Assigned<V>(entries: seq<(string, V)>): (r: set<string>)
    ensures forall i :: 0 <= i < |entries| ==> entries[i].0 in r
    ensures forall k :: k in r ==> exists i :: 0 <= i < |entries| && entries[i].0 == k
  {
    set i | 0 <= i < |entries| :: entries[i].0
  }

  /** After a run of assignments the keys are the old keys together with the
      assigned ones. */
  lemma {:induction false} PutAllDomain<V>(d: Ordered<V>, entries: seq<(string, V)>)
    ensures PutAll(d, entries).at.Keys == d.at.Keys + Assigned(entries)
  {
    if |entries| > 0 {
      var n := |entries| - 1;
      var init := entries[..n];
      assert forall i :: 0 <= i < n ==> init[i] == entries[i];
      PutAllDomain(d, init);
      assert Assigned(entries) == Assigned(init) + {entries[n].0};
    }
  }

  /** After a run of assignments the dictionary is still well formed and the old
      keys come first, in their old order. */
  lemma {:induction false} PutAllKeys<V>(d: Ordered<V>, entries: seq<(string, V)>)
    requires d.Valid()
    ensures PutAll(d, entries).Valid()
    ensures d.keys <= PutAll(d, entries).keys
  {
    if |entries| > 0 {
      var n := |entries| - 1;
      var init := entries[..n];
      PutAllKeys(d, init);
      PutValid(PutAll(d, init), entries[n].0, entries[n].1);
    }
  }

  /** Each assigned key holds the last value assigned to it. */
  lemma {:induction false} PutAllLast<V>(d: Ordered<V>, entries: seq<(string, V)>)
    ensures forall i :: 0 <= i < |entries| ==> entries[i].0 in PutAll(d, entries).at
    ensures forall i :: 0 <= i < |entries| ==> PutAll(d, entries).at[entries[i].0] == entries[LastWith(entries, entries[i].0)].1
  {
    if |entries| > 0 {
      var n := |entries| - 1;
      var init := entries[..n];
      assert forall i :: 0 <= i < n ==> init[i] == entries[i];
      PutAllLast(d, init);
      PutAllDomain(d, entries);
      forall i | 0 <= i < |entries|
        ensures PutAll(d, entries).at[entries[i].0] == entries[LastWith(entries, entries[i].0)].1
      {
        if entries[i].0 != entries[n].0 {
          assert LastWith(entries, entries[i].0) == LastWith(init, entries[i].0);
        }
      }
    }
  }

  /** A pair whose name no later pair assigns again decides that name's value. */
  lemma {:induction false} PutAllFinal<V>(d: Ordered<V>, entries: seq<(string, V)>)
    ensures forall i :: 0 <= i < |entries| && (forall j :: i < j < |entries| ==> entries[j].0 != entries[i].0) ==>
      entries[i].0 in PutAll(d, entries).at && PutAll(d, entries).at[entries[i].0] == entries[i].1
  {
    if |entries| > 0 {
      var n := |entries| - 1;
      var init := entries[..n];
      assert forall i :: 0 <= i < n ==> init[i] == entries[i];
      PutAllFinal(d, init);
    }
  }

  /** A key that is never assigned keeps its value. */
  lemma {:induction false} PutAllUntouched<V>(d: Ordered<V>, entries: seq<(string, V)>, k: string)
    requires k in d.at && forall i :: 0 <= i < |entries| ==> entries[i].0 != k
    ensures k in PutAll(d, entries).at && PutAll(d, entries).at[k] == d.at[k]
  {
    if |entries| > 0 {
      var n := |entries| - 1;
      var init := entries[..n];
      assert forall i :: 0 <= i < n ==> init[i] == entries[i];
      PutAllUntouched(d, init, k);
    }
  }

  /** The position of the last pair whose name is `k`. */
  function LastWith<V>(entries: seq<(string, V)>, k: string): (i: nat)
    requires exists j :: 0 <= j < |entries| && entries[j].0 == k
    ensures i < |entries| && entries[i].0 == k
    ensures forall j :: i < j < |entries| ==> entries[j].0 != k
  {
    var n := |entries| - 1;
    if entries[n].0 == k then n
    else
      assert exists j :: 0 <= j < n && entries[..n][j].0 == k by {
        var j :| 0 <= j < |entries| && entries[j].0 == k;
        assert entries[..n][j] == entries[j];
      }
      var i := LastWith(entries[..n], k);
      assert entries[..n][i] == entries[i];
      i
  }

  /** Assigning the pairs of `a` and then those of `b` is assigning those of `a + b`. */
  lemma {:induction false} PutAllAppend<V>(d: Ordered<V>, a: seq<(string, V)>, b: seq<(string, V)>)
    ensures PutAll(d, a + b) == PutAll(PutAll(d, a), b)
  {
    if |b| == 0 {
      assert a + b == a;
    } else {
      var n := |b| - 1;
      assert (a + b)[..|a + b| - 1] == a + b[..n];
      PutAllAppend(d, a, b[..n]);
    }
  }

  /** With distinct names, `zip` builds a dictionary whose keys are the names in
      order (as many as there are values) and whose `i`-th key holds the `i`-th value. */
  lemma ZipDictFacts<V>(names: seq<string>, values: seq<V>)
    requires forall i, j :: 0 <= i < j < |names| ==> names[i] != names[j]
    ensures var d := ZipDict(names, values);
      var n := if |names| <= |values| then |names| else |values|;
      && d.Valid() && d.keys == names[..n]
      && forall i :: 0 <= i < n ==> d.at[names[i]] == values[i]
  {
    var n := if |names| <= |values| then |names| else |values|;
    var es := Zip(names, values);
    DistinctKeys(es);
    PutAllKeys(Empty(), es);
    PutAllFinal(Empty(), es);
    forall i | 0 <= i < n
      ensures ZipDict(names, values).at[names[i]] == values[i]
    {
      assert forall j :: i < j < |es| ==> es[j].0 != es[i].0;
    }
  }

  /** Zipping a dictionary's own keys with as many values gives a dictionary with
      the same keys, in the same order, holding the values in that order. */
  lemma ZipOwnKeys<V, W>(d: Ordered<V>, values: seq<W>)
    requires d.Valid() && |values| == |d.keys|
    ensures ZipDict(d.keys, values).Valid() && ZipDict(d.keys, values).keys == d.keys
    ensures forall i :: 0 <= i < |d.keys| ==> ZipDict(d.keys, values).at[d.keys[i]] == values[i]
  {
    ZipDictFacts(d.keys, values);
    assert d.keys[..|d.keys|] == d.keys;
  }

  /** Assigning pairs with distinct names keeps the names, in order, as the keys. */
  lemma {:induction false} DistinctKeys<V>(es: seq<(string, V)>)
    requires forall i, j :: 0 <= i < j < |es| ==> es[i].0 != es[j].0
    ensures |PutAll(Empty(), es).keys| == |es|
    ensures forall i :: 0 <= i < |es| ==> PutAll(Empty(), es).keys[i] == es[i].0
  {
    if |es| > 0 {
      var n := |es| - 1;
      var init := es[..n];
      assert forall i :: 0 <= i < n ==> init[i] == es[i];
      DistinctKeys(init);
      PutAllDomain(Empty(), init);
      var p := PutAll(Empty(), init);
      assert es[n].0 !in p.at;
      assert PutAll(Empty(), es).keys == p.keys + [es[n].0];
    }
  }
}
