/** `PhraseCount._count` (`itemie/core/item.py`): how often each phrase occurs in a
    column whose answers are phrases or lists of phrases. The counter starts from an
    optional vocabulary at zero; a phrase already counted goes up by one, and a
    phrase seen for the first time is entered at zero (so an unseeded phrase ends up
    one below its number of occurrences). Without a vocabulary the phrases are then
    ordered by their text. */
module Phrases {
  import opened Wrappers
  import opened Values

  /** A Python dict from phrase to count: its keys in insertion order and the counts. */
  datatype Tally = Tally(keys: seq<Value>, count: map<Value, nat>)

  /** The keys are distinct and are exactly the counted phrases. */
  ghost predicate Valid(t: Tally)
  {
    && (forall i, j :: 0 <= i < j < |t.keys| ==> t.keys[i] != t.keys[j])
    && (forall k :: k in t.count <==> k in t.keys)
  }

  /** `counts[k] = 0` in the dict comprehension over the vocabulary: a repeated
      word keeps its first position. */
  function Enter(t: Tally, k: Value): (r: Tally)
  {
    if k in t.count then Tally(t.keys, t.count[k := 0]) else Tally(t.keys + [k], t.count[k := 0])
  }

  /** `{k: 0 for k in vocab}`. */
  function Seed(vocab: seq<Value>): (r: Tally)
  {
    if |vocab| == 0 then Tally([], map[]) else Enter(Seed(vocab[..|vocab| - 1]), vocab[|vocab| - 1])
  }

  /** One answer's phrases: a list contributes its elements, anything else itself. */
  function Expand(obj: Value): seq<Value>
  {
    if obj.List? then obj.elems else [obj]
  }

  /** `all_phrases` after the first loop. */
  function AllPhrases(converted: seq<Value>): (r: seq<Value>)
  {
    if |converted| == 0 then []
    else AllPhrases(converted[..|converted| - 1]) + Expand(converted[|converted| - 1])
  }

  /** One iteration of the counting loop: one more for a counted phrase, a new
      entry at zero for a new one. */
  function Step(t: Tally, p: Value): (r: Tally)
  {
    if p in t.count then Tally(t.keys, t.count[p := t.count[p] + 1]) else Tally(t.keys + [p], t.count[p := 0])
  }

  /** The counting loop over `ps`, from the tally `t`. */
  function TallyAll(t: Tally, ps: seq<Value>): (r: Tally)
  {
    if |ps| == 0 then t else Step(TallyAll(t, ps[..|ps| - 1]), ps[|ps| - 1])
  }

  /** The index of the first list or array row among `vs`, if any. */
  function FirstUnhashable(vs: seq<Value>): (r: Option<nat>)
    ensures r.None? <==> forall i :: 0 <= i < |vs| ==> !Unhashable(vs[i])
    ensures r.Some? ==> r.value < |vs| && Unhashable(vs[r.value]) && forall i :: 0 <= i < r.value ==> !Unhashable(vs[i])
  {
    if |vs| == 0 then None
    else if Unhashable(vs[0]) then Some(0)
    else
      var r := FirstUnhashable(vs[1..]);
      assert forall i :: 0 < i < |vs| ==> vs[i] == vs[1..][i - 1];
      if r.Some? then Some(r.value + 1) else None
  }

  /** The TypeError a dict raises at the first unhashable key among `vs`, if any. */
  function HashFailure(vs: seq<Value>): (r: Option<Error>)
    ensures r.None? <==> forall i :: 0 <= i < |vs| ==> !Unhashable(vs[i])
  {
    match FirstUnhashable(vs)
    case None => None
    case Some(j) => Some(HashError(vs[j]))
  }

  /** The vocabulary's words, none when there is no vocabulary. */
  function Words(vocab: Option<seq<Value>>): seq<Value>
  {
    if vocab.Some? then vocab.value else []
  }

  /** What `_count` returns, or the error it raises: a list or array row among the
      vocabulary words or the phrases cannot be a dict key. */
  function Counted(vocab: Option<seq<Value>>, converted: seq<Value>): (r: Result<Tally, Error>)
  {
    var ps := AllPhrases(converted);
    if HashFailure(Words(vocab)).Some? then Failure(HashFailure(Words(vocab)).value)
    else if HashFailure(ps).Some? then Failure(HashFailure(ps).value)
    else
      var t := TallyAll(Seed(Words(vocab)), ps);
      if vocab.None? then Success(Tally(SortBy(Text, t.keys), t.count)) else Success(t)
  }

  /** `_count`, loop for loop. */
  method Count(vocab: Option<seq<Value>>, converted: seq<Value>) returns (r: Result<Tally, Error>)
    ensures r == Counted(vocab, converted)
  {
    var t := Tally([], map[]);
    if vocab.Some? {
      var seeded := SeedLoop(vocab.value);
      if seeded.Failure? {
        return seeded;
      }
      t := seeded.value;
    }
    var all := PhrasesLoop(converted);
    var counted := CountLoop(t, all);
    if counted.Failure? {
      return counted;
    }
    t := counted.value;
    if vocab.None? {
      t := Tally(SortBy(Text, t.keys), t.count);
    }
    return Success(t);
  }

  /** The vocabulary loop: each word entered at zero; a list raises. */
  method SeedLoop(words: seq<Value>) returns (r: Result<Tally, Error>)
    ensures r == if HashFailure(words).Some? then Failure(HashFailure(words).value) else Success(Seed(words))
  {
    var t := Tally([], map[]);
    for i := 0 to |words|
      invariant t == Seed(words[..i])
      invariant forall j :: 0 <= j < i ==> !Unhashable(words[j])
    {
      if Unhashable(words[i]) {
        assert FirstUnhashable(words) == Some(i);
        return Failure(HashError(words[i]));
      }
      assert words[..i + 1][..i] == words[..i];
      t := Enter(t, words[i]);
    }
    assert words[..|words|] == words;
    return Success(t);
  }

  /** The loop that collects `all_phrases`. */
  method PhrasesLoop(converted: seq<Value>) returns (all: seq<Value>)
    ensures all == AllPhrases(converted)
  {
    all := [];
    for i := 0 to |converted|
      invariant all == AllPhrases(converted[..i])
    {
      assert converted[..i + 1][..i] == converted[..i];
      if converted[i].List? {
        all := all + converted[i].elems;
      } else {
        all := all + [converted[i]];
      }
    }
    assert converted[..|converted|] == converted;
  }

  /** The counting loop from the tally `seed`; a list or array row raises. */
  method CountLoop(seed: Tally, all: seq<Value>) returns (r: Result<Tally, Error>)
    ensures r == if HashFailure(all).Some? then Failure(HashFailure(all).value) else Success(TallyAll(seed, all))
  {
    var t := seed;
    for i := 0 to |all|
      invariant t == TallyAll(seed, all[..i])
      invariant forall j :: 0 <= j < i ==> !Unhashable(all[j])
    {
      if Unhashable(all[i]) {
        assert FirstUnhashable(all) == Some(i);
        return Failure(HashError(all[i]));
      }
      assert all[..i + 1][..i] == all[..i];
      t := Step(t, all[i]);
    }
    assert all[..|all|] == all;
    return Success(t);
  }

  // ---- the text a phrase is sorted by: `str(x)` ----

  /** `str(x)` of a phrase. A list or an array row never becomes a key (counting
      raises first), so its text is never compared. */
  function Text(v: Value): string
  {
    match v
    case Str(s) => s
    case Missing => "nan"
    case Num(x) => FloatText(x)
    case List(_) => "[...]"
    case Arr(_) => "[...]"
  }

  /** Python's string order: code point by code point, a prefix first. */
  predicate TextLe(a: string, b: string)
    decreases |a|
  {
    |a| == 0 || (|b| > 0 && (a[0] < b[0] || (a[0] == b[0] && TextLe(a[1..], b[1..]))))
  }

  lemma {:induction false} TextLeTotal(a: string, b: string)
    ensures TextLe(a, b) || TextLe(b, a)
    decreases |a|
  {
    if |a| > 0 && |b| > 0 && a[0] == b[0] {
      TextLeTotal(a[1..], b[1..]);
    }
  }

  lemma {:induction false} TextLeTransitive(a: string, b: string, c: string)
    requires TextLe(a, b) && TextLe(b, c)
    ensures TextLe(a, c)
    decreases |a|
  {
    if |a| > 0 && a[0] == b[0] && b[0] == c[0] {
      TextLeTransitive(a[1..], b[1..], c[1..]);
    }
  }

  /** The keys are in the order of their texts under `key`. */
  predicate SortedBy(key: Value -> string, ks: seq<Value>)
  {
    forall i, j :: 0 <= i < j < |ks| ==> TextLe(key(ks[i]), key(ks[j]))
  }

  /** `x` placed after every element whose text is not above its own: insertion
      that keeps equal texts in their original order. */
  function InsertBy(key: Value -> string, x: Value, ks: seq<Value>): (r: seq<Value>)
  {
    if |ks| == 0 then [x]
    else if TextLe(key(ks[0]), key(x)) then [ks[0]] + InsertBy(key, x, ks[1..])
    else [x] + ks
  }

  /** `sorted_keys.sort(key=key)`, as a stable insertion sort; `_count` sorts
      with `key=lambda x: str(x)`, that is `SortBy(Text, ...)`. */
  function SortBy(key: Value -> string, ks: seq<Value>): (r: seq<Value>)
  {
    if |ks| == 0 then [] else InsertBy(key, ks[|ks| - 1], SortBy(key, ks[..|ks| - 1]))
  }

  lemma {:induction false} InsertByPermutes(key: Value -> string, x: Value, ks: seq<Value>)
    ensures multiset(InsertBy(key, x, ks)) == multiset(ks) + multiset{x}
  {
    if |ks| > 0 && TextLe(key(ks[0]), key(x)) {
      InsertByPermutes(key, x, ks[1..]);
      assert ks == [ks[0]] + ks[1..];
    }
  }

  /** Every element of `ks` has text `a` or above. */
  predicate AllAtLeast(key: Value -> string, a: string, ks: seq<Value>)
  {
    forall j :: 0 <= j < |ks| ==> TextLe(a, key(ks[j]))
  }

  lemma SortedCons(key: Value -> string, h: Value, t: seq<Value>)
    ensures SortedBy(key, [h] + t) <==> AllAtLeast(key, key(h), t) && SortedBy(key, t)
  {
    var r := [h] + t;
    assert forall j :: 0 < j < |r| ==> r[j] == t[j - 1];
    if AllAtLeast(key, key(h), t) && SortedBy(key, t) {
      forall i, j | 0 <= i < j < |r| ensures TextLe(key(r[i]), key(r[j])) {
        if i == 0 {
          assert TextLe(key(h), key(t[j - 1]));
        } else {
          assert TextLe(key(t[i - 1]), key(t[j - 1]));
        }
      }
    }
    if SortedBy(key, r) {
      forall j | 0 <= j < |t| ensures TextLe(key(h), key(t[j])) {
        assert TextLe(key(r[0]), key(r[j + 1]));
      }
      forall i, j | 0 <= i < j < |t| ensures TextLe(key(t[i]), key(t[j])) {
        assert TextLe(key(r[i + 1]), key(r[j + 1]));
      }
    }
  }

  lemma {:induction false} InsertKeepsLowerBound(key: Value -> string, a: string, x: Value, ks: seq<Value>)
    requires AllAtLeast(key, a, ks) && TextLe(a, key(x))
    ensures AllAtLeast(key, a, InsertBy(key, x, ks))
  {
    if |ks| > 0 && TextLe(key(ks[0]), key(x)) {
      InsertKeepsLowerBound(key, a, x, ks[1..]);
      var rest := InsertBy(key, x, ks[1..]);
      var r := InsertBy(key, x, ks);
      assert r == [ks[0]] + rest;
      forall j | 0 <= j < |r|
        ensures TextLe(a, key(r[j]))
      {
        if j > 0 {
          assert r[j] == rest[j - 1];
        }
      }
    } else if |ks| > 0 {
      assert forall j :: 1 <= j < |ks| + 1 ==> ([x] + ks)[j] == ks[j - 1];
    }
  }

  lemma {:induction false} InsertBySorted(key: Value -> string, x: Value, ks: seq<Value>)
    requires SortedBy(key, ks)
    ensures SortedBy(key, InsertBy(key, x, ks))
  {
    if |ks| > 0 {
      SortedCons(key, ks[0], ks[1..]);
      assert ks == [ks[0]] + ks[1..];
      if TextLe(key(ks[0]), key(x)) {
        InsertBySorted(key, x, ks[1..]);
        InsertKeepsLowerBound(key, key(ks[0]), x, ks[1..]);
        SortedCons(key, ks[0], InsertBy(key, x, ks[1..]));
      } else {
        TextLeTotal(key(ks[0]), key(x));
        forall j | 0 <= j < |ks| ensures TextLe(key(x), key(ks[j])) {
          if j > 0 {
            TextLeTransitive(key(x), key(ks[0]), key(ks[j]));
          }
        }
        SortedCons(key, x, ks);
      }
    }
  }

  /** Sorting keeps every key and orders them by their text. */
  lemma {:induction false} SortByCorrect(key: Value -> string, ks: seq<Value>)
    ensures multiset(SortBy(key, ks)) == multiset(ks)
    ensures SortedBy(key, SortBy(key, ks))
  {
    if |ks| > 0 {
      var init := ks[..|ks| - 1];
      SortByCorrect(key, init);
      InsertByPermutes(key, ks[|ks| - 1], SortBy(key, init));
      InsertBySorted(key, ks[|ks| - 1], SortBy(key, init));
      assert ks == init + [ks[|ks| - 1]];
    }
  }

  // ---- what the tally holds ----

  /** How often `k` occurs in `ps`. */
  function Occurrences(k: Value, ps: seq<Value>): nat
  {
    multiset(ps)[k]
  }

  lemma SeedValid(vocab: seq<Value>)
    ensures Valid(Seed(vocab))
    ensures forall k :: k in Seed(vocab).count <==> k in vocab
    ensures forall k :: k in Seed(vocab).count ==> Seed(vocab).count[k] == 0
  {
    if |vocab| > 0 {
      var init := vocab[..|vocab| - 1];
      SeedValid(init);
      assert vocab == init + [vocab[|vocab| - 1]];
    }
  }

  /** One step of the loop keeps the tally valid and its earlier keys in place. */
  lemma StepFacts(u: Tally, p: Value)
    requires Valid(u)
    ensures var v := Step(u, p);
      && Valid(v)
      && |u.keys| <= |v.keys| && v.keys[..|u.keys|] == u.keys
      && (forall k :: k in v.count <==> k in u.count || k == p)
      && (forall k :: k in u.count ==> v.count[k] == u.count[k] + (if k == p then 1 else 0))
      && (p !in u.count ==> v.count[p] == 0)
  {
    if p !in u.count {
      var ks := u.keys + [p];
      assert ks[..|u.keys|] == u.keys;
      assert forall i :: 0 <= i < |u.keys| ==> ks[i] == u.keys[i];
      assert forall k :: k in ks <==> k in u.keys || k == p;
    }
  }

  lemma OccurrencesSnoc(ps: seq<Value>, p: Value)
    ensures forall k :: Occurrences(k, ps + [p]) == Occurrences(k, ps) + (if k == p then 1 else 0)
    ensures forall k :: k in ps + [p] <==> k in ps || k == p
  {
    assert multiset(ps + [p]) == multiset(ps) + multiset{p};
  }

  /** The counting loop keeps the tally valid. It adds the new phrases after the
      ones already there, so the earlier keys keep their positions. */
  lemma {:induction false} TallyAllValid(t: Tally, ps: seq<Value>)
    requires Valid(t)
    ensures Valid(TallyAll(t, ps))
    ensures |t.keys| <= |TallyAll(t, ps).keys| && TallyAll(t, ps).keys[..|t.keys|] == t.keys
    ensures forall k :: k in TallyAll(t, ps).count <==> k in t.count || k in ps
  {
    if |ps| > 0 {
      var init, p := ps[..|ps| - 1], ps[|ps| - 1];
      assert ps == init + [p];
      TallyAllValid(t, init);
      StepFacts(TallyAll(t, init), p);
      OccurrencesSnoc(init, p);
      var u := TallyAll(t, init);
      assert Step(u, p).keys[..|t.keys|] == Step(u, p).keys[..|u.keys|][..|t.keys|];
    }
  }

  /** A phrase already counted goes up by its number of occurrences; a new phrase
      ends at one below its number of occurrences. */
  lemma {:induction false} TallyAllCounts(t: Tally, ps: seq<Value>)
    requires Valid(t)
    ensures forall k :: k in t.count ==>
      k in TallyAll(t, ps).count && TallyAll(t, ps).count[k] == t.count[k] + Occurrences(k, ps)
    ensures forall k :: k !in t.count && k in ps ==>
      k in TallyAll(t, ps).count && TallyAll(t, ps).count[k] == Occurrences(k, ps) - 1
  {
    TallyAllValid(t, ps);
    if |ps| > 0 {
      var init, p := ps[..|ps| - 1], ps[|ps| - 1];
      assert ps == init + [p];
      TallyAllCounts(t, init);
      TallyAllValid(t, init);
      StepFacts(TallyAll(t, init), p);
      OccurrencesSnoc(init, p);
      forall k | k !in t.count && k in ps
        ensures TallyAll(t, ps).count[k] == Occurrences(k, ps) - 1
      {
        if k !in init {
          assert Occurrences(k, init) == 0;
        }
      }
    }
  }

  /** With a vocabulary, a vocabulary word's count is its number of occurrences,
      and every other phrase is one below its number of occurrences. The
      vocabulary (first occurrence of each word) comes first, in its own order. */
  lemma CountedWithVocabulary(vocab: seq<Value>, converted: seq<Value>)
    requires Counted(Some(vocab), converted).Success?
    ensures var t, ps := Counted(Some(vocab), converted).value, AllPhrases(converted);
      && Valid(t)
      && |Seed(vocab).keys| <= |t.keys| && t.keys[..|Seed(vocab).keys|] == Seed(vocab).keys
      && (forall k :: k in t.count <==> k in vocab || k in ps)
      && (forall k :: k in vocab ==> t.count[k] == Occurrences(k, ps))
      && (forall k :: k !in vocab && k in ps ==> t.count[k] == Occurrences(k, ps) - 1)
  {
    SeedValid(vocab);
    TallyAllValid(Seed(vocab), AllPhrases(converted));
    TallyAllCounts(Seed(vocab), AllPhrases(converted));
  }

  /** Without a vocabulary, every phrase ends one below its number of occurrences,
      and the phrases are in the order of their text. */
  lemma CountedWithoutVocabulary(converted: seq<Value>)
    requires Counted(None, converted).Success?
    ensures var t, ps := Counted(None, converted).value, AllPhrases(converted);
      && (forall k :: k in t.count <==> k in ps)
      && (forall k :: k in ps ==> t.count[k] == Occurrences(k, ps) - 1)
      && multiset(t.keys) == multiset(TallyAll(Seed([]), ps).keys)
      && SortedBy(Text, t.keys)
  {
    SeedValid([]);
    TallyAllValid(Seed([]), AllPhrases(converted));
    TallyAllCounts(Seed([]), AllPhrases(converted));
    SortByCorrect(Text, TallyAll(Seed([]), AllPhrases(converted)).keys);
  }

  /** Counting fails exactly when a vocabulary word or some phrase is a list or an
      array row, and the error names the first of them, words before phrases. */
  lemma CountedFails(vocab: Option<seq<Value>>, converted: seq<Value>)
    ensures Counted(vocab, converted).Failure? <==>
      (exists j :: 0 <= j < |Words(vocab)| && Unhashable(Words(vocab)[j])) ||
      exists j :: 0 <= j < |AllPhrases(converted)| && Unhashable(AllPhrases(converted)[j])
    ensures Counted(vocab, converted).Failure? ==>
      var all := Words(vocab) + AllPhrases(converted);
      FirstUnhashable(all).Some? && Counted(vocab, converted).error == HashError(all[FirstUnhashable(all).value])
  {
    FirstUnhashableAppend(Words(vocab), AllPhrases(converted));
  }

  /** The first unhashable value of `a + b` is the first of `a`, or else the first of `b`. */
  lemma {:induction false} FirstUnhashableAppend(a: seq<Value>, b: seq<Value>)
    ensures FirstUnhashable(a + b) ==
      if FirstUnhashable(a).Some? then FirstUnhashable(a)
      else if FirstUnhashable(b).Some? then Some(|a| + FirstUnhashable(b).value)
      else None
  {
    if |a| == 0 {
      assert a + b == b;
    } else {
      assert (a + b)[0] == a[0];
      assert (a + b)[1..] == a[1..] + b;
      if !Unhashable(a[0]) {
        FirstUnhashableAppend(a[1..], b);
        FirstUnhashableTail(a);
        FirstUnhashableTail(a + b);
      }
    }
  }

  /** Past a hashable head, the first unhashable value is one further on. */
  lemma FirstUnhashableTail(vs: seq<Value>)
    requires |vs| > 0 && !Unhashable(vs[0])
    ensures FirstUnhashable(vs) == if FirstUnhashable(vs[1..]).Some? then Some(FirstUnhashable(vs[1..]).value + 1) else None
  {
  }


  lemma AllPhrasesSnoc(c: seq<Value>, obj: Value)
    ensures AllPhrases(c + [obj]) == AllPhrases(c) + Expand(obj)
  {
    assert (c + [obj])[..|c|] == c;
  }

  lemma TallyAllSnoc(t: Tally, ps: seq<Value>, p: Value)
    ensures TallyAll(t, ps + [p]) == Step(TallyAll(t, ps), p)
  {
    assert (ps + [p])[..|ps|] == ps;
  }

  lemma SeedSnoc(vocab: seq<Value>, k: Value)
    ensures Seed(vocab + [k]) == Enter(Seed(vocab), k)
  {
    assert (vocab + [k])[..|vocab|] == vocab;
  }

  lemma PhrasesExample()
    ensures AllPhrases([List([Str("yes")]), List([Str("no"), Str("yes")]), List([])]) == [Str("yes"), Str("no"), Str("yes")]
  {
    var yes, no := Str("yes"), Str("no");
    AllPhrasesSnoc([], List([yes]));
    assert [] + [List([yes])] == [List([yes])];
    assert AllPhrases([List([yes])]) == [yes];
    AllPhrasesSnoc([List([yes])], List([no, yes]));
    assert [List([yes])] + [List([no, yes])] == [List([yes]), List([no, yes])];
    assert AllPhrases([List([yes]), List([no, yes])]) == [yes, no, yes];
    AllPhrasesSnoc([List([yes]), List([no, yes])], List([]));
    assert [List([yes]), List([no, yes])] + [List([])] == [List([yes]), List([no, yes]), List([])];
    assert [yes, no, yes] + [] == [yes, no, yes];
  }

  /** The tally of yes, no, yes from a given start. */
  lemma TallyExample(t: Tally, t1: Tally, t2: Tally, t3: Tally)
    requires t1 == Step(t, Str("yes")) && t2 == Step(t1, Str("no")) && t3 == Step(t2, Str("yes"))
    ensures TallyAll(t, [Str("yes"), Str("no"), Str("yes")]) == t3
  {
    var yes, no := Str("yes"), Str("no");
    TallyAllSnoc(t, [], yes);
    assert [] + [yes] == [yes];
    TallyAllSnoc(t, [yes], no);
    assert [yes] + [no] == [yes, no];
    TallyAllSnoc(t, [yes, no], yes);
    assert [yes, no] + [yes] == [yes, no, yes];
  }

  /** Answers ["yes"], ["no", "yes"] and [] seeded with ["yes", "no"] count
      yes twice and no once. */
  lemma SeededExample()
    ensures Counted(Some([Str("yes"), Str("no")]), [List([Str("yes")]), List([Str("no"), Str("yes")]), List([])])
      == Success(Tally([Str("yes"), Str("no")], map[Str("yes") := 2, Str("no") := 1]))
  {
    var yes, no := Str("yes"), Str("no");
    PhrasesExample();
    SeededTallyExample();
    var ps := [yes, no, yes];
    assert HashFailure(ps).None?;
    var vocab := [yes, no];
    assert HashFailure(vocab).None?;
  }

  lemma SeededTallyExample()
    ensures TallyAll(Seed([Str("yes"), Str("no")]), [Str("yes"), Str("no"), Str("yes")])
      == Tally([Str("yes"), Str("no")], map[Str("yes") := 2, Str("no") := 1])
  {
    var yes, no := Str("yes"), Str("no");
    assert yes != no;
    SeedSnoc([], yes);
    assert [] + [yes] == [yes];
    SeedSnoc([yes], no);
    assert [yes] + [no] == [yes, no];
    var s := Tally([yes, no], map[yes := 0, no := 0]);
    assert Seed([yes, no]) == s;
    var t1 := Tally([yes, no], map[yes := 1, no := 0]);
    var t2 := Tally([yes, no], map[yes := 1, no := 1]);
    var t3 := Tally([yes, no], map[yes := 2, no := 1]);
    assert Step(s, yes) == t1;
    assert Step(t1, no) == t2;
    assert Step(t2, yes) == t3;
    TallyExample(s, t1, t2, t3);
  }

  /** The same answers without a vocabulary: each phrase is one below its number
      of occurrences, and "no" sorts before "yes". */
  lemma UnseededExample()
    ensures Counted(None, [List([Str("yes")]), List([Str("no"), Str("yes")]), List([])])
      == Success(Tally([Str("no"), Str("yes")], map[Str("yes") := 1, Str("no") := 0]))
  {
    var yes, no := Str("yes"), Str("no");
    var converted, ps := [List([yes]), List([no, yes]), List([])], [yes, no, yes];
    PhrasesExample();
    assert AllPhrases(converted) == ps;
    UnseededTallyExample();
    var t := TallyAll(Seed([]), ps);
    assert t == Tally([yes, no], map[yes := 1, no := 0]);
    SortExample();
    assert HashFailure(Words(None)).None?;
    assert HashFailure(ps).None? by {
      assert forall i :: 0 <= i < |ps| ==> !Unhashable(ps[i]);
    }
    assert Counted(None, converted) == Success(Tally(SortBy(Text, t.keys), t.count));
  }


  lemma UnseededTallyExample()
    ensures TallyAll(Seed([]), [Str("yes"), Str("no"), Str("yes")])
      == Tally([Str("yes"), Str("no")], map[Str("yes") := 1, Str("no") := 0])
  {
    var yes, no := Str("yes"), Str("no");
    assert yes != no;
    var s := Tally([], map[]);
    assert Seed([]) == s;
    var t1 := Tally([yes], map[yes := 0]);
    var t2 := Tally([yes, no], map[yes := 0, no := 0]);
    var t3 := Tally([yes, no], map[yes := 1, no := 0]);
    assert Step(s, yes) == t1;
    assert [yes] + [no] == [yes, no];
    assert Step(t1, no) == t2;
    assert Step(t2, yes) == t3;
    TallyExample(s, t1, t2, t3);
  }

  lemma SortExample()
    ensures SortBy(Text, [Str("yes"), Str("no")]) == [Str("no"), Str("yes")]
  {
    var yes, no := Str("yes"), Str("no");
    assert [yes, no][..1] == [yes];
    assert "no"[0] == 'n' && "yes"[0] == 'y';
    assert TextLe("no", "yes");
    assert !TextLe("yes", "no");
    assert SortBy(Text, [yes]) == [yes];
  }

  /** The rows of a two-dimensional array are not lists: each is appended as one
      phrase, and counting it raises. */
  lemma ArrayRowsAreNotPhrases()
    ensures Counted(None, [Arr([Str("a"), Str("b")]), Arr([Str("c"), Str("d")])])
         == Failure(TypeError("unhashable type: 'numpy.ndarray'"))
  {
    var rows := [Arr([Str("a"), Str("b")]), Arr([Str("c"), Str("d")])];
    RowsArePhrases(rows);
    RowsFailToHash(rows);
    assert Words(None) == [] && HashFailure([]).None?;
  }

  /** Two rows of an array are appended whole. */
  lemma RowsArePhrases(rows: seq<Value>)
    requires |rows| == 2 && rows[0].Arr? && rows[1].Arr?
    ensures AllPhrases(rows) == rows
  {
    var first := rows[..1];
    assert first == [rows[0]] && first[..0] == [];
    assert AllPhrases(first) == AllPhrases([]) + Expand(rows[0]) == [rows[0]];
    assert rows[..|rows| - 1] == first;
    assert AllPhrases(rows) == [rows[0]] + Expand(rows[1]) == [rows[0], rows[1]];
    assert rows == [rows[0], rows[1]];
  }

  /** A row first among the phrases raises numpy's unhashable TypeError. */
  lemma RowsFailToHash(rows: seq<Value>)
    requires |rows| > 0 && rows[0].Arr?
    ensures HashFailure(rows) == Some(TypeError("unhashable type: 'numpy.ndarray'"))
  {
    assert FirstUnhashable(rows) == Some(0);
  }

  /** Numbers sort by their text too: 0.5 before 1.0 ... */
  lemma SortByTextFractions()
    ensures SortBy(Text, [Num(1.0), Num(0.5)]) == [Num(0.5), Num(1.0)]
  {
    FloatTextWhole();
    FloatTextHalf();
    assert TextLe("0.5", "1.0");
    assert !TextLe("1.0", "0.5");
    assert SortBy(Text, [Num(1.0)]) == [Num(1.0)];
  }

  /** ... and 10.0 before 9.0. */
  lemma SortByTextTens()
    ensures SortBy(Text, [Num(9.0), Num(10.0)]) == [Num(10.0), Num(9.0)]
  {
    FloatTextTens();
    assert TextLe("10.0", "9.0");
    assert !TextLe("9.0", "10.0");
    assert SortBy(Text, [Num(9.0)]) == [Num(9.0)];
  }
}
