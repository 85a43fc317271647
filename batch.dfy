/** `itemie/utils/batch.py`: `subitems` builds one item per (name, key, keyword
    arguments) triple, all of one class, with the key prefixed and the converter
    shared. */
module Batch {
  import opened Wrappers
  import opened Values
  import Convert
  import Items

  /** The item classes that `subitems` may be given. */
  datatype ItemClass = BaseItem | Item | MultiCodedItem | NumericItem | PhraseCount

  /** A keyword argument: left out, or given (possibly as `None`). */
  datatype Kw<T> = Absent | Given(value: Option<T>)

  /** One of the `kwargs` dicts: the keyword arguments an item constructor may
      take beyond name, key and converter (`phraseSeq` is the `seq` keyword). */
  datatype Kwargs = Kwargs(text: Kw<string>, reverseOffset: Kw<real>, phraseSeq: Kw<seq<Value>>)

  /** `{}`. */
  const NoKwargs := Kwargs(Absent, Absent, Absent)

  /** The value a keyword argument passes: `None` when it is left out. */
  function ValueOf<T>(k: Kw<T>): (r: Option<T>)
    ensures k.Absent? ==> r.None?
    ensures k.Given? ==> r == k.value
  {
    if k.Given? then k.value else None
  }

  /** The error Python raises for a keyword the constructor does not declare. */
  function Unexpected(keyword: string): Error
  {
    TypeError("__init__() got an unexpected keyword argument '" + keyword + "'")
  }

  /** Every class takes `text`; only NumericItem takes `reverse_offset`, and only
      PhraseCount takes `seq`. */
  predicate Accepts(cls: ItemClass, kw: Kwargs)
  {
    (kw.reverseOffset.Given? ==> cls == NumericItem) && (kw.phraseSeq.Given? ==> cls == PhraseCount)
  }

  /** What the class adds to BaseItem's constructor arguments. */
  function KindOf(cls: ItemClass, kw: Kwargs): Items.Kind
  {
    match cls
    case BaseItem => Items.Plain
    case Item => Items.Plain
    case MultiCodedItem => Items.MultiCoded
    case NumericItem => Items.Numeric(ValueOf(kw.reverseOffset))
    case PhraseCount => Items.PhraseCount(ValueOf(kw.phraseSeq))
  }

  /** `cls(name=name, key=key, converter=converter, **kw)`, as the constructor
      arguments it records. */
  function Make(cls: ItemClass, name: string, key: string, converter: Option<Convert.Converter>, kw: Kwargs): (r: Result<Items.Spec, Error>)
    ensures r.Success? <==> Accepts(cls, kw)
    ensures r.Failure? ==> r.error == Unexpected(if kw.reverseOffset.Given? && cls != NumericItem then "reverse_offset" else "seq")
    ensures r.Success? ==> r.value == Items.Spec(name, key, converter, ValueOf(kw.text), KindOf(cls, kw))
  {
    if kw.reverseOffset.Given? && cls != NumericItem then Failure(Unexpected("reverse_offset"))
    else if kw.phraseSeq.Given? && cls != PhraseCount then Failure(Unexpected("seq"))
    else Success(Items.Spec(name, key, converter, ValueOf(kw.text), KindOf(cls, kw)))
  }

  /** `kwargs`, or `[{}] * len(names)` when it is left out. */
  function KwargsFor(names: seq<string>, kwargs: Option<seq<Kwargs>>): (r: seq<Kwargs>)
    ensures kwargs.Some? ==> r == kwargs.value
    ensures kwargs.None? ==> |r| == |names| && forall i :: 0 <= i < |r| ==> r[i] == NoKwargs
  {
    if kwargs.Some? then kwargs.value else seq(|names|, _ => NoKwargs)
  }

  /** How many triples `zip(names, keys, kwargs)` yields: as many as the shortest list has. */
  function Count(names: seq<string>, keys: seq<string>, kws: seq<Kwargs>): (n: nat)
    ensures n <= |names| && n <= |keys| && n <= |kws|
    ensures n == |names| || n == |keys| || n == |kws|
  {
    if |names| <= |keys| && |names| <= |kws| then |names|
    else if |keys| <= |kws| then |keys|
    else |kws|
  }

  /** The items built for the first `k` triples: the first constructor that raises
      decides the error. */
  function SpecsUpTo(cls: ItemClass, prefix: string, names: seq<string>, keys: seq<string>,
                     converter: Option<Convert.Converter>, kws: seq<Kwargs>, k: nat): Result<seq<Items.Spec>, Error>
    requires k <= |names| && k <= |keys| && k <= |kws|
  {
    if k == 0 then Success([])
    else
      var init := SpecsUpTo(cls, prefix, names, keys, converter, kws, k - 1);
      var last := Make(cls, names[k - 1], prefix + keys[k - 1], converter, kws[k - 1]);
      if init.Failure? then init
      else if last.Failure? then Failure(last.error)
      else Success(init.value + [last.value])
  }

  /** The run succeeds exactly when the class takes every triple's keyword
      arguments, and then the `i`-th item is built from the `i`-th triple. */
  lemma {:induction false} SpecsFacts(cls: ItemClass, prefix: string, names: seq<string>, keys: seq<string>,
                                      converter: Option<Convert.Converter>, kws: seq<Kwargs>, k: nat)
    requires k <= |names| && k <= |keys| && k <= |kws|
    ensures SpecsUpTo(cls, prefix, names, keys, converter, kws, k).Success? <==> forall i :: 0 <= i < k ==> Accepts(cls, kws[i])
    ensures SpecsUpTo(cls, prefix, names, keys, converter, kws, k).Success? ==>
      && |SpecsUpTo(cls, prefix, names, keys, converter, kws, k).value| == k
      && forall i :: 0 <= i < k ==>
           SpecsUpTo(cls, prefix, names, keys, converter, kws, k).value[i] ==
           Items.Spec(names[i], prefix + keys[i], converter, ValueOf(kws[i].text), KindOf(cls, kws[i]))
  {
    if k > 0 {
      SpecsFacts(cls, prefix, names, keys, converter, kws, k - 1);
    }
  }

  /** The first triple whose keyword arguments the class does not take decides
      the error, whatever follows it. */
  lemma {:induction false} SpecsFailFirst(cls: ItemClass, prefix: string, names: seq<string>, keys: seq<string>,
                                          converter: Option<Convert.Converter>, kws: seq<Kwargs>, k: nat, j: nat)
    requires j < k <= |names| && k <= |keys| && k <= |kws|
    requires !Accepts(cls, kws[j]) && forall l :: 0 <= l < j ==> Accepts(cls, kws[l])
    ensures SpecsUpTo(cls, prefix, names, keys, converter, kws, k) == Failure(Make(cls, names[j], prefix + keys[j], converter, kws[j]).error)
  {
    if j < k - 1 {
      SpecsFailFirst(cls, prefix, names, keys, converter, kws, k - 1, j);
    } else {
      SpecsFacts(cls, prefix, names, keys, converter, kws, j);
    }
  }

  /** `subitems(cls, prefix, names, keys, converter, kwargs)`, as the constructor
      arguments of the items it returns. */
  function SubitemSpecs(cls: ItemClass, prefix: string, names: seq<string>, keys: seq<string>,
                        converter: Option<Convert.Converter>, kwargs: Option<seq<Kwargs>>): Result<seq<Items.Spec>, Error>
  {
    var kws := KwargsFor(names, kwargs);
    SpecsUpTo(cls, prefix, names, keys, converter, kws, Count(names, keys, kws))
  }

  /** `subitems` builds one item per triple of `zip(names, keys, kwargs)`, in
      order: the `i`-th has the `i`-th name, the prefixed `i`-th key, the shared
      converter and the `i`-th keyword arguments; it raises exactly when the class
      does not take some triple's keyword arguments. */
  lemma SubitemsFacts(cls: ItemClass, prefix: string, names: seq<string>, keys: seq<string>,
                      converter: Option<Convert.Converter>, kwargs: Option<seq<Kwargs>>)
    ensures var kws := KwargsFor(names, kwargs); var r := SubitemSpecs(cls, prefix, names, keys, converter, kwargs);
      && (r.Success? <==> forall i :: 0 <= i < Count(names, keys, kws) ==> Accepts(cls, kws[i]))
      && (r.Success? ==> |r.value| == Count(names, keys, kws) && forall i :: 0 <= i < |r.value| ==>
            && r.value[i].name == names[i] && r.value[i].key == prefix + keys[i] && r.value[i].converter == converter
            && r.value[i].text == ValueOf(kws[i].text) && r.value[i].kind == KindOf(cls, kws[i]))
  {
    var kws := KwargsFor(names, kwargs);
    SpecsFacts(cls, prefix, names, keys, converter, kws, Count(names, keys, kws));
  }

  /** Without `kwargs` no constructor raises, and there is one item per name
      that has a key. */
  lemma DefaultKwargs(cls: ItemClass, prefix: string, names: seq<string>, keys: seq<string>, converter: Option<Convert.Converter>)
    ensures var r := SubitemSpecs(cls, prefix, names, keys, converter, None);
      && r.Success? && |r.value| == (if |names| <= |keys| then |names| else |keys|)
      && forall i :: 0 <= i < |r.value| ==> r.value[i].text.None?
  {
    var kws := KwargsFor(names, None);
    SubitemsFacts(cls, prefix, names, keys, converter, None);
    forall i | 0 <= i < Count(names, keys, kws)
      ensures Accepts(cls, kws[i])
    {
      assert kws[i] == NoKwargs;
    }
  }

  /** One more triple: the run so far extends by the new item or raises the
      constructor's error. */
  lemma SpecsStep(cls: ItemClass, prefix: string, names: seq<string>, keys: seq<string>,
                  converter: Option<Convert.Converter>, kws: seq<Kwargs>, i: nat)
    requires i < |names| && i < |keys| && i < |kws|
    requires SpecsUpTo(cls, prefix, names, keys, converter, kws, i).Success?
    ensures var sp := Make(cls, names[i], prefix + keys[i], converter, kws[i]);
      SpecsUpTo(cls, prefix, names, keys, converter, kws, i + 1) ==
        if sp.Failure? then Failure(sp.error) else Success(SpecsUpTo(cls, prefix, names, keys, converter, kws, i).value + [sp.value])
  {
  }

  /** Once a constructor has raised, the later triples change nothing. */
  lemma {:induction false} SpecsSticks(cls: ItemClass, prefix: string, names: seq<string>, keys: seq<string>,
                                       converter: Option<Convert.Converter>, kws: seq<Kwargs>, k: nat, m: nat)
    requires k <= m <= |names| && m <= |keys| && m <= |kws|
    requires SpecsUpTo(cls, prefix, names, keys, converter, kws, k).Failure?
    ensures SpecsUpTo(cls, prefix, names, keys, converter, kws, m) == SpecsUpTo(cls, prefix, names, keys, converter, kws, k)
    decreases m
  {
    if k < m {
      SpecsSticks(cls, prefix, names, keys, converter, kws, k, m - 1);
    }
  }

  /** `subitems`: the loop over `zip(names, keys, kwargs)` constructs and appends
      one new item per triple; a constructor that raises ends the call. */
  method Subitems(cls: ItemClass, prefix: string, names: seq<string>, keys: seq<string>,
                  converter: Option<Convert.Converter>, kwargs: Option<seq<Kwargs>>) returns (r: Result<seq<Items.Item>, Error>)
    ensures var s := SubitemSpecs(cls, prefix, names, keys, converter, kwargs);
      && (r.Success? <==> s.Success?)
      && (r.Failure? ==> r.error == s.error)
      && (r.Success? ==> |r.value| == |s.value| && forall i :: 0 <= i < |r.value| ==>
            fresh(r.value[i]) && r.value[i].State() == Items.Initial && r.value[i].spec == s.value[i])
    ensures r.Success? ==> forall i, j :: 0 <= i < j < |r.value| ==> r.value[i] != r.value[j]
  {
    var kws := KwargsFor(names, kwargs);
    var n := Count(names, keys, kws);
    r := Construct(cls, prefix, names, keys, converter, kws, n);
  }

  /** The loop of `subitems` over its first `n` triples. */
  method Construct(cls: ItemClass, prefix: string, names: seq<string>, keys: seq<string>,
                   converter: Option<Convert.Converter>, kws: seq<Kwargs>, n: nat) returns (r: Result<seq<Items.Item>, Error>)
    requires n <= |names| && n <= |keys| && n <= |kws|
    ensures var s := SpecsUpTo(cls, prefix, names, keys, converter, kws, n);
      && (r.Success? <==> s.Success?)
      && (r.Failure? ==> r.error == s.error)
      && (r.Success? ==> |r.value| == |s.value| && forall i :: 0 <= i < |r.value| ==>
            fresh(r.value[i]) && r.value[i].State() == Items.Initial && r.value[i].spec == s.value[i])
    ensures r.Success? ==> forall i, j :: 0 <= i < j < |r.value| ==> r.value[i] != r.value[j]
  {
    var items: seq<Items.Item> := [];
    ghost var specs: seq<Items.Spec> := [];
    var i := 0;
    while i < n
      invariant 0 <= i <= n && |items| == i && |specs| == i
      invariant SpecsUpTo(cls, prefix, names, keys, converter, kws, i).Success?
      invariant SpecsUpTo(cls, prefix, names, keys, converter, kws, i).value == specs
      invariant forall j :: 0 <= j < i ==> fresh(items[j]) && items[j].State() == Items.Initial && items[j].spec == specs[j]
      invariant forall j, l :: 0 <= j < l < i ==> items[j] != items[l]
    {
      var spec := Make(cls, names[i], prefix + keys[i], converter, kws[i]);
      SpecsStep(cls, prefix, names, keys, converter, kws, i);
      if spec.Failure? {
        SpecsSticks(cls, prefix, names, keys, converter, kws, i + 1, n);
        return Failure(spec.error);
      }
      var item := new Items.Item(spec.value);
      assert item !in items;
      items := items + [item];
      specs := specs + [spec.value];
      i := i + 1;
    }
    r := Success(items);
  }
}
