/** `itemie/core/group.py`: a group is an insertion-ordered registry of items and
    other groups that broadcasts fit, transform and fit_transform to its members in
    order and assembles what they return. */
module Groups {
  import opened Wrappers
  import opened Values
  import opened Registry
  import Stats
  import Convert
  import Items
  import ItemFacts

  /** A member of a group or a survey: an item object, or a group. A group added
      to another group or to a survey is recorded with the members it had then. */
  datatype Node =
    | Leaf(item: Items.Item)
    | Branch(name: string, numeric: bool, assembleAs: string, children: seq<Node>)
  {
    /** The `name` property of the member. */
    function Name(): string
    {
      if Leaf? then item.spec.name else name
    }
  }

  /** What `add` was given: a list or tuple of members, or anything else. */
  datatype AddArg = Many(nodes: seq<Node>) | One(node: Node)

  /** `add` refers to a variable `item` that only the list branch defines. */
  const UndefinedItem := NameError("item")

  function NamesOf(ns: seq<Node>): (r: seq<string>)
    ensures |r| == |ns| && forall i :: 0 <= i < |ns| ==> r[i] == ns[i].Name()
  {
    seq(|ns|, i requires 0 <= i < |ns| => ns[i].Name())
  }

  /** The assignments `_items[m.name] = m` that adding the members makes. */
  function Entries(ns: seq<Node>): (r: seq<(string, Node)>)
    ensures r == Zip(NamesOf(ns), ns)
  {
    Zip(NamesOf(ns), ns)
  }

  /** A registry in which every member is stored under its own name. */
  predicate Keyed(d: Ordered<Node>)
  {
    d.Valid() && forall k :: k in d.at ==> d.at[k].Name() == k
  }

  // ---- assembling ----

  /** What `_assemble` builds: a (transposed) numpy array of the values, a dict
      from member names to values, or a data frame with the names as columns. */
  datatype Assembled<V> =
    | Array(rows: seq<V>)
    | Dict(entries: Ordered<V>)
    | Frame(index: Option<seq<string>>, columns: seq<string>, rows: seq<V>)

  /** `_assemble(values, assemble_as, index)` with the mode already resolved.
      `uniform` says whether the values all have one shape; when they do not,
      `np.array(values)` raises before an array or a frame is built. */
  function Assemble<V>(names: seq<string>, values: seq<V>, mode: string, index: Option<seq<string>>, uniform: bool): (r: Result<Assembled<V>, Error>)
    ensures r.Failure? <==> (mode != "array" && mode != "dict" && mode != "df") || (!uniform && mode != "dict")
    ensures r.Failure? ==> r.error == if mode == "array" || mode == "df" then Ragged else ValueError("assemble_as argument not understood: " + mode)
    ensures mode == "array" && uniform ==> r == Success(Array(values))
    ensures mode == "dict" ==> r == Success(Dict(ZipDict(names, values)))
    ensures mode == "df" && uniform ==> r == Success(Frame(index, names, values))
  {
    if mode == "array" then (if uniform then Success(Array(values)) else Failure(Ragged))
    else if mode == "dict" then Success(Dict(ZipDict(names, values)))
    else if mode == "df" then (if uniform then Success(Frame(index, names, values)) else Failure(Ragged))
    else Failure(ValueError("assemble_as argument not understood: " + mode))
  }

  /** Every shape equals the first (shapes list dimensions outermost first). */
  predicate Uniform(shapes: seq<seq<nat>>)
  {
    forall i :: 0 <= i < |shapes| ==> shapes[i] == shapes[0]
  }

  function Flipped(s: seq<nat>): (r: seq<nat>)
    ensures |r| == |s| && forall i :: 0 <= i < |s| ==> r[i] == s[|s| - 1 - i]
  {
    if |s| == 0 then [] else Flipped(s[1..]) + [s[0]]
  }

  /** The shape numpy sees in a column: its length, and also its rows' length when
      it is a two-dimensional array. */
  function ColumnShape(c: Column): (r: seq<nat>)
    ensures |r| > 0 && r[0] == |c.values|
  {
    if c.kind == ArrayC && Convert.Rectangular(c.values) then [|c.values|, |c.values[0].elems|] else [|c.values|]
  }

  /** A dict assembly pairs the `i`-th name with the `i`-th value, in order. */
  lemma AssembleDict<V>(names: seq<string>, values: seq<V>, uniform: bool)
    requires |names| == |values| && forall i, j :: 0 <= i < j < |names| ==> names[i] != names[j]
    ensures var r := Assemble(names, values, "dict", None, uniform);
      && r.Success? && r.value.Dict? && r.value.entries.Valid() && r.value.entries.keys == names
      && forall i :: 0 <= i < |names| ==> r.value.entries.at[names[i]] == values[i]
  {
    ZipDictFacts(names, values);
    assert names[..|names|] == names;
  }

  // ---- broadcasting fit, transform and fit_transform ----

  /** What a member's fit, transform or fit_transform returns: nothing (an item's
      fit), a column, or what a group assembled. */
  datatype Ret = Nothing | Col(col: Column) | Asm(assembled: Assembled<Ret>)

  /** The shape of what a member returned: `None` and a dict are scalars to numpy;
      an assembled array is the transpose of the array of its rows. */
  function Shape(r: Ret): seq<nat>
    decreases r
  {
    match r
    case Nothing => []
    case Col(c) => ColumnShape(c)
    case Asm(Dict(_)) => []
    case Asm(Array(rows)) => if |rows| == 0 then [0] else Flipped([|rows|] + Shape(rows[0]))
    case Asm(Frame(_, _, rows)) => if |rows| == 0 then [0] else Flipped([|rows|] + Shape(rows[0]))
  }

  /** The members' answers have one shape. */
  predicate SameShape(vs: seq<Ret>)
  {
    Uniform(seq(|vs|, i requires 0 <= i < |vs| => Shape(vs[i])))
  }

  /** An item's answer, which does not depend on the item's state. */
  function Answer(op: Items.Op, sp: Items.Spec, df: Table): Result<Ret, Error>
  {
    var a := Items.Run(op, sp, Items.Initial, df).1;
    if a.Failure? then Failure(a.error) else if a.value.None? then Success(Nothing) else Success(Col(a.value.value))
  }

  /** How each item answers a run: the broadcasting below only depends on that. */
  type Answers = Items.Spec -> Result<Ret, Error>

  /** The items' answers to `op` on `df`. */
  function AnswerOf(op: Items.Op, df: Table): Answers
  {
    sp => Answer(op, sp, df)
  }

  /** What running `op` on a member returns: a group runs its members in order,
      stops at the first that raises, and assembles the values in its own mode. */
  function Broadcast(ans: Answers, n: Node): (r: Result<Ret, Error>)
    decreases n
  {
    match n
    case Leaf(item) => ans(item.spec)
    case Branch(_, _, mode, cs) =>
      var vs :- BroadcastUpTo(ans, cs, |cs|);
      var a :- Assemble(NamesOf(cs), vs, mode, None, SameShape(vs));
      Success(Asm(a))
  }

  /** `[m.op(df) for m in members[:k]]`. */
  function BroadcastUpTo(ans: Answers, ns: seq<Node>, k: nat): (r: Result<seq<Ret>, Error>)
    requires k <= |ns|
    decreases ns, k
  {
    if k == 0 then Success([])
    else
      var init :- BroadcastUpTo(ans, ns, k - 1);
      var last :- Broadcast(ans, ns[k - 1]);
      Success(init + [last])
  }

  /** `[m.op(df) for m in members]`. */
  function BroadcastAll(ans: Answers, ns: seq<Node>): Result<seq<Ret>, Error>
  {
    BroadcastUpTo(ans, ns, |ns|)
  }

  /** The item objects inside a member. */
  ghost function Objects(n: Node): set<Items.Item>
    decreases n
  {
    match n
    case Leaf(item) => {item}
    case Branch(_, _, _, cs) => ObjectsAll(cs)
  }

  ghost function ObjectsAll(ns: seq<Node>): set<Items.Item>
    decreases ns, 1
  {
    ObjectsUpTo(ns, |ns|)
  }

  /** The item objects inside `ns[:k]`. */
  ghost function ObjectsUpTo(ns: seq<Node>, k: nat): set<Items.Item>
    requires k <= |ns|
    decreases ns, 0, k
  {
    if k == 0 then {} else ObjectsUpTo(ns, k - 1) + Objects(ns[k - 1])
  }

  /** The item objects inside `ns[:k]` are those inside one of its members. */
  lemma {:induction false} ObjectsUpToMembers(ns: seq<Node>, k: nat)
    requires k <= |ns|
    ensures forall i :: 0 <= i < k ==> Objects(ns[i]) <= ObjectsUpTo(ns, k)
    ensures forall o :: o in ObjectsUpTo(ns, k) ==> exists i :: 0 <= i < k && o in Objects(ns[i])
  {
    if k > 0 {
      ObjectsUpToMembers(ns, k - 1);
    }
  }

  /** The item objects that a run reaches: those of every member up to and
      including the first that raises. */
  ghost function Touched(ans: Answers, n: Node): set<Items.Item>
    decreases n
  {
    match n
    case Leaf(item) => {item}
    case Branch(_, _, _, cs) => TouchedUpTo(ans, cs, |cs|)
  }

  ghost function TouchedUpTo(ans: Answers, ns: seq<Node>, k: nat): set<Items.Item>
    requires k <= |ns|
    decreases ns, k
  {
    if k == 0 then {}
    else if BroadcastUpTo(ans, ns, k - 1).Failure? then TouchedUpTo(ans, ns, k - 1)
    else TouchedUpTo(ans, ns, k - 1) + Touched(ans, ns[k - 1])
  }

  ghost function TouchedAll(ans: Answers, ns: seq<Node>): set<Items.Item>
  {
    TouchedUpTo(ans, ns, |ns|)
  }

  /** The state of `o` after the run, given its state `s` before: an item that was
      reached has run `op` (once or several times, which is the same), the others
      are as they were. */
  ghost function After(op: Items.Op, o: Items.Item, s: Items.ItemState, touched: set<Items.Item>, df: Table): Items.ItemState
  {
    if o in touched then Items.Run(op, o.spec, s, df).0 else s
  }

  lemma AfterCompose(op: Items.Op, o: Items.Item, s: Items.ItemState, t1: set<Items.Item>, t2: set<Items.Item>, df: Table)
    ensures After(op, o, After(op, o, s, t1, df), t2, df) == After(op, o, s, t1 + t2, df)
  {
    if o in t1 && o in t2 {
      ItemFacts.RunIdempotent(op, o.spec, s, df);
    }
  }

  lemma {:induction false} TouchedWithin(ans: Answers, n: Node)
    ensures Touched(ans, n) <= Objects(n)
    decreases n
  {
    match n
    case Leaf(_) =>
    case Branch(_, _, _, cs) => TouchedUpToWithin(ans, cs, |cs|);
  }

  lemma {:induction false} TouchedUpToWithin(ans: Answers, ns: seq<Node>, k: nat)
    requires k <= |ns|
    ensures TouchedUpTo(ans, ns, k) <= ObjectsUpTo(ns, k)
    decreases ns, k
  {
    if k > 0 {
      TouchedUpToWithin(ans, ns, k - 1);
      TouchedWithin(ans, ns[k - 1]);
    }
  }

  /** One more member: the broadcast so far extends by its answer or raises its
      error, and the member's items are reached either way. */
  lemma StepUpTo(ans: Answers, ns: seq<Node>, i: nat)
    requires i < |ns| && BroadcastUpTo(ans, ns, i).Success?
    ensures Broadcast(ans, ns[i]).Failure? ==> BroadcastUpTo(ans, ns, i + 1) == Failure(Broadcast(ans, ns[i]).error)
    ensures Broadcast(ans, ns[i]).Success? ==>
      BroadcastUpTo(ans, ns, i + 1) == Success(BroadcastUpTo(ans, ns, i).value + [Broadcast(ans, ns[i]).value])
    ensures TouchedUpTo(ans, ns, i + 1) == TouchedUpTo(ans, ns, i) + Touched(ans, ns[i])
  {
  }

  /** Once the first `k` members raise, the run's answer and the items it
      reaches are those of the first `k`. */
  lemma {:induction false} FailureSticks(ans: Answers, ns: seq<Node>, k: nat, m: nat)
    requires k <= m <= |ns| && BroadcastUpTo(ans, ns, k).Failure?
    ensures BroadcastUpTo(ans, ns, m) == BroadcastUpTo(ans, ns, k)
    ensures TouchedUpTo(ans, ns, m) == TouchedUpTo(ans, ns, k)
    decreases m
  {
    if k < m {
      FailureSticks(ans, ns, k, m - 1);
    }
  }

  /** The item objects of a member exist as long as the member does. */
  lemma {:induction false} Allocated(n: Node)
    requires allocated(n)
    ensures forall o :: o in Objects(n) ==> allocated(o)
    decreases n
  {
    match n
    case Leaf(_) =>
    case Branch(_, _, _, cs) => AllocatedAll(cs);
  }

  lemma {:induction false} AllocatedAll(ns: seq<Node>)
    requires allocated(ns)
    ensures forall o :: o in ObjectsAll(ns) ==> allocated(o)
    decreases ns
  {
    forall i | 0 <= i < |ns|
      ensures forall o :: o in Objects(ns[i]) ==> allocated(o)
    {
      assert allocated(ns[i]);
      Allocated(ns[i]);
    }
    ObjectsUpToMembers(ns, |ns|);
  }

  /** Run `op` on one member: an item runs it, a group broadcasts it. */
  method RunNode(op: Items.Op, n: Node, df: Table) returns (r: Result<Ret, Error>)
    modifies Objects(n)
    ensures r == Broadcast(AnswerOf(op, df), n)
    ensures forall o :: o in Objects(n) && old(allocated(o)) ==> o.State() == After(op, o, old(o.State()), Touched(AnswerOf(op, df), n), df)
    decreases n
  {
    match n
    case Leaf(item) =>
      var a := item.Apply(op, df);
      ItemFacts.RunAnswerIgnoresState(op, item.spec, old(item.State()), Items.Initial, df);
      if a.Failure? {
        r := Failure(a.error);
      } else if a.value.None? {
        r := Success(Nothing);
      } else {
        r := Success(Col(a.value.value));
      }
    case Branch(_, _, mode, cs) =>
      var vs := RunNodes(op, cs, df, ObjectsAll(cs));
      if vs.Failure? {
        r := Failure(vs.error);
      } else {
        var a := Assemble(NamesOf(cs), vs.value, mode, None, SameShape(vs.value));
        r := if a.Failure? then Failure(a.error) else Success(Asm(a.value));
      }
  }

  /** `[m.op(df) for m in members]`: the members in order, up to the first that raises. */
  method RunNodes(op: Items.Op, ns: seq<Node>, df: Table, ghost objs: set<Items.Item>) returns (r: Result<seq<Ret>, Error>)
    requires objs == ObjectsAll(ns)
    modifies objs
    ensures r == BroadcastAll(AnswerOf(op, df), ns)
    ensures forall o :: o in objs && old(allocated(o)) ==> o.State() == After(op, o, old(o.State()), TouchedAll(AnswerOf(op, df), ns), df)
    decreases ns, 1
  {
    AllocatedAll(ns);
    ghost var ans := AnswerOf(op, df);
    ghost var entry := map o | o in objs :: o.State();
    ghost var reached := {};
    r := Success([]);
    var i := 0;
    while i < |ns| && r.Success?
      invariant 0 <= i <= |ns|
      invariant r == BroadcastUpTo(ans, ns, i)
      invariant reached == TouchedUpTo(ans, ns, i) && StatesAre(op, objs, entry, reached, df)
    {
      var x;
      x, r, reached := RunMember(op, ns, i, df, r.value, objs, entry, reached);
      i := i + 1;
    }
    if r.Failure? {
      FailureSticks(ans, ns, i, |ns|);
    }
  }

  /** Every item object in `objs` is in the state a run reaching `touched` leaves
      it in, from its state in `entry`. */
  ghost predicate StatesAre(op: Items.Op, objs: set<Items.Item>, entry: map<Items.Item, Items.ItemState>, touched: set<Items.Item>, df: Table)
    reads objs
  {
    forall o :: o in objs ==> o in entry && o.State() == After(op, o, entry[o], touched, df)
  }

  /** Run `op` on the `i`-th member once the members before it have returned. */
  method RunMember(op: Items.Op, ns: seq<Node>, i: nat, df: Table, done: seq<Ret>, ghost objs: set<Items.Item>,
                   ghost entry: map<Items.Item, Items.ItemState>, ghost before: set<Items.Item>)
    returns (x: Result<Ret, Error>, r: Result<seq<Ret>, Error>, ghost after: set<Items.Item>)
    requires i < |ns| && objs == ObjectsAll(ns) && forall o :: o in objs ==> allocated(o)
    requires BroadcastUpTo(AnswerOf(op, df), ns, i) == Success(done)
    requires before == TouchedUpTo(AnswerOf(op, df), ns, i) && StatesAre(op, objs, entry, before, df)
    modifies objs
    ensures x == Broadcast(AnswerOf(op, df), ns[i])
    ensures r == BroadcastUpTo(AnswerOf(op, df), ns, i + 1)
    ensures after == TouchedUpTo(AnswerOf(op, df), ns, i + 1) && StatesAre(op, objs, entry, after, df)
    decreases ns, 0
  {
    ghost var ans := AnswerOf(op, df);
    MemberWithin(ns, i);
    TouchedWithin(ans, ns[i]);
    StepUpTo(ans, ns, i);
    ghost var mid := map o | o in objs :: o.State();
    x := RunNode(op, ns[i], df);
    ghost var post := map o | o in objs :: o.State();
    Compose(op, objs, entry, mid, post, before, Touched(ans, ns[i]), df);
    after := before + Touched(ans, ns[i]);
    r := if x.Failure? then Failure(x.error) else Success(done + [x.value]);
  }

  lemma MemberWithin(ns: seq<Node>, i: nat)
    requires i < |ns|
    ensures Objects(ns[i]) <= ObjectsAll(ns)
  {
    ObjectsUpToMembers(ns, |ns|);
  }

  /** Running the members reached so far and then one more member is one run
      over both sets of reached items. */
  lemma Compose(op: Items.Op, objs: set<Items.Item>, entry: map<Items.Item, Items.ItemState>, mid: map<Items.Item, Items.ItemState>,
                post: map<Items.Item, Items.ItemState>, before: set<Items.Item>, now: set<Items.Item>, df: Table)
    requires forall o :: o in objs ==> o in entry && o in mid && o in post
    requires forall o :: o in objs ==> mid[o] == After(op, o, entry[o], before, df)
    requires forall o :: o in objs ==> post[o] == After(op, o, mid[o], now, df)
    ensures forall o :: o in objs ==> post[o] == After(op, o, entry[o], before + now, df)
  {
    forall o | o in objs
      ensures post[o] == After(op, o, entry[o], before + now, df)
    {
      AfterCompose(op, o, entry[o], before, now, df);
    }
  }

  /** A broadcast that returns has reached every item object of the member. */
  lemma {:induction false} SuccessTouchesAll(ans: Answers, n: Node)
    requires Broadcast(ans, n).Success?
    ensures Touched(ans, n) == Objects(n)
    decreases n
  {
    match n
    case Leaf(_) =>
    case Branch(_, _, _, cs) =>
      SuccessTouchesUpTo(ans, cs, |cs|);
  }

  lemma {:induction false} SuccessTouchesUpTo(ans: Answers, ns: seq<Node>, k: nat)
    requires k <= |ns| && BroadcastUpTo(ans, ns, k).Success?
    ensures TouchedUpTo(ans, ns, k) == ObjectsUpTo(ns, k)
    decreases ns, k
  {
    if k > 0 {
      SuccessTouchesUpTo(ans, ns, k - 1);
      SuccessTouchesAll(ans, ns[k - 1]);
    }
  }

  /** The broadcast succeeds exactly when every member does. */
  lemma {:induction false} BroadcastSucceeds(ans: Answers, ns: seq<Node>, k: nat)
    requires k <= |ns|
    ensures BroadcastUpTo(ans, ns, k).Success? <==> forall i :: 0 <= i < k ==> Broadcast(ans, ns[i]).Success?
  {
    if k > 0 {
      BroadcastSucceeds(ans, ns, k - 1);
      assert BroadcastUpTo(ans, ns, k).Success? <==> BroadcastUpTo(ans, ns, k - 1).Success? && Broadcast(ans, ns[k - 1]).Success?;
    }
  }

  /** A broadcast that succeeds returns each member's answer in member order. */
  lemma {:induction false} BroadcastValues(ans: Answers, ns: seq<Node>, k: nat)
    requires k <= |ns| && BroadcastUpTo(ans, ns, k).Success?
    ensures |BroadcastUpTo(ans, ns, k).value| == k
    ensures forall i :: 0 <= i < k ==> Broadcast(ans, ns[i]).Success? && BroadcastUpTo(ans, ns, k).value[i] == Broadcast(ans, ns[i]).value
  {
    if k > 0 {
      BroadcastValues(ans, ns, k - 1);
    }
  }

  /** A broadcast that raises raises the error of the first member that raises. */
  lemma {:induction false} FailureIsFirst(ans: Answers, ns: seq<Node>, k: nat)
    requires k <= |ns| && BroadcastUpTo(ans, ns, k).Failure?
    ensures exists j :: && 0 <= j < k && Broadcast(ans, ns[j]).Failure?
                        && BroadcastUpTo(ans, ns, k).error == Broadcast(ans, ns[j]).error
                        && forall l :: 0 <= l < j ==> Broadcast(ans, ns[l]).Success?
  {
    if BroadcastUpTo(ans, ns, k - 1).Failure? {
      FailureIsFirst(ans, ns, k - 1);
      assert BroadcastUpTo(ans, ns, k) == BroadcastUpTo(ans, ns, k - 1);
    } else {
      BroadcastSucceeds(ans, ns, k - 1);
      StepUpTo(ans, ns, k - 1);
      var j := k - 1;
      assert Broadcast(ans, ns[j]).Failure? && BroadcastUpTo(ans, ns, k).error == Broadcast(ans, ns[j]).error;
    }
  }

  // ---- the group object ----

  /** The views `values` returns for a member: an item's view, or the
      per-respondent means of a NumericGroup. */
  datatype NodeView = ItemView(view: Items.View) | Means(xs: seq<Option<real>>)

  /** The shape numpy sees in a view: `None` and a dict of counts are scalars. */
  function ViewShape(v: NodeView): seq<nat>
  {
    match v
    case Means(xs) => [|xs|]
    case ItemView(Cells(c)) => ColumnShape(c)
    case ItemView(Floats(xs)) => [|xs|]
    case ItemView(_) => []
  }

  /** The views have one shape. */
  predicate SameViewShape(vs: seq<NodeView>)
  {
    Uniform(seq(|vs|, i requires 0 <= i < |vs| => ViewShape(vs[i])))
  }

  /** A member's `values(typ=typ)`; a BaseGroup has no `values` method. */
  function NodeValues(n: Node, typ: Option<string>, sqrt: real -> real): Result<NodeView, Error>
    reads Objects(n)
    decreases n, 1
  {
    match n
    case Leaf(item) =>
      var v :- item.Values(typ, sqrt);
      Success(ItemView(v))
    case Branch(_, numeric, _, cs) =>
      if !numeric then Failure(AttributeError("values"))
      else
        var m :- GroupMeans(cs, typ, sqrt);
        Success(Means(m))
  }

  /** `[m.values(typ=typ) for m in members[:k]]`: the first member that raises
      decides the error. */
  function AllValues(ns: seq<Node>, k: nat, typ: Option<string>, sqrt: real -> real): (r: Result<seq<NodeView>, Error>)
    requires k <= |ns|
    reads ObjectsAll(ns)
    ensures r.Success? <==> forall i :: 0 <= i < k ==> NodeValues(ns[i], typ, sqrt).Success?
    ensures r.Success? ==> |r.value| == k && forall i :: 0 <= i < k ==> r.value[i] == NodeValues(ns[i], typ, sqrt).value
    decreases ns, 0, k
  {
    if k == 0 then Success([])
    else
      MemberWithin(ns, k - 1);
      var init := AllValues(ns, k - 1, typ, sqrt);
      var last := NodeValues(ns[k - 1], typ, sqrt);
      if init.Failure? then Failure(init.error)
      else if last.Failure? then Failure(last.error)
      else
        var vs := init.value + [last.value];
        assert forall i :: 0 <= i < k - 1 ==> vs[i] == init.value[i];
        Success(vs)
  }

  /** A view as numbers, as numpy's `nanmean` would consume it. */
  function Numbers(v: NodeView): Result<seq<Option<real>>, Error>
  {
    match v
    case Means(xs) => Success(xs)
    case ItemView(Cells(c)) => Stats.Numbers(c.values)
    case ItemView(Floats(xs)) => Success(xs)
    case ItemView(_) => Failure(Stats.NonNumeric)
  }

  function NumberColumns(vs: seq<NodeView>): (r: Result<seq<seq<Option<real>>>, Error>)
    ensures r.Success? <==> forall i :: 0 <= i < |vs| ==> Numbers(vs[i]).Success?
    ensures r.Success? ==> |r.value| == |vs| && forall i :: 0 <= i < |vs| ==> r.value[i] == Numbers(vs[i]).value
  {
    if |vs| == 0 then Success([])
    else
      var init := vs[..|vs| - 1];
      assert forall i :: 0 <= i < |init| ==> init[i] == vs[i];
      var cs :- NumberColumns(init);
      var c :- Numbers(vs[|vs| - 1]);
      Success(cs + [c])
  }

  /** `NumericGroup.values(typ)`: per respondent, the mean over the members of
      their non-missing values. `np.array` first refuses views of different shapes. */
  function GroupMeans(ns: seq<Node>, typ: Option<string>, sqrt: real -> real): (r: Result<seq<Option<real>>, Error>)
    reads ObjectsAll(ns)
    decreases ns, 1
  {
    var vs :- AllValues(ns, |ns|, typ, sqrt);
    if !SameViewShape(vs) then Failure(Ragged)
    else
      var cols :- NumberColumns(vs);
      MeansOf(cols)
  }

  /** `r` holds, for each respondent, the NaN-aware mean of the columns' cells
      for that respondent; the columns all have one cell per respondent. */
  predicate RowMeansOf(cols: seq<seq<Option<real>>>, r: seq<Option<real>>)
  {
    && |cols| > 0 && (forall c :: c in cols ==> |c| == |cols[0]|)
    && |r| == |cols[0]|
    && forall row :: 0 <= row < |r| ==> r[row] == Stats.NanMean(Stats.Row(cols, |cols[0]|, row))
  }

  /** What a NumericGroup's `values` returns: every member's values as numbers, one
      column per member, and for each respondent the NaN-aware mean across them. */
  lemma GroupMeansMeaning(ns: seq<Node>, typ: Option<string>, sqrt: real -> real)
    requires GroupMeans(ns, typ, sqrt).Success?
    ensures AllValues(ns, |ns|, typ, sqrt).Success?
    ensures NumberColumns(AllValues(ns, |ns|, typ, sqrt).value).Success?
    ensures var cols := NumberColumns(AllValues(ns, |ns|, typ, sqrt).value).value;
      |cols| == |ns| && RowMeansOf(cols, GroupMeans(ns, typ, sqrt).value)
  {
  }

  /** `np.nanmean(np.array(cols).T, axis=1)`. */
  function MeansOf(cols: seq<seq<Option<real>>>): (r: Result<seq<Option<real>>, Error>)
    ensures |cols| == 0 ==> r == Failure(AxisError)
    ensures r.Success? <==> |cols| > 0 && forall c :: c in cols ==> |c| == |cols[0]|
    ensures r.Success? ==> |r.value| == |cols[0]| && forall row :: 0 <= row < |cols[0]| ==>
      r.value[row] == Stats.NanMean(Stats.Row(cols, |cols[0]|, row))
  {
    if |cols| == 0 then Failure(AxisError)
    else if exists c :: c in cols && |c| != |cols[0]| then Failure(Ragged)
    else Success(Stats.RowMeans(cols, |cols[0]|))
  }

  /** `[m.mean for m in members[:k]]`; only a NumericItem has a mean. */
  function MeansOfMembers(ns: seq<Node>, k: nat): (r: Result<seq<Option<real>>, Error>)
    requires k <= |ns|
    reads ObjectsAll(ns)
    ensures r.Success? <==> forall i :: 0 <= i < k ==> ns[i].Leaf? && ns[i].item.spec.kind.Numeric? && ns[i].item.mean.Set?
    ensures r.Success? ==> |r.value| == k && forall i :: 0 <= i < k ==> r.value[i] == ns[i].item.mean.value
  {
    if k == 0 then Success([])
    else
      MemberWithin(ns, k - 1);
      var ms :- MeansOfMembers(ns, k - 1);
      var last := ns[k - 1];
      var m :- if last.Leaf? then Items.MeanOf(last.item.spec, last.item.State()) else Failure(AttributeError("mean"));
      Success(ms + [m])
  }

  /** Unpacking `labels, _ = frame` iterates the frame's column names. */
  function UnpackError(k: nat): Error
  {
    if k > 2 then ValueError("too many values to unpack (expected 2)")
    else ValueError("not enough values to unpack (expected 2, got " + NatText(k) + ")")
  }

  /** `frame[1]` on a frame whose columns are member names. */
  const NoColumnOne := KeyError(Num(1.0))

  /** `labels, _ = m.stats()` for the first member. A group's `stats()` is its
      statistics frame; unpacking it needs exactly two columns, and with two the
      comprehension that follows indexes that same frame with `1`. */
  function FirstLabels(n: Node, sqrt: real -> real): (r: Result<seq<string>, Error>)
    reads Objects(n)
    ensures r.Success? ==> n.Leaf? && n.item.StatsRow(sqrt).Success? && r.value == Items.StatLabels
    decreases n, 0
  {
    match n
    case Leaf(item) =>
      var p :- item.StatsRow(sqrt);
      Success(p.0)
    case Branch(_, _, _, cs) =>
      var inner := StatsOf(cs, "df", sqrt);
      if inner.Failure? then Failure(inner.error)
      else if |cs| != 2 then Failure(UnpackError(|cs|))
      else Failure(NoColumnOne)
  }

  /** `m.stats()[1]`: a NumericItem's values; a group's frame has no column `1`. */
  function RowOf(n: Node, sqrt: real -> real): (r: Result<seq<Option<real>>, Error>)
    reads Objects(n)
    ensures n.Leaf? ==> (r.Success? <==> n.item.StatsRow(sqrt).Success?)
    ensures r.Success? ==> n.Leaf? && n.item.StatsRow(sqrt).Success? && r.value == n.item.StatsRow(sqrt).value.1
    decreases n, 0
  {
    match n
    case Leaf(item) =>
      var p :- item.StatsRow(sqrt);
      Success(p.1)
    case Branch(_, _, _, cs) =>
      var inner := StatsOf(cs, "df", sqrt);
      if inner.Failure? then Failure(inner.error) else Failure(NoColumnOne)
  }

  /** `[m.stats()[1] for m in members[:k]]`. */
  function StatRows(ns: seq<Node>, k: nat, sqrt: real -> real): (r: Result<seq<seq<Option<real>>>, Error>)
    requires k <= |ns|
    reads ObjectsAll(ns)
    ensures r.Success? <==> forall i :: 0 <= i < k ==> RowOf(ns[i], sqrt).Success?
    ensures r.Success? ==> |r.value| == k && forall i :: 0 <= i < k ==> r.value[i] == RowOf(ns[i], sqrt).value
    decreases ns, 1, k
  {
    if k == 0 then Success([])
    else
      MemberWithin(ns, k - 1);
      var rows :- StatRows(ns, k - 1, sqrt);
      var row :- RowOf(ns[k - 1], sqrt);
      Success(rows + [row])
  }

  /** `stats(assemble_as)`: the first member's labels index one row of values per member. */
  function StatsOf(ns: seq<Node>, mode: string, sqrt: real -> real): (r: Result<Assembled<seq<Option<real>>>, Error>)
    reads ObjectsAll(ns)
    ensures |ns| == 0 ==> r == Failure(IndexError("list index out of range"))
    ensures r.Success? ==> |ns| > 0 && forall i :: 0 <= i < |ns| ==> ns[i].Leaf? && ns[i].item.spec.kind.Numeric?
    ensures mode == "df" && r.Success? ==>
      && r.value.Frame? && r.value.index == Some(Items.StatLabels) && r.value.columns == NamesOf(ns)
      && |r.value.rows| == |ns|
      && forall i :: 0 <= i < |ns| ==> ns[i].item.StatsRow(sqrt).Success? && r.value.rows[i] == ns[i].item.StatsRow(sqrt).value.1
    decreases ns, 2
  {
    if |ns| == 0 then Failure(IndexError("list index out of range"))
    else
      MemberWithin(ns, 0);
      var labels :- FirstLabels(ns[0], sqrt);
      var rows :- StatRows(ns, |ns|, sqrt);
      Assemble(NamesOf(ns), rows, mode, Some(labels), forall i :: 0 <= i < |rows| ==> |rows[i]| == |rows[0]|)
  }

  /** `stats` returns exactly when there are members, the mode is known, and every
      member is an item whose own `stats()` returns. */
  lemma StatsOfSucceeds(ns: seq<Node>, mode: string, sqrt: real -> real)
    ensures StatsOf(ns, mode, sqrt).Success? <==>
      && |ns| > 0 && (mode == "array" || mode == "dict" || mode == "df")
      && forall i :: 0 <= i < |ns| ==> ns[i].Leaf? && ns[i].item.StatsRow(sqrt).Success?
  {
    if |ns| > 0 && FirstLabels(ns[0], sqrt).Success? && StatRows(ns, |ns|, sqrt).Success? {
      var rows := StatRows(ns, |ns|, sqrt).value;
      forall i | 0 <= i < |ns|
        ensures ns[i].Leaf? && ns[i].item.StatsRow(sqrt).Success? && |rows[i]| == |rows[0]|
      {
        MemberWithin(ns, i);
        assert RowOf(ns[i], sqrt).Success?;
      }
    } else if |ns| > 0 && FirstLabels(ns[0], sqrt).Success? {
      var i :| 0 <= i < |ns| && RowOf(ns[i], sqrt).Failure?;
      MemberWithin(ns, i);
    } else if |ns| > 0 {
      MemberWithin(ns, 0);
    }
  }

  /** When the first member is a group, `stats` raises: what the group's own
      `stats()` raises, else the unpacking error for a frame without exactly two
      columns, else KeyError from indexing that frame with `1`. */
  lemma StatsOfNestedFirst(ns: seq<Node>, mode: string, sqrt: real -> real)
    requires |ns| > 0 && ns[0].Branch?
    ensures var cs := ns[0].children; var inner := StatsOf(cs, "df", sqrt);
      StatsOf(ns, mode, sqrt) == Failure(if inner.Failure? then inner.error else if |cs| != 2 then UnpackError(|cs|) else NoColumnOne)
  {
  }

  /** A later member that is a group makes `stats` raise too, unless an earlier
      member raised first. */
  lemma {:induction false} StatRowsNested(ns: seq<Node>, k: nat, j: nat, sqrt: real -> real)
    requires j < k <= |ns| && ns[j].Branch?
    ensures StatRows(ns, k, sqrt).Failure?
    ensures (forall i :: 0 <= i < j ==> RowOf(ns[i], sqrt).Success?) ==>
      var inner := StatsOf(ns[j].children, "df", sqrt);
      StatRows(ns, k, sqrt).error == if inner.Failure? then inner.error else NoColumnOne
    decreases k
  {
    if j < k - 1 {
      StatRowsNested(ns, k - 1, j, sqrt);
    } else if StatRows(ns, k - 1, sqrt).Failure? {
      var i :| 0 <= i < k - 1 && RowOf(ns[i], sqrt).Failure?;
    }
  }

  /** One more member's answer, when it and the earlier ones succeed. */
  lemma BroadcastUpToStep(ans: Answers, ns: seq<Node>, k: nat)
    requires 0 < k <= |ns|
    requires BroadcastUpTo(ans, ns, k - 1).Success? && Broadcast(ans, ns[k - 1]).Success?
    ensures BroadcastUpTo(ans, ns, k) == Success(BroadcastUpTo(ans, ns, k - 1).value + [Broadcast(ans, ns[k - 1]).value])
    ensures k == 1 ==> BroadcastUpTo(ans, ns, k) == Success([Broadcast(ans, ns[0]).value])
  {
    if k == 1 {
      var a := Broadcast(ans, ns[0]).value;
      assert BroadcastUpTo(ans, ns, 0) == Success([]);
      assert BroadcastUpTo(ans, ns, 1) == Success(BroadcastUpTo(ans, ns, 0).value + [a]);
      assert BroadcastUpTo(ans, ns, 0).value + [a] == [a];
    }
  }

  /** numpy cannot stack an item's `None` beside a nested group's array of two
      `None`s: a group in array mode whose fit reaches both raises ValueError. */
  lemma FitBesideNestedGroupIsRagged(ans: Answers, x: Items.Item, y: Items.Item, z: Items.Item, name: string, inner: string, numeric: bool)
    requires ans(x.spec) == Success(Nothing) && ans(y.spec) == Success(Nothing) && ans(z.spec) == Success(Nothing)
    ensures Broadcast(ans, Branch(name, numeric, "array", [Leaf(x), Branch(inner, numeric, "array", [Leaf(y), Leaf(z)])])) == Failure(Ragged)
  {
    var g := NestedPair(ans, x, y, z, inner, numeric);
    var vs := [Nothing, Asm(Array([Nothing, Nothing]))];
    assert BroadcastUpTo(ans, [Leaf(x), g], 2) == Success(vs);
    assert Shape(vs[1]) == [2];
    assert !SameShape(vs) by {
      var shapes := seq(|vs|, i requires 0 <= i < |vs| => Shape(vs[i]));
      assert shapes[1] != shapes[0];
    }
  }

  /** The same members in a dict-mode group assemble: a dict is not an array. */
  lemma FitBesideNestedGroupAsDict(ans: Answers, x: Items.Item, y: Items.Item, z: Items.Item, name: string, inner: string, numeric: bool)
    requires ans(x.spec) == Success(Nothing) && ans(y.spec) == Success(Nothing) && ans(z.spec) == Success(Nothing)
    ensures Broadcast(ans, Branch(name, numeric, "dict", [Leaf(x), Branch(inner, numeric, "array", [Leaf(y), Leaf(z)])])).Success?
  {
    var g := NestedPair(ans, x, y, z, inner, numeric);
  }

  /** The answers of an item beside a nested group of two items, all `None`. */
  lemma NestedPair(ans: Answers, x: Items.Item, y: Items.Item, z: Items.Item, inner: string, numeric: bool) returns (g: Node)
    requires ans(x.spec) == Success(Nothing) && ans(y.spec) == Success(Nothing) && ans(z.spec) == Success(Nothing)
    ensures g == Branch(inner, numeric, "array", [Leaf(y), Leaf(z)])
    ensures Broadcast(ans, g) == Success(Asm(Array([Nothing, Nothing])))
    ensures BroadcastUpTo(ans, [Leaf(x), g], 2) == Success([Nothing, Asm(Array([Nothing, Nothing]))])
  {
    var kids := [Leaf(y), Leaf(z)];
    g := Branch(inner, numeric, "array", kids);
    assert Broadcast(ans, kids[0]) == ans(y.spec) && Broadcast(ans, kids[1]) == ans(z.spec);
    BroadcastUpToStep(ans, kids, 1);
    assert BroadcastUpTo(ans, kids, 1).value == [Nothing];
    BroadcastUpToStep(ans, kids, 2);
    assert BroadcastUpTo(ans, kids, 2).value == [Nothing] + [Nothing];
    var vs: seq<Ret> := [Nothing, Nothing];
    assert [Nothing] + [Nothing] == vs;
    assert BroadcastUpTo(ans, kids, 2).Success?;
    assert BroadcastUpTo(ans, kids, 2) == Success(vs);
    assert SameShape(vs) by {
      var shapes := seq(|vs|, i requires 0 <= i < |vs| => Shape(vs[i]));
      assert shapes == [[], []];
    }
    assert Broadcast(ans, g) == Success(Asm(Array(vs)));
    var cs := [Leaf(x), g];
    assert Broadcast(ans, cs[0]) == ans(x.spec);
    BroadcastUpToStep(ans, cs, 1);
    assert BroadcastUpTo(ans, cs, 1).value == [Nothing];
    BroadcastUpToStep(ans, cs, 2);
    assert BroadcastUpTo(ans, cs, 2).value == [Nothing] + [Asm(Array(vs))];
    assert [Nothing] + [Asm(Array(vs))] == [Nothing, Asm(Array(vs))];
  }

  /** `BaseGroup` and `NumericGroup`. `numeric` tells the two classes apart. */
  class Group {
    const name: string
    const numeric: bool
    const assembleAs: string
    var items: Ordered<Node>

    /** Members are stored under their names, and the mode passed the assertion of `__init__`. */
    predicate Valid()
      reads this
    {
      Keyed(items) && (assembleAs == "array" || assembleAs == "dict")
    }

    /** The group as a member of another group or of a survey: its members as they are now. */
    function AsNode(): Node
      reads this
      requires Valid()
    {
      Branch(name, numeric, assembleAs, items.Values())
    }

    /** The item objects the group's members hold. */
    ghost function Footprint(): set<Items.Item>
      reads this
      requires Valid()
    {
      ObjectsAll(items.Values())
    }

    constructor Empty(name: string, assembleAs: string, numeric: bool)
      requires assembleAs == "array" || assembleAs == "dict"
      ensures Valid() && this.name == name && this.assembleAs == assembleAs && this.numeric == numeric
      ensures items == Registry.Empty()
    {
      this.name, this.assembleAs, this.numeric := name, assembleAs, numeric;
      items := Registry.Empty();
    }

    /** `__init__(name, items, assemble_as)`: the mode is asserted, then the
        members, if any, are added. */
    static method New(name: string, items: Option<AddArg>, assembleAs: string, numeric: bool) returns (r: Result<Group, Error>)
      ensures assembleAs != "array" && assembleAs != "dict" ==> r == Failure(AssertionError("invalid assemble_as arg."))
      ensures (assembleAs == "array" || assembleAs == "dict") && items.Some? && items.value.One? ==> r == Failure(UndefinedItem)
      ensures r.Success? ==>
        && fresh(r.value) && r.value.Valid() && r.value.name == name
        && r.value.assembleAs == assembleAs && r.value.numeric == numeric
        && r.value.items == (if items.None? then Registry.Empty() else PutAll(Registry.Empty(), Entries(items.value.nodes)))
    {
      if assembleAs != "array" && assembleAs != "dict" {
        return Failure(AssertionError("invalid assemble_as arg."));
      }
      var g := new Group.Empty(name, assembleAs, numeric);
      if items.Some? {
        var o := g.Add(items.value);
        if o.Fail? {
          return Failure(o.error);
        }
      }
      r := Success(g);
    }

    /** `_add(m)`: the member is stored under its name, replacing any member of that name. */
    method AddOne(n: Node)
      requires Valid()
      modifies this
      ensures Valid() && items == old(items).Put(n.Name(), n)
    {
      PutValid(items, n.Name(), n);
      items := items.Put(n.Name(), n);
    }

    /** `add(items)`: a list or tuple is added member by member, in order;
        anything else raises before any member is added. */
    method Add(arg: AddArg) returns (o: Outcome<Error>)
      requires Valid()
      modifies this
      ensures Valid()
      ensures arg.One? ==> o == Fail(UndefinedItem) && items == old(items)
      ensures arg.Many? ==> o == Pass && items == PutAll(old(items), Entries(arg.nodes))
    {
      if arg.One? {
        return Fail(UndefinedItem);
      }
      var es := Entries(arg.nodes);
      var i := 0;
      while i < |arg.nodes|
        invariant 0 <= i <= |arg.nodes|
        invariant Valid() && items == PutAll(old(items), es[..i])
      {
        assert es[..i + 1][..i] == es[..i] && es[i] == (arg.nodes[i].Name(), arg.nodes[i]);
        AddOne(arg.nodes[i]);
        i := i + 1;
      }
      assert es[..i] == es;
      o := Pass;
    }

    /** `names`: the members' names in insertion order. */
    function Names(): (r: seq<string>)
      reads this
      requires Valid()
      ensures r == items.keys
    {
      KeyedNames(items);
      NamesOf(items.Values())
    }

    /** `get(key)` and `self[key]`. */
    function Get(key: string): (r: Result<Node, Error>)
      reads this
      ensures r.Success? <==> key in items.at
      ensures r.Success? ==> r.value == items.at[key]
      ensures r.Failure? ==> r.error == KeyError(Str(key))
    {
      if key in items.at then Success(items.at[key]) else Failure(KeyError(Str(key)))
    }

    /** `fit(df)`, `transform(df)` and `fit_transform(df)`: every member runs `op`
        in order, up to the first that raises, and the answers are assembled in the
        group's own mode. */
    method Apply(op: Items.Op, df: Table) returns (r: Result<Ret, Error>)
      requires Valid()
      modifies Footprint()
      ensures r == Broadcast(AnswerOf(op, df), AsNode())
      ensures forall o :: o in Footprint() && old(allocated(o)) ==> o.State() == After(op, o, old(o.State()), Touched(AnswerOf(op, df), AsNode()), df)
    {
      var vs := RunNodes(op, items.Values(), df, Footprint());
      if vs.Failure? {
        r := Failure(vs.error);
      } else {
        var a := Assemble(Names(), vs.value, assembleAs, None, SameShape(vs.value));
        r := if a.Failure? then Failure(a.error) else Success(Asm(a.value));
      }
    }

    /** The members' views all have one shape. */
    predicate ViewsAlike(typ: Option<string>, sqrt: real -> real)
      reads this, Footprint()
      requires Valid()
    {
      var vs := AllValues(items.Values(), |items.Values()|, typ, sqrt);
      vs.Success? && SameViewShape(vs.value)
    }

    /** `all_values(typ, assemble_as)`: every member's values, in member order,
        assembled in the given mode or else the group's own. */
    function AllValuesAssembled(typ: Option<string>, mode: Option<string>, sqrt: real -> real): (r: Result<Assembled<NodeView>, Error>)
      reads this, Footprint()
      requires Valid()
      ensures r.Success? ==> forall i :: 0 <= i < |items.keys| ==> NodeValues(items.at[items.keys[i]], typ, sqrt).Success?
      ensures (forall i :: 0 <= i < |items.keys| ==> NodeValues(items.at[items.keys[i]], typ, sqrt).Success?) ==>
        var m := if mode.Some? then mode.value else assembleAs;
        (r.Failure? <==> (m != "array" && m != "dict" && m != "df") || (m != "dict" && !ViewsAlike(typ, sqrt)))
      ensures r.Success? && r.value.Array? ==>
        && (mode.None? || mode.value == "array") && |r.value.rows| == |items.keys|
        && forall i :: 0 <= i < |items.keys| ==> r.value.rows[i] == NodeValues(items.at[items.keys[i]], typ, sqrt).value
      ensures r.Success? && r.value.Dict? ==>
        && (mode.None? || mode.value == "dict") && r.value.entries.Valid() && r.value.entries.keys == items.keys
        && forall i :: 0 <= i < |items.keys| ==> r.value.entries.at[items.keys[i]] == NodeValues(items.at[items.keys[i]], typ, sqrt).value
    {
      var ns := items.Values();
      var m := if mode.Some? then mode.value else assembleAs;
      AssembleViews(items, typ, m, sqrt);
      AssembleViewsDict(items, typ, m, sqrt);
      var vs :- AllValues(ns, |ns|, typ, sqrt);
      Assemble(Names(), vs, m, None, SameViewShape(vs))
    }

    /** `NumericGroup.values(typ)`: per respondent, the mean over the members of
        their non-missing values; a BaseGroup has no such method. */
    function Values(typ: Option<string>, sqrt: real -> real): (r: Result<seq<Option<real>>, Error>)
      reads this, Footprint()
      requires Valid()
      ensures !numeric ==> r == Failure(AttributeError("values"))
      ensures numeric && |items.keys| == 0 ==> r == Failure(AxisError)
      ensures r.Success? ==> numeric && forall i :: 0 <= i < |items.keys| ==> NodeValues(items.at[items.keys[i]], typ, sqrt).Success?
    {
      if !numeric then Failure(AttributeError("values")) else GroupMeans(items.Values(), typ, sqrt)
    }

    /** What `values` returns when it returns: with one column of numbers per
        member, in member order, the `row`-th value is the NaN-aware mean of the
        members' `row`-th numbers. */
    lemma ValuesMeaning(typ: Option<string>, sqrt: real -> real)
      requires Valid() && Values(typ, sqrt).Success?
      ensures var vs := AllValues(items.Values(), |items.keys|, typ, sqrt);
        && numeric && vs.Success? && NumberColumns(vs.value).Success?
        && var cols, r := NumberColumns(vs.value).value, Values(typ, sqrt).value;
        && |cols| == |items.keys|
        && (forall i :: 0 <= i < |items.keys| ==> Numbers(NodeValues(items.at[items.keys[i]], typ, sqrt).value) == Success(cols[i]))
        && RowMeansOf(cols, r)
    {
      GroupMeansMeaning(items.Values(), typ, sqrt);
    }

    /** `NumericGroup.item_means()`: each member's mean, in member order; only a
        fitted NumericItem has one. */
    function ItemMeans(): (r: Result<seq<Option<real>>, Error>)
      reads this, Footprint()
      requires Valid()
      ensures !numeric ==> r == Failure(AttributeError("item_means"))
      ensures numeric ==> (r.Success? <==> forall i :: 0 <= i < |items.keys| ==>
        var n := items.at[items.keys[i]]; n.Leaf? && n.item.spec.kind.Numeric? && n.item.mean.Set?)
      ensures r.Success? ==> |r.value| == |items.keys| && forall i :: 0 <= i < |items.keys| ==>
        r.value[i] == items.at[items.keys[i]].item.mean.value
    {
      if !numeric then Failure(AttributeError("item_means")) else MeansOfMembers(items.Values(), |items.Values()|)
    }

    /** `stats(assemble_as)`: one row of statistics per member, labelled by the
        first member's labels; only NumericItems have statistics. */
    function Stats(mode: string, sqrt: real -> real): (r: Result<Assembled<seq<Option<real>>>, Error>)
      reads this, Footprint()
      requires Valid()
      ensures |items.keys| == 0 ==> r == Failure(IndexError("list index out of range"))
      ensures r.Success? <==>
        && |items.keys| > 0 && (mode == "array" || mode == "dict" || mode == "df")
        && forall i :: 0 <= i < |items.keys| ==> items.at[items.keys[i]].Leaf? && items.at[items.keys[i]].item.StatsRow(sqrt).Success?
      ensures r.Success? ==> |items.keys| > 0 && forall i :: 0 <= i < |items.keys| ==>
        items.at[items.keys[i]].Leaf? && items.at[items.keys[i]].item.spec.kind.Numeric?
      ensures mode == "df" && r.Success? ==>
        && r.value.Frame? && r.value.index == Some(Items.StatLabels) && r.value.columns == items.keys
        && |r.value.rows| == |items.keys|
        && forall i :: 0 <= i < |items.keys| ==>
          items.at[items.keys[i]].item.StatsRow(sqrt).Success? && r.value.rows[i] == items.at[items.keys[i]].item.StatsRow(sqrt).value.1
    {
      KeyedNames(items);
      StatsOfSucceeds(items.Values(), mode, sqrt);
      StatsOf(items.Values(), mode, sqrt)
    }
  }

  /** In a keyed registry the members' names, in order, are the keys. */
  lemma KeyedNames(d: Ordered<Node>)
    requires Keyed(d)
    ensures NamesOf(d.Values()) == d.keys
  {
  }

  /** The members' views, read through the registry's keys. */
  lemma MemberViews(d: Ordered<Node>, typ: Option<string>, sqrt: real -> real)
    requires d.Valid()
    ensures var r := AllValues(d.Values(), |d.Values()|, typ, sqrt);
      && (r.Success? <==> forall i :: 0 <= i < |d.keys| ==> NodeValues(d.at[d.keys[i]], typ, sqrt).Success?)
      && (r.Success? ==> |r.value| == |d.keys| && forall i :: 0 <= i < |d.keys| ==> r.value[i] == NodeValues(d.at[d.keys[i]], typ, sqrt).value)
  {
  }

  /** Assembling the members' views: the mode and their shapes decide the error,
      and an array holds the views in member order. */
  lemma AssembleViews(d: Ordered<Node>, typ: Option<string>, m: string, sqrt: real -> real)
    requires Keyed(d)
    ensures var vs := AllValues(d.Values(), |d.Values()|, typ, sqrt);
      && (vs.Success? <==> forall i :: 0 <= i < |d.keys| ==> NodeValues(d.at[d.keys[i]], typ, sqrt).Success?)
      && (vs.Success? ==>
        var r := Assemble(NamesOf(d.Values()), vs.value, m, None, SameViewShape(vs.value));
        && (r.Failure? <==> (m != "array" && m != "dict" && m != "df") || (m != "dict" && !SameViewShape(vs.value)))
        && (r.Success? && r.value.Array? ==>
              && m == "array" && |r.value.rows| == |d.keys|
              && forall i :: 0 <= i < |d.keys| ==> r.value.rows[i] == NodeValues(d.at[d.keys[i]], typ, sqrt).value))
  {
    MemberViews(d, typ, sqrt);
  }

  /** Assembling the members' views as a dict holds each view under its member's name. */
  lemma AssembleViewsDict(d: Ordered<Node>, typ: Option<string>, m: string, sqrt: real -> real)
    requires Keyed(d)
    ensures var vs := AllValues(d.Values(), |d.Values()|, typ, sqrt);
      vs.Success? ==>
        var r := Assemble(NamesOf(d.Values()), vs.value, m, None, SameViewShape(vs.value));
        r.Success? && r.value.Dict? ==>
          && m == "dict" && r.value.entries.Valid() && r.value.entries.keys == d.keys
          && forall i :: 0 <= i < |d.keys| ==> r.value.entries.at[d.keys[i]] == NodeValues(d.at[d.keys[i]], typ, sqrt).value
  {
    MemberViews(d, typ, sqrt);
    var vs := AllValues(d.Values(), |d.Values()|, typ, sqrt);
    if vs.Success? {
      AssembleOwnKeys(d, vs.value, m, SameViewShape(vs.value));
    }
  }

  /** Assembling one value per member of a keyed registry: an unknown mode raises
      ValueError, values of different shapes raise in array and frame mode, an array holds the values in member order, and a dict holds each
      member's value under the member's name. */
  lemma AssembleOwnKeys<V>(d: Ordered<Node>, vs: seq<V>, m: string, uniform: bool)
    requires Keyed(d) && |vs| == |d.keys|
    ensures var r := Assemble(NamesOf(d.Values()), vs, m, None, uniform);
      && (r.Failure? <==> (m != "array" && m != "dict" && m != "df") || (!uniform && m != "dict"))
      && (r.Failure? && (m == "array" || m == "df") ==> r.error == Ragged)
      && (r.Success? && r.value.Array? ==> m == "array" && r.value.rows == vs)
      && (r.Success? && r.value.Dict? ==>
            && m == "dict" && r.value.entries.Valid() && r.value.entries.keys == d.keys
            && forall i :: 0 <= i < |d.keys| ==> r.value.entries.at[d.keys[i]] == vs[i])
  {
    KeyedNames(d);
    ZipOwnKeys(d, vs);
  }

  /** Adding members keeps every member stored under its own name. */
  lemma {:induction false} PutNodesKeyed(d: Ordered<Node>, ns: seq<Node>)
    requires Keyed(d)
    ensures Keyed(PutAll(d, Entries(ns)))
  {
    var es := Entries(ns);
    PutAllKeys(d, es);
    PutAllDomain(d, es);
    PutAllLast(d, es);
    forall k | k in PutAll(d, es).at
      ensures PutAll(d, es).at[k].Name() == k
    {
      if k in Assigned(es) {
        var i :| 0 <= i < |es| && es[i].0 == k;
        var l := LastWith(es, k);
        assert es[l] == (ns[l].Name(), ns[l]);
      } else {
        PutAllUntouched(d, es, k);
      }
    }
  }
}
