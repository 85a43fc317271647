/** `itemie/core/survey.py`: a survey is a flat, insertion-ordered registry of
    every item and group added to it, groups' members included. It runs fit,
    transform and fit_transform on each registered member in turn, naming the
    member whose run raised, and collects the members' values into a dict. */
module Surveys {
  import opened Wrappers
  import opened Values
  import opened Registry
  import Items
  import opened Groups

  // ---- registering ----

  /** What `_add(m)` registers: the member, then (through the group's `items`
      list) what each of its members registers, depth first. An item has no
      `items` attribute; the AttributeError that ends the recursion is swallowed. */
  function Flattened(n: Node): (r: seq<Node>)
    ensures |r| > 0 && r[0] == n
    decreases n, 1
  {
    [n] + (if n.Leaf? then [] else FlattenUpTo(n.children, |n.children|))
  }

  /** What `_add` registers for each of `ns[:k]`, in order. */
  function FlattenUpTo(ns: seq<Node>, k: nat): seq<Node>
    requires k <= |ns|
    decreases ns, 0, k
  {
    if k == 0 then [] else FlattenUpTo(ns, k - 1) + Flattened(ns[k - 1])
  }

  /** A flattening holds exactly the members it was built from and what they
      flatten to. */
  lemma {:induction false} FlattenUpToMembers(ns: seq<Node>, k: nat)
    requires k <= |ns|
    ensures forall i, m :: 0 <= i < k && m in Flattened(ns[i]) ==> m in FlattenUpTo(ns, k)
    ensures forall m :: m in FlattenUpTo(ns, k) ==> exists i :: 0 <= i < k && m in Flattened(ns[i])
  {
    if k > 0 {
      FlattenUpToMembers(ns, k - 1);
    }
  }

  /** `_add` registers the member itself and everything registered for each of
      its members, and nothing else. */
  lemma FlattenedTree(n: Node)
    ensures n in Flattened(n)
    ensures n.Branch? ==> forall i, m :: 0 <= i < |n.children| && m in Flattened(n.children[i]) ==> m in Flattened(n)
    ensures n.Branch? ==> forall m :: m in Flattened(n) && m != n ==> exists i :: 0 <= i < |n.children| && m in Flattened(n.children[i])
    ensures n.Leaf? ==> Flattened(n) == [n]
  {
    if n.Branch? {
      FlattenUpToMembers(n.children, |n.children|);
    }
  }

  /** Registering the members of `a` and then those of `b` is registering those of `a + b`. */
  lemma PutMore(d: Ordered<Node>, a: seq<Node>, b: seq<Node>)
    ensures PutAll(PutAll(d, Entries(a)), Entries(b)) == PutAll(d, Entries(a + b))
  {
    assert Entries(a + b) == Entries(a) + Entries(b);
    PutAllAppend(d, Entries(a), Entries(b));
  }

  lemma FlattenStep(n: Node, cs: seq<Node>, i: nat)
    requires i < |cs|
    ensures [n] + FlattenUpTo(cs, i + 1) == [n] + FlattenUpTo(cs, i) + Flattened(cs[i])
  {
  }

  /** Registering one member is one assignment, and a leaf registers only itself. */
  lemma PutOne(d: Ordered<Node>, n: Node)
    ensures PutAll(d, Entries([n])) == d.Put(n.Name(), n)
    ensures n.Branch? ==> PutAll(d, Entries([n] + FlattenUpTo(n.children, 0))) == d.Put(n.Name(), n)
    ensures n.Leaf? ==> PutAll(d, Entries(Flattened(n))) == d.Put(n.Name(), n)
  {
    assert Entries([n])[..0] == [];
    if n.Branch? {
      assert [n] + FlattenUpTo(n.children, 0) == [n];
    }
  }

  /** After registering, every registered member can be looked up by its name,
      the names are the old ones and the registered members' own, and a member
      that no later member shares a name with is what its name holds. */
  lemma RegisteredFacts(d: Ordered<Node>, ns: seq<Node>)
    ensures forall i :: 0 <= i < |ns| ==> ns[i].Name() in PutAll(d, Entries(ns)).at
    ensures forall k :: k in d.at ==> k in PutAll(d, Entries(ns)).at
    ensures forall k :: k in PutAll(d, Entries(ns)).at ==> k in d.at || exists i :: 0 <= i < |ns| && ns[i].Name() == k
    ensures forall i :: 0 <= i < |ns| && (forall j :: i < j < |ns| ==> ns[j].Name() != ns[i].Name()) ==>
      PutAll(d, Entries(ns)).at[ns[i].Name()] == ns[i]
  {
    var es := Entries(ns);
    PutAllDomain(d, es);
    PutAllFinal(d, es);
    forall i | 0 <= i < |ns| && (forall j :: i < j < |ns| ==> ns[j].Name() != ns[i].Name())
      ensures PutAll(d, es).at[ns[i].Name()] == ns[i]
    {
      assert forall j :: i < j < |es| ==> es[j].0 != es[i].0;
    }
    forall k | k in Assigned(es)
      ensures exists i :: 0 <= i < |ns| && ns[i].Name() == k
    {
      var i :| 0 <= i < |es| && es[i].0 == k;
      assert ns[i].Name() == k;
    }
  }

  // ---- running fit, transform and fit_transform ----

  /** The message of the exception that `fit`, `transform` and `fit_transform`
      raise from a member's exception. */
  function InItem(name: string): (m: string)
    ensures m == "Error in item: " + name
  {
    "Error in item: " + name
  }

  /** What running the members `ns[:k]` in turn ends with: nothing, or the first
      member's error, wrapped with that member's name. */
  function SurveyUpTo(ans: Answers, ns: seq<Node>, k: nat): Outcome<Error>
    requires k <= |ns|
  {
    if k == 0 then Pass
    else if SurveyUpTo(ans, ns, k - 1).Fail? then SurveyUpTo(ans, ns, k - 1)
    else if Broadcast(ans, ns[k - 1]).Failure? then Fail(Wrapped(InItem(ns[k - 1].Name()), Broadcast(ans, ns[k - 1]).error))
    else Pass
  }

  /** A survey's run passes exactly when every member's does. */
  lemma {:induction false} SurveyPassesAll(ans: Answers, ns: seq<Node>, k: nat)
    requires k <= |ns|
    ensures SurveyUpTo(ans, ns, k).Pass? <==> forall i :: 0 <= i < k ==> Broadcast(ans, ns[i]).Success?
  {
    SurveyPasses(ans, ns, k);
    BroadcastSucceeds(ans, ns, k);
  }

  /** When a survey's run raises, it raises for the first member that raises,
      with that member's name and error. */
  lemma {:induction false} SurveyFailsFirst(ans: Answers, ns: seq<Node>, k: nat)
    requires k <= |ns| && SurveyUpTo(ans, ns, k).Fail?
    ensures exists j ::
      && 0 <= j < k && Broadcast(ans, ns[j]).Failure?
      && (forall l :: 0 <= l < j ==> Broadcast(ans, ns[l]).Success?)
      && SurveyUpTo(ans, ns, k).error == Wrapped(InItem(ns[j].Name()), Broadcast(ans, ns[j]).error)
  {
    if SurveyUpTo(ans, ns, k - 1).Fail? {
      SurveyFailsFirst(ans, ns, k - 1);
    } else {
      SurveyPassesAll(ans, ns, k - 1);
    }
  }

  /** A survey's run passes exactly when the members' broadcast returns. */
  lemma {:induction false} SurveyPasses(ans: Answers, ns: seq<Node>, k: nat)
    requires k <= |ns|
    ensures SurveyUpTo(ans, ns, k).Pass? <==> BroadcastUpTo(ans, ns, k).Success?
  {
    if k > 0 {
      SurveyPasses(ans, ns, k - 1);
    }
  }

  /** Once a member has raised, later members change nothing about the outcome. */
  lemma {:induction false} SurveySticks(ans: Answers, ns: seq<Node>, k: nat, m: nat)
    requires k <= m <= |ns| && SurveyUpTo(ans, ns, k).Fail?
    ensures SurveyUpTo(ans, ns, m) == SurveyUpTo(ans, ns, k)
    decreases m
  {
    if k < m {
      SurveySticks(ans, ns, k, m - 1);
    }
  }

  /** Run `op` on each member in turn, stopping at the first that raises. */
  method RunAll(op: Items.Op, ns: seq<Node>, df: Table, ghost objs: set<Items.Item>) returns (o: Outcome<Error>)
    requires objs == ObjectsAll(ns)
    modifies objs
    ensures o == SurveyUpTo(AnswerOf(op, df), ns, |ns|)
    ensures forall x :: x in objs && old(allocated(x)) ==>
      x.State() == After(op, x, old(x.State()), TouchedAll(AnswerOf(op, df), ns), df)
  {
    AllocatedAll(ns);
    ghost var ans := AnswerOf(op, df);
    ghost var entry := map x | x in objs :: x.State();
    ghost var reached := {};
    o := Pass;
    var i := 0;
    while i < |ns| && o.Pass?
      invariant 0 <= i <= |ns|
      invariant o == SurveyUpTo(ans, ns, i)
      invariant reached == TouchedUpTo(ans, ns, i) && StatesAre(op, objs, entry, reached, df)
    {
      SurveyPasses(ans, ns, i);
      o, reached := RunEntry(op, ns, i, df, objs, entry, reached);
      i := i + 1;
    }
    if o.Fail? {
      SurveyPasses(ans, ns, i);
      SurveySticks(ans, ns, i, |ns|);
      FailureSticks(ans, ns, i, |ns|);
    }
  }

  /** Run `op` on the `i`-th member once the members before it have passed; an
      exception is raised again, naming the member. */
  method RunEntry(op: Items.Op, ns: seq<Node>, i: nat, df: Table, ghost objs: set<Items.Item>,
                  ghost entry: map<Items.Item, Items.ItemState>, ghost before: set<Items.Item>)
    returns (o: Outcome<Error>, ghost after: set<Items.Item>)
    requires i < |ns| && objs == ObjectsAll(ns) && forall x :: x in objs ==> allocated(x)
    requires SurveyUpTo(AnswerOf(op, df), ns, i).Pass? && BroadcastUpTo(AnswerOf(op, df), ns, i).Success?
    requires before == TouchedUpTo(AnswerOf(op, df), ns, i) && StatesAre(op, objs, entry, before, df)
    modifies objs
    ensures o == SurveyUpTo(AnswerOf(op, df), ns, i + 1)
    ensures after == TouchedUpTo(AnswerOf(op, df), ns, i + 1) && StatesAre(op, objs, entry, after, df)
  {
    var r, rs;
    r, rs, after := RunMember(op, ns, i, df, BroadcastUpTo(AnswerOf(op, df), ns, i).value, objs, entry, before);
    o := if r.Failure? then Fail(Wrapped(InItem(ns[i].Name()), r.error)) else Pass;
  }

  // ---- the survey object ----

  class Survey {
    const name: string
    var items: Ordered<Node>

    /** Members are stored under their names. */
    predicate Valid()
      reads this
    {
      Keyed(items)
    }

    /** The item objects the registered members hold. */
    ghost function Footprint(): (r: set<Items.Item>)
      reads this
      requires Valid()
      ensures forall i :: 0 <= i < |items.keys| ==> Objects(items.at[items.keys[i]]) <= r
    {
      ObjectsUpToMembers(items.Values(), |items.Values()|);
      ObjectsAll(items.Values())
    }

    /** `Survey(name)`: nothing is registered yet. */
    constructor(name: string)
      ensures Valid() && this.name == name && items == Registry.Empty()
    {
      this.name := name;
      items := Registry.Empty();
    }

    /** `_add(m)`: the member and, depth first, everything below it are stored
        under their names, a later member replacing an earlier one of the same name. */
    method Register(n: Node)
      modifies this
      ensures items == PutAll(old(items), Entries(Flattened(n)))
      decreases n
    {
      PutOne(items, n);
      items := items.Put(n.Name(), n);
      if n.Branch? {
        var cs := n.children;
        ghost var done := [n];
        var i := 0;
        while i < |cs|
          invariant 0 <= i <= |cs|
          invariant done == [n] + FlattenUpTo(cs, i)
          invariant items == PutAll(old(items), Entries(done))
        {
          Register(cs[i]);
          PutMore(old(items), done, Flattened(cs[i]));
          FlattenStep(n, cs, i);
          done := done + Flattened(cs[i]);
          i := i + 1;
        }
      }
    }

    /** `add(items)`: each member of a list or tuple is registered, in order;
        anything else raises before anything is registered. */
    method Add(arg: AddArg) returns (o: Outcome<Error>)
      requires Valid()
      modifies this
      ensures Valid()
      ensures arg.One? ==> o == Fail(UndefinedItem) && items == old(items)
      ensures arg.Many? ==> o == Pass && items == PutAll(old(items), Entries(FlattenUpTo(arg.nodes, |arg.nodes|)))
    {
      if arg.One? {
        return Fail(UndefinedItem);
      }
      var ns := arg.nodes;
      var i := 0;
      while i < |ns|
        invariant 0 <= i <= |ns|
        invariant items == PutAll(old(items), Entries(FlattenUpTo(ns, i)))
      {
        ghost var done := FlattenUpTo(ns, i);
        Register(ns[i]);
        PutMore(old(items), done, Flattened(ns[i]));
        i := i + 1;
      }
      PutNodesKeyed(old(items), FlattenUpTo(ns, |ns|));
      o := Pass;
    }

    /** `names`: the registered members' names in registration order. */
    function Names(): (r: seq<string>)
      reads this
      requires Valid()
      ensures r == items.keys
    {
      KeyedNames(items);
      NamesOf(items.Values())
    }

    /** `get(key)` and `self[key]`. */
    function Get(key: string): (r: Result<Node, Error>)
      reads this
      ensures r.Success? <==> key in items.at
      ensures r.Success? ==> r.value == items.at[key]
      ensures r.Failure? ==> r.error == KeyError(Str(key))
    {
      if key in items.at then Success(items.at[key]) else Failure(KeyError(Str(key)))
    }

    /** `fit(df)`, `transform(df)` and `fit_transform(df)`: each registered member
        runs `op` in turn; the first that raises stops the run, and the survey
        raises an exception naming it, caused by the member's. */
    method Apply(op: Items.Op, df: Table) returns (o: Outcome<Error>)
      requires Valid()
      modifies Footprint()
      ensures o == SurveyUpTo(AnswerOf(op, df), items.Values(), |items.Values()|)
      ensures forall x :: x in Footprint() && old(allocated(x)) ==>
        x.State() == After(op, x, old(x.State()), TouchedAll(AnswerOf(op, df), items.Values()), df)
    {
      o := RunAll(op, items.Values(), df, Footprint());
    }

    /** `item_data_dict(typ)`: each registered member's values under its name;
        the first member whose values raise decides the error. */
    function ItemDataDict(typ: Option<string>, sqrt: real -> real): (r: Result<Ordered<NodeView>, Error>)
      reads this, Footprint()
      requires Valid()
      ensures r.Success? <==> forall i :: 0 <= i < |items.keys| ==> NodeValues(items.at[items.keys[i]], typ, sqrt).Success?
      ensures r.Success? ==>
        && r.value.Valid() && r.value.keys == items.keys
        && forall i :: 0 <= i < |items.keys| ==> r.value.at[items.keys[i]] == NodeValues(items.at[items.keys[i]], typ, sqrt).value
    {
      var ns := items.Values();
      var vs :- AllValues(ns, |ns|, typ, sqrt);
      ZipOwnKeys(items, vs);
      Success(ZipDict(items.keys, vs))
    }
  }
}
