/** The checks both `install` commands run on a plugin module before
    loading anything: the module must offer the callables `get_models` and
    `transform`, and `get_models()` must give DocumentsLanguages instances
    whose relation graphs reach every required model class. What the module
    offers is described by a value: the attributes `hasattr`/`callable`
    would find and what `get_models()` returned. */
module PluginValidation {
  import opened Common
  import opened Text
  import G = ModelGraph

  /** What `hasattr` and `callable` say about an attribute of the module. */
  datatype Attribute = CallableAttribute | NonCallableAttribute

  /** What `module.get_models()` returned: a value that `iter()` rejects, or
      an iterable with its items. `truthy` is its truth value (an empty list
      is false, a generator is true even when it yields nothing). */
  datatype ModelsValue =
    | NotIterable(typeName: string, truthy: bool)
    | Iterable(truthy: bool, items: seq<G.ModelNode>)

  /** A plugin module as the validators see it. */
  datatype PluginModule = PluginModule(
    name: string,
    attributes: map<string, Attribute>,
    models: ModelsValue)

  datatype ValidationError =
    | NoAttribute(attribute: string)
    | NotCallable(attribute: string)
    | EmptyIterable
    | NotIterableValue(typeName: string)
    | IncorrectType(kind: G.ModelClass)
    | MissingModels(missing: set<G.ModelClass>)

  const NecessaryCallables := ["get_models", "transform"]

  predicate IsCallable(name: string, m: PluginModule)
  {
    name in m.attributes && m.attributes[name] == CallableAttribute
  }

  /** names[i] is the first name that is missing or not callable. */
  predicate FirstFailure(names: seq<string>, m: PluginModule, i: nat)
    requires i < |names|
  {
    !IsCallable(names[i], m) && forall j :: 0 <= j < i ==> IsCallable(names[j], m)
  }

  /** The error the check raises about one name. */
  function CallableError(name: string, m: PluginModule): ValidationError
  {
    if name !in m.attributes then NoAttribute(name) else NotCallable(name)
  }

  /** The interface loop over the names still to check, in order: the first
      name that is missing or not callable is reported. */
  function CheckCallables(names: seq<string>, m: PluginModule): (r: Result<(), ValidationError>)
    ensures r.Ok? <==> forall i :: 0 <= i < |names| ==> IsCallable(names[i], m)
    ensures r.Err? ==> exists i :: 0 <= i < |names| && FirstFailure(names, m, i)
                                   && r.error == CallableError(names[i], m)
  {
    if names == [] then Ok(())
    else if !IsCallable(names[0], m) then Err(CallableError(names[0], m))
    else
      var r := CheckCallables(names[1..], m);
      if r.Err? then
        var i :| 0 <= i < |names[1..]| && FirstFailure(names[1..], m, i)
                 && r.error == CallableError(names[1..][i], m);
        assert FirstFailure(names, m, i + 1);
        r
      else r
  }

  /** `_validate_module_interface`: `get_models` then `transform` must both
      exist and be callable. */
  function ValidateInterface(m: PluginModule): (r: Result<(), ValidationError>)
    ensures r.Ok? <==> IsCallable("get_models", m) && IsCallable("transform", m)
  {
    var names := NecessaryCallables;
    assert names[0] == "get_models" && names[1] == "transform";
    CheckCallables(names, m)
  }

  /** The interface check succeeds exactly when both callables are present;
      otherwise it names `get_models` when that one fails, and `transform`
      only when `get_models` passed. */
  lemma ValidateInterfaceOrder(m: PluginModule)
    ensures ValidateInterface(m).Ok? <==> IsCallable("get_models", m) && IsCallable("transform", m)
    ensures !IsCallable("get_models", m) ==> ValidateInterface(m) == Err(CallableError("get_models", m))
    ensures IsCallable("get_models", m) && !IsCallable("transform", m) ==>
              ValidateInterface(m) == Err(CallableError("transform", m))
  {
    var names := NecessaryCallables;
    assert names[0] == "get_models" && names[1] == "transform";
    assert names[1..][1..] == [];
  }

  /** The required classes that the breadth-first walk from `model` does not
      reach: `required_classes.difference(returned_classes)`. */
  function MissingClasses(required: set<G.ModelClass>, model: G.ModelNode): (r: set<G.ModelClass>)
    ensures r <= required
    ensures forall c :: c in required ==> (c in r <==> forall n :: n in G.Bfs([model]) ==> n.kind != c)
  {
    var reached := G.Classes(G.Bfs([model]));
    forall c | c in required && c !in reached
      ensures forall n :: n in G.Bfs([model]) ==> n.kind != c
    {
      forall n | n in G.Bfs([model]) ensures n.kind != c {
        var i :| 0 <= i < |G.Bfs([model])| && G.Bfs([model])[i] == n;
      }
    }
    required - reached
  }

  /** The error one item of `get_models()` raises, if any. */
  function ItemError(required: set<G.ModelClass>, item: G.ModelNode): (r: Option<ValidationError>)
    ensures r.None? <==> item.kind == G.DocumentsLanguages && MissingClasses(required, item) == {}
  {
    if item.kind != G.DocumentsLanguages then Some(IncorrectType(item.kind))
    else if MissingClasses(required, item) != {} then Some(MissingModels(MissingClasses(required, item)))
    else None
  }

  /** The per-item loop of `_validate_module_models`: it passes exactly when
      every item is a complete DocumentsLanguages graph, and otherwise
      reports the first item that is not. */
  function CheckItems(required: set<G.ModelClass>, items: seq<G.ModelNode>): (r: Result<(), ValidationError>)
    ensures r.Ok? <==> forall i :: 0 <= i < |items| ==> ItemError(required, items[i]).None?
    ensures r.Err? ==> exists i :: 0 <= i < |items| && ItemError(required, items[i]) == Some(r.error)
                                   && forall j :: 0 <= j < i ==> ItemError(required, items[j]).None?
  {
    if items == [] then Ok(())
    else if ItemError(required, items[0]).Some? then Err(ItemError(required, items[0]).value)
    else
      var r := CheckItems(required, items[1..]);
      if r.Err? then
        var i :| 0 <= i < |items[1..]| && ItemError(required, items[1..][i]) == Some(r.error)
                 && forall j :: 0 <= j < i ==> ItemError(required, items[1..][j]).None?;
        assert forall j :: 0 <= j < i + 1 ==> ItemError(required, items[j]).None? by {
          forall j | 0 <= j < i + 1 ensures ItemError(required, items[j]).None? {
            if j > 0 { assert items[j] == items[1..][j - 1]; }
          }
        }
        r
      else
        assert forall i :: 1 <= i < |items| ==> items[i] == items[1..][i - 1];
        r
  }

  /** `str(cls)` of a class of the models module `modelsModule`, or of
      another type. */
  function TypeString(modelsModule: string, kind: G.ModelClass): string
  {
    match kind
    case OtherType(name) => "<class '" + name + "'>"
    case Company => "<class '" + modelsModule + ".Company'>"
    case Service => "<class '" + modelsModule + ".Service'>"
    case Document => "<class '" + modelsModule + ".Document'>"
    case Language => "<class '" + modelsModule + ".Language'>"
    case DocumentsLanguages => "<class '" + modelsModule + ".DocumentsLanguages'>"
    case Snapshot => "<class '" + modelsModule + ".Snapshot'>"
    case Transform => "<class '" + modelsModule + ".Transform'>"
  }

  /** The order in which the missing-models message lists the classes that
      can be missing: Company, Service, Document, Language,
      DocumentsLanguages. */
  const ListOrder: seq<G.ModelClass> := [G.Company, G.Service, G.Document, G.Language, G.DocumentsLanguages]

  /** The five classes the missing-models message can list. */
  const ListedClasses: set<G.ModelClass> := {G.Company, G.Service, G.Document, G.Language, G.DocumentsLanguages}

  /** The position of a listed class in ListOrder. */
  function ClassRank(c: G.ModelClass): (rank: nat)
    requires c in ListedClasses
    ensures rank < |ListOrder| && ListOrder[rank] == c
  {
    match c
    case Company => 0
    case Service => 1
    case Document => 2
    case Language => 3
    case DocumentsLanguages => 4
  }

  /** The elements of `order` that are in `chosen`, in the order of `order`. */
  function Ordered<T(!new)>(order: seq<T>, chosen: set<T>): (r: seq<T>)
    ensures |r| <= |order|
    ensures forall x :: x in r <==> x in order && x in chosen
  {
    if order == [] then []
    else (if order[0] in chosen then [order[0]] else []) + Ordered(order[1..], chosen)
  }

  /** No element of `order` chosen: nothing is listed. */
  lemma {:induction false} OrderedNone<T(!new)>(order: seq<T>, chosen: set<T>)
    requires forall k :: 0 <= k < |order| ==> order[k] !in chosen
    ensures Ordered(order, chosen) == []
  {
    if order != [] {
      OrderedNone(order[1..], chosen);
    }
  }

  /** Exactly the element at position `i` chosen: it alone is listed. */
  lemma {:induction false} OrderedOne<T(!new)>(order: seq<T>, chosen: set<T>, i: nat)
    requires i < |order|
    requires forall k :: 0 <= k < |order| ==> (order[k] in chosen <==> k == i)
    ensures Ordered(order, chosen) == [order[i]]
  {
    assert forall k :: 0 <= k < |order| - 1 ==> order[1..][k] == order[k + 1];
    if i == 0 {
      OrderedNone(order[1..], chosen);
    } else {
      OrderedOne(order[1..], chosen, i - 1);
    }
  }

  /** Exactly the elements at positions `i < j` chosen: they are listed in
      that order. */
  lemma {:induction false} OrderedPair<T(!new)>(order: seq<T>, chosen: set<T>, i: nat, j: nat)
    requires i < j < |order|
    requires forall k :: 0 <= k < |order| ==> (order[k] in chosen <==> k == i || k == j)
    ensures Ordered(order, chosen) == [order[i], order[j]]
  {
    assert forall k :: 0 <= k < |order| - 1 ==> order[1..][k] == order[k + 1];
    if i == 0 {
      OrderedOne(order[1..], chosen, j - 1);
    } else {
      OrderedPair(order[1..], chosen, i - 1, j - 1);
    }
  }

  /** `map(str, classes)`. */
  function TypeStrings(modelsModule: string, classes: seq<G.ModelClass>): (r: seq<string>)
    ensures |r| == |classes|
    ensures forall i :: 0 <= i < |r| ==> r[i] == TypeString(modelsModule, classes[i])
  {
    seq(|classes|, i requires 0 <= i < |classes| => TypeString(modelsModule, classes[i]))
  }

  /** `', '.join(map(str, missing))`, iterating the set in ListOrder. */
  function MissingList(modelsModule: string, missing: set<G.ModelClass>): string
  {
    Join(TypeStrings(modelsModule, Ordered(ListOrder, missing)), ", ")
  }

  /** No class appears twice in ListOrder. */
  lemma ListOrderDistinct()
    ensures forall i, j :: 0 <= i < j < |ListOrder| ==> ListOrder[i] != ListOrder[j]
  {
  }

  /** One missing class is listed alone. */
  lemma MissingListOne(modelsModule: string, c: G.ModelClass)
    requires c in ListedClasses
    ensures MissingList(modelsModule, {c}) == TypeString(modelsModule, c)
  {
    ListOrderDistinct();
    OrderedOne(ListOrder, {c}, ClassRank(c));
  }

  /** Two missing classes are listed in ListOrder, separated by a comma and
      a space. */
  lemma MissingListPair(modelsModule: string, c: G.ModelClass, d: G.ModelClass)
    requires c in ListedClasses && d in ListedClasses
    requires ClassRank(c) < ClassRank(d)
    ensures MissingList(modelsModule, {c, d}) == TypeString(modelsModule, c) + ", " + TypeString(modelsModule, d)
  {
    ListOrderDistinct();
    OrderedPair(ListOrder, {c, d}, ClassRank(c), ClassRank(d));
    JoinAppend([TypeString(modelsModule, c)], TypeString(modelsModule, d), ", ");
    assert [TypeString(modelsModule, c)] + [TypeString(modelsModule, d)]
           == TypeStrings(modelsModule, [c, d]);
  }

  /** Nothing missing lists nothing; one missing class lists its `str()`
      alone; and any two missing classes are listed in ListOrder, separated
      by a comma and a space. */
  lemma MissingListShape(modelsModule: string, c: G.ModelClass, d: G.ModelClass)
    requires c in ListedClasses && d in ListedClasses
    ensures MissingList(modelsModule, {}) == ""
    ensures MissingList(modelsModule, {c}) == TypeString(modelsModule, c)
    ensures ClassRank(c) < ClassRank(d) ==>
              MissingList(modelsModule, {c, d}) == TypeString(modelsModule, c) + ", " + TypeString(modelsModule, d)
  {
    OrderedNone(ListOrder, {});
    MissingListOne(modelsModule, c);
    if ClassRank(c) < ClassRank(d) {
      MissingListPair(modelsModule, c, d);
    }
  }
}
