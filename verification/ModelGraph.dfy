/** The relationship graph of a plugin's model instances and its
    breadth-first flattening (`flatten_model_graph` in
    src/docsnaps/management/commands/_utils.py, and the identical
    `_get_relation_tree` loop of src/docsnaps/management/commands/_install.py).

    A model instance is a node with its model class and its fields in
    declaration order. A ForeignKey field whose related instance is set
    points at the parent node; one whose instance is unset (Python's
    `hasattr` is false) has no target. Every other field (columns,
    many-to-many and reverse relations) is not followed. */
module ModelGraph {
  import opened Common

  datatype ModelClass =
    | Company
    | Service
    | Document
    | Language
    | DocumentsLanguages
    | Snapshot
    | Transform
    | OtherType(typeName: string)   // any object that is not a model instance

  datatype Field =
    | ForeignKey(name: string, target: Option<ModelNode>)
    | Other(name: string)

  datatype ModelNode = ModelNode(kind: ModelClass, fields: seq<Field>)

  /** What the walk enqueues for one field. */
  function ParentOf(f: Field): (r: seq<ModelNode>)
    ensures |r| <= 1
    ensures |r| == 1 <==> f.ForeignKey? && f.target.Some?
  {
    if f.ForeignKey? && f.target.Some? then [f.target.value] else []
  }

  /** The parents a node enqueues: its present foreign keys, in field order. */
  function ParentsOf(fields: seq<Field>): (r: seq<ModelNode>)
  {
    if fields == [] then [] else ParentsOf(fields[..|fields| - 1]) + ParentOf(fields[|fields| - 1])
  }

  /** Fields that are not foreign keys enqueue nothing. */
  lemma {:induction false} ParentsOfColumns(fields: seq<Field>)
    requires forall i :: 0 <= i < |fields| ==> fields[i].Other?
    ensures ParentsOf(fields) == []
  {
    if fields != [] {
      ParentsOfColumns(fields[..|fields| - 1]);
    }
  }

  /** A node whose only foreign key is field i enqueues that field's
      instance, when set. */
  lemma {:induction false} ParentsOfOneForeignKey(fields: seq<Field>, i: nat)
    requires i < |fields|
    requires forall k :: 0 <= k < |fields| && k != i ==> fields[k].Other?
    ensures ParentsOf(fields) == ParentOf(fields[i])
    decreases |fields|
  {
    var init := fields[..|fields| - 1];
    if i == |fields| - 1 {
      ParentsOfColumns(init);
    } else {
      ParentsOfOneForeignKey(init, i);
    }
  }

  /** A node whose only foreign keys are fields i and j, i before j,
      enqueues field i's instance and then field j's, each when set. */
  lemma {:induction false} ParentsOfTwoForeignKeys(fields: seq<Field>, i: nat, j: nat)
    requires i < j < |fields|
    requires forall k :: 0 <= k < |fields| && k != i && k != j ==> fields[k].Other?
    ensures ParentsOf(fields) == ParentOf(fields[i]) + ParentOf(fields[j])
    decreases |fields|
  {
    var init := fields[..|fields| - 1];
    if j == |fields| - 1 {
      ParentsOfOneForeignKey(init, i);
    } else {
      ParentsOfTwoForeignKeys(init, i, j);
    }
  }

  /** Reference enumeration of a tree, depth first: the node, then the
      subtree of each present parent in field order. */
  function Nodes(n: ModelNode): (r: seq<ModelNode>)
    decreases n
  {
    [n] + FieldNodes(n.fields)
  }

  function FieldNodes(fields: seq<Field>): (r: seq<ModelNode>)
    decreases fields
  {
    if fields == [] then []
    else
      var last := fields[|fields| - 1];
      FieldNodes(fields[..|fields| - 1])
      + (if last.ForeignKey? && last.target.Some? then Nodes(last.target.value) else [])
  }

  /** The trees of a whole queue, one after the other. */
  function AllNodes(queue: seq<ModelNode>): (r: seq<ModelNode>)
  {
    if queue == [] then [] else Nodes(queue[0]) + AllNodes(queue[1..])
  }

  lemma {:induction false} AllNodesAppend(a: seq<ModelNode>, b: seq<ModelNode>)
    ensures AllNodes(a + b) == AllNodes(a) + AllNodes(b)
  {
    if a == [] {
      assert a + b == b;
    } else {
      assert (a + b)[0] == a[0];
      assert (a + b)[1..] == a[1..] + b;
      AllNodesAppend(a[1..], b);
    }
  }

  lemma {:induction false} FieldNodesAreParentTrees(fields: seq<Field>)
    ensures FieldNodes(fields) == AllNodes(ParentsOf(fields))
  {
    if fields != [] {
      var init, last := fields[..|fields| - 1], fields[|fields| - 1];
      FieldNodesAreParentTrees(init);
      AllNodesAppend(ParentsOf(init), ParentOf(last));
      if last.ForeignKey? && last.target.Some? {
        assert AllNodes([last.target.value]) == Nodes(last.target.value) + AllNodes([]);
      }
    }
  }

  /** One step of the walk: popping the head and enqueuing its parents
      leaves exactly the head out of the remaining trees. */
  lemma StepRemovesHead(queue: seq<ModelNode>)
    requires queue != []
    ensures multiset(AllNodes(queue)) == multiset{queue[0]} + multiset(AllNodes(queue[1..] + ParentsOf(queue[0].fields)))
    ensures |AllNodes(queue)| == 1 + |AllNodes(queue[1..] + ParentsOf(queue[0].fields))|
  {
    var rest, parents := queue[1..], ParentsOf(queue[0].fields);
    var restTrees, parentTrees := AllNodes(rest), AllNodes(parents);
    assert AllNodes(queue) == Nodes(queue[0]) + restTrees;
    assert Nodes(queue[0]) == [queue[0]] + FieldNodes(queue[0].fields);
    FieldNodesAreParentTrees(queue[0].fields);
    AllNodesAppend(rest, parents);
    assert multiset(AllNodes(queue)) == multiset{queue[0]} + multiset(parentTrees) + multiset(restTrees);
    assert |AllNodes(queue)| == 1 + |parentTrees| + |restTrees|;
  }

  lemma StepShrinks(queue: seq<ModelNode>)
    requires queue != []
    ensures |AllNodes(queue)| == 1 + |AllNodes(queue[1..] + ParentsOf(queue[0].fields))|
  {
    StepRemovesHead(queue);
  }

  /** The breadth-first order the generator yields: pop the head, enqueue
      its present parents at the back, yield the head. */
  function Bfs(queue: seq<ModelNode>): (r: seq<ModelNode>)
    ensures |r| == |AllNodes(queue)|
    decreases |AllNodes(queue)|
  {
    if queue == [] then []
    else
      StepShrinks(queue);
      [queue[0]] + Bfs(queue[1..] + ParentsOf(queue[0].fields))
  }

  /** The parents of every node of a queue, in queue order: the next level. */
  function Children(queue: seq<ModelNode>): (r: seq<ModelNode>)
  {
    if queue == [] then [] else ParentsOf(queue[0].fields) + Children(queue[1..])
  }

  lemma ChildrenOfOne(n: ModelNode)
    ensures Children([n]) == ParentsOf(n.fields)
  {
    assert [n][1..] == [];
  }

  lemma ChildrenOfTwo(a: ModelNode, b: ModelNode)
    ensures Children([a, b]) == ParentsOf(a.fields) + ParentsOf(b.fields)
  {
    assert [a, b][1..] == [b];
    ChildrenOfOne(b);
  }

  /** The model classes of a sequence of instances, as a set. */
  function Classes(nodes: seq<ModelNode>): (r: set<ModelClass>)
    ensures forall i :: 0 <= i < |nodes| ==> nodes[i].kind in r
    ensures forall c :: c in r ==> exists i :: 0 <= i < |nodes| && nodes[i].kind == c
  {
    set i | 0 <= i < |nodes| :: nodes[i].kind
  }

  lemma ClassesOfOne(n: ModelNode)
    ensures Classes([n]) == {n.kind}
  {
    assert [n][0] == n;
  }

  lemma ClassesAppend(a: seq<ModelNode>, b: seq<ModelNode>)
    ensures Classes(a + b) == Classes(a) + Classes(b)
  {
    forall c | c in Classes(a + b) ensures c in Classes(a) + Classes(b) {
      var i :| 0 <= i < |a + b| && (a + b)[i].kind == c;
      if i >= |a| { assert b[i - |a|].kind == c; }
    }
    forall c | c in Classes(a) ensures c in Classes(a + b) {
      var i :| 0 <= i < |a| && a[i].kind == c;
      assert (a + b)[i] == a[i];
    }
    forall c | c in Classes(b) ensures c in Classes(a + b) {
      var i :| 0 <= i < |b| && b[i].kind == c;
      assert (a + b)[|a| + i] == b[i];
    }
  }

  /** The model classes of a sequence of instances, in order. */
  function Kinds(nodes: seq<ModelNode>): (r: seq<ModelClass>)
    ensures |r| == |nodes|
    ensures forall i :: 0 <= i < |nodes| ==> r[i] == nodes[i].kind
  {
    if nodes == [] then [] else [nodes[0].kind] + Kinds(nodes[1..])
  }

  /** The inner `for field in current_model._meta.get_fields()` loop:
      appends the related instance of every set ForeignKey, in field order. */
  method EnqueueParents(queue: seq<ModelNode>, fields: seq<Field>) returns (r: seq<ModelNode>)
    ensures r == queue + ParentsOf(fields)
  {
    r := queue;
    var i := 0;
    while i < |fields|
      invariant 0 <= i <= |fields|
      invariant r == queue + ParentsOf(fields[..i])
    {
      var field := fields[i];
      if field.ForeignKey? && field.target.Some? {
        r := r + [field.target.value];
      }
      assert fields[..i + 1][..i] == fields[..i];
      assert ParentsOf(fields[..i + 1]) == ParentsOf(fields[..i]) + ParentOf(field);
      i := i + 1;
    }
    assert fields[..i] == fields;
  }

  lemma BfsUnfold(queue: seq<ModelNode>)
    requires queue != []
    ensures Bfs(queue) == [queue[0]] + Bfs(queue[1..] + ParentsOf(queue[0].fields))
  {
  }

  /** `flatten_model_graph(model)`: the queue starts with the model; each
      round pops the head, enqueues the related instance of every
      ForeignKey field that is set, in field order, and yields the head. */
  method FlattenModelGraph(model: ModelNode) returns (yielded: seq<ModelNode>)
    ensures yielded == Bfs([model])
    ensures |yielded| > 0 && yielded[0] == model
    ensures multiset(yielded) == multiset(Nodes(model))
  {
    var queue := [model];
    yielded := [];
    while queue != []
      invariant yielded + Bfs(queue) == Bfs([model])
      decreases |AllNodes(queue)|
    {
      var current := queue[0];
      BfsUnfold(queue);
      StepShrinks(queue);
      queue := EnqueueParents(queue[1..], current.fields);
      AppendAssociative(yielded, [current], Bfs(queue));
      yielded := yielded + [current];
    }
    assert yielded + [] == yielded;
    BfsHead([model]);
    BfsOfModel(model);
  }

  /** The walk from one model yields every instance of its tree. */
  lemma BfsOfModel(model: ModelNode)
    ensures multiset(Bfs([model])) == multiset(Nodes(model))
  {
    BfsPermutation([model]);
    assert AllNodes([model]) == Nodes(model) + AllNodes([]);
  }

  /** The instance at the head of the queue is yielded first. */
  lemma BfsHead(queue: seq<ModelNode>)
    requires queue != []
    ensures Bfs(queue)[0] == queue[0]
  {
    BfsUnfold(queue);
  }

  /** Every node of the trees in the queue is yielded, each as often as it
      occurs, and nothing else is. */
  lemma {:induction false} BfsPermutation(queue: seq<ModelNode>)
    ensures multiset(Bfs(queue)) == multiset(AllNodes(queue))
    decreases |AllNodes(queue)|
  {
    if queue != [] {
      StepRemovesHead(queue);
      BfsPermutation(queue[1..] + ParentsOf(queue[0].fields));
    }
  }

  /** Level order: the nodes already queued are yielded first, in queue
      order, and only then the parents they enqueued (and theirs). */
  lemma {:induction false} BfsLevels(queue: seq<ModelNode>)
    ensures Bfs(queue) == queue + Bfs(Children(queue))
  {
    BfsPrefix(queue, []);
    assert queue + [] == queue;
    assert [] + Children(queue) == Children(queue);
  }

  lemma {:induction false} BfsPrefix(front: seq<ModelNode>, back: seq<ModelNode>)
    ensures Bfs(front + back) == front + Bfs(back + Children(front))
    decreases |front|
  {
    if front != [] {
      var parents := ParentsOf(front[0].fields);
      calc {
        Bfs(front + back);
      == { BfsStep(front, back); }
        [front[0]] + Bfs(front[1..] + (back + parents));
      == { BfsPrefix(front[1..], back + parents); }
        [front[0]] + (front[1..] + Bfs(back + parents + Children(front[1..])));
      == { AppendAssociative(back, parents, Children(front[1..])); }
        [front[0]] + (front[1..] + Bfs(back + Children(front)));
      == { ConsSplit(front, Bfs(back + Children(front))); }
        front + Bfs(back + Children(front));
      }
    } else {
      assert front + back == back;
      assert back + Children(front) == back;
    }
  }

  /** One round of the walk with the queue split in two. */
  lemma BfsStep(front: seq<ModelNode>, back: seq<ModelNode>)
    requires front != []
    ensures Bfs(front + back) == [front[0]] + Bfs(front[1..] + (back + ParentsOf(front[0].fields)))
  {
    ConsSplit(front, back);
    BfsCons(front[0], front[1..] + back);
    AppendAssociative(front[1..], back, ParentsOf(front[0].fields));
  }


  lemma BfsCons(head: ModelNode, tail: seq<ModelNode>)
    ensures Bfs([head] + tail) == [head] + Bfs(tail + ParentsOf(head.fields))
  {
    var q := [head] + tail;
    assert q[0] == head && q[1..] == tail;
    BfsUnfold(q);
  }

  /** A subtree reached only through an unset foreign key is never yielded:
      whatever is yielded occurs in the reference enumeration. */
  lemma YieldedOnlyReachable(model: ModelNode, n: ModelNode)
    requires n in Bfs([model])
    ensures n in Nodes(model)
  {
    BfsPermutation([model]);
    assert AllNodes([model]) == Nodes(model) + AllNodes([]);
    assert n in multiset(Bfs([model]));
  }
}
