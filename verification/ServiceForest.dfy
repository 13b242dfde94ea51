/** The target list of a context snapshot as the service makes it: per connection a depth-first walk of the
    reported parents and openers. */
module ServiceForest {
  import opened Common
  import opened Sorting

  datatype Reported = Reported(id: string, parent: Option<string>, opener: Option<string>, attached: bool)

  function Ids(targets: seq<Reported>): (r: set<string>)
    ensures forall x :: x in r <==> exists t | t in targets :: t.id == x
  {
    set t | t in targets :: t.id
  }

  /** The reported parent if it is listed, else the opener if that is. */
  function EffectiveParent(ids: set<string>, t: Reported): Option<string> {
    if t.parent.Some? && t.parent.value in ids then t.parent
    else if t.opener.Some? && t.opener.value in ids then t.opener
    else None
  }

  /** A listed parent counts before a listed opener, and nothing that is not listed counts. */
  lemma ParentExact(ids: set<string>, t: Reported, x: string)
    ensures EffectiveParent(ids, t) == Some(x) <==>
      x in ids
      && (t.parent == Some(x) || (t.opener == Some(x) && !exists y | y in ids :: t.parent == Some(y)))
    ensures EffectiveParent(ids, t).None? <==> !exists y | y in ids :: t.parent == Some(y) || t.opener == Some(y)
  {
  }

  ghost predicate IsBelow(targets: seq<Reported>, ids: set<string>, parent: Option<string>, x: string) {
    exists t | t in targets :: t.id == x && EffectiveParent(ids, t) == parent
  }

  /** The ids of the targets below `parent`, or of those without a listed parent. */
  function IdsBelow(targets: seq<Reported>, ids: set<string>, parent: Option<string>): (r: seq<string>)
    ensures forall x | x in r :: x in Ids(targets)
  {
    if targets == [] then []
    else
      (if EffectiveParent(ids, targets[0]) == parent then [targets[0].id] else [])
      + IdsBelow(targets[1..], ids, parent)
  }

  function AllIds(targets: seq<Reported>): (r: seq<string>)
    ensures forall x :: x in r <==> x in Ids(targets)
  {
    if targets == [] then [] else [targets[0].id] + AllIds(targets[1..])
  }

  function Below(targets: seq<Reported>, parent: Option<string>): (r: seq<string>)
    ensures forall x | x in r :: x in Ids(targets)
  {
    SortIds(IdsBelow(targets, Ids(targets), parent))
  }

  lemma {:induction false} IdsBelowExact(
      targets: seq<Reported>, ids: set<string>, parent: Option<string>, x: string)
    ensures x in IdsBelow(targets, ids, parent) <==> IsBelow(targets, ids, parent, x)
  {
    if targets != [] {
      assert targets == [targets[0]] + targets[1..];
      IdsBelowExact(targets[1..], ids, parent, x);
    }
  }

  // ---- the walk

  datatype Node = Node(id: string, parent: Option<string>)

  datatype Walk = Walk(nodes: seq<Node>, visited: set<string>)

  function Append(targets: seq<Reported>, id: string, parent: Option<string>, visited: set<string>): (w: Walk)
    requires id in Ids(targets) && visited <= Ids(targets)
    ensures visited <= w.visited <= Ids(targets)
    decreases Ids(targets) - visited, 0
  {
    if id in visited then Walk([], visited)
    else
      var below := AppendAll(targets, Below(targets, Some(id)), Some(id), visited + {id});
      Walk([Node(id, parent)] + below.nodes, below.visited)
  }

  function AppendAll(targets: seq<Reported>, todo: seq<string>, parent: Option<string>, visited: set<string>): (w: Walk)
    requires (forall x | x in todo :: x in Ids(targets)) && visited <= Ids(targets)
    ensures visited <= w.visited <= Ids(targets)
    decreases Ids(targets) - visited, |todo|
  {
    if todo == [] then Walk([], visited)
    else
      var first := Append(targets, todo[0], parent, visited);
      var rest := AppendAll(targets, todo[1..], parent, first.visited);
      Walk(first.nodes + rest.nodes, rest.visited)
  }

  /** First the targets without a parent, then what only a cycle of parents leads to. */
  function Nodes(targets: seq<Reported>): seq<Node> {
    var first := AppendAll(targets, Below(targets, None), None, {});
    first.nodes + AppendAll(targets, SortIds(AllIds(targets)), None, first.visited).nodes
  }

  /** The list and the visited set that `append_target_node` updates in place. */
  class ForestWriter {
    var nodes: seq<Node>
    var visited: set<string>

    constructor ()
      ensures nodes == [] && visited == {}
    {
      nodes, visited := [], {};
    }

    method AppendTargetNode(targets: seq<Reported>, id: string, parent: Option<string>)
      requires id in Ids(targets) && visited <= Ids(targets)
      modifies this
      ensures var w := Append(targets, id, parent, old(visited));
        nodes == old(nodes) + w.nodes && visited == w.visited
      decreases Ids(targets) - visited, 0
    {
      if id in visited { return; }
      visited := visited + {id};
      var children := Below(targets, Some(id));
      ghost var below := AppendAll(targets, children, Some(id), visited);
      Assoc(nodes, [Node(id, parent)], below.nodes);
      nodes := nodes + [Node(id, parent)];
      AppendEach(targets, children, Some(id));
    }

    method AppendEach(targets: seq<Reported>, todo: seq<string>, parent: Option<string>)
      requires (forall x | x in todo :: x in Ids(targets)) && visited <= Ids(targets)
      modifies this
      ensures var w := AppendAll(targets, todo, parent, old(visited));
        nodes == old(nodes) + w.nodes && visited == w.visited
      decreases Ids(targets) - visited, |todo| + 1
    {
      ghost var done: seq<Node> := [];
      ghost var all := AppendAll(targets, todo, parent, visited);
      var k: nat := 0;
      while k < |todo|
        invariant k <= |todo| && old(visited) <= visited <= Ids(targets)
        invariant nodes == old(nodes) + done
        invariant all == Then(done, AppendAll(targets, todo[k..], parent, visited))
      {
        ghost var step := Append(targets, todo[k], parent, visited);
        ghost var rest := AppendAll(targets, todo[k + 1..], parent, step.visited);
        assert todo[k..][1..] == todo[k + 1..];
        Assoc(old(nodes), done, step.nodes);
        Assoc(done, step.nodes, rest.nodes);
        AppendTargetNode(targets, todo[k], parent);
        done := done + step.nodes;
        k := k + 1;
      }
      assert done + [] == done;
    }
  }

  ghost function Then(done: seq<Node>, w: Walk): Walk {
    Walk(done + w.nodes, w.visited)
  }

  method TargetForest(targets: seq<Reported>) returns (nodes: seq<Node>)
    ensures nodes == Nodes(targets)
  {
    ghost var first := AppendAll(targets, Below(targets, None), None, {});
    ghost var rest := AppendAll(targets, SortIds(AllIds(targets)), None, first.visited);
    assert Nodes(targets) == first.nodes + rest.nodes;
    assert [] + first.nodes == first.nodes;
    var writer := new ForestWriter();
    writer.AppendEach(targets, Below(targets, None), None);
    writer.AppendEach(targets, SortIds(AllIds(targets)), None);
    nodes := writer.nodes;
  }

  // ---- each target once, after its parent

  function NodeIds(nodes: seq<Node>): seq<string> {
    if nodes == [] then [] else [nodes[0].id] + NodeIds(nodes[1..])
  }

  /** No node's parent comes at or after it. */
  predicate ParentsFirst(nodes: seq<Node>) {
    nodes != [] ==>
      && (nodes[0].parent.Some? ==> nodes[0].parent.value !in NodeIds(nodes))
      && ParentsFirst(nodes[1..])
  }

  ghost predicate ParentsIn(nodes: seq<Node>, ids: set<string>) {
    forall n | n in nodes && n.parent.Some? :: n.parent.value in ids
  }

  /** The nodes list what the walk newly visited, once each, parents first. */
  ghost predicate Lists(nodes: seq<Node>, before: set<string>, after: set<string>) {
    && Distinct(NodeIds(nodes)) && (forall x :: x in NodeIds(nodes) <==> x in after - before)
    && ParentsFirst(nodes) && ParentsIn(nodes, after)
  }

  lemma {:induction false} NodeIdsConcat(a: seq<Node>, b: seq<Node>)
    ensures NodeIds(a + b) == NodeIds(a) + NodeIds(b)
  {
    if a == [] {
      assert a + b == b;
    } else {
      assert (a + b)[1..] == a[1..] + b;
      NodeIdsConcat(a[1..], b);
    }
  }

  lemma {:induction false} ParentsFirstConcat(a: seq<Node>, b: seq<Node>, known: set<string>)
    requires ParentsFirst(a) && ParentsFirst(b) && ParentsIn(a, known) && forall x | x in NodeIds(b) :: x !in known
    ensures ParentsFirst(a + b)
  {
    if a == [] {
      assert a + b == b;
    } else {
      assert (a + b)[1..] == a[1..] + b;
      assert a[0] in a;
      NodeIdsConcat(a, b);
      ParentsFirstConcat(a[1..], b, known);
    }
  }

  lemma {:induction false} ListsJoin(a: seq<Node>, b: seq<Node>, x: set<string>, y: set<string>, z: set<string>)
    requires Lists(a, x, y) && Lists(b, y, z) && x <= y <= z
    ensures Lists(a + b, x, z)
  {
    NodeIdsConcat(a, b);
    DistinctConcat(NodeIds(a), NodeIds(b));
    ParentsFirstConcat(a, b, y);
  }

  lemma {:induction false} ListsOne(id: string, parent: Option<string>, visited: set<string>)
    requires id !in visited && (parent.Some? ==> parent.value in visited)
    ensures Lists([Node(id, parent)], visited, visited + {id})
  {
    assert [Node(id, parent)][1..] == [];
    assert NodeIds([Node(id, parent)]) == [id];
  }

  lemma {:induction false} AppendLists(targets: seq<Reported>, id: string, parent: Option<string>, visited: set<string>)
    requires id in Ids(targets) && visited <= Ids(targets) && (parent.Some? ==> parent.value in visited)
    ensures var w := Append(targets, id, parent, visited); Lists(w.nodes, visited, w.visited) && id in w.visited
    decreases Ids(targets) - visited, 0
  {
    if id !in visited {
      var below := AppendAll(targets, Below(targets, Some(id)), Some(id), visited + {id});
      ListsOne(id, parent, visited);
      AppendAllLists(targets, Below(targets, Some(id)), Some(id), visited + {id});
      ListsJoin([Node(id, parent)], below.nodes, visited, visited + {id}, below.visited);
    }
  }

  lemma {:induction false} AppendAllLists(
      targets: seq<Reported>, todo: seq<string>, parent: Option<string>, visited: set<string>)
    requires (forall x | x in todo :: x in Ids(targets)) && visited <= Ids(targets)
    requires parent.Some? ==> parent.value in visited
    ensures var w := AppendAll(targets, todo, parent, visited);
      Lists(w.nodes, visited, w.visited) && forall x | x in todo :: x in w.visited
    decreases Ids(targets) - visited, |todo|
  {
    if todo != [] {
      var first := Append(targets, todo[0], parent, visited);
      var rest := AppendAll(targets, todo[1..], parent, first.visited);
      AppendLists(targets, todo[0], parent, visited);
      AppendAllLists(targets, todo[1..], parent, first.visited);
      ListsJoin(first.nodes, rest.nodes, visited, first.visited, rest.visited);
    }
  }

  /** Whatever parents and openers are reported, cyclic or with repeated ids: every reported target is listed
      once, and never before its parent. */
  lemma {:induction false} EachTargetOnce(targets: seq<Reported>)
    ensures Distinct(NodeIds(Nodes(targets))) && ParentsFirst(Nodes(targets))
    ensures forall x :: x in NodeIds(Nodes(targets)) <==> x in Ids(targets)
  {
    var first := AppendAll(targets, Below(targets, None), None, {});
    var all := SortIds(AllIds(targets));
    var rest := AppendAll(targets, all, None, first.visited);
    AppendAllLists(targets, Below(targets, None), None, {});
    AppendAllLists(targets, all, None, first.visited);
    ListsJoin(first.nodes, rest.nodes, {}, first.visited, rest.visited);
    forall x | x in Ids(targets) ensures x in rest.visited { assert x in all; }
  }

  // ---- the reported parents

  /** Each parent named is the effective one of a report of that target. */
  ghost predicate Real(targets: seq<Reported>, nodes: seq<Node>) {
    forall n | n in nodes && n.parent.Some? :: IsBelow(targets, Ids(targets), n.parent, n.id)
  }

  lemma {:induction false} AppendReal(targets: seq<Reported>, id: string, parent: Option<string>, visited: set<string>)
    requires id in Ids(targets) && visited <= Ids(targets)
    requires parent.Some? ==> IsBelow(targets, Ids(targets), parent, id)
    ensures Real(targets, Append(targets, id, parent, visited).nodes)
    decreases Ids(targets) - visited, 0
  {
    if id !in visited {
      forall x | x in Below(targets, Some(id)) ensures IsBelow(targets, Ids(targets), Some(id), x) {
        IdsBelowExact(targets, Ids(targets), Some(id), x);
      }
      AppendAllReal(targets, Below(targets, Some(id)), Some(id), visited + {id});
    }
  }

  lemma {:induction false} AppendAllReal(
      targets: seq<Reported>, todo: seq<string>, parent: Option<string>, visited: set<string>)
    requires (forall x | x in todo :: x in Ids(targets)) && visited <= Ids(targets)
    requires parent.Some? ==> forall x | x in todo :: IsBelow(targets, Ids(targets), parent, x)
    ensures Real(targets, AppendAll(targets, todo, parent, visited).nodes)
    decreases Ids(targets) - visited, |todo|
  {
    if todo != [] {
      AppendReal(targets, todo[0], parent, visited);
      AppendAllReal(targets, todo[1..], parent, Append(targets, todo[0], parent, visited).visited);
    }
  }

  /** No child of a newly visited target is left unvisited. */
  ghost predicate Closed(targets: seq<Reported>, before: set<string>, after: set<string>) {
    forall x, y | x in after - before && y in Below(targets, Some(x)) :: y in after
  }

  lemma {:induction false} AppendCloses(targets: seq<Reported>, id: string, parent: Option<string>,
      visited: set<string>)
    requires id in Ids(targets) && visited <= Ids(targets) && (parent.Some? ==> parent.value in visited)
    ensures Closed(targets, visited, Append(targets, id, parent, visited).visited)
    decreases Ids(targets) - visited, 0
  {
    if id !in visited {
      AppendAllCloses(targets, Below(targets, Some(id)), Some(id), visited + {id});
      AppendAllLists(targets, Below(targets, Some(id)), Some(id), visited + {id});
    }
  }

  lemma {:induction false} AppendAllCloses(
      targets: seq<Reported>, todo: seq<string>, parent: Option<string>, visited: set<string>)
    requires (forall x | x in todo :: x in Ids(targets)) && visited <= Ids(targets)
    requires parent.Some? ==> parent.value in visited
    ensures Closed(targets, visited, AppendAll(targets, todo, parent, visited).visited)
    decreases Ids(targets) - visited, |todo|
  {
    if todo != [] {
      AppendCloses(targets, todo[0], parent, visited);
      AppendAllCloses(targets, todo[1..], parent, Append(targets, todo[0], parent, visited).visited);
    }
  }

  /** Nodes without a parent come from the list that was walked. */
  lemma {:induction false} AppendTops(
      targets: seq<Reported>, id: string, parent: Option<string>, visited: set<string>, n: Node)
    requires id in Ids(targets) && visited <= Ids(targets)
    requires n in Append(targets, id, parent, visited).nodes && n.parent.None?
    ensures n == Node(id, parent)
    decreases Ids(targets) - visited, 0
  {
    if n != Node(id, parent) { AppendAllTops(targets, Below(targets, Some(id)), Some(id), visited + {id}, n); }
  }

  lemma {:induction false} AppendAllTops(
      targets: seq<Reported>, todo: seq<string>, parent: Option<string>, visited: set<string>, n: Node)
    requires (forall x | x in todo :: x in Ids(targets)) && visited <= Ids(targets)
    requires n in AppendAll(targets, todo, parent, visited).nodes && n.parent.None?
    ensures n.id in todo && parent.None?
    decreases Ids(targets) - visited, |todo|
  {
    var first := Append(targets, todo[0], parent, visited);
    if n in first.nodes {
      AppendTops(targets, todo[0], parent, visited, n);
    } else {
      AppendAllTops(targets, todo[1..], parent, first.visited, n);
    }
  }

  ghost predicate RankedBy(targets: seq<Reported>, rank: string -> nat) {
    forall t | t in targets && EffectiveParent(Ids(targets), t).Some? ::
      rank(EffectiveParent(Ids(targets), t).value) < rank(t.id)
  }

  /** What is ranked is reached in the first walk. */
  lemma {:induction false} RankedIsReached(targets: seq<Reported>, rank: string -> nat, t: Reported)
    requires RankedBy(targets, rank) && t in targets
    ensures t.id in AppendAll(targets, Below(targets, None), None, {}).visited
    decreases rank(t.id)
  {
    var w := AppendAll(targets, Below(targets, None), None, {});
    var parent := EffectiveParent(Ids(targets), t);
    IdsBelowExact(targets, Ids(targets), parent, t.id);
    AppendAllLists(targets, Below(targets, None), None, {});
    if parent.Some? {
      var p :| p in targets && p.id == parent.value;
      RankedIsReached(targets, rank, p);
      AppendAllCloses(targets, Below(targets, None), None, {});
      assert t.id in Below(targets, Some(p.id));
    }
  }

  lemma NothingLeft(targets: seq<Reported>, todo: seq<string>, visited: set<string>)
    requires (forall x | x in todo :: x in visited) && visited <= Ids(targets)
    ensures AppendAll(targets, todo, None, visited).nodes == []
    decreases |todo|
  {
    if todo != [] { NothingLeft(targets, todo[1..], visited); }
  }

  /** When the effective parents have no cycle the list keeps them all. */
  lemma {:induction false} AcyclicKeepsParents(targets: seq<Reported>, rank: string -> nat, n: Node)
    requires RankedBy(targets, rank) && n in Nodes(targets)
    ensures IsBelow(targets, Ids(targets), n.parent, n.id)
  {
    var w := AppendAll(targets, Below(targets, None), None, {});
    var all := SortIds(AllIds(targets));
    forall x | x in all ensures x in w.visited {
      var t :| t in targets && t.id == x;
      RankedIsReached(targets, rank, t);
    }
    NothingLeft(targets, all, w.visited);
    assert w.nodes + [] == w.nodes;
    if n.parent.Some? {
      AppendAllReal(targets, Below(targets, None), None, {});
    } else {
      AppendAllTops(targets, Below(targets, None), None, {}, n);
      IdsBelowExact(targets, Ids(targets), None, n.id);
    }
  }
}
