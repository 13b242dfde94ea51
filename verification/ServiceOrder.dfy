/** In which order the target list of a snapshot names the targets: siblings by id. */
module ServiceOrder {
  import opened Common
  import opened OrderedMap
  import opened Sorting
  import opened Subsequences
  import opened ServiceForest

  /** The ids of the nodes with this parent. */
  function Under(nodes: seq<Node>, parent: Option<string>): seq<string> {
    if nodes == [] then [] else (if nodes[0].parent == parent then [nodes[0].id] else []) + Under(nodes[1..], parent)
  }

  lemma {:induction false} UnderConcat(a: seq<Node>, b: seq<Node>, parent: Option<string>)
    ensures Under(a + b, parent) == Under(a, parent) + Under(b, parent)
  {
    if a == [] {
      assert a + b == b;
    } else {
      assert (a + b)[1..] == a[1..] + b;
      UnderConcat(a[1..], b, parent);
      Assoc(if a[0].parent == parent then [a[0].id] else [], Under(a[1..], parent), Under(b, parent));
    }
  }

  lemma {:induction false} NoneUnder(nodes: seq<Node>, parent: Option<string>)
    requires forall n | n in nodes :: n.parent != parent
    ensures Under(nodes, parent) == []
  {
    if nodes != [] { NoneUnder(nodes[1..], parent); }
  }

  // ---- what the walk puts under a target

  /** Below a visited target nothing is put under another visited one, or under none. */
  lemma {:induction false} AllElsewhere(
      targets: seq<Reported>, todo: seq<string>, p: string, visited: set<string>, q: Option<string>)
    requires (forall x | x in todo :: x in Ids(targets)) && visited <= Ids(targets) && p in visited
    requires q.None? || (q.value in visited && q.value != p)
    ensures Under(AppendAll(targets, todo, Some(p), visited).nodes, q) == []
    decreases Ids(targets) - visited, |todo|
  {
    if todo != [] {
      var first := Append(targets, todo[0], Some(p), visited);
      var rest := AppendAll(targets, todo[1..], Some(p), first.visited);
      OneElsewhere(targets, todo[0], Some(p), visited, q);
      AllElsewhere(targets, todo[1..], p, first.visited, q);
      UnderConcat(first.nodes, rest.nodes, q);
      if todo[0] !in visited { assert [Node(todo[0], Some(p))][1..] == []; }
    }
  }

  /** A target that is appended heads its nodes; the others are not put under what was visited before. */
  lemma {:induction false} OneElsewhere(
      targets: seq<Reported>, id: string, parent: Option<string>, visited: set<string>, q: Option<string>)
    requires id in Ids(targets) && visited <= Ids(targets) && (q.Some? ==> q.value in visited)
    ensures Under(Append(targets, id, parent, visited).nodes, q) == if id !in visited && parent == q then [id] else []
    decreases Ids(targets) - visited, 0
  {
    if id !in visited {
      var below := AppendAll(targets, Below(targets, Some(id)), Some(id), visited + {id});
      AllElsewhere(targets, Below(targets, Some(id)), id, visited + {id}, q);
      UnderConcat([Node(id, parent)], below.nodes, q);
      assert [Node(id, parent)][1..] == [];
    }
  }

  /** What is put under the parent of the walk comes from its list, in that order. */
  lemma {:induction false} TopsAmong(
      targets: seq<Reported>, todo: seq<string>, parent: Option<string>, visited: set<string>)
    requires (forall x | x in todo :: x in Ids(targets)) && visited <= Ids(targets)
    requires parent.Some? ==> parent.value in visited
    ensures Among(Under(AppendAll(targets, todo, parent, visited).nodes, parent), todo)
    decreases |todo|
  {
    if todo != [] {
      var first := Append(targets, todo[0], parent, visited);
      var rest := AppendAll(targets, todo[1..], parent, first.visited);
      OneElsewhere(targets, todo[0], parent, visited, parent);
      TopsAmong(targets, todo[1..], parent, first.visited);
      UnderConcat(first.nodes, rest.nodes, parent);
      AmongStep(Under(first.nodes, parent), Under(rest.nodes, parent), todo);
    }
  }

  lemma {:induction false} OneUnder(
      targets: seq<Reported>, id: string, parent: Option<string>, visited: set<string>, q: string)
    requires id in Ids(targets) && visited <= Ids(targets) && q !in visited && parent != Some(q)
    requires parent.Some? ==> parent.value in visited
    ensures Among(Under(Append(targets, id, parent, visited).nodes, Some(q)), Below(targets, Some(q)))
    decreases Ids(targets) - visited, 0
  {
    if id !in visited {
      var children := Below(targets, Some(id));
      var below := AppendAll(targets, children, Some(id), visited + {id});
      if id == q {
        TopsAmong(targets, children, Some(id), visited + {id});
      } else {
        AllUnder(targets, children, Some(id), visited + {id}, q);
      }
      UnderConcat([Node(id, parent)], below.nodes, Some(q));
      assert [Node(id, parent)][1..] == [];
      assert Under([Node(id, parent)], Some(q)) == [];
      assert [] + Under(below.nodes, Some(q)) == Under(below.nodes, Some(q));
    }
  }

  /** What is put under a target that was not visited before are its children, in the order of their ids. */
  lemma {:induction false} AllUnder(
      targets: seq<Reported>, todo: seq<string>, parent: Option<string>, visited: set<string>, q: string)
    requires (forall x | x in todo :: x in Ids(targets)) && visited <= Ids(targets)
    requires q !in visited && parent != Some(q) && (parent.Some? ==> parent.value in visited)
    ensures Among(Under(AppendAll(targets, todo, parent, visited).nodes, Some(q)), Below(targets, Some(q)))
    decreases Ids(targets) - visited, |todo|
  {
    if todo != [] {
      var first := Append(targets, todo[0], parent, visited);
      var rest := AppendAll(targets, todo[1..], parent, first.visited);
      UnderConcat(first.nodes, rest.nodes, Some(q));
      var a, b := Under(first.nodes, Some(q)), Under(rest.nodes, Some(q));
      if q in first.visited {
        OneUnder(targets, todo[0], parent, visited, q);
        RestElsewhere(targets, todo[1..], parent, first.visited, q);
        assert a + [] == a;
      } else {
        AppendLists(targets, todo[0], parent, visited);
        NoneUnder(first.nodes, Some(q));
        AllUnder(targets, todo[1..], parent, first.visited, q);
        assert [] + b == b;
      }
    }
  }

  lemma {:induction false} RestElsewhere(
      targets: seq<Reported>, todo: seq<string>, parent: Option<string>, visited: set<string>, q: string)
    requires (forall x | x in todo :: x in Ids(targets)) && visited <= Ids(targets)
    requires q in visited && parent != Some(q)
    ensures Under(AppendAll(targets, todo, parent, visited).nodes, Some(q)) == []
    decreases |todo|
  {
    if todo != [] {
      var first := Append(targets, todo[0], parent, visited);
      OneElsewhere(targets, todo[0], parent, visited, Some(q));
      RestElsewhere(targets, todo[1..], parent, first.visited, q);
      UnderConcat(first.nodes, AppendAll(targets, todo[1..], parent, first.visited).nodes, Some(q));
    }
  }

  // ---- siblings

  lemma {:induction false} SiblingsAmong(targets: seq<Reported>, q: string)
    ensures Among(Under(Nodes(targets), Some(q)), Below(targets, Some(q)))
  {
    var first := AppendAll(targets, Below(targets, None), None, {});
    var all := SortIds(AllIds(targets));
    var rest := AppendAll(targets, all, None, first.visited);
    var a, b := Under(first.nodes, Some(q)), Under(rest.nodes, Some(q));
    UnderConcat(first.nodes, rest.nodes, Some(q));
    if q in first.visited {
      AllUnder(targets, Below(targets, None), None, {}, q);
      RestElsewhere(targets, all, None, first.visited, q);
      assert a + [] == a;
    } else {
      AppendAllLists(targets, Below(targets, None), None, {});
      NoneUnder(first.nodes, Some(q));
      AllUnder(targets, all, None, first.visited, q);
      assert [] + b == b;
    }
  }

  lemma {:induction false} UnderAt(nodes: seq<Node>, i: nat, parent: Option<string>)
    requires i < |nodes| && nodes[i].parent == parent
    ensures var m := |Under(nodes[..i], parent)|;
      m < |Under(nodes, parent)| && Under(nodes, parent)[m] == nodes[i].id
  {
    var a, b := nodes[..i], nodes[i..];
    assert nodes == a + b;
    UnderConcat(a, b, parent);
  }

  lemma {:induction false} TwoUnder(nodes: seq<Node>, i: nat, j: nat, parent: Option<string>)
      returns (m: nat, n: nat)
    requires i < j < |nodes| && nodes[i].parent == parent && nodes[j].parent == parent
    ensures m < n < |Under(nodes, parent)|
    ensures Under(nodes, parent)[m] == nodes[i].id && Under(nodes, parent)[n] == nodes[j].id
  {
    m, n := |Under(nodes[..i], parent)|, |Under(nodes[..j], parent)|;
    UnderAt(nodes, i, parent);
    UnderAt(nodes, j, parent);
    UnderAt(nodes[..j], i, parent);
    assert nodes[..j][..i] == nodes[..i];
  }

  lemma {:induction false} IdAt(nodes: seq<Node>, i: nat)
    requires i < |nodes|
    ensures |NodeIds(nodes)| == |nodes| && NodeIds(nodes)[i] == nodes[i].id
  {
    if i > 0 { IdAt(nodes[1..], i - 1); } else if nodes[1..] != [] { IdAt(nodes[1..], 0); }
  }

  /** Of two targets under the same parent the first has the smaller id. */
  lemma {:induction false} SiblingsAscend(targets: seq<Reported>, i: nat, j: nat)
    requires i < j < |Nodes(targets)|
    requires Nodes(targets)[i].parent.Some? && Nodes(targets)[i].parent == Nodes(targets)[j].parent
    ensures Before(Nodes(targets)[i].id, Nodes(targets)[j].id)
  {
    var nodes := Nodes(targets);
    var parent := nodes[i].parent;
    SiblingsAmong(targets, parent.value);
    var k, l := TwoUnder(nodes, i, j, parent);
    var m, n := TwoAmong(Under(nodes, parent), Below(targets, parent), k, l);
    EachTargetOnce(targets);
    IdAt(nodes, i);
    IdAt(nodes, j);
    LessTotal(nodes[i].id, nodes[j].id);
    LessExact(nodes[i].id, nodes[j].id);
  }

  lemma {:induction false} UnderAmongIds(nodes: seq<Node>, parent: Option<string>)
    ensures Among(Under(nodes, parent), NodeIds(nodes))
  {
    if nodes != [] {
      UnderAmongIds(nodes[1..], parent);
      AmongStep(if nodes[0].parent == parent then [nodes[0].id] else [], Under(nodes[1..], parent), NodeIds(nodes));
    }
  }

  ghost predicate Rising(s: seq<string>) {
    forall i, j | 0 <= i < j < |s| :: Before(s[i], s[j])
  }

  lemma {:induction false} AmongRises(some: seq<string>, all: seq<string>)
    requires Among(some, all) && Ascending(all) && Distinct(some)
    ensures Rising(some)
  {
    forall i, j | 0 <= i < j < |some| ensures Before(some[i], some[j]) {
      var m, n := TwoAmong(some, all, i, j);
      LessTotal(some[i], some[j]);
      LessExact(some[i], some[j]);
    }
  }

  /** A report of this target names no listed parent and no listed opener. */
  ghost predicate Free(targets: seq<Reported>, x: string) {
    exists t | t in targets ::
      t.id == x && !exists y | y in Ids(targets) :: t.parent == Some(y) || t.opener == Some(y)
  }

  lemma {:induction false} BelowNoneIsFree(targets: seq<Reported>, x: string)
    requires x in Below(targets, None)
    ensures Free(targets, x)
  {
    IdsBelowExact(targets, Ids(targets), None, x);
    var t :| t in targets && t.id == x && EffectiveParent(Ids(targets), t) == None;
    ParentExact(Ids(targets), t, "");
  }

  /** The targets that are named without a parent are first free ones, by id, and then, by id again, what only a
      cycle of parents leads to. */
  lemma {:induction false} TopsAscend(targets: seq<Reported>) returns (free: seq<string>, left: seq<string>)
    ensures Under(Nodes(targets), None) == free + left
    ensures Rising(free) && Rising(left) && forall x | x in free :: Free(targets, x)
  {
    var first := AppendAll(targets, Below(targets, None), None, {});
    var all := SortIds(AllIds(targets));
    var rest := AppendAll(targets, all, None, first.visited);
    free, left := Under(first.nodes, None), Under(rest.nodes, None);
    UnderConcat(first.nodes, rest.nodes, None);
    EachTargetOnce(targets);
    UnderAmongIds(Nodes(targets), None);
    AmongDistinct(free + left, NodeIds(Nodes(targets)));
    assert Distinct(free) && Distinct(left) by { DistinctParts(free, left); }
    TopsAmong(targets, Below(targets, None), None, {});
    TopsAmong(targets, all, None, first.visited);
    AmongRises(free, Below(targets, None));
    AmongRises(left, all);
    forall x | x in free ensures Free(targets, x) {
      var i :| 0 <= i < |free| && free[i] == x;
      var m := AmongAt(free, Below(targets, None), i);
      BelowNoneIsFree(targets, x);
    }
  }
}
