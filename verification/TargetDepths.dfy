/** Indentation of target rows: how many ancestors a target has within its group, on any parent
    relation. */
module TargetDepths {
  import opened Common

  datatype Link = Link(id: string, parent: Option<string>)

  type Parents = map<string, Option<string>>

  function ParentsOf(targets: seq<Link>): Parents {
    if targets == [] then map[]
    else ParentsOf(targets[..|targets| - 1])[targets[|targets| - 1].id := targets[|targets| - 1].parent]
  }

  /** Steps up from `current` until the chain ends, leaves the group or repeats. */
  function Ascend(parents: Parents, current: Option<string>, visited: set<string>): nat
    decreases parents.Keys - visited
  {
    if current.None? || current.value in visited || current.value !in parents then 0
    else 1 + Ascend(parents, parents[current.value], visited + {current.value})
  }

  function DepthsOf(parents: Parents, targets: seq<Link>): map<string, nat> {
    if targets == [] then map[]
    else
      var last := targets[|targets| - 1];
      DepthsOf(parents, targets[..|targets| - 1])[last.id := Ascend(parents, last.parent, {})]
  }

  method TargetDepths(targets: seq<Link>) returns (depths: map<string, nat>)
    ensures depths == DepthsOf(ParentsOf(targets), targets)
  {
    var parents: Parents := map[];
    for i := 0 to |targets|
      invariant parents == ParentsOf(targets[..i])
    {
      assert targets[..i + 1][..i] == targets[..i];
      parents := parents[targets[i].id := targets[i].parent];
    }
    assert targets[..|targets|] == targets;
    depths := map[];
    for i := 0 to |targets|
      invariant depths == DepthsOf(parents, targets[..i])
    {
      assert targets[..i + 1][..i] == targets[..i];
      var depth := Climb(parents, targets[i].parent);
      depths := depths[targets[i].id := depth];
    }
  }

  method Climb(parents: Parents, start: Option<string>) returns (depth: nat)
    ensures depth == Ascend(parents, start, {})
  {
    depth := 0;
    var current, visited: set<string> := start, {};
    while current.Some? && current.value !in visited
      invariant depth + Ascend(parents, current, visited) == Ascend(parents, start, {})
      decreases parents.Keys - visited
    {
      if current.value !in parents { break; }
      visited := visited + {current.value};
      depth := depth + 1;
      current := parents[current.value];
    }
  }

  // ---- bound

  lemma {:induction false} AscendBound(parents: Parents, current: Option<string>, visited: set<string>)
    ensures Ascend(parents, current, visited) <= |parents.Keys - visited|
    decreases parents.Keys - visited
  {
    if current.Some? && current.value !in visited && current.value in parents {
      AscendBound(parents, parents[current.value], visited + {current.value});
      assert parents.Keys - visited == (parents.Keys - (visited + {current.value})) + {current.value};
    }
  }

  lemma {:induction false} ParentsBound(targets: seq<Link>)
    ensures |ParentsOf(targets).Keys| <= |targets|
  {
    if targets != [] {
      var front, last := targets[..|targets| - 1], targets[|targets| - 1];
      ParentsBound(front);
      assert ParentsOf(targets).Keys == ParentsOf(front).Keys + {last.id};
    }
  }

  lemma {:induction false} AscendIsBounded(targets: seq<Link>, start: Option<string>)
    ensures Ascend(ParentsOf(targets), start, {}) <= |targets|
  {
    AscendBound(ParentsOf(targets), start, {});
    ParentsBound(targets);
    assert ParentsOf(targets).Keys - {} == ParentsOf(targets).Keys;
  }

  /** Each depth is the climb of some target with that id. */
  lemma {:induction false} DepthsFrom(parents: Parents, targets: seq<Link>, id: string)
    ensures id in DepthsOf(parents, targets) <==> exists t | t in targets :: t.id == id
    ensures id in DepthsOf(parents, targets) ==>
      exists t | t in targets :: t.id == id && DepthsOf(parents, targets)[id] == Ascend(parents, t.parent, {})
  {
    if targets != [] {
      assert targets == targets[..|targets| - 1] + [targets[|targets| - 1]];
      DepthsFrom(parents, targets[..|targets| - 1], id);
    }
  }

  /** Every target has a depth, and no depth exceeds the number of targets. */
  lemma {:induction false} DepthBound(targets: seq<Link>, id: string)
    ensures var depths := DepthsOf(ParentsOf(targets), targets);
      && (id in depths <==> exists t | t in targets :: t.id == id)
      && (id in depths ==> depths[id] <= |targets|)
  {
    var parents := ParentsOf(targets);
    DepthsFrom(parents, targets, id);
    if id in DepthsOf(parents, targets) {
      var t :| t in targets && t.id == id && DepthsOf(parents, targets)[id] == Ascend(parents, t.parent, {});
      AscendIsBounded(targets, t.parent);
    }
  }

  lemma {:induction false} ParentsFrom(targets: seq<Link>, id: string)
    requires id in ParentsOf(targets)
    ensures Link(id, ParentsOf(targets)[id]) in targets
  {
    var last := targets[|targets| - 1];
    if id == last.id {
      assert Link(id, ParentsOf(targets)[id]) == last;
    } else {
      ParentsFrom(targets[..|targets| - 1], id);
    }
  }

  // ---- a child is one deeper than its parent, unless the parent is on a cycle

  /** `p` is among the nodes counted by `Ascend`. */
  predicate Meets(parents: Parents, current: Option<string>, visited: set<string>, p: string)
    decreases parents.Keys - visited
  {
    && current.Some? && current.value !in visited && current.value in parents
    && (current.value == p || Meets(parents, parents[current.value], visited + {current.value}, p))
  }

  /** Climbing from the parent of `p` comes back to `p`. */
  predicate OnCycle(parents: Parents, p: string) {
    p in parents && Meets(parents, parents[p], {}, p)
  }

  lemma {:induction false} NotMet(parents: Parents, current: Option<string>, visited: set<string>, p: string)
    requires p !in visited && !Meets(parents, current, visited, p)
    ensures Ascend(parents, current, visited + {p}) == Ascend(parents, current, visited)
    decreases parents.Keys - visited
  {
    if current.Some? && current.value !in visited && current.value in parents {
      NotMet(parents, parents[current.value], visited + {current.value}, p);
      assert visited + {current.value} + {p} == visited + {p} + {current.value};
    }
  }

  lemma {:induction false} Met(parents: Parents, current: Option<string>, visited: set<string>, p: string)
    requires p in parents && p !in visited && Meets(parents, current, visited, p)
    requires parents[p].Some? && (current == parents[p] || parents[p].value in visited)
    ensures Ascend(parents, current, visited) == Ascend(parents, current, visited + {p}) + 1
    decreases parents.Keys - visited
  {
    if current.value != p {
      Met(parents, parents[current.value], visited + {current.value}, p);
      assert visited + {current.value} + {p} == visited + {p} + {current.value};
    }
  }

  /** The depth below `p` against the depth of `p` itself: one more, unless `p` lies on a cycle,
      where both are the length of the cycle. */
  lemma {:induction false} DepthStep(parents: Parents, p: string)
    requires p in parents
    ensures Ascend(parents, Some(p), {}) == Ascend(parents, parents[p], {}) + if OnCycle(parents, p) then 0 else 1
  {
    assert {} + {p} == {p};
    if OnCycle(parents, p) { Met(parents, parents[p], {}, p); } else { NotMet(parents, parents[p], {}, p); }
  }

  lemma {:induction false} DepthOfTarget(targets: seq<Link>, parents: Parents, t: Link)
    requires t in targets && forall i, j | 0 <= i < j < |targets| :: targets[i].id != targets[j].id
    ensures t.id in DepthsOf(parents, targets) && DepthsOf(parents, targets)[t.id] == Ascend(parents, t.parent, {})
    ensures t.id in ParentsOf(targets) && ParentsOf(targets)[t.id] == t.parent
  {
    var front, last := targets[..|targets| - 1], targets[|targets| - 1];
    if t != last {
      var i :| 0 <= i < |targets| && targets[i] == t;
      assert front[i] == t;
      DepthOfTarget(front, parents, t);
      assert t.id != last.id;
    }
  }

  /** For distinct ids: a target whose parent is absent or outside has depth 0; any other is one
      deeper than its parent exactly when that parent is not on a cycle. */
  lemma {:induction false} DepthsExact(targets: seq<Link>, t: Link, u: Link)
    requires t in targets && u in targets && forall i, j | 0 <= i < j < |targets| :: targets[i].id != targets[j].id
    ensures var parents := ParentsOf(targets);
      var depths := DepthsOf(parents, targets);
      && t.id in depths && u.id in depths
      && (t.parent.None? || t.parent.value !in parents ==> depths[t.id] == 0)
      && (t.parent == Some(u.id) ==> (depths[t.id] == depths[u.id] + 1 <==> !OnCycle(parents, u.id)))
  {
    var parents := ParentsOf(targets);
    DepthOfTarget(targets, parents, t);
    DepthOfTarget(targets, parents, u);
    DepthStep(parents, u.id);
  }

  lemma {:induction false} RankedMeets(
    parents: Parents, current: Option<string>, visited: set<string>, p: string, rank: string -> nat)
    requires forall q | q in parents && parents[q].Some? :: rank(parents[q].value) < rank(q)
    requires current.Some? && rank(current.value) < rank(p)
    ensures !Meets(parents, current, visited, p)
    decreases parents.Keys - visited
  {
    if current.value !in visited && current.value in parents && parents[current.value].Some? {
      RankedMeets(parents, parents[current.value], visited + {current.value}, p, rank);
    }
  }

  /** An acyclic relation has no target on a cycle. */
  lemma {:induction false} AcyclicHasNoCycle(parents: Parents, p: string, rank: string -> nat)
    requires forall q | q in parents && parents[q].Some? :: rank(parents[q].value) < rank(q)
    ensures !OnCycle(parents, p)
  {
    if p in parents && parents[p].Some? { RankedMeets(parents, parents[p], {}, p, rank); }
  }
}
