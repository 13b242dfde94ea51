/** The runtime targets below a process, told by their parents alone: which ones are shown, from which
    row each hangs, and in which order. */
module TargetReach {
  import opened Common
  import opened OrderedMap
  import opened Sorting
  import opened Outline
  import opened NodeWalk
  import opened NodeReach
  import opened NodeSiblings
  import opened Siblings
  import opened RuntimeTargets
  import ResourceReach

  /** A target of the process has this id. */
  ghost predicate Owned(targets: seq<RuntimeTarget>, pid: nat, x: string) {
    exists t | t in targets :: t.process == Some(pid) && t.id == x
  }

  /** A target of the process with id `b` has parent `a`. */
  ghost predicate Leads(targets: seq<RuntimeTarget>, pid: nat, a: string, b: string) {
    exists t | t in targets :: t.process == Some(pid) && t.id == b && t.parent == Some(a)
  }

  /** A target of the process with this id has no parent among the targets of the process. */
  ghost predicate Starts(targets: seq<RuntimeTarget>, pid: nat, x: string) {
    exists t | t in targets ::
      t.process == Some(pid) && t.id == x && (t.parent.Some? ==> !Owned(targets, pid, t.parent.value))
  }

  /** Each target but the last is expanded and the parent of the next. */
  ghost predicate Trail(
    targets: seq<RuntimeTarget>, pid: nat, rootPid: nat, expanded: set<Key>, p: seq<string>)
  {
    && p != [] && Starts(targets, pid, p[0])
    && forall i | 0 <= i < |p| - 1 ::
      ProcessTargetKey(rootPid, p[i]) in expanded && Leads(targets, pid, p[i], p[i + 1])
  }

  ghost predicate Reached(
    targets: seq<RuntimeTarget>, pid: nat, rootPid: nat, expanded: set<Key>, x: string)
  {
    exists p :: Trail(targets, pid, rootPid, expanded, p) && p[|p| - 1] == x
  }

  ghost function Walked(targets: seq<RuntimeTarget>, pid: nat, rootPid: nat): Forest {
    ForestOf(rootPid, OfProcess(targets, pid))
  }

  lemma {:induction false} ChildrenExact(targets: seq<RuntimeTarget>, pid: nat, rootPid: nat, a: string, b: string)
    ensures b in Walked(targets, pid, rootPid).children(a) <==> Leads(targets, pid, a, b)
  {
    var own := OfProcess(targets, pid);
    assert b in ChildIds(own, a) <==> RuntimeChild(own, a, b);
  }

  lemma {:induction false} RootsExact(targets: seq<RuntimeTarget>, pid: nat, x: string)
    ensures x in Roots(OfProcess(targets, pid)) <==> Starts(targets, pid, x)
  {
    var own := OfProcess(targets, pid);
    forall y ensures y in Ids(own) <==> Owned(targets, pid, y) {}
  }

  lemma {:induction false} StepsAreTrail(
      targets: seq<RuntimeTarget>, pid: nat, rootPid: nat, expanded: set<Key>, p: seq<string>)
    requires p != [] && Steps(Walked(targets, pid, rootPid), expanded, p) && p[0] in Roots(OfProcess(targets, pid))
    ensures Trail(targets, pid, rootPid, expanded, p)
  {
    RootsExact(targets, pid, p[0]);
    forall i | 0 <= i < |p| - 1
      ensures ProcessTargetKey(rootPid, p[i]) in expanded && Leads(targets, pid, p[i], p[i + 1])
    {
      ChildrenExact(targets, pid, rootPid, p[i], p[i + 1]);
    }
  }

  lemma {:induction false} TrailIsSteps(
      targets: seq<RuntimeTarget>, pid: nat, rootPid: nat, expanded: set<Key>, p: seq<string>)
    requires Trail(targets, pid, rootPid, expanded, p)
    ensures Reaches(
      Walked(targets, pid, rootPid), expanded, Roots(OfProcess(targets, pid)), p[|p| - 1], p)
  {
    var f := Walked(targets, pid, rootPid);
    RootsExact(targets, pid, p[0]);
    forall i | 0 <= i < |p| - 1 ensures KeyOf(f.kind, p[i]) in expanded && p[i + 1] in f.children(p[i]) {
      ChildrenExact(targets, pid, rootPid, p[i], p[i + 1]);
    }
  }

  /** A target has a row if and only if a trail of expanded parents leads to it; no target has two rows,
      and nothing else has one. */
  lemma {:induction false} ShownAlongParents(
      targets: seq<RuntimeTarget>, pid: nat, rootPid: nat, expanded: set<Key>, depth: nat, k: Key)
    ensures var keys := RowKeys(TargetRows(rootPid, targets, pid, expanded, depth));
      && Distinct(keys)
      && (k in keys
          <==> k.ProcessTargetKey? && k.rootPid == rootPid && Reached(targets, pid, rootPid, expanded, k.targetId))
  {
    var f, roots := Walked(targets, pid, rootPid), Roots(OfProcess(targets, pid));
    TargetsAreReachable(rootPid, targets, pid, expanded, depth);
    if IsNode(f, k) && Reachable(f, expanded, roots, IdOf(k)) {
      var p :| Reaches(f, expanded, roots, IdOf(k), p);
      StepsAreTrail(targets, pid, rootPid, expanded, p);
    }
    if IsNode(f, k) && Reached(targets, pid, rootPid, expanded, k.targetId) {
      var p :| Trail(targets, pid, rootPid, expanded, p) && p[|p| - 1] == k.targetId;
      TrailIsSteps(targets, pid, rootPid, expanded, p);
    }
  }

  lemma {:induction false} RowIsTarget(
      targets: seq<RuntimeTarget>, pid: nat, rootPid: nat, expanded: set<Key>, depth: nat, n: nat)
    requires n < |TargetRows(rootPid, targets, pid, expanded, depth)|
    ensures var row := TargetRows(rootPid, targets, pid, expanded, depth)[n];
      row.key.ProcessTargetKey? && row.key.rootPid == rootPid
  {
    var rows := TargetRows(rootPid, targets, pid, expanded, depth);
    ShownAlongParents(targets, pid, rootPid, expanded, depth, rows[n].key);
    assert RowKeys(rows)[n] == rows[n].key;
  }

  /** The marker says whether the target is a parent; every row stands at the top, where it is one to start
      at, or hangs from a row. */
  lemma {:induction false} RowTellsParents(
      targets: seq<RuntimeTarget>, pid: nat, rootPid: nat, expanded: set<Key>, depth: nat, n: nat)
    requires n < |TargetRows(rootPid, targets, pid, expanded, depth)|
    ensures var rows := TargetRows(rootPid, targets, pid, expanded, depth);
      && rows[n].key.ProcessTargetKey?
      && (rows[n].expandable <==> exists y :: Leads(targets, pid, rows[n].key.targetId, y))
      && (rows[n].expanded <==> rows[n].key in expanded)
      && (rows[n].depth == depth ==> Starts(targets, pid, rows[n].key.targetId))
      && (rows[n].depth != depth ==> exists h :: Hangs(rows, h, n))
  {
    var f, roots := Walked(targets, pid, rootPid), Roots(OfProcess(targets, pid));
    var rows := TargetRows(rootPid, targets, pid, expanded, depth);
    RowIsTarget(targets, pid, rootPid, expanded, depth, n);
    var id := rows[n].key.targetId;
    VisitAllPlaced(f, expanded, roots, depth, {}, n, n + 1, n + 1);
    VisitAllRooted(f, expanded, roots, depth, {}, n);
    VisitAllTops(f, expanded, roots, depth, {});
    if f.children(id) != [] { ChildrenExact(targets, pid, rootPid, id, f.children(id)[0]); }
    if y :| Leads(targets, pid, id, y) { ChildrenExact(targets, pid, rootPid, id, y); }
    if rows[n].depth == depth {
      TopIsListed(f, roots, rows, depth, n);
      RootsExact(targets, pid, id);
    }
  }

  /** Below a row hang targets whose parent it is. */
  lemma {:induction false} HangsFromParent(
      targets: seq<RuntimeTarget>, pid: nat, rootPid: nat, expanded: set<Key>, depth: nat, h: nat, i: nat)
    requires Hangs(TargetRows(rootPid, targets, pid, expanded, depth), h, i)
    ensures var rows := TargetRows(rootPid, targets, pid, expanded, depth);
      && rows[h].key.ProcessTargetKey? && rows[i].key.ProcessTargetKey?
      && Leads(targets, pid, rows[h].key.targetId, rows[i].key.targetId)
  {
    var rows := TargetRows(rootPid, targets, pid, expanded, depth);
    RowIsTarget(targets, pid, rootPid, expanded, depth, h);
    RowIsTarget(targets, pid, rootPid, expanded, depth, i);
    VisitAllPlaced(Walked(targets, pid, rootPid), expanded, Roots(OfProcess(targets, pid)), depth, {}, h, i, i);
    ChildrenExact(targets, pid, rootPid, rows[h].key.targetId, rows[i].key.targetId);
  }

  lemma {:induction false} IdsDiffer(
      targets: seq<RuntimeTarget>, pid: nat, rootPid: nat, expanded: set<Key>, depth: nat, i: nat, j: nat)
    requires i < j < |TargetRows(rootPid, targets, pid, expanded, depth)|
    ensures var rows := TargetRows(rootPid, targets, pid, expanded, depth);
      && rows[i].key.ProcessTargetKey? && rows[j].key.ProcessTargetKey? && rows[i].key.targetId != rows[j].key.targetId
  {
    var rows := TargetRows(rootPid, targets, pid, expanded, depth);
    RowIsTarget(targets, pid, rootPid, expanded, depth, i);
    RowIsTarget(targets, pid, rootPid, expanded, depth, j);
    ShownAlongParents(targets, pid, rootPid, expanded, depth, rows[i].key);
    assert RowKeys(rows)[i] != RowKeys(rows)[j];
  }

  lemma {:induction false} TopsPrecede(
      targets: seq<RuntimeTarget>, pid: nat, rootPid: nat, expanded: set<Key>, depth: nat, i: nat, j: nat)
    requires i < j < |TargetRows(rootPid, targets, pid, expanded, depth)|
    requires var rows := TargetRows(rootPid, targets, pid, expanded, depth);
      rows[i].depth == depth && rows[j].depth == depth
    ensures var rows, roots := TargetRows(rootPid, targets, pid, expanded, depth), Roots(OfProcess(targets, pid));
      Ascending(roots) && Precedes(roots, IdOf(rows[i].key), IdOf(rows[j].key))
  {
    var f, roots := Walked(targets, pid, rootPid), Roots(OfProcess(targets, pid));
    VisitAllTops(f, expanded, roots, depth, {});
    TopsInOrder(f, roots, TargetRows(rootPid, targets, pid, expanded, depth), depth, i, j);
  }

  /** Of two rows that stand at the top the first has the smaller id. */
  lemma {:induction false} TopsAscend(
      targets: seq<RuntimeTarget>, pid: nat, rootPid: nat, expanded: set<Key>, depth: nat, i: nat, j: nat)
    requires i < j < |TargetRows(rootPid, targets, pid, expanded, depth)|
    requires var rows := TargetRows(rootPid, targets, pid, expanded, depth);
      rows[i].depth == depth && rows[j].depth == depth
    ensures var rows := TargetRows(rootPid, targets, pid, expanded, depth);
      && rows[i].key.ProcessTargetKey? && rows[j].key.ProcessTargetKey?
      && Before(rows[i].key.targetId, rows[j].key.targetId)
  {
    var rows := TargetRows(rootPid, targets, pid, expanded, depth);
    IdsDiffer(targets, pid, rootPid, expanded, depth, i, j);
    var a, b := rows[i].key.targetId, rows[j].key.targetId;
    TopsPrecede(targets, pid, rootPid, expanded, depth, i, j);
    ResourceReach.PrecedesIsBefore(Roots(OfProcess(targets, pid)), a, b);
  }

  /** So has the first of two rows that hang from the same one. */
  lemma {:induction false} SiblingsAscend(
      targets: seq<RuntimeTarget>, pid: nat, rootPid: nat, expanded: set<Key>, depth: nat, h: nat, i: nat, j: nat)
    requires var rows := TargetRows(rootPid, targets, pid, expanded, depth);
      i < j && Hangs(rows, h, i) && Hangs(rows, h, j)
    ensures var rows := TargetRows(rootPid, targets, pid, expanded, depth);
      && rows[i].key.ProcessTargetKey? && rows[j].key.ProcessTargetKey?
      && Before(rows[i].key.targetId, rows[j].key.targetId)
  {
    var f, roots := Walked(targets, pid, rootPid), Roots(OfProcess(targets, pid));
    var rows := TargetRows(rootPid, targets, pid, expanded, depth);
    IdsDiffer(targets, pid, rootPid, expanded, depth, i, j);
    RowIsTarget(targets, pid, rootPid, expanded, depth, h);
    VisitAllPlaced(f, expanded, roots, depth, {}, h, i, j);
    ResourceReach.PrecedesIsBefore(
      f.children(rows[h].key.targetId), rows[i].key.targetId, rows[j].key.targetId);
  }
}
