/** Main results about the process outline: no process id is shown twice, every shown process hangs
    from a root by expanded parents, and none of those is lost to the grouping by window. */
module ProcessReach {
  import opened Common
  import opened Outline
  import opened ProcessOutline
  import Targets = RuntimeTargets
  import NodeReach

  // ---- each process id once

  function ShownPids(rows: seq<Row>): seq<nat> {
    if rows == [] then []
    else (if rows[0].key.ProcessKey? then [rows[0].key.pid] else []) + ShownPids(rows[1..])
  }

  lemma {:induction false} ShownConcat(a: seq<Row>, b: seq<Row>)
    ensures ShownPids(a + b) == ShownPids(a) + ShownPids(b)
  {
    if a == [] {
      assert a + b == b;
    } else {
      assert (a + b)[1..] == a[1..] + b;
      ShownConcat(a[1..], b);
      Assoc(if a[0].key.ProcessKey? then [a[0].key.pid] else [], ShownPids(a[1..]), ShownPids(b));
    }
  }

  lemma {:induction false} SessionsShowNone(pid: nat, sessions: seq<string>, depth: nat)
    ensures ShownPids(SessionRows(pid, sessions, depth)) == []
  {
    if sessions != [] {
      SessionsShowNone(pid, sessions[1..], depth);
      assert SessionRows(pid, sessions, depth)[1..] == SessionRows(pid, sessions[1..], depth);
    }
  }

  lemma {:induction false} NoPids(rows: seq<Row>)
    requires forall k | k in RowKeys(rows) :: !k.ProcessKey?
    ensures ShownPids(rows) == []
  {
    if rows != [] {
      assert RowKeys(rows)[0] == rows[0].key;
      forall k | k in RowKeys(rows[1..]) ensures !k.ProcessKey? {
        var i :| 0 <= i < |rows| - 1 && RowKeys(rows[1..])[i] == k;
        assert RowKeys(rows)[i + 1] == k;
      }
      NoPids(rows[1..]);
    }
  }

  lemma {:induction false} TargetsShowNone(t: ProcessTree, expanded: set<Key>, pid: nat, depth: nat)
    ensures ShownPids(TargetRows(t, expanded, pid, depth)) == []
  {
    var own := Targets.OfProcess(t.targets, pid);
    Targets.TargetsAreReachable(t.rootPid, t.targets, pid, expanded, depth);
    forall k | k in RowKeys(TargetRows(t, expanded, pid, depth)) ensures !k.ProcessKey? {
      assert NodeReach.IsNode(Targets.ForestOf(t.rootPid, own), k);
    }
    NoPids(TargetRows(t, expanded, pid, depth));
  }

  /** The rows show the newly visited processes, once each. */
  ghost predicate Lists(rows: seq<Row>, added: set<nat>) {
    Distinct(ShownPids(rows)) && forall x :: x in ShownPids(rows) <==> x in added
  }

  lemma {:induction false} ListsJoin(a: seq<Row>, b: seq<Row>, x: set<nat>, y: set<nat>, z: set<nat>)
    requires Lists(a, y - x) && Lists(b, z - y) && x <= y <= z
    ensures Lists(a + b, z - x)
  {
    ShownConcat(a, b);
    DistinctConcat(ShownPids(a), ShownPids(b));
  }

  lemma {:induction false} ListsNone(row: Row, visited: set<nat>)
    requires !row.key.ProcessKey?
    ensures Lists([row], visited - visited)
  {
    assert [row][1..] == [];
  }

  lemma {:induction false} VisitLists(
    t: ProcessTree, expanded: set<Key>, p: Process, depth: nat, active: Option<nat>, visited: set<nat>)
    requires p in t.processes && visited <= Pids(t.processes)
    ensures var w := Visit(t, expanded, p, depth, active, visited);
      Lists(w.rows, w.visited - visited) && p.pid in w.visited
    decreases Pids(t.processes) - visited, 0, 0
  {
    if p.pid !in visited {
      var row := ProcessRow(t, expanded, p, depth);
      var own := visited + {p.pid};
      assert [row][1..] == [];
      assert ShownPids([row]) == [p.pid];
      assert Lists([row], own - visited);
      if row.expanded {
        var sessions := SessionRows(p.pid, p.sessions, depth + 1);
        var below := VisitItems(t, expanded, p.pid, ItemsOf(t, p.pid, active), depth + 1, active, own);
        VisitItemsLists(t, expanded, p.pid, ItemsOf(t, p.pid, active), depth + 1, active, own);
        SessionsShowNone(p.pid, p.sessions, depth + 1);
        ListsJoin([row], sessions, visited, own, own);
        var targets := TargetRows(t, expanded, p.pid, depth + 1);
        TargetsShowNone(t, expanded, p.pid, depth + 1);
        ListsJoin(below.rows, targets, own, below.visited, below.visited);
        ListsJoin([row] + sessions, below.rows + targets, visited, own, below.visited);
      }
    }
  }

  lemma {:induction false} VisitAllLists(
    t: ProcessTree, expanded: set<Key>, todo: seq<Process>, depth: nat, active: Option<nat>, visited: set<nat>)
    requires AllIn(t, todo) && visited <= Pids(t.processes)
    ensures var w := VisitAll(t, expanded, todo, depth, active, visited); Lists(w.rows, w.visited - visited)
    decreases Pids(t.processes) - visited, 1, |todo|
  {
    if todo != [] {
      var first := Visit(t, expanded, todo[0], depth, active, visited);
      var rest := VisitAll(t, expanded, todo[1..], depth, active, first.visited);
      VisitLists(t, expanded, todo[0], depth, active, visited);
      VisitAllLists(t, expanded, todo[1..], depth, active, first.visited);
      ListsJoin(first.rows, rest.rows, visited, first.visited, rest.visited);
    }
  }

  lemma {:induction false} VisitItemLists(
    t: ProcessTree, expanded: set<Key>, pid: nat, item: Item, depth: nat, active: Option<nat>, visited: set<nat>)
    requires Fits(t, pid, item) && visited <= Pids(t.processes)
    ensures var w := VisitItem(t, expanded, pid, item, depth, active, visited); Lists(w.rows, w.visited - visited)
    decreases Pids(t.processes) - visited, 2, 0
  {
    match item
    case Single(p) => VisitLists(t, expanded, p, depth, active, visited);
    case Window(w, members) =>
      var row := WindowRow(t, expanded, w, members, depth);
      ListsNone(row, visited);
      if row.expanded {
        var below := VisitAll(t, expanded, members, depth + 1, Some(w), visited);
        VisitAllLists(t, expanded, members, depth + 1, Some(w), visited);
        ListsJoin([row], below.rows, visited, visited, below.visited);
      }
  }

  lemma {:induction false} VisitItemsLists(
    t: ProcessTree, expanded: set<Key>, pid: nat, items: seq<Item>, depth: nat, active: Option<nat>, visited: set<nat>)
    requires AllFit(t, pid, items) && visited <= Pids(t.processes)
    ensures var w := VisitItems(t, expanded, pid, items, depth, active, visited); Lists(w.rows, w.visited - visited)
    decreases Pids(t.processes) - visited, 3, |items|
  {
    if items != [] {
      var first := VisitItem(t, expanded, pid, items[0], depth, active, visited);
      var rest := VisitItems(t, expanded, pid, items[1..], depth, active, first.visited);
      VisitItemLists(t, expanded, pid, items[0], depth, active, visited);
      VisitItemsLists(t, expanded, pid, items[1..], depth, active, first.visited);
      ListsJoin(first.rows, rest.rows, visited, first.visited, rest.visited);
    }
  }

  lemma {:induction false} VisitRootsLists(t: ProcessTree, expanded: set<Key>, roots: seq<Process>, visited: set<nat>)
    requires AllIn(t, roots) && visited <= Pids(t.processes)
    ensures var w := VisitRoots(t, expanded, roots, visited); Lists(w.rows, w.visited - visited)
    decreases |roots|
  {
    if roots != [] {
      var first := Visit(t, expanded, roots[0], 1, roots[0].window, visited);
      var rest := VisitRoots(t, expanded, roots[1..], first.visited);
      VisitLists(t, expanded, roots[0], 1, roots[0].window, visited);
      VisitRootsLists(t, expanded, roots[1..], first.visited);
      ListsJoin(first.rows, rest.rows, visited, first.visited, rest.visited);
    }
  }

  // ---- no child is lost

  /** Nothing between `c` and its expanded parent is collapsed. */
  predicate Open(t: ProcessTree, expanded: set<Key>, c: Process) {
    && c.parent.Some? && ProcessKey(t.rootPid, c.parent.value) in expanded
    && (c.window.Some? ==> WindowKey(t.rootPid, c.window.value) in expanded)
  }

  /** The same for a child that is met while this window is active. */
  predicate OpenIn(t: ProcessTree, expanded: set<Key>, c: Process, active: Option<nat>) {
    && c.parent.Some? && ProcessKey(t.rootPid, c.parent.value) in expanded
    && (c.window.Some? && c.window != active ==> WindowKey(t.rootPid, c.window.value) in expanded)
  }

  lemma {:induction false} AllVisited(
    t: ProcessTree, expanded: set<Key>, todo: seq<Process>, depth: nat, active: Option<nat>, visited: set<nat>,
    c: Process)
    requires AllIn(t, todo) && visited <= Pids(t.processes) && c in todo
    ensures c.pid in VisitAll(t, expanded, todo, depth, active, visited).visited
    decreases |todo|
  {
    VisitLists(t, expanded, todo[0], depth, active, visited);
    if c != todo[0] {
      AllVisited(t, expanded, todo[1..], depth, active, Visit(t, expanded, todo[0], depth, active, visited).visited, c);
    }
  }

  /** The loop over the children visits `c`, on its own or with its window, unless its window was
      rendered before and had brought it in already. */
  lemma {:induction false} ChildVisited(
    t: ProcessTree, expanded: set<Key>, pid: nat, children: seq<Process>, depth: nat, active: Option<nat>,
    rendered: set<nat>, visited: set<nat>, c: Process)
    requires ChildrenOf(t, pid, children) && visited <= Pids(t.processes)
    requires AllFit(t, pid, Items(t, pid, children, active, rendered))
    requires c in t.processes && c.parent == Some(pid) && OpenIn(t, expanded, c, active)
    requires c in children || c.pid in visited
    requires c.window.Some? && c.window != active && c.window.value in rendered ==> c.pid in visited
    ensures c.pid in VisitItems(t, expanded, pid, Items(t, pid, children, active, rendered), depth, active,
      visited).visited
    decreases |children|
  {
    if children != [] && c.pid !in visited {
      var d := children[0];
      var items := Items(t, pid, children, active, rendered);
      if d.window.Some? && d.window != active {
        if d.window.value in rendered {
          ChildVisited(t, expanded, pid, children[1..], depth, active, rendered, visited, c);
        } else {
          var first := VisitItem(t, expanded, pid, items[0], depth, active, visited);
          if c.window == d.window {
            WindowMembers(t, pid, d.window.value, c);
            AllVisited(t, expanded, Members(t, pid, d.window.value), depth + 1, d.window, visited, c);
          }
          assert items[1..] == Items(t, pid, children[1..], active, rendered + {d.window.value});
          ChildVisited(t, expanded, pid, children[1..], depth, active, rendered + {d.window.value}, first.visited, c);
        }
      } else {
        VisitLists(t, expanded, d, depth, active, visited);
        assert items[1..] == Items(t, pid, children[1..], active, rendered);
        ChildVisited(t, expanded, pid, children[1..], depth, active, rendered,
          Visit(t, expanded, d, depth, active, visited).visited, c);
      }
    }
  }

  /** A process visited by the walk has its open child `c` visited too. */
  lemma {:induction false} VisitCloses(
    t: ProcessTree, expanded: set<Key>, p: Process, depth: nat, active: Option<nat>, visited: set<nat>, c: Process)
    requires p in t.processes && visited <= Pids(t.processes)
    requires c in t.processes && Open(t, expanded, c) && c.parent.value !in visited
    requires c.parent.value in Visit(t, expanded, p, depth, active, visited).visited
    ensures c.pid in Visit(t, expanded, p, depth, active, visited).visited
    decreases Pids(t.processes) - visited, 0, 0
  {
    var own := visited + {p.pid};
    if c.parent == Some(p.pid) {
      ChildMembers(t, p.pid, c);
      AreChildren(t, p.pid, Children(t, p.pid)) by {
        forall x | x in Children(t, p.pid) ensures x in t.processes && x.parent == Some(p.pid) {
          ChildMembers(t, p.pid, x);
        }
      }
      ChildVisited(t, expanded, p.pid, Children(t, p.pid), depth + 1, active, {}, own, c);
    } else {
      VisitItemsCloses(t, expanded, p.pid, ItemsOf(t, p.pid, active), depth + 1, active, own, c);
    }
  }

  lemma {:induction false} VisitAllCloses(
    t: ProcessTree, expanded: set<Key>, todo: seq<Process>, depth: nat, active: Option<nat>, visited: set<nat>,
    c: Process)
    requires AllIn(t, todo) && visited <= Pids(t.processes)
    requires c in t.processes && Open(t, expanded, c) && c.parent.value !in visited
    requires c.parent.value in VisitAll(t, expanded, todo, depth, active, visited).visited
    ensures c.pid in VisitAll(t, expanded, todo, depth, active, visited).visited
    decreases Pids(t.processes) - visited, 1, |todo|
  {
    var first := Visit(t, expanded, todo[0], depth, active, visited);
    if c.parent.value in first.visited {
      VisitCloses(t, expanded, todo[0], depth, active, visited, c);
    } else {
      VisitAllCloses(t, expanded, todo[1..], depth, active, first.visited, c);
    }
  }

  lemma {:induction false} VisitItemCloses(
    t: ProcessTree, expanded: set<Key>, pid: nat, item: Item, depth: nat, active: Option<nat>, visited: set<nat>,
    c: Process)
    requires Fits(t, pid, item) && visited <= Pids(t.processes)
    requires c in t.processes && Open(t, expanded, c) && c.parent.value !in visited
    requires c.parent.value in VisitItem(t, expanded, pid, item, depth, active, visited).visited
    ensures c.pid in VisitItem(t, expanded, pid, item, depth, active, visited).visited
    decreases Pids(t.processes) - visited, 2, 0
  {
    match item
    case Single(p) => VisitCloses(t, expanded, p, depth, active, visited, c);
    case Window(w, members) => VisitAllCloses(t, expanded, members, depth + 1, Some(w), visited, c);
  }

  lemma {:induction false} VisitItemsCloses(
    t: ProcessTree, expanded: set<Key>, pid: nat, items: seq<Item>, depth: nat, active: Option<nat>,
    visited: set<nat>, c: Process)
    requires AllFit(t, pid, items) && visited <= Pids(t.processes)
    requires c in t.processes && Open(t, expanded, c) && c.parent.value !in visited
    requires c.parent.value in VisitItems(t, expanded, pid, items, depth, active, visited).visited
    ensures c.pid in VisitItems(t, expanded, pid, items, depth, active, visited).visited
    decreases Pids(t.processes) - visited, 3, |items|
  {
    var first := VisitItem(t, expanded, pid, items[0], depth, active, visited);
    if c.parent.value in first.visited {
      VisitItemCloses(t, expanded, pid, items[0], depth, active, visited, c);
    } else {
      VisitItemsCloses(t, expanded, pid, items[1..], depth, active, first.visited, c);
    }
  }

  lemma {:induction false} VisitRootsCloses(
    t: ProcessTree, expanded: set<Key>, roots: seq<Process>, visited: set<nat>, c: Process)
    requires AllIn(t, roots) && visited <= Pids(t.processes)
    requires c in t.processes && Open(t, expanded, c) && c.parent.value !in visited
    requires c.parent.value in VisitRoots(t, expanded, roots, visited).visited
    ensures c.pid in VisitRoots(t, expanded, roots, visited).visited
    decreases |roots|
  {
    var first := Visit(t, expanded, roots[0], 1, roots[0].window, visited);
    if c.parent.value in first.visited {
      VisitCloses(t, expanded, roots[0], 1, roots[0].window, visited, c);
    } else {
      VisitRootsCloses(t, expanded, roots[1..], first.visited, c);
    }
  }

  lemma {:induction false} RootVisited(
    t: ProcessTree, expanded: set<Key>, roots: seq<Process>, visited: set<nat>, c: Process)
    requires AllIn(t, roots) && visited <= Pids(t.processes) && c in roots
    ensures c.pid in VisitRoots(t, expanded, roots, visited).visited
    decreases |roots|
  {
    VisitLists(t, expanded, roots[0], 1, roots[0].window, visited);
    if c != roots[0] {
      RootVisited(t, expanded, roots[1..], Visit(t, expanded, roots[0], 1, roots[0].window, visited).visited, c);
    }
  }
}
