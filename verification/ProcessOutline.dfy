/** The Processes section: a depth-first walk of a parent relation that may have cycles and
    repeated ids, with the processes of a window grouped under one extra row. */
module ProcessOutline {
  import opened Common
  import opened Outline
  import Targets = RuntimeTargets

  datatype Process = Process(
    pid: nat, parent: Option<nat>, window: Option<nat>,
    attachable: bool, renderer: bool, sessions: seq<string>)

  datatype ProcessTree = ProcessTree(
    rootPid: nat, processes: seq<Process>, targets: seq<Targets.RuntimeTarget>, targetsObserved: bool)

  function Pids(s: seq<Process>): set<nat> {
    set p | p in s :: p.pid
  }

  /** Stable insertion by process id, as `sort_by_key` orders equal ids. */
  function InsertByPid(s: seq<Process>, p: Process): seq<Process> {
    if s == [] || p.pid < s[0].pid then [p] + s else [s[0]] + InsertByPid(s[1..], p)
  }

  function SortByPid(s: seq<Process>): seq<Process> {
    if s == [] then [] else InsertByPid(SortByPid(s[..|s| - 1]), s[|s| - 1])
  }

  lemma {:induction false} InsertMembers(s: seq<Process>, p: Process, x: Process)
    ensures x in InsertByPid(s, p) <==> x in s || x == p
  {
    if s != [] && p.pid >= s[0].pid { InsertMembers(s[1..], p, x); }
  }

  lemma {:induction false} SortMembers(s: seq<Process>, x: Process)
    ensures x in SortByPid(s) <==> x in s
  {
    if s != [] {
      assert s == s[..|s| - 1] + [s[|s| - 1]];
      SortMembers(s[..|s| - 1], x);
      InsertMembers(SortByPid(s[..|s| - 1]), s[|s| - 1], x);
    }
  }

  function WithParent(s: seq<Process>, pid: nat): seq<Process> {
    if s == [] then [] else (if s[0].parent == Some(pid) then [s[0]] else []) + WithParent(s[1..], pid)
  }

  function InWindow(s: seq<Process>, windowId: nat): seq<Process> {
    if s == [] then [] else (if s[0].window == Some(windowId) then [s[0]] else []) + InWindow(s[1..], windowId)
  }

  lemma {:induction false} WithParentMembers(s: seq<Process>, pid: nat, x: Process)
    ensures x in WithParent(s, pid) <==> x in s && x.parent == Some(pid)
  {
    if s != [] { WithParentMembers(s[1..], pid, x); }
  }

  lemma {:induction false} InWindowMembers(s: seq<Process>, windowId: nat, x: Process)
    ensures x in InWindow(s, windowId) <==> x in s && x.window == Some(windowId)
  {
    if s != [] { InWindowMembers(s[1..], windowId, x); }
  }

  lemma {:induction false} ChildMembers(t: ProcessTree, pid: nat, x: Process)
    ensures x in Children(t, pid) <==> x in t.processes && x.parent == Some(pid)
  {
    SortMembers(WithParent(t.processes, pid), x);
    WithParentMembers(t.processes, pid, x);
  }

  function Children(t: ProcessTree, pid: nat): seq<Process> {
    SortByPid(WithParent(t.processes, pid))
  }

  /** Processes whose parent is absent or unknown. */
  function Roots(t: ProcessTree): (r: seq<Process>)
    ensures AllIn(t, r)
  {
    forall x | x in RootsFrom(t, t.processes) ensures x in t.processes { RootMembers(t, t.processes, x); }
    AreIn(t, RootsFrom(t, t.processes));
    RootsFrom(t, t.processes)
  }

  predicate IsRoot(t: ProcessTree, p: Process) {
    p.parent.None? || p.parent.value !in Pids(t.processes)
  }

  function RootsFrom(t: ProcessTree, s: seq<Process>): seq<Process> {
    if s == [] then [] else (if IsRoot(t, s[0]) then [s[0]] else []) + RootsFrom(t, s[1..])
  }

  lemma {:induction false} RootMembers(t: ProcessTree, s: seq<Process>, x: Process)
    ensures x in RootsFrom(t, s) <==> x in s && IsRoot(t, x)
  {
    if s != [] { RootMembers(t, s[1..], x); }
  }

  datatype Item = Single(process: Process) | Window(windowId: nat, members: seq<Process>)

  /** What the loop over the children renders: a child of another window than the active one is
      replaced by that window, once, with all children of that window in snapshot order. */
  function Items(t: ProcessTree, pid: nat, children: seq<Process>, active: Option<nat>, rendered: set<nat>): seq<Item> {
    if children == [] then []
    else
      var child := children[0];
      if child.window.Some? && child.window != active then
        if child.window.value in rendered then Items(t, pid, children[1..], active, rendered)
        else
          [Window(child.window.value, Members(t, pid, child.window.value))]
          + Items(t, pid, children[1..], active, rendered + {child.window.value})
      else [Single(child)] + Items(t, pid, children[1..], active, rendered)
  }

  /** All of `s` are children of `pid`. */
  predicate ChildrenOf(t: ProcessTree, pid: nat, s: seq<Process>) {
    s != [] ==> s[0] in t.processes && s[0].parent == Some(pid) && ChildrenOf(t, pid, s[1..])
  }

  predicate AllIn(t: ProcessTree, s: seq<Process>) {
    s != [] ==> s[0] in t.processes && AllIn(t, s[1..])
  }

  lemma {:induction false} AreChildren(t: ProcessTree, pid: nat, s: seq<Process>)
    requires forall p | p in s :: p in t.processes && p.parent == Some(pid)
    ensures ChildrenOf(t, pid, s)
  {
    if s != [] { AreChildren(t, pid, s[1..]); }
  }

  lemma {:induction false} AreIn(t: ProcessTree, s: seq<Process>)
    requires forall p | p in s :: p in t.processes
    ensures AllIn(t, s)
  {
    if s != [] { AreIn(t, s[1..]); }
  }

  lemma {:induction false} ChildrenAreIn(t: ProcessTree, pid: nat, s: seq<Process>)
    requires ChildrenOf(t, pid, s)
    ensures AllIn(t, s)
  {
    if s != [] { ChildrenAreIn(t, pid, s[1..]); }
  }

  /** The items of a process are made of its children. */
  predicate Fits(t: ProcessTree, pid: nat, item: Item) {
    match item
    case Single(p) => p in t.processes && p.parent == Some(pid)
    case Window(w, ms) => ChildrenOf(t, pid, ms) && AllIn(t, ms)
  }

  predicate AllFit(t: ProcessTree, pid: nat, items: seq<Item>) {
    items != [] ==> Fits(t, pid, items[0]) && AllFit(t, pid, items[1..])
  }

  function Members(t: ProcessTree, pid: nat, windowId: nat): (r: seq<Process>)
    ensures ChildrenOf(t, pid, r) && AllIn(t, r)
  {
    var r := InWindow(WithParent(t.processes, pid), windowId);
    forall x | x in r ensures x in t.processes && x.parent == Some(pid) { WindowMembers(t, pid, windowId, x); }
    AreChildren(t, pid, r);
    AreIn(t, r);
    r
  }

  lemma {:induction false} WindowMembers(t: ProcessTree, pid: nat, windowId: nat, x: Process)
    ensures x in InWindow(WithParent(t.processes, pid), windowId)
      <==> x in t.processes && x.parent == Some(pid) && x.window == Some(windowId)
  {
    InWindowMembers(WithParent(t.processes, pid), windowId, x);
    WithParentMembers(t.processes, pid, x);
  }

  lemma {:induction false} ItemsFit(
    t: ProcessTree, pid: nat, children: seq<Process>, active: Option<nat>, rendered: set<nat>)
    requires ChildrenOf(t, pid, children)
    ensures AllFit(t, pid, Items(t, pid, children, active, rendered))
  {
    if children != [] {
      var c := children[0];
      if c.window.Some? && c.window != active && c.window.value !in rendered {
        ItemsFit(t, pid, children[1..], active, rendered + {c.window.value});
      } else {
        ItemsFit(t, pid, children[1..], active, rendered);
      }
    }
  }

  function ItemsOf(t: ProcessTree, pid: nat, active: Option<nat>): (r: seq<Item>)
    ensures AllFit(t, pid, r)
  {
    forall x | x in Children(t, pid) ensures x in t.processes && x.parent == Some(pid) { ChildMembers(t, pid, x); }
    AreChildren(t, pid, Children(t, pid));
    ItemsFit(t, pid, Children(t, pid), active, {});
    Items(t, pid, Children(t, pid), active, {})
  }

  // ---- the walk

  datatype Walk = Walk(rows: seq<Row>, visited: set<nat>)

  function ProcessRow(t: ProcessTree, expanded: set<Key>, p: Process, depth: nat): Row {
    var key := ProcessKey(t.rootPid, p.pid);
    Row(key, depth,
        Children(t, p.pid) != [] || p.sessions != [] || p.attachable || Targets.OfProcess(t.targets, p.pid) != [],
        key in expanded)
  }

  function SessionRows(pid: nat, sessions: seq<string>, depth: nat): seq<Row> {
    if sessions == [] then []
    else [Row(AgentSessionKey(pid, sessions[0]), depth, false, false)] + SessionRows(pid, sessions[1..], depth)
  }

  function TargetRows(t: ProcessTree, expanded: set<Key>, pid: nat, depth: nat): seq<Row> {
    Targets.TargetRows(t.rootPid, t.targets, pid, expanded, depth)
  }

  function WindowRow(t: ProcessTree, expanded: set<Key>, w: nat, members: seq<Process>, depth: nat): Row {
    var key := WindowKey(t.rootPid, w);
    Row(key, depth, members != [], key in expanded)
  }

  function Visit(
    t: ProcessTree, expanded: set<Key>, p: Process, depth: nat, active: Option<nat>, visited: set<nat>): (w: Walk)
    requires p in t.processes && visited <= Pids(t.processes)
    ensures visited <= w.visited <= Pids(t.processes)
    decreases Pids(t.processes) - visited, 0, 0
  {
    if p.pid in visited then Walk([], visited)
    else
      var row := ProcessRow(t, expanded, p, depth);
      if row.expanded then
        var below := VisitItems(t, expanded, p.pid, ItemsOf(t, p.pid, active), depth + 1, active, visited + {p.pid});
        Walk([row] + SessionRows(p.pid, p.sessions, depth + 1)
          + (below.rows + TargetRows(t, expanded, p.pid, depth + 1)),
             below.visited)
      else Walk([row], visited + {p.pid})
  }

  function VisitAll(
    t: ProcessTree, expanded: set<Key>, todo: seq<Process>, depth: nat, active: Option<nat>,
    visited: set<nat>): (w: Walk)
    requires AllIn(t, todo) && visited <= Pids(t.processes)
    ensures visited <= w.visited <= Pids(t.processes)
    decreases Pids(t.processes) - visited, 1, |todo|
  {
    if todo == [] then Walk([], visited)
    else
      var first := Visit(t, expanded, todo[0], depth, active, visited);
      var rest := VisitAll(t, expanded, todo[1..], depth, active, first.visited);
      Walk(first.rows + rest.rows, rest.visited)
  }

  function VisitItem(
    t: ProcessTree, expanded: set<Key>, pid: nat, item: Item, depth: nat, active: Option<nat>,
    visited: set<nat>): (w: Walk)
    requires Fits(t, pid, item) && visited <= Pids(t.processes)
    ensures visited <= w.visited <= Pids(t.processes)
    decreases Pids(t.processes) - visited, 2, 0
  {
    match item
    case Single(p) => Visit(t, expanded, p, depth, active, visited)
    case Window(w, members) =>
      var row := WindowRow(t, expanded, w, members, depth);
      if row.expanded then
        var below := VisitAll(t, expanded, members, depth + 1, Some(w), visited);
        Walk([row] + below.rows, below.visited)
      else Walk([row], visited)
  }

  function VisitItems(
    t: ProcessTree, expanded: set<Key>, pid: nat, items: seq<Item>, depth: nat, active: Option<nat>,
    visited: set<nat>): (w: Walk)
    requires AllFit(t, pid, items) && visited <= Pids(t.processes)
    ensures visited <= w.visited <= Pids(t.processes)
    decreases Pids(t.processes) - visited, 3, |items|
  {
    if items == [] then Walk([], visited)
    else
      var first := VisitItem(t, expanded, pid, items[0], depth, active, visited);
      var rest := VisitItems(t, expanded, pid, items[1..], depth, active, first.visited);
      Walk(first.rows + rest.rows, rest.visited)
  }

  /** Each root starts in its own window. */
  function VisitRoots(t: ProcessTree, expanded: set<Key>, roots: seq<Process>, visited: set<nat>): (w: Walk)
    requires AllIn(t, roots) && visited <= Pids(t.processes)
    ensures visited <= w.visited <= Pids(t.processes)
    decreases |roots|
  {
    if roots == [] then Walk([], visited)
    else
      var first := Visit(t, expanded, roots[0], 1, roots[0].window, visited);
      var rest := VisitRoots(t, expanded, roots[1..], first.visited);
      Walk(first.rows + rest.rows, rest.visited)
  }

  function TreeRows(t: ProcessTree, expanded: set<Key>): seq<Row> {
    var key := ProcessTreeKey(t.rootPid);
    [Row(key, 0, t.processes != [], key in expanded)]
    + if key in expanded then VisitRoots(t, expanded, Roots(t), {}).rows else []
  }

  function ProcessRows(trees: seq<ProcessTree>, expanded: set<Key>): seq<Row> {
    if trees == [] then [] else TreeRows(trees[0], expanded) + ProcessRows(trees[1..], expanded)
  }
}
