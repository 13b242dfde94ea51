/** What stands where in the rows of a process tree: what a row holds, what hangs from it, in which order. */
module ProcessSiblings {
  import opened Common
  import opened Outline
  import opened ProcessOutline
  import opened ProcessItems
  import opened Siblings
  import opened Subsequences
  import Paths = ProcessPaths
  import Targets = RuntimeTargets
  import TargetReach
  import NodeReach
  import NodeSiblings

  // ---- what a row holds

  /** The block of row `h` ends before `e`. */
  ghost predicate Ends(rows: seq<Row>, h: nat, e: nat) {
    && h < e <= |rows|
    && (e < |rows| ==> rows[e].depth <= rows[h].depth)
    && Deeper(rows, h, e - 1)
  }

  ghost function Sessions(p: Process, depth: nat): seq<Row> {
    seq(|p.sessions|, k requires 0 <= k < |p.sessions| => Row(AgentSessionKey(p.pid, p.sessions[k]), depth, false,
      false))
  }

  predicate IsChildKey(k: Key) { k.ProcessKey? || k.WindowKey? }

  /** The sessions of the process, then its children with what hangs from them, then its runtime targets. */
  ghost predicate Holds(t: ProcessTree, expanded: set<Key>, p: Process, depth: nat, block: seq<Row>) {
    exists children ::
      && block == Sessions(p, depth) + children + TargetRows(t, expanded, p.pid, depth)
      && OnlyChildren(children, depth)
  }

  ghost predicate OnlyChildren(rows: seq<Row>, depth: nat) {
    forall n | 0 <= n < |rows| && rows[n].depth == depth :: IsChildKey(rows[n].key)
  }

  /** There is something to show below this process. */
  ghost predicate HasBelow(t: ProcessTree, p: Process) {
    || p.sessions != [] || p.attachable
    || (exists c :: ChildOf(t, p.pid, c))
    || (exists g | g in t.targets :: g.process == Some(p.pid))
  }

  ghost predicate ShowsProcess(t: ProcessTree, expanded: set<Key>, rows: seq<Row>, h: nat, p: Process, e: nat) {
    Ends(rows, h, e) && IsRowOf(t, expanded, rows[h], p) && Opens(t, expanded, rows[h], p, rows[h + 1..e])
  }

  ghost predicate IsRowOf(t: ProcessTree, expanded: set<Key>, row: Row, p: Process) {
    && p in t.processes && row.key == ProcessKey(t.rootPid, p.pid)
    && (row.expandable <==> HasBelow(t, p)) && (row.expanded <==> row.key in expanded)
  }

  ghost predicate Opens(t: ProcessTree, expanded: set<Key>, row: Row, p: Process, block: seq<Row>) {
    if row.expanded then Holds(t, expanded, p, row.depth + 1, block) else block == []
  }

  /** Row `n` is a session of the process at row `g`. */
  ghost predicate ShowsSession(t: ProcessTree, rows: seq<Row>, g: nat, p: Process, n: nat) {
    && g < n < |rows| && p in t.processes && n - g - 1 < |p.sessions|
    && rows[g].key == ProcessKey(t.rootPid, p.pid) && rows[g].expanded
    && rows[n] == Row(AgentSessionKey(p.pid, p.sessions[n - g - 1]), rows[g].depth + 1, false, false)
  }

  ghost predicate RowFits(t: ProcessTree, expanded: set<Key>, rows: seq<Row>, n: nat)
    requires n < |rows|
  {
    match rows[n].key
    case ProcessTreeKey(r) =>
      && r == t.rootPid
      && (rows[n].expandable <==> t.processes != []) && (rows[n].expanded <==> rows[n].key in expanded)
    case ProcessKey(r, _) => exists p, e :: ShowsProcess(t, expanded, rows, n, p, e)
    case WindowKey(r, _) => r == t.rootPid && rows[n].expandable && (rows[n].expanded <==> rows[n].key in expanded)
    case AgentSessionKey(_, _) => exists p, g :: ShowsSession(t, rows, g, p, n)
    case ProcessTargetKey(r, _) => r == t.rootPid
    case _ => false
  }

  // ---- what hangs from a row

  /** The parent of `c` is not among the processes of the tree. */
  ghost predicate Orphan(t: ProcessTree, c: Process) {
    c in t.processes && (c.parent.Some? ==> forall q | q in t.processes :: q.pid != c.parent.value)
  }

  /** What may hang from what; what hangs from a runtime target is told by `TargetReach`. */
  ghost predicate MayHang(t: ProcessTree, up: Key, k: Key) {
    match up
    case ProcessTreeKey(_) => k.ProcessKey? && exists c :: Orphan(t, c) && c.pid == k.pid
    case ProcessKey(_, x) =>
      StandsFor(t, x, k) || k.ProcessTargetKey? || (k.AgentSessionKey? && k.pid == x)
    case WindowKey(_, w) => k.ProcessKey? && exists c | c in t.processes :: c.pid == k.pid && c.window == Some(w)
    case ProcessTargetKey(_, _) => true
    case _ => false
  }

  function Rank(k: Key): nat {
    if k.AgentSessionKey? then 0 else if k.ProcessTargetKey? then 2 else 1
  }

  /** Processes with these ids stand in this order in the snapshot. */
  ghost predicate Listed(t: ProcessTree, x: nat, y: nat) {
    exists m, n :: 0 <= m < n < |t.processes| && t.processes[m].pid == x && t.processes[n].pid == y
  }

  /** Two rows that hang from the same row: sessions, children by process id, targets below a process;
      as in the snapshot below a tree and a window. */
  ghost predicate InOrder(t: ProcessTree, up: Key, a: Key, b: Key) {
    match up
    case ProcessKey(_, x) => Rank(a) <= Rank(b) && (IsChildKey(a) && IsChildKey(b) ==> Ordered(t, x, a, b))
    case ProcessTreeKey(_) => a.ProcessKey? && b.ProcessKey? && Listed(t, a.pid, b.pid)
    case WindowKey(_, _) => a.ProcessKey? && b.ProcessKey? && Listed(t, a.pid, b.pid)
    case _ => true
  }

  ghost predicate Placed(t: ProcessTree, expanded: set<Key>, rows: seq<Row>, h: nat, i: nat, j: nat) {
    && (h < |rows| ==> RowFits(t, expanded, rows, h))
    && (Hangs(rows, h, i) ==> MayHang(t, rows[h].key, rows[i].key))
    && (Hangs(rows, h, i) && Hangs(rows, h, j) && i < j ==> InOrder(t, rows[h].key, rows[i].key, rows[j].key))
  }

  // ---- joining lists

  lemma {:induction false} EndsBefore(a: seq<Row>, b: seq<Row>, h: nat, e: nat)
    requires Ends(a, h, e) && (b != [] ==> b[0].depth <= a[h].depth)
    ensures Ends(a + b, h, e) && (a + b)[h + 1..e] == a[h + 1..e]
  {
    assert forall n | h < n < e :: (a + b)[n] == a[n];
  }

  lemma {:induction false} EndsBehind(a: seq<Row>, b: seq<Row>, h: nat, e: nat)
    requires Ends(b, h, e)
    ensures Ends(a + b, |a| + h, |a| + e) && (a + b)[|a| + h + 1..|a| + e] == b[h + 1..e]
  {
    forall n | |a| + h < n < |a| + e ensures (a + b)[n].depth > (a + b)[|a| + h].depth {
      assert (a + b)[n] == b[n - |a|];
    }
  }

  lemma {:induction false} ProcessBefore(
      t: ProcessTree, expanded: set<Key>, a: seq<Row>, b: seq<Row>, h: nat, p: Process, e: nat)
    requires ShowsProcess(t, expanded, a, h, p, e) && (b != [] ==> b[0].depth <= a[h].depth)
    ensures ShowsProcess(t, expanded, a + b, h, p, e)
  {
    EndsBefore(a, b, h, e);
  }

  lemma {:induction false} ProcessBehind(
      t: ProcessTree, expanded: set<Key>, a: seq<Row>, b: seq<Row>, h: nat, p: Process, e: nat)
    requires ShowsProcess(t, expanded, b, h, p, e)
    ensures ShowsProcess(t, expanded, a + b, |a| + h, p, |a| + e)
  {
    EndsBehind(a, b, h, e);
  }

  lemma {:induction false} FitsBefore(t: ProcessTree, expanded: set<Key>, a: seq<Row>, b: seq<Row>, n: nat)
    requires n < |a| && (b != [] ==> b[0].depth <= a[n].depth) && RowFits(t, expanded, a, n)
    ensures RowFits(t, expanded, a + b, n)
  {
    match a[n].key
    case ProcessKey(_, _) =>
      var p, e :| ShowsProcess(t, expanded, a, n, p, e);
      ProcessBefore(t, expanded, a, b, n, p, e);
    case AgentSessionKey(_, _) =>
      var p, g :| ShowsSession(t, a, g, p, n);
      assert ShowsSession(t, a + b, g, p, n);
    case _ =>
  }

  lemma {:induction false} FitsBehind(t: ProcessTree, expanded: set<Key>, a: seq<Row>, b: seq<Row>, n: nat)
    requires n < |b| && RowFits(t, expanded, b, n)
    ensures RowFits(t, expanded, a + b, |a| + n)
  {
    match b[n].key
    case ProcessKey(_, _) =>
      var p, e :| ShowsProcess(t, expanded, b, n, p, e);
      ProcessBehind(t, expanded, a, b, n, p, e);
    case AgentSessionKey(_, _) =>
      var p, g :| ShowsSession(t, b, g, p, n);
      assert ShowsSession(t, a + b, |a| + g, p, |a| + n);
    case _ =>
  }

  lemma {:induction false} PlacedBefore(
      t: ProcessTree, expanded: set<Key>, a: seq<Row>, b: seq<Row>, depth: nat, h: nat, i: nat, j: nat)
    requires AtLeast(a, depth) && (b != [] ==> b[0].depth == depth) && h < |a|
    requires Placed(t, expanded, a, h, i, j)
    ensures Placed(t, expanded, a + b, h, i, j)
  {
    AtLeastAt(a, depth, h);
    FitsBefore(t, expanded, a, b, h);
    HangsApart(a, b, depth, h, i);
    HangsApart(a, b, depth, h, j);
  }

  lemma {:induction false} PlacedBehind(
      t: ProcessTree, expanded: set<Key>, a: seq<Row>, b: seq<Row>, h: nat, i: nat, j: nat)
    requires h >= |a| && i > h && j > h && Placed(t, expanded, b, h - |a|, i - |a|, j - |a|)
    ensures Placed(t, expanded, a + b, h, i, j)
  {
    if h < |a + b| { FitsBehind(t, expanded, a, b, h - |a|); }
    HangsBehind(a, b, h - |a|, i - |a|);
    HangsBehind(a, b, h - |a|, j - |a|);
  }

  // ---- rows of one depth

  lemma {:induction false} VisitDeep(
      t: ProcessTree, expanded: set<Key>, p: Process, depth: nat, active: Option<nat>, visited: set<nat>)
    requires p in t.processes && visited <= Pids(t.processes)
    ensures AtLeast(Visit(t, expanded, p, depth, active, visited).rows, depth)
  {
    Paths.VisitPaths(t, expanded, p, depth, active, visited, [], Visit(t, expanded, p, depth, active, visited).rows);
  }

  lemma {:induction false} VisitItemDeep(
      t: ProcessTree, expanded: set<Key>, pid: nat, item: Item, depth: nat, active: Option<nat>, visited: set<nat>)
    requires Fits(t, pid, item) && visited <= Pids(t.processes)
    ensures AtLeast(VisitItem(t, expanded, pid, item, depth, active, visited).rows, depth)
  {
    Paths.VisitItemPaths(t, expanded, pid, item, depth, active, visited, []);
  }

  lemma {:induction false} VisitItemsDeep(
      t: ProcessTree, expanded: set<Key>, pid: nat, items: seq<Item>, depth: nat, active: Option<nat>,
      visited: set<nat>)
    requires AllFit(t, pid, items) && visited <= Pids(t.processes)
    ensures AtLeast(VisitItems(t, expanded, pid, items, depth, active, visited).rows, depth)
  {
    Paths.VisitItemsPaths(t, expanded, pid, items, depth, active, visited, []);
  }

  lemma {:induction false} VisitAllDeep(
      t: ProcessTree, expanded: set<Key>, todo: seq<Process>, depth: nat, active: Option<nat>, visited: set<nat>)
    requires AllIn(t, todo) && visited <= Pids(t.processes)
    ensures AtLeast(VisitAll(t, expanded, todo, depth, active, visited).rows, depth)
  {
    Paths.VisitAllPaths(t, expanded, todo, depth, active, visited, Pids(todo), []);
  }

  lemma {:induction false} TargetsDeep(t: ProcessTree, expanded: set<Key>, pid: nat, depth: nat)
    ensures var rows := TargetRows(t, expanded, pid, depth);
      AtLeast(rows, depth) && (rows != [] ==> rows[0].depth == depth)
  {
    var own := Targets.OfProcess(t.targets, pid);
    var f, roots := Targets.ForestOf(t.rootPid, own), Targets.Roots(own);
    NodeReach.VisitAllDeep(f, expanded, roots, depth, {});
    NodeSiblings.VisitAllTops(f, expanded, roots, depth, {});
  }

  /** Rows of runtime targets. */
  ghost predicate AreTargets(t: ProcessTree, rows: seq<Row>, depth: nat) {
    && AtLeast(rows, depth) && (rows != [] ==> rows[0].depth == depth)
    && forall n | 0 <= n < |rows| :: rows[n].key.ProcessTargetKey? && rows[n].key.rootPid == t.rootPid
  }

  lemma {:induction false} TargetsAre(t: ProcessTree, expanded: set<Key>, pid: nat, depth: nat)
    ensures AreTargets(t, TargetRows(t, expanded, pid, depth), depth)
  {
    var rows := TargetRows(t, expanded, pid, depth);
    TargetsDeep(t, expanded, pid, depth);
    forall n | 0 <= n < |rows| ensures rows[n].key.ProcessTargetKey? && rows[n].key.rootPid == t.rootPid {
      TargetReach.RowIsTarget(t.targets, pid, t.rootPid, expanded, depth, n);
    }
  }

  lemma {:induction false} SessionsAre(p: Process, sessions: seq<string>, depth: nat)
    ensures SessionRows(p.pid, sessions, depth) == Sessions(p.(sessions := sessions), depth)
    ensures AtLeast(SessionRows(p.pid, sessions, depth), depth)
  {
    if sessions != [] {
      SessionsAre(p, sessions[1..], depth);
      assert Sessions(p.(sessions := sessions), depth)
        == [Row(AgentSessionKey(p.pid, sessions[0]), depth, false, false)]
        + Sessions(p.(sessions := sessions[1..]), depth);
      Paths.SessionsDeep(p.pid, sessions, depth);
    }
  }

  /** Its sessions, its children with what hangs from them, its targets. */
  ghost function Parts(p: Process, depth: nat, children: seq<Row>, targets: seq<Row>): seq<Row> {
    Sessions(p, depth) + (children + targets)
  }

  lemma {:induction false} PartsDeep(t: ProcessTree, p: Process, depth: nat, children: seq<Row>, targets: seq<Row>)
    requires AtLeast(children, depth) && AreTargets(t, targets, depth)
    ensures AtLeast(Parts(p, depth, children, targets), depth)
  {
    SessionsAre(p, p.sessions, depth);
    assert p.(sessions := p.sessions) == p;
    AtLeastJoin(children, targets, depth);
    AtLeastJoin(Sessions(p, depth), children + targets, depth);
  }

  /** The rows start at this depth, where they are those of some of `keys`, in their order. */
  ghost predicate Heads(rows: seq<Row>, depth: nat, keys: seq<Key>) {
    AtLeast(rows, depth) && (rows != [] ==> rows[0].depth == depth) && Among(Tops(rows, depth), keys)
  }

  lemma {:induction false} HeadsJoin(a: seq<Row>, b: seq<Row>, depth: nat, keys: seq<Key>)
    requires keys != [] && Heads(a, depth, keys[..1]) && Heads(b, depth, keys[1..])
    ensures Heads(a + b, depth, keys)
  {
    AtLeastJoin(a, b, depth);
    TopsConcat(a, b, depth);
    assert keys[..1] == [keys[0]];
    AmongOne(Tops(a, depth), keys[0]);
    AmongStep(Tops(a, depth), Tops(b, depth), keys);
  }

  lemma {:induction false} HeadAlone(row: Row, below: seq<Row>, keys: seq<Key>)
    requires AtLeast(below, row.depth + 1) && keys == [row.key]
    ensures Heads([row] + below, row.depth, keys)
  {
    AtLeastUnder(row, below);
    OneTop(row, below);
    assert Tops([row] + below, row.depth)[1..] == [] && keys[1..] == [];
  }

  function ProcessKeys(t: ProcessTree, s: seq<Process>): (keys: seq<Key>)
    ensures |keys| == |s|
  {
    seq(|s|, i requires 0 <= i < |s| => ProcessKey(t.rootPid, s[i].pid))
  }

  function ItemKeys(t: ProcessTree, items: seq<Item>): (keys: seq<Key>)
    ensures |keys| == |items|
  {
    seq(|items|, i requires 0 <= i < |items| => ItemKey(t, items[i]))
  }

  lemma {:induction false} VisitHeads(
      t: ProcessTree, expanded: set<Key>, p: Process, depth: nat, active: Option<nat>, visited: set<nat>)
    requires p in t.processes && visited <= Pids(t.processes)
    ensures Heads(Visit(t, expanded, p, depth, active, visited).rows, depth, [ProcessKey(t.rootPid, p.pid)])
  {
    if p.pid !in visited {
      var row := ProcessRow(t, expanded, p, depth);
      if row.expanded {
        var children := VisitItems(
          t, expanded, p.pid, ItemsOf(t, p.pid, active), depth + 1, active, visited + {p.pid}).rows;
        VisitItemsDeep(t, expanded, p.pid, ItemsOf(t, p.pid, active), depth + 1, active, visited + {p.pid});
        VisitIsBlock(t, expanded, p, depth, active, visited, children);
        OpenHeads(t, expanded, p, row, depth, children);
      } else {
        RowHeads(row, depth);
      }
    }
  }

  lemma {:induction false} OpenHeads(
      t: ProcessTree, expanded: set<Key>, p: Process, row: Row, depth: nat, children: seq<Row>)
    requires AtLeast(children, depth + 1) && row.depth == depth && row.key == ProcessKey(t.rootPid, p.pid)
    ensures Heads(
      [row] + Parts(p, depth + 1, children, TargetRows(t, expanded, p.pid, depth + 1)), depth,
      [ProcessKey(t.rootPid, p.pid)])
  {
    var targets := TargetRows(t, expanded, p.pid, depth + 1);
    TargetsAre(t, expanded, p.pid, depth + 1);
    PartsDeep(t, p, depth + 1, children, targets);
    HeadAlone(row, Parts(p, depth + 1, children, targets), [row.key]);
  }

  lemma {:induction false} RowHeads(row: Row, depth: nat)
    requires row.depth == depth
    ensures Heads([row], depth, [row.key])
  {
    assert [row] + [] == [row];
    HeadAlone(row, [], [row.key]);
  }

  lemma {:induction false} VisitIsBlock(
      t: ProcessTree, expanded: set<Key>, p: Process, depth: nat, active: Option<nat>, visited: set<nat>,
      children: seq<Row>)
    requires p in t.processes && visited <= Pids(t.processes) && p.pid !in visited
    requires ProcessKey(t.rootPid, p.pid) in expanded
    requires children == VisitItems(
      t, expanded, p.pid, ItemsOf(t, p.pid, active), depth + 1, active, visited + {p.pid}).rows
    ensures Visit(t, expanded, p, depth, active, visited).rows
      == [ProcessRow(t, expanded, p, depth)]
        + Parts(p, depth + 1, children, TargetRows(t, expanded, p.pid, depth + 1))
  {
    SessionsAre(p, p.sessions, depth + 1);
  }

  lemma {:induction false} VisitAllHeads(
      t: ProcessTree, expanded: set<Key>, todo: seq<Process>, depth: nat, active: Option<nat>, visited: set<nat>)
    requires AllIn(t, todo) && visited <= Pids(t.processes)
    ensures Heads(VisitAll(t, expanded, todo, depth, active, visited).rows, depth, ProcessKeys(t, todo))
    decreases |todo|
  {
    if todo != [] {
      var first := Visit(t, expanded, todo[0], depth, active, visited);
      VisitHeads(t, expanded, todo[0], depth, active, visited);
      VisitAllHeads(t, expanded, todo[1..], depth, active, first.visited);
      var keys := ProcessKeys(t, todo);
      assert keys[..1] == [ProcessKey(t.rootPid, todo[0].pid)] && keys[1..] == ProcessKeys(t, todo[1..]);
      HeadsJoin(first.rows, VisitAll(t, expanded, todo[1..], depth, active, first.visited).rows, depth, keys);
    }
  }

  lemma {:induction false} VisitRootsHeads(
      t: ProcessTree, expanded: set<Key>, roots: seq<Process>, visited: set<nat>)
    requires AllIn(t, roots) && visited <= Pids(t.processes)
    ensures Heads(VisitRoots(t, expanded, roots, visited).rows, 1, ProcessKeys(t, roots))
    decreases |roots|
  {
    if roots != [] {
      var first := Visit(t, expanded, roots[0], 1, roots[0].window, visited);
      VisitHeads(t, expanded, roots[0], 1, roots[0].window, visited);
      VisitRootsHeads(t, expanded, roots[1..], first.visited);
      var keys := ProcessKeys(t, roots);
      assert keys[..1] == [ProcessKey(t.rootPid, roots[0].pid)] && keys[1..] == ProcessKeys(t, roots[1..]);
      HeadsJoin(first.rows, VisitRoots(t, expanded, roots[1..], first.visited).rows, 1, keys);
    }
  }

  lemma {:induction false} VisitItemHeads(
      t: ProcessTree, expanded: set<Key>, pid: nat, item: Item, depth: nat, active: Option<nat>, visited: set<nat>)
    requires Fits(t, pid, item) && visited <= Pids(t.processes)
    ensures Heads(VisitItem(t, expanded, pid, item, depth, active, visited).rows, depth, [ItemKey(t, item)])
  {
    match item
    case Single(p) => VisitHeads(t, expanded, p, depth, active, visited);
    case Window(w, members) =>
      var row := WindowRow(t, expanded, w, members, depth);
      if row.expanded {
        VisitAllDeep(t, expanded, members, depth + 1, Some(w), visited);
        HeadAlone(row, VisitAll(t, expanded, members, depth + 1, Some(w), visited).rows, [row.key]);
      } else {
        RowHeads(row, depth);
      }
  }

  lemma {:induction false} VisitItemsHeads(
      t: ProcessTree, expanded: set<Key>, pid: nat, items: seq<Item>, depth: nat, active: Option<nat>,
      visited: set<nat>)
    requires AllFit(t, pid, items) && visited <= Pids(t.processes)
    ensures Heads(VisitItems(t, expanded, pid, items, depth, active, visited).rows, depth, ItemKeys(t, items))
    decreases |items|
  {
    if items != [] {
      var first := VisitItem(t, expanded, pid, items[0], depth, active, visited);
      VisitItemHeads(t, expanded, pid, items[0], depth, active, visited);
      VisitItemsHeads(t, expanded, pid, items[1..], depth, active, first.visited);
      var keys := ItemKeys(t, items);
      assert keys[..1] == [ItemKey(t, items[0])] && keys[1..] == ItemKeys(t, items[1..]);
      HeadsJoin(first.rows, VisitItems(t, expanded, pid, items[1..], depth, active, first.visited).rows, depth, keys);
    }
  }
}
