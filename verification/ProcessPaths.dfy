/** The indentation of the process outline spells out parent chains; together with
    `ProcessReach` this determines which processes are shown. */
module ProcessPaths {
  import opened Common
  import opened Outline
  import opened ProcessOutline
  import opened ProcessReach
  import Targets = RuntimeTargets
  import NodeWalk
  import NodeReach

  // ---- parent chains

  /** Process `b` has an entry below the expanded process `a`. */
  ghost predicate Link(t: ProcessTree, expanded: set<Key>, a: nat, b: nat) {
    ProcessKey(t.rootPid, a) in expanded && exists c :: c in t.processes && c.parent == Some(a) && c.pid == b
  }

  ghost predicate Steps(t: ProcessTree, expanded: set<Key>, p: seq<nat>) {
    |p| >= 2 ==> Link(t, expanded, p[0], p[1]) && Steps(t, expanded, p[1..])
  }

  function Procs(path: seq<Key>): seq<nat> {
    if path == [] then [] else (if path[0].ProcessKey? then [path[0].pid] else []) + Procs(path[1..])
  }

  ghost predicate Chain(t: ProcessTree, expanded: set<Key>, from: set<nat>, p: seq<nat>) {
    p != [] ==> p[0] in from && Steps(t, expanded, p)
  }

  /** `path` continues `base`, and the processes it adds form a chain that starts in `from`. */
  ghost predicate Continues(t: ProcessTree, expanded: set<Key>, from: set<nat>, base: seq<Key>, path: seq<Key>) {
    base <= path && Chain(t, expanded, from, Procs(path[|base|..]))
  }

  ghost function ChildPids(t: ProcessTree, pid: nat): set<nat> {
    set c | c in t.processes && c.parent == Some(pid) :: c.pid
  }

  lemma {:induction false} UnderProcess(t: ProcessTree, expanded: set<Key>, pid: nat, base: seq<Key>, path: seq<Key>)
    requires ProcessKey(t.rootPid, pid) in expanded
    requires Continues(t, expanded, ChildPids(t, pid), base + [ProcessKey(t.rootPid, pid)], path)
    ensures Continues(t, expanded, {pid}, base, path)
  {
    var tail := path[|base| + 1..];
    assert path[|base|..] == [ProcessKey(t.rootPid, pid)] + tail;
    assert Procs(path[|base|..]) == [pid] + Procs(tail) by { assert path[|base|..][1..] == tail; }
    var p := [pid] + Procs(tail);
    assert p[1..] == Procs(tail);
  }

  lemma {:induction false} UnderWindow(
    t: ProcessTree, expanded: set<Key>, w: nat, from: set<nat>, base: seq<Key>, path: seq<Key>)
    requires Continues(t, expanded, from, base + [WindowKey(t.rootPid, w)], path)
    ensures Continues(t, expanded, from, base, path)
  {
    var longer := base + [WindowKey(t.rootPid, w)];
    var tail := path[|longer|..];
    assert path == longer + tail;
    assert path[..|base|] == base;
    assert path[|base|..] == [WindowKey(t.rootPid, w)] + tail;
    assert path[|base|..][1..] == tail;
    assert Procs(path[|base|..]) == [] + Procs(tail) == Procs(tail);
  }

  // ---- paths of whole blocks of rows

  ghost predicate PathsContinue(
    t: ProcessTree, expanded: set<Key>, from: set<nat>, base: seq<Key>, before: seq<Row>, block: seq<Row>)
    decreases |block|
  {
    block != [] ==>
      && Continues(t, expanded, from, base, NodePath(before + block, |before + block| - 1))
      && PathsContinue(t, expanded, from, base, before, block[..|block| - 1])
  }

  lemma {:induction false} PathsJoin(
    t: ProcessTree, expanded: set<Key>, from: set<nat>, base: seq<Key>, before: seq<Row>, a: seq<Row>, b: seq<Row>)
    requires PathsContinue(t, expanded, from, base, before, a)
    requires PathsContinue(t, expanded, from, base, before + a, b)
    ensures PathsContinue(t, expanded, from, base, before, a + b)
    decreases |b|
  {
    if b == [] {
      assert a + b == a;
    } else {
      Assoc(before, a, b);
      assert (a + b)[..|a + b| - 1] == a + b[..|b| - 1];
      PathsJoin(t, expanded, from, base, before, a, b[..|b| - 1]);
    }
  }

  lemma {:induction false} PathsFromMore(
    t: ProcessTree, expanded: set<Key>, from: set<nat>, more: set<nat>, base: seq<Key>, before: seq<Row>,
    block: seq<Row>)
    requires PathsContinue(t, expanded, from, base, before, block) && from <= more
    ensures PathsContinue(t, expanded, more, base, before, block)
    decreases |block|
  {
    if block != [] { PathsFromMore(t, expanded, from, more, base, before, block[..|block| - 1]); }
  }

  lemma {:induction false} PathsUnderProcess(
    t: ProcessTree, expanded: set<Key>, pid: nat, base: seq<Key>, before: seq<Row>, below: seq<Row>)
    requires ProcessKey(t.rootPid, pid) in expanded
    requires PathsContinue(t, expanded, ChildPids(t, pid), base + [ProcessKey(t.rootPid, pid)], before, below)
    ensures PathsContinue(t, expanded, {pid}, base, before, below)
    decreases |below|
  {
    if below != [] {
      UnderProcess(t, expanded, pid, base, NodePath(before + below, |before + below| - 1));
      PathsUnderProcess(t, expanded, pid, base, before, below[..|below| - 1]);
    }
  }

  lemma {:induction false} PathsUnderWindow(
    t: ProcessTree, expanded: set<Key>, w: nat, from: set<nat>, base: seq<Key>, before: seq<Row>, below: seq<Row>)
    requires PathsContinue(t, expanded, from, base + [WindowKey(t.rootPid, w)], before, below)
    ensures PathsContinue(t, expanded, from, base, before, below)
    decreases |below|
  {
    if below != [] {
      UnderWindow(t, expanded, w, from, base, NodePath(before + below, |before + below| - 1));
      PathsUnderWindow(t, expanded, w, from, base, before, below[..|below| - 1]);
    }
  }

  lemma {:induction false} OneRow(
    t: ProcessTree, expanded: set<Key>, from: set<nat>, row: Row, depth: nat, before: seq<Row>)
    requires row.depth == depth && (row.key.ProcessKey? ==> row.key.pid in from)
    ensures PathsContinue(t, expanded, from, Climb(before, |before|, depth), before, [row])
  {
    var base := Climb(before, |before|, depth);
    ClimbStep(before, row);
    assert (base + [row.key])[|base|..] == [row.key] && [row.key][1..] == [];
    assert [row][..0] == [];
  }

  lemma {:induction false} SessionsDeep(pid: nat, sessions: seq<string>, depth: nat)
    ensures AtLeast(SessionRows(pid, sessions, depth), depth)
  {
    if sessions != [] {
      var row := Row(AgentSessionKey(pid, sessions[0]), depth, false, false);
      SessionsDeep(pid, sessions[1..], depth);
      AtLeastOne(row, depth);
      AtLeastJoin([row], SessionRows(pid, sessions[1..], depth), depth);
    }
  }

  lemma {:induction false} SessionPaths(
    t: ProcessTree, expanded: set<Key>, from: set<nat>, pid: nat, sessions: seq<string>, depth: nat, before: seq<Row>)
    ensures PathsContinue(t, expanded, from, Climb(before, |before|, depth), before, SessionRows(pid, sessions, depth))
    decreases |sessions|
  {
    if sessions != [] {
      var row := Row(AgentSessionKey(pid, sessions[0]), depth, false, false);
      OneRow(t, expanded, from, row, depth, before);
      AtLeastOne(row, depth);
      ClimbOver(before, [row], depth);
      SessionPaths(t, expanded, from, pid, sessions[1..], depth, before + [row]);
      PathsJoin(t, expanded, from, Climb(before, |before|, depth), before, [row],
        SessionRows(pid, sessions[1..], depth));
    }
  }

  // ---- runtime targets

  lemma {:induction false} TargetKeysAreNoProcs(f: NodeWalk.Forest, p: seq<string>)
    ensures Procs(NodeReach.KeysOf(f, p)) == []
  {
    if p != [] {
      assert NodeReach.KeysOf(f, p)[1..] == NodeReach.KeysOf(f, p[1..]);
      TargetKeysAreNoProcs(f, p[1..]);
    }
  }

  lemma {:induction false} NodePathContinues(
    t: ProcessTree, expanded: set<Key>, from: set<nat>, f: NodeWalk.Forest, roots: seq<string>, base: seq<Key>,
    path: seq<Key>)
    requires NodeReach.Continues(f, expanded, roots, base, path)
    ensures Continues(t, expanded, from, base, path)
  {
    var p :| p != [] && p[0] in roots && NodeReach.Steps(f, expanded, p) && path == base + NodeReach.KeysOf(f, p);
    TargetKeysAreNoProcs(f, p);
    assert path[|base|..] == NodeReach.KeysOf(f, p);
  }

  lemma {:induction false} NodePathsContinue(
    t: ProcessTree, expanded: set<Key>, from: set<nat>, f: NodeWalk.Forest, roots: seq<string>, base: seq<Key>,
    before: seq<Row>, block: seq<Row>)
    requires NodeReach.PathsContinue(f, expanded, roots, base, before, block)
    ensures PathsContinue(t, expanded, from, base, before, block)
    decreases |block|
  {
    if block != [] {
      NodePathContinues(t, expanded, from, f, roots, base, NodePath(before + block, |before + block| - 1));
      NodePathsContinue(t, expanded, from, f, roots, base, before, block[..|block| - 1]);
    }
  }

  lemma {:induction false} TargetPaths(
    t: ProcessTree, expanded: set<Key>, from: set<nat>, pid: nat, depth: nat, before: seq<Row>)
    ensures var rows := TargetRows(t, expanded, pid, depth);
      AtLeast(rows, depth) && PathsContinue(t, expanded, from, Climb(before, |before|, depth), before, rows)
  {
    var own := Targets.OfProcess(t.targets, pid);
    var f, roots := Targets.ForestOf(t.rootPid, own), Targets.Roots(own);
    NodeReach.VisitAllDeep(f, expanded, roots, depth, {});
    NodeReach.VisitAllPaths(f, expanded, roots, depth, {}, before);
    NodePathsContinue(t, expanded, from, f, roots, Climb(before, |before|, depth), before,
      TargetRows(t, expanded, pid, depth));
  }

  // ---- the walk

  /** The targets follow what the children of their process open. */
  lemma {:induction false} TargetsFollow(
    t: ProcessTree, expanded: set<Key>, from: set<nat>, pid: nat, depth: nat, before: seq<Row>, below: seq<Row>)
    requires AtLeast(below, depth)
    requires PathsContinue(t, expanded, from, Climb(before, |before|, depth), before, below)
    ensures var rows := below + TargetRows(t, expanded, pid, depth);
      AtLeast(rows, depth) && PathsContinue(t, expanded, from, Climb(before, |before|, depth), before, rows)
  {
    var targets := TargetRows(t, expanded, pid, depth);
    TargetPaths(t, expanded, from, pid, depth, before + below);
    ClimbOver(before, below, depth);
    PathsJoin(t, expanded, from, Climb(before, |before|, depth), before, below, targets);
    AtLeastJoin(below, targets, depth);
  }

  /** The rows that open below an expanded process. */
  lemma {:induction false} BelowPaths(
    t: ProcessTree, expanded: set<Key>, p: Process, row: Row, depth: nat, before: seq<Row>, below: seq<Row>)
    requires row.key == ProcessKey(t.rootPid, p.pid) && row.key in expanded && row.depth == depth
    requires var sessions := SessionRows(p.pid, p.sessions, depth + 1);
      var open := before + [row] + sessions;
      PathsContinue(t, expanded, ChildPids(t, p.pid), Climb(open, |open|, depth + 1), open, below)
    ensures var sessions := SessionRows(p.pid, p.sessions, depth + 1);
      PathsContinue(t, expanded, {p.pid}, Climb(before, |before|, depth), before, [row] + sessions + below)
  {
    var sessions := SessionRows(p.pid, p.sessions, depth + 1);
    var base := Climb(before, |before|, depth);
    OneRow(t, expanded, {p.pid}, row, depth, before);
    ClimbStep(before, row);
    SessionPaths(t, expanded, ChildPids(t, p.pid), p.pid, p.sessions, depth + 1, before + [row]);
    SessionsDeep(p.pid, p.sessions, depth + 1);
    ClimbOver(before + [row], sessions, depth + 1);
    PathsUnderProcess(t, expanded, p.pid, base, before + [row], sessions);
    PathsUnderProcess(t, expanded, p.pid, base, before + [row] + sessions, below);
    PathsJoin(t, expanded, {p.pid}, base, before, [row], sessions);
    Assoc(before, [row], sessions);
    PathsJoin(t, expanded, {p.pid}, base, before, [row] + sessions, below);
  }

  lemma {:induction false} BelowDeep(p: Process, row: Row, depth: nat, below: seq<Row>)
    requires row.depth == depth && AtLeast(below, depth + 1)
    ensures AtLeast([row] + SessionRows(p.pid, p.sessions, depth + 1) + below, depth)
  {
    var sessions := SessionRows(p.pid, p.sessions, depth + 1);
    SessionsDeep(p.pid, p.sessions, depth + 1);
    AtLeastOne(row, depth);
    AtLeastLess(sessions, depth + 1, depth);
    AtLeastLess(below, depth + 1, depth);
    AtLeastJoin([row], sessions, depth);
    AtLeastJoin([row] + sessions, below, depth);
  }

  lemma {:induction false} OpenPaths(
    t: ProcessTree, expanded: set<Key>, p: Process, row: Row, depth: nat, before: seq<Row>, children: seq<Row>)
    requires row.key == ProcessKey(t.rootPid, p.pid) && row.key in expanded && row.depth == depth
    requires AtLeast(children, depth + 1)
    requires var open := before + [row] + SessionRows(p.pid, p.sessions, depth + 1);
      PathsContinue(t, expanded, ChildPids(t, p.pid), Climb(open, |open|, depth + 1), open, children)
    ensures var rows := [row] + SessionRows(p.pid, p.sessions, depth + 1)
        + (children + TargetRows(t, expanded, p.pid, depth + 1));
      && AtLeast(rows, depth)
      && PathsContinue(t, expanded, {p.pid}, Climb(before, |before|, depth), before, rows)
  {
    var open := before + [row] + SessionRows(p.pid, p.sessions, depth + 1);
    TargetsFollow(t, expanded, ChildPids(t, p.pid), p.pid, depth + 1, open, children);
    BelowPaths(t, expanded, p, row, depth, before, children + TargetRows(t, expanded, p.pid, depth + 1));
    BelowDeep(p, row, depth, children + TargetRows(t, expanded, p.pid, depth + 1));
  }

  lemma {:induction false} VisitPaths(
    t: ProcessTree, expanded: set<Key>, p: Process, depth: nat, active: Option<nat>, visited: set<nat>,
    before: seq<Row>,
    rows: seq<Row>)
    requires p in t.processes && visited <= Pids(t.processes)
    requires rows == Visit(t, expanded, p, depth, active, visited).rows
    ensures AtLeast(rows, depth) && PathsContinue(t, expanded, {p.pid}, Climb(before, |before|, depth), before, rows)
    decreases Pids(t.processes) - visited, 0, 0
  {
    if p.pid !in visited {
      var row := ProcessRow(t, expanded, p, depth);
      if row.expanded {
        var items := ItemsOf(t, p.pid, active);
        var open := before + [row] + SessionRows(p.pid, p.sessions, depth + 1);
        var children := VisitItems(t, expanded, p.pid, items, depth + 1, active, visited + {p.pid}).rows;
        VisitItemsPaths(t, expanded, p.pid, items, depth + 1, active, visited + {p.pid}, open);
        OpenPaths(t, expanded, p, row, depth, before, children);
      } else {
        AtLeastOne(row, depth);
        OneRow(t, expanded, {p.pid}, row, depth, before);
      }
    }
  }

  lemma {:induction false} VisitAllPaths(
    t: ProcessTree, expanded: set<Key>, todo: seq<Process>, depth: nat, active: Option<nat>, visited: set<nat>,
    from: set<nat>, before: seq<Row>)
    requires AllIn(t, todo) && visited <= Pids(t.processes) && Pids(todo) <= from
    ensures var rows := VisitAll(t, expanded, todo, depth, active, visited).rows;
      AtLeast(rows, depth) && PathsContinue(t, expanded, from, Climb(before, |before|, depth), before, rows)
    decreases Pids(t.processes) - visited, 1, |todo|
  {
    if todo != [] {
      var first := Visit(t, expanded, todo[0], depth, active, visited);
      var rest := VisitAll(t, expanded, todo[1..], depth, active, first.visited);
      var base := Climb(before, |before|, depth);
      assert todo[0].pid in Pids(todo);
      VisitPaths(t, expanded, todo[0], depth, active, visited, before, first.rows);
      PathsFromMore(t, expanded, {todo[0].pid}, from, base, before, first.rows);
      ClimbOver(before, first.rows, depth);
      VisitAllPaths(t, expanded, todo[1..], depth, active, first.visited, from, before + first.rows);
      PathsJoin(t, expanded, from, base, before, first.rows, rest.rows);
      AtLeastJoin(first.rows, rest.rows, depth);
    }
  }

  lemma {:induction false} ChildrenPids(t: ProcessTree, pid: nat, s: seq<Process>)
    requires ChildrenOf(t, pid, s)
    ensures Pids(s) <= ChildPids(t, pid)
  {
    if s != [] {
      ChildrenPids(t, pid, s[1..]);
      assert s == [s[0]] + s[1..];
      assert Pids(s) == {s[0].pid} + Pids(s[1..]);
    }
  }

  lemma {:induction false} RowOpens(before: seq<Row>, row: Row, depth: nat)
    requires row.depth == depth
    ensures Climb(before + [row], |before + [row]|, depth + 1) == Climb(before, |before|, depth) + [row.key]
  {
    ClimbStep(before, row);
  }

  lemma {:induction false} DeepUnder(row: Row, depth: nat, below: seq<Row>)
    requires row.depth == depth && AtLeast(below, depth + 1)
    ensures AtLeast([row] + below, depth)
  {
    AtLeastUnder(row, below);
  }

  lemma {:induction false} WindowPaths(
    t: ProcessTree, expanded: set<Key>, w: nat, from: set<nat>, row: Row, depth: nat, before: seq<Row>, below: seq<Row>)
    requires row.key == WindowKey(t.rootPid, w) && row.depth == depth
    requires PathsContinue(t, expanded, from, Climb(before + [row], |before + [row]|, depth + 1), before + [row], below)
    ensures PathsContinue(t, expanded, from, Climb(before, |before|, depth), before, [row] + below)
  {
    var base := Climb(before, |before|, depth);
    OneRow(t, expanded, from, row, depth, before);
    RowOpens(before, row, depth);
    PathsUnderWindow(t, expanded, w, from, base, before + [row], below);
    PathsJoin(t, expanded, from, base, before, [row], below);
  }

  lemma {:induction false} VisitItemPaths(
    t: ProcessTree, expanded: set<Key>, pid: nat, item: Item, depth: nat, active: Option<nat>, visited: set<nat>,
    before: seq<Row>)
    requires Fits(t, pid, item) && visited <= Pids(t.processes)
    ensures var rows := VisitItem(t, expanded, pid, item, depth, active, visited).rows;
      AtLeast(rows, depth) && PathsContinue(t, expanded, ChildPids(t, pid), Climb(before, |before|, depth), before,
        rows)
    decreases Pids(t.processes) - visited, 2, 0
  {
    var base, from := Climb(before, |before|, depth), ChildPids(t, pid);
    match item
    case Single(p) =>
      var rows := Visit(t, expanded, p, depth, active, visited).rows;
      VisitPaths(t, expanded, p, depth, active, visited, before, rows);
      PathsFromMore(t, expanded, {p.pid}, from, base, before, rows);
    case Window(w, members) =>
      var row := WindowRow(t, expanded, w, members, depth);
      if row.expanded {
        ChildrenPids(t, pid, members);
        VisitAllPaths(t, expanded, members, depth + 1, Some(w), visited, from, before + [row]);
        var below := VisitAll(t, expanded, members, depth + 1, Some(w), visited).rows;
        WindowPaths(t, expanded, w, from, row, depth, before, below);
        DeepUnder(row, depth, below);
      } else {
        OneRow(t, expanded, from, row, depth, before);
        AtLeastOne(row, depth);
      }
  }

  lemma {:induction false} VisitItemsPaths(
    t: ProcessTree, expanded: set<Key>, pid: nat, items: seq<Item>, depth: nat, active: Option<nat>,
    visited: set<nat>, before: seq<Row>)
    requires AllFit(t, pid, items) && visited <= Pids(t.processes)
    ensures var rows := VisitItems(t, expanded, pid, items, depth, active, visited).rows;
      AtLeast(rows, depth) && PathsContinue(t, expanded, ChildPids(t, pid), Climb(before, |before|, depth), before,
        rows)
    decreases Pids(t.processes) - visited, 3, |items|
  {
    if items != [] {
      var first := VisitItem(t, expanded, pid, items[0], depth, active, visited);
      var rest := VisitItems(t, expanded, pid, items[1..], depth, active, first.visited);
      VisitItemPaths(t, expanded, pid, items[0], depth, active, visited, before);
      ClimbOver(before, first.rows, depth);
      VisitItemsPaths(t, expanded, pid, items[1..], depth, active, first.visited, before + first.rows);
      PathsJoin(t, expanded, ChildPids(t, pid), Climb(before, |before|, depth), before, first.rows, rest.rows);
      AtLeastJoin(first.rows, rest.rows, depth);
    }
  }

  lemma {:induction false} VisitRootsPaths(
    t: ProcessTree, expanded: set<Key>, roots: seq<Process>, visited: set<nat>, from: set<nat>, before: seq<Row>)
    requires AllIn(t, roots) && visited <= Pids(t.processes) && Pids(roots) <= from
    ensures PathsContinue(t, expanded, from, Climb(before, |before|, 1), before,
      VisitRoots(t, expanded, roots, visited).rows)
    decreases |roots|
  {
    if roots != [] {
      var first := Visit(t, expanded, roots[0], 1, roots[0].window, visited);
      var rest := VisitRoots(t, expanded, roots[1..], first.visited);
      var base := Climb(before, |before|, 1);
      assert roots[0].pid in Pids(roots);
      VisitPaths(t, expanded, roots[0], 1, roots[0].window, visited, before, first.rows);
      PathsFromMore(t, expanded, {roots[0].pid}, from, base, before, first.rows);
      ClimbOver(before, first.rows, 1);
      VisitRootsPaths(t, expanded, roots[1..], first.visited, from, before + first.rows);
      PathsJoin(t, expanded, from, base, before, first.rows, rest.rows);
    }
  }

  // ---- which processes are shown

  ghost predicate Reaches(t: ProcessTree, expanded: set<Key>, x: nat, p: seq<nat>) {
    p != [] && p[0] in Pids(Roots(t)) && p[|p| - 1] == x && Steps(t, expanded, p)
  }

  /** A chain of expanded processes leads from a root to `x`. */
  ghost predicate Reachable(t: ProcessTree, expanded: set<Key>, x: nat) {
    exists p :: Reaches(t, expanded, x, p)
  }

  lemma {:induction false} PathAt(
    t: ProcessTree, expanded: set<Key>, from: set<nat>, base: seq<Key>, before: seq<Row>, block: seq<Row>, n: nat)
    requires PathsContinue(t, expanded, from, base, before, block) && n < |block|
    ensures Continues(t, expanded, from, base, NodePath(before + block, |before| + n))
    decreases |block|
  {
    if n < |block| - 1 {
      var front := block[..|block| - 1];
      assert (before + front)[..|before| + n] == (before + block)[..|before| + n];
      NodePathLocal(before + block, before + front, |before| + n);
      PathAt(t, expanded, from, base, before, front, n);
    }
  }

  lemma {:induction false} ShownAt(rows: seq<Row>, x: nat) returns (n: nat)
    requires x in ShownPids(rows)
    ensures n < |rows| && rows[n].key.ProcessKey? && rows[n].key.pid == x
  {
    if rows[0].key.ProcessKey? && rows[0].key.pid == x {
      n := 0;
    } else {
      var m := ShownAt(rows[1..], x);
      n := m + 1;
    }
  }

  lemma {:induction false} ProcsSnoc(path: seq<Key>, k: Key)
    requires k.ProcessKey?
    ensures Procs(path + [k]) == Procs(path) + [k.pid]
  {
    if path == [] {
      assert [k][1..] == [] && path + [k] == [k];
    } else {
      assert (path + [k])[1..] == path[1..] + [k];
      ProcsSnoc(path[1..], k);
      Assoc(if path[0].ProcessKey? then [path[0].pid] else [], Procs(path[1..]), [k.pid]);
    }
  }

  /** Every shown process hangs from a root by a chain of expanded parents. */
  lemma {:induction false} ShownIsReachable(t: ProcessTree, expanded: set<Key>, x: nat)
    requires ProcessTreeKey(t.rootPid) in expanded && x in ShownPids(TreeRows(t, expanded))
    ensures Reachable(t, expanded, x)
  {
    var head := Row(ProcessTreeKey(t.rootPid), 0, t.processes != [], true);
    var block := VisitRoots(t, expanded, Roots(t), {}).rows;
    assert TreeRows(t, expanded) == [head] + block;
    assert ([head] + block)[1..] == block;
    var n := ShownAt(block, x);
    TreePath(t, expanded, head, block, n);
    var path := NodePath([head] + block, 1 + n);
    LastProc([head] + block, 1 + n);
    assert Reaches(t, expanded, x, Procs(path[1..]));
  }

  lemma {:induction false} HeadOpen(head: Row)
    requires head.depth == 0
    ensures Climb([head], 1, 1) == [head.key]
  {
    assert Climb([head], 0, 0) == [];
  }

  lemma {:induction false} TreePath(t: ProcessTree, expanded: set<Key>, head: Row, block: seq<Row>, n: nat)
    requires head.depth == 0 && block == VisitRoots(t, expanded, Roots(t), {}).rows && n < |block|
    ensures Continues(t, expanded, Pids(Roots(t)), [head.key], NodePath([head] + block, 1 + n))
  {
    HeadOpen(head);
    VisitRootsPaths(t, expanded, Roots(t), {}, Pids(Roots(t)), [head]);
    PathAt(t, expanded, Pids(Roots(t)), [head.key], [head], block, n);
  }

  /** The path of a process row below the tree row ends with its process. */
  lemma {:induction false} LastProc(rows: seq<Row>, n: nat)
    requires n < |rows| && rows[n].key.ProcessKey? && |NodePath(rows, n)| >= 1 && !NodePath(rows, n)[0].ProcessKey?
    ensures var p := Procs(NodePath(rows, n)[1..]); p != [] && p[|p| - 1] == rows[n].key.pid
  {
    var climbed := Climb(rows, n, rows[n].depth);
    assert NodePath(rows, n) == climbed + [rows[n].key];
    assert NodePath(rows, n)[1..] == climbed[1..] + [rows[n].key];
    ProcsSnoc(climbed[1..], rows[n].key);
  }

  ghost predicate WindowsOpen(t: ProcessTree, expanded: set<Key>) {
    forall q | q in t.processes && q.window.Some? :: WindowKey(t.rootPid, q.window.value) in expanded
  }

  lemma {:induction false} ChainShown(t: ProcessTree, expanded: set<Key>, p: seq<nat>, visited: set<nat>)
    requires visited == VisitRoots(t, expanded, Roots(t), {}).visited && WindowsOpen(t, expanded)
    requires p != [] && p[0] in visited && Steps(t, expanded, p)
    ensures p[|p| - 1] in visited
    decreases |p|
  {
    if |p| >= 2 {
      var c :| c in t.processes && c.parent == Some(p[0]) && c.pid == p[1];
      VisitRootsCloses(t, expanded, Roots(t), {}, c);
      ChainShown(t, expanded, p[1..], visited);
    }
  }

  /** For any parent relation, cyclic or with repeated ids: no process id is shown twice, and the
      shown ones all hang from a root by expanded parents; with the windows expanded, these are all
      shown, although the window grouping skips and re-parents siblings. */
  lemma {:induction false} ShownProcesses(t: ProcessTree, expanded: set<Key>)
    requires ProcessTreeKey(t.rootPid) in expanded
    ensures Distinct(ShownPids(TreeRows(t, expanded)))
    ensures forall x | x in ShownPids(TreeRows(t, expanded)) :: Reachable(t, expanded, x)
    ensures WindowsOpen(t, expanded) ==>
      forall x :: x in ShownPids(TreeRows(t, expanded)) <==> Reachable(t, expanded, x)
  {
    var rows := TreeRows(t, expanded);
    var walk := VisitRoots(t, expanded, Roots(t), {});
    VisitRootsLists(t, expanded, Roots(t), {});
    assert rows[1..] == walk.rows;
    forall x | x in ShownPids(rows) ensures Reachable(t, expanded, x) { ShownIsReachable(t, expanded, x); }
    if WindowsOpen(t, expanded) {
      forall x | Reachable(t, expanded, x) ensures x in ShownPids(rows) {
        var p :| Reaches(t, expanded, x, p);
        var root :| root in Roots(t) && root.pid == p[0];
        RootVisited(t, expanded, Roots(t), {}, root);
        ChainShown(t, expanded, p, walk.visited);
      }
    }
  }

  /** When parents can be ranked below their children, everything expanded shows every process. */
  lemma {:induction false} AcyclicIsReachable(t: ProcessTree, expanded: set<Key>, rank: nat -> nat, c: Process)
      returns (p: seq<nat>)
    requires c in t.processes
    requires forall q | q in t.processes && !IsRoot(t, q) :: rank(q.parent.value) < rank(q.pid)
    requires forall q | q in t.processes :: ProcessKey(t.rootPid, q.pid) in expanded
    ensures Reaches(t, expanded, c.pid, p)
    decreases rank(c.pid)
  {
    if IsRoot(t, c) {
      RootMembers(t, t.processes, c);
      p := [c.pid];
    } else {
      var q :| q in t.processes && q.pid == c.parent.value;
      var front := AcyclicIsReachable(t, expanded, rank, q);
      StepsSnoc(t, expanded, front, c.pid);
      p := front + [c.pid];
    }
  }

  lemma {:induction false} StepsSnoc(t: ProcessTree, expanded: set<Key>, p: seq<nat>, x: nat)
    requires p != [] && Steps(t, expanded, p) && Link(t, expanded, p[|p| - 1], x)
    ensures Steps(t, expanded, p + [x])
    decreases |p|
  {
    assert (p + [x])[1..] == p[1..] + [x];
    if |p| >= 2 { StepsSnoc(t, expanded, p[1..], x); }
  }

  lemma {:induction false} AcyclicShowsAll(t: ProcessTree, expanded: set<Key>, rank: nat -> nat)
    requires ProcessTreeKey(t.rootPid) in expanded
    requires forall q | q in t.processes && !IsRoot(t, q) :: rank(q.parent.value) < rank(q.pid)
    requires forall q | q in t.processes :: ProcessKey(t.rootPid, q.pid) in expanded
    requires WindowsOpen(t, expanded)
    ensures forall c | c in t.processes :: c.pid in ShownPids(TreeRows(t, expanded))
  {
    ShownProcesses(t, expanded);
    forall c | c in t.processes ensures c.pid in ShownPids(TreeRows(t, expanded)) {
      var p := AcyclicIsReachable(t, expanded, rank, c);
    }
  }
}
