/** The keys of the rows outside Sources: none of them is a source's or a source folder's. */
module SidebarKeys {
  import opened Common
  import opened Outline
  import opened SourceTrie
  import opened AppModel
  import opened KeyText
  import opened Sidebar
  import NodeReach
  import Proc = ProcessOutline
  import Res = ResourceOutline
  import ResourceReach
  import Targets = RuntimeTargets
  import SourceCache
  import Sorting
  import Depths = TargetDepths

  ghost predicate ForeignKey(k: Key) { GoodKey(k) && !k.FolderKey? && !k.SourceKey? }

  ghost predicate Foreign(rows: seq<Row>) {
    forall i | 0 <= i < |rows| :: ForeignKey(rows[i].key)
  }

  lemma ForeignJoin(a: seq<Row>, b: seq<Row>)
    requires Foreign(a) && Foreign(b)
    ensures Foreign(a + b)
  {
  }

  lemma {:induction false} ForeignNodes(rows: seq<Row>)
    requires forall k | k in RowKeys(rows) :: k.ResourceKey? || k.ProcessTargetKey?
    ensures Foreign(rows)
  {
    forall i | 0 <= i < |rows| ensures ForeignKey(rows[i].key) {
      assert RowKeys(rows)[i] == rows[i].key;
      assert rows[i].key in RowKeys(rows);
    }
  }

  // ---- processes

  lemma {:induction false} SessionsForeign(pid: nat, sessions: seq<string>, depth: nat)
    ensures Foreign(Proc.SessionRows(pid, sessions, depth))
  {
    if sessions != [] {
      SessionsForeign(pid, sessions[1..], depth);
      ForeignJoin([Row(AgentSessionKey(pid, sessions[0]), depth, false, false)],
        Proc.SessionRows(pid, sessions[1..], depth));
    }
  }

  lemma {:induction false} RuntimeTargetsForeign(t: Proc.ProcessTree, expanded: set<Key>, pid: nat, depth: nat)
    ensures Foreign(Proc.TargetRows(t, expanded, pid, depth))
  {
    var own := Targets.OfProcess(t.targets, pid);
    var rows := Proc.TargetRows(t, expanded, pid, depth);
    Targets.TargetsAreReachable(t.rootPid, t.targets, pid, expanded, depth);
    forall k | k in RowKeys(rows) ensures k.ProcessTargetKey? {
      assert NodeReach.IsNode(Targets.ForestOf(t.rootPid, own), k);
    }
    ForeignNodes(rows);
  }

  lemma {:induction false} OpenForeign(
    t: Proc.ProcessTree, expanded: set<Key>, p: Proc.Process, row: Row, depth: nat, children: seq<Row>)
    requires row.key == ProcessKey(t.rootPid, p.pid) && Foreign(children)
    ensures Foreign([row] + Proc.SessionRows(p.pid, p.sessions, depth)
      + (children + Proc.TargetRows(t, expanded, p.pid, depth)))
  {
    var sessions, targets := Proc.SessionRows(p.pid, p.sessions, depth), Proc.TargetRows(t, expanded, p.pid, depth);
    SessionsForeign(p.pid, p.sessions, depth);
    RuntimeTargetsForeign(t, expanded, p.pid, depth);
    ForeignJoin([row], sessions);
    ForeignJoin(children, targets);
    ForeignJoin([row] + sessions, children + targets);
  }

  lemma {:induction false} VisitForeign(
    t: Proc.ProcessTree, expanded: set<Key>, p: Proc.Process, depth: nat, active: Option<nat>, visited: set<nat>)
    requires p in t.processes && visited <= Proc.Pids(t.processes)
    ensures Foreign(Proc.Visit(t, expanded, p, depth, active, visited).rows)
    decreases Proc.Pids(t.processes) - visited, 0, 0
  {
    if p.pid !in visited {
      var row := Proc.ProcessRow(t, expanded, p, depth);
      if row.expanded {
        var items := Proc.ItemsOf(t, p.pid, active);
        var below := Proc.VisitItems(t, expanded, p.pid, items, depth + 1, active, visited + {p.pid});
        VisitItemsForeign(t, expanded, p.pid, items, depth + 1, active, visited + {p.pid});
        OpenForeign(t, expanded, p, row, depth + 1, below.rows);
      }
    }
  }

  lemma {:induction false} VisitAllForeign(
    t: Proc.ProcessTree, expanded: set<Key>, todo: seq<Proc.Process>, depth: nat, active: Option<nat>,
    visited: set<nat>)
    requires Proc.AllIn(t, todo) && visited <= Proc.Pids(t.processes)
    ensures Foreign(Proc.VisitAll(t, expanded, todo, depth, active, visited).rows)
    decreases Proc.Pids(t.processes) - visited, 1, |todo|
  {
    if todo != [] {
      var first := Proc.Visit(t, expanded, todo[0], depth, active, visited);
      VisitForeign(t, expanded, todo[0], depth, active, visited);
      VisitAllForeign(t, expanded, todo[1..], depth, active, first.visited);
      ForeignJoin(first.rows, Proc.VisitAll(t, expanded, todo[1..], depth, active, first.visited).rows);
    }
  }

  lemma {:induction false} VisitItemForeign(
    t: Proc.ProcessTree, expanded: set<Key>, pid: nat, item: Proc.Item, depth: nat, active: Option<nat>,
    visited: set<nat>)
    requires Proc.Fits(t, pid, item) && visited <= Proc.Pids(t.processes)
    ensures Foreign(Proc.VisitItem(t, expanded, pid, item, depth, active, visited).rows)
    decreases Proc.Pids(t.processes) - visited, 2, 0
  {
    match item
    case Single(p) => VisitForeign(t, expanded, p, depth, active, visited);
    case Window(w, members) =>
      var row := Proc.WindowRow(t, expanded, w, members, depth);
      if row.expanded {
        VisitAllForeign(t, expanded, members, depth + 1, Some(w), visited);
        ForeignJoin([row], Proc.VisitAll(t, expanded, members, depth + 1, Some(w), visited).rows);
      }
  }

  lemma {:induction false} VisitItemsForeign(
    t: Proc.ProcessTree, expanded: set<Key>, pid: nat, items: seq<Proc.Item>, depth: nat, active: Option<nat>,
    visited: set<nat>)
    requires Proc.AllFit(t, pid, items) && visited <= Proc.Pids(t.processes)
    ensures Foreign(Proc.VisitItems(t, expanded, pid, items, depth, active, visited).rows)
    decreases Proc.Pids(t.processes) - visited, 3, |items|
  {
    if items != [] {
      var first := Proc.VisitItem(t, expanded, pid, items[0], depth, active, visited);
      VisitItemForeign(t, expanded, pid, items[0], depth, active, visited);
      VisitItemsForeign(t, expanded, pid, items[1..], depth, active, first.visited);
      ForeignJoin(first.rows, Proc.VisitItems(t, expanded, pid, items[1..], depth, active, first.visited).rows);
    }
  }

  lemma {:induction false} RootsForeign(t: Proc.ProcessTree, expanded: set<Key>, roots: seq<Proc.Process>,
      visited: set<nat>)
    requires Proc.AllIn(t, roots) && visited <= Proc.Pids(t.processes)
    ensures Foreign(Proc.VisitRoots(t, expanded, roots, visited).rows)
    decreases |roots|
  {
    if roots != [] {
      var first := Proc.Visit(t, expanded, roots[0], 1, roots[0].window, visited);
      VisitForeign(t, expanded, roots[0], 1, roots[0].window, visited);
      RootsForeign(t, expanded, roots[1..], first.visited);
      ForeignJoin(first.rows, Proc.VisitRoots(t, expanded, roots[1..], first.visited).rows);
    }
  }

  lemma {:induction false} ProcessesForeign(trees: seq<Proc.ProcessTree>, expanded: set<Key>)
    ensures Foreign(Proc.ProcessRows(trees, expanded))
  {
    if trees != [] {
      var t := trees[0];
      var below := Proc.VisitRoots(t, expanded, Proc.Roots(t), {}).rows;
      RootsForeign(t, expanded, Proc.Roots(t), {});
      var head := [Row(ProcessTreeKey(t.rootPid), 0, t.processes != [], ProcessTreeKey(t.rootPid) in expanded)];
      ForeignJoin(head, below);
      ForeignJoin(head, []);
      ProcessesForeign(trees[1..], expanded);
      ForeignJoin(Proc.TreeRows(t, expanded), Proc.ProcessRows(trees[1..], expanded));
    }
  }

  // ---- the other sections

  lemma {:induction false} ContextsForeign(contexts: seq<ContextSummary>)
    ensures Foreign(ContextRows(contexts))
  {
    if contexts != [] { ContextsForeign(contexts[1..]); }
  }

  lemma {:induction false} CandidatesForeign(candidates: seq<(nat, nat)>)
    ensures Foreign(CandidateRows(candidates))
  {
    if candidates != [] { CandidatesForeign(candidates[1..]); }
  }

  lemma {:induction false} ResourcesForeign(g: Res.Graph, connection: string, expanded: set<Key>)
    ensures Foreign(Res.ConnectionRows(g, connection, expanded, 2))
  {
    var rows := Res.ConnectionRows(g, connection, expanded, 2);
    ResourceReach.RowsAreReachable(g, connection, expanded, 2);
    forall k | k in RowKeys(rows) ensures k.ResourceKey? {
      assert NodeReach.IsNode(Res.ForestOf(g, connection), k);
    }
    ForeignNodes(rows);
  }

  lemma {:induction false} AllConnectionsForeign(v: View, ids: seq<string>)
    ensures Foreign(AllConnections(v, ids))
  {
    if ids != [] {
      if v.resources.Some? { ResourcesForeign(v.resources.value, ids[0], v.expanded); }
      assert Foreign(OneConnection(v, ids[0]));
      AllConnectionsForeign(v, ids[1..]);
      ForeignJoin(OneConnection(v, ids[0]), AllConnections(v, ids[1..]));
    }
  }

  lemma {:induction false} ConnectionsForeign(v: View, candidates: seq<(nat, nat)>)
    ensures Foreign(ConnectionRows(v, candidates))
  {
    if v.context.Some? {
      CandidatesForeign(candidates);
      AllConnectionsForeign(v, Sorting.SortIds(v.context.value.connections));
    }
  }

  lemma {:induction false} TargetNodesForeign(targets: seq<TargetNode>, depths: map<string, nat>)
    ensures Foreign(TargetNodeRows(targets, depths))
  {
    if targets != [] { TargetNodesForeign(targets[1..], depths); }
  }

  lemma {:induction false} AllGroupsForeign(v: View, forest: seq<TargetNode>, attached: bool, connections: seq<string>)
    ensures Foreign(AllGroups(v, forest, attached, connections))
  {
    if connections != [] {
      var targets := Projected(forest, attached, connections[0]);
      TargetNodesForeign(targets, Depths.DepthsOf(Depths.ParentsOf(Links(targets)), Links(targets)));
      assert Foreign(GroupRows(v, targets, attached, connections[0]));
      AllGroupsForeign(v, forest, attached, connections[1..]);
      ForeignJoin(GroupRows(v, targets, attached, connections[0]), AllGroups(v, forest, attached, connections[1..]));
    }
  }

  lemma {:induction false} TargetsForeign(v: View)
    ensures Foreign(TargetRows(v))
  {
    if v.context.Some? {
      var context := v.context.value;
      AllGroupsForeign(v, context.forest, false, Sorting.SortIds(context.connections));
      AllGroupsForeign(v, context.forest, true, Sorting.SortIds(context.connections));
      ForeignJoin(ProjectionRows(v, context, false), ProjectionRows(v, context, true));
    }
  }

  lemma {:induction false} ApplicationsForeign(breakpointId: string, applications: seq<Application>)
    ensures Foreign(ApplicationRows(breakpointId, applications))
  {
    if applications != [] { ApplicationsForeign(breakpointId, applications[1..]); }
  }

  lemma {:induction false} BreakpointsForeign(v: View, breakpoints: seq<Breakpoint>)
    ensures Foreign(AllBreakpoints(v, breakpoints))
  {
    if breakpoints != [] {
      ApplicationsForeign(breakpoints[0].id, breakpoints[0].applications);
      BreakpointsForeign(v, breakpoints[1..]);
      ForeignJoin(OneBreakpoint(v, breakpoints[0]), AllBreakpoints(v, breakpoints[1..]));
    }
  }

  lemma {:induction false} CapturesForeign(captures: seq<string>)
    ensures Foreign(CaptureRows(captures))
  {
    if captures != [] { CapturesForeign(captures[1..]); }
  }

  /** The rows of Attention and Call Stacks have keys of their own. */
  ghost predicate OthersForeign(parts: Parts) {
    forall v, s :: Foreign(parts.others(v, s))
  }

  /** No row outside Sources stands for a source or a source folder. */
  lemma {:induction false} RowsForeign(parts: Parts, v: View, s: Section)
    requires OthersForeign(parts)
    ensures Foreign(RowsOf(parts, v, s))
  {
    match s
    case Contexts => ContextsForeign(v.contexts);
    case Processes => ProcessesForeign(v.processes, v.expanded);
    case Connections => ConnectionsForeign(v, parts.candidates(v));
    case Targets => TargetsForeign(v);
    case Breakpoints =>
      if v.context.Some? { BreakpointsForeign(v, SortBreakpoints(v.context.value.breakpoints)); }
    case Captures => CapturesForeign(Sorting.SortIds(v.captures));
    case _ =>
  }

  /** What the results on cached source rows ask of the other sections holds of them. */
  lemma {:induction false} SidebarHasNoFolders(place: Placer, parts: Parts)
    requires OthersForeign(parts)
    ensures SourceCache.OtherRows(EnvOf(place, parts))
  {
    forall v, s, i | s != Sources && 0 <= i < |RowsOf(parts, v, s)| ensures !RowsOf(parts, v, s)[i].key.FolderKey? {
      RowsForeign(parts, v, s);
    }
  }
}
