/** Which sections are asked for, told by what is shown and held alone. */
module Demand {
  import opened Common
  import opened Outline
  import opened AppModel
  import opened ClientModel
  import opened ClientFrames
  import Proc = ProcessOutline

  /** Someone looks below the root of this tree: a process is expanded there, or the connections are open
      and it has a renderer. */
  ghost predicate LookedInto(a: App, tree: Proc.ProcessTree) {
    || (exists p | p in tree.processes :: ProcessKey(tree.rootPid, p.pid) in a.expanded)
    || (Connections !in a.collapsed && exists p | p in tree.processes :: p.renderer)
  }

  /** A tree whose runtime targets have not been observed, and whose root is looked into. */
  ghost predicate Unexplored(a: App, tree: Proc.ProcessTree) {
    && tree in a.processes && !tree.targetsObserved
    && exists other | other in a.processes :: other.rootPid == tree.rootPid && LookedInto(a, other)
  }

  ghost predicate OutOfDate(a: App) {
    a.context.Some? && a.resources.Some? && a.context.value.resourceRevision > a.resources.value.revision
  }

  /** The section's data is wanted and neither here nor on its way. */
  ghost predicate Wants(a: App, s: Section) {
    s !in a.loading &&
    match s
    case Contexts => a.tab.Runtime? && Contexts !in a.collapsed && Contexts !in a.queried
    case Processes =>
      && a.tab.Runtime? && (Processes !in a.collapsed || Connections !in a.collapsed)
      && (Processes !in a.queried || exists tree :: Unexplored(a, tree))
    case Connections =>
      a.tab.Runtime? && Connections !in a.collapsed && (Connections !in a.queried || OutOfDate(a))
    case Sources => a.tab.Debug? && Sources !in a.collapsed && Sources !in a.queried
    case Captures => a.tab.Debug? && Captures !in a.collapsed && Captures !in a.queried
    case _ => false
  }

  lemma {:induction false} ExpandedSomewhere(
      tree: Proc.ProcessTree, processes: seq<Proc.Process>, expanded: set<Key>)
    ensures AnyExpanded(tree, processes, expanded)
      <==> exists p | p in processes :: ProcessKey(tree.rootPid, p.pid) in expanded
  {
    if processes != [] {
      assert processes == [processes[0]] + processes[1..];
      ExpandedSomewhere(tree, processes[1..], expanded);
    }
  }

  lemma {:induction false} RendererSomewhere(processes: seq<Proc.Process>)
    ensures AnyRenderer(processes) <==> exists p | p in processes :: p.renderer
  {
    if processes != [] {
      assert processes == [processes[0]] + processes[1..];
      RendererSomewhere(processes[1..]);
    }
  }

  lemma {:induction false} DemandIsLooking(a: App, tree: Proc.ProcessTree)
    ensures Demanded(tree, a.collapsed, a.expanded) <==> LookedInto(a, tree)
  {
    ExpandedSomewhere(tree, tree.processes, a.expanded);
    RendererSomewhere(tree.processes);
  }

  /** The roots that the next query of the processes explores. */
  lemma {:induction false} DemandedRootsExact(a: App, trees: seq<Proc.ProcessTree>, root: nat)
    ensures root in DemandedRoots(trees, a.collapsed, a.expanded)
      <==> exists tree | tree in trees :: tree.rootPid == root && LookedInto(a, tree)
  {
    if trees != [] {
      assert trees == [trees[0]] + trees[1..];
      DemandIsLooking(a, trees[0]);
      DemandedRootsExact(a, trees[1..], root);
    }
  }

  lemma {:induction false} UnobservedSomewhere(trees: seq<Proc.ProcessTree>, roots: set<nat>)
    ensures AnyUnobserved(trees, roots)
      <==> exists tree | tree in trees :: tree.rootPid in roots && !tree.targetsObserved
  {
    if trees != [] {
      assert trees == [trees[0]] + trees[1..];
      UnobservedSomewhere(trees[1..], roots);
    }
  }

  lemma {:induction false} UnexploredSomewhere(a: App)
    ensures AnyUnobserved(a.processes, DemandedRoots(a.processes, a.collapsed, a.expanded))
      <==> exists tree :: Unexplored(a, tree)
  {
    var roots := DemandedRoots(a.processes, a.collapsed, a.expanded);
    UnobservedSomewhere(a.processes, roots);
    forall tree: Proc.ProcessTree
      ensures tree in a.processes && tree.rootPid in roots && !tree.targetsObserved <==> Unexplored(a, tree) {
      DemandedRootsExact(a, a.processes, tree.rootPid);
    }
  }

  lemma {:induction false} UncollapsedExact(a: App, sections: seq<Section>, s: Section)
    ensures s in Uncollapsed(a, sections) <==> s in sections && s !in a.collapsed
  {
    if sections != [] { UncollapsedExact(a, sections[1..], s); }
  }

  lemma {:induction false} ActiveExact(a: App, s: Section)
    ensures s in ActiveSections(a) && NeedsLoad(a, s) <==> Wants(a, s)
  {
    UncollapsedExact(a, SectionsOf(a.tab), s);
    if s == Processes { UnexploredSomewhere(a); }
  }

  /** A request starts a load for each section that is wanted, for the current context and source kind and
      numbered one up, and for no other. */
  lemma {:induction false} RequestStarts(c: Client, s: Section)
    requires Sound(c.app)
    ensures var d := RequestActive(c);
      && (s in d.app.loading <==> s in c.app.loading || Wants(c.app, s))
      && LoadOrd(d.service, s) == LoadOrd(c.service, s) + (if Wants(c.app, s) then 1 else 0)
  {
    ActiveExact(c.app, s);
    RequestExact(c, ActiveSections(c.app), s);
  }

  /** The load that a section would be asked for with. */
  function NextLoad(c: Client, s: Section): Load
    requires Sound(c.app)
  {
    Load(s, c.app.contexts[c.app.contextIndex].id, LoadOrd(c.service, s) + 1, c.app.sourceKind)
  }

  lemma {:induction false} LoadsExact(c: Client, sections: seq<Section>, l: Load)
    requires Sound(c.app)
    ensures l in RequestLoads(c, sections).loads <==>
      l in c.loads || (l.section in sections && NeedsLoad(c.app, l.section) && l == NextLoad(c, l.section))
    decreases |sections|
  {
    if sections != [] {
      assert sections == [sections[0]] + sections[1..];
      var next := if NeedsLoad(c.app, sections[0]) then StartLoad(c, sections[0]) else c;
      LoadsExact(next, sections[1..], l);
    }
  }

  /** The queries on their way afterwards are those before and one for each wanted section, for the current
      context and the selected kind. */
  lemma {:induction false} RequestSends(c: Client, l: Load)
    requires Sound(c.app)
    ensures l in RequestActive(c).loads <==>
      l in c.loads || (Wants(c.app, l.section) && l == NextLoad(c, l.section))
  {
    ActiveExact(c.app, l.section);
    LoadsExact(c, ActiveSections(c.app), l);
  }
}
