/** Exactly which processes are shown when some windows are closed: the walk down a chain of parents takes the
    last window met on the way along, and only another window needs to be open. */
module ProcessWindows {
  import opened Common
  import opened Outline
  import opened ProcessOutline
  import opened ProcessReach

  /** The window that is active below `c`. */
  function Next(active: Option<nat>, c: Process): Option<nat> {
    if c.window.Some? then c.window else active
  }

  /** `c` has an entry below `p`, which is met while this window is active. */
  predicate Opens(t: ProcessTree, expanded: set<Key>, p: Process, active: Option<nat>, c: Process) {
    c.parent == Some(p.pid) && OpenIn(t, expanded, c, active)
  }

  function ActiveAt(chain: seq<Process>, active: Option<nat>): Option<nat> {
    if |chain| <= 1 then active else Next(ActiveAt(chain[..|chain| - 1], active), chain[|chain| - 1])
  }

  /** Each process opens the next, the first with `active`. */
  ghost predicate Chain(t: ProcessTree, expanded: set<Key>, chain: seq<Process>, active: Option<nat>) {
    chain != [] &&
    var last := |chain| - 1;
    && chain[last] in t.processes
    && (last > 0 ==>
          && Opens(t, expanded, chain[last - 1], ActiveAt(chain[..last], active), chain[last])
          && Chain(t, expanded, chain[..last], active))
  }

  lemma {:induction false} ChainCons(
      t: ProcessTree, expanded: set<Key>, p: Process, active: Option<nat>, chain: seq<Process>)
    requires p in t.processes && chain != [] && Opens(t, expanded, p, active, chain[0])
    requires Chain(t, expanded, chain, Next(active, chain[0]))
    ensures Chain(t, expanded, [p] + chain, active)
    ensures ActiveAt([p] + chain, active) == ActiveAt(chain, Next(active, chain[0]))
    decreases |chain|
  {
    var last := |chain| - 1;
    var whole := [p] + chain;
    assert whole[..|whole| - 1] == [p] + chain[..last];
    if last == 0 {
      assert [p] + chain[..last] == [p];
    } else {
      assert chain[..last][0] == chain[0];
      ChainCons(t, expanded, p, active, chain[..last]);
    }
  }

  // ---- the walk follows chains

  predicate InThatWindow(s: seq<Process>, w: nat) {
    s != [] ==> s[0].window == Some(w) && InThatWindow(s[1..], w)
  }

  /** What the loop over children makes of them: windows other than the active one are grouped. */
  predicate Grouped(items: seq<Item>, active: Option<nat>) {
    items != [] ==>
      && (match items[0]
          case Single(c) => c.window.Some? ==> c.window == active
          case Window(w, members) => Some(w) != active && InThatWindow(members, w))
      && Grouped(items[1..], active)
  }

  lemma {:induction false} WindowIsThat(s: seq<Process>, w: nat)
    ensures InThatWindow(InWindow(s, w), w)
  {
    if s != [] {
      WindowIsThat(s[1..], w);
      assert ([s[0]] + InWindow(s[1..], w))[1..] == InWindow(s[1..], w);
      assert [] + InWindow(s[1..], w) == InWindow(s[1..], w);
    }
  }

  lemma {:induction false} ItemsAreGrouped(
      t: ProcessTree, pid: nat, children: seq<Process>, active: Option<nat>, rendered: set<nat>)
    ensures Grouped(Items(t, pid, children, active, rendered), active)
  {
    if children != [] {
      var c := children[0];
      if c.window.Some? && c.window != active {
        if c.window.value in rendered {
          ItemsAreGrouped(t, pid, children[1..], active, rendered);
        } else {
          WindowIsThat(WithParent(t.processes, pid), c.window.value);
          ItemsAreGrouped(t, pid, children[1..], active, rendered + {c.window.value});
          var items := Items(t, pid, children, active, rendered);
          assert items[1..] == Items(t, pid, children[1..], active, rendered + {c.window.value});
        }
      } else {
        ItemsAreGrouped(t, pid, children[1..], active, rendered);
        var items := Items(t, pid, children, active, rendered);
        assert items[1..] == Items(t, pid, children[1..], active, rendered);
      }
    }
  }

  /** A chain leads to process `x`; if its end opens `c`, then `c` has been visited. */
  ghost predicate Leads(
      t: ProcessTree, expanded: set<Key>, chain: seq<Process>, active: Option<nat>, x: nat, c: Process,
      visited: set<nat>)
  {
    && Chain(t, expanded, chain, active) && chain[|chain| - 1].pid == x
    && (Opens(t, expanded, chain[|chain| - 1], ActiveAt(chain, active), c) ==> c.pid in visited)
  }

  lemma {:induction false} VisitLeads(
      t: ProcessTree, expanded: set<Key>, p: Process, depth: nat, active: Option<nat>, visited: set<nat>, x: nat,
      c: Process)
      returns (chain: seq<Process>)
    requires p in t.processes && visited <= Pids(t.processes) && c in t.processes && x !in visited
    requires x in Visit(t, expanded, p, depth, active, visited).visited
    ensures chain != [] && chain[0] == p
    ensures Leads(t, expanded, chain, active, x, c, Visit(t, expanded, p, depth, active, visited).visited)
    decreases Pids(t.processes) - visited, 0, 0
  {
    var own := visited + {p.pid};
    if x == p.pid {
      chain := [p];
      if Opens(t, expanded, p, active, c) {
        OpenChildVisited(t, expanded, p, depth + 1, active, own, c);
      }
    } else {
      ItemsAreGrouped(t, p.pid, Children(t, p.pid), active, {});
      var below := VisitItemsLead(t, expanded, p, ItemsOf(t, p.pid, active), depth + 1, active, own, x, c);
      ChainCons(t, expanded, p, active, below);
      chain := [p] + below;
    }
  }

  lemma {:induction false} OpenChildVisited(
      t: ProcessTree, expanded: set<Key>, p: Process, depth: nat, active: Option<nat>, visited: set<nat>, c: Process)
    requires visited <= Pids(t.processes) && c in t.processes && Opens(t, expanded, p, active, c)
    ensures c.pid in VisitItems(t, expanded, p.pid, ItemsOf(t, p.pid, active), depth, active, visited).visited
  {
    ChildMembers(t, p.pid, c);
    AreChildren(t, p.pid, Children(t, p.pid)) by {
      forall y | y in Children(t, p.pid) ensures y in t.processes && y.parent == Some(p.pid) {
        ChildMembers(t, p.pid, y);
      }
    }
    assert AllFit(t, p.pid, ItemsOf(t, p.pid, active));
    ChildVisited(t, expanded, p.pid, Children(t, p.pid), depth, active, {}, visited, c);
  }

  lemma {:induction false} VisitAllLead(
      t: ProcessTree, expanded: set<Key>, todo: seq<Process>, depth: nat, active: Option<nat>, visited: set<nat>,
      x: nat, c: Process)
      returns (chain: seq<Process>)
    requires AllIn(t, todo) && visited <= Pids(t.processes) && c in t.processes && x !in visited
    requires x in VisitAll(t, expanded, todo, depth, active, visited).visited
    ensures chain != [] && chain[0] in todo
    ensures Leads(t, expanded, chain, active, x, c, VisitAll(t, expanded, todo, depth, active, visited).visited)
    decreases Pids(t.processes) - visited, 1, |todo|
  {
    var first := Visit(t, expanded, todo[0], depth, active, visited);
    if x in first.visited {
      chain := VisitLeads(t, expanded, todo[0], depth, active, visited, x, c);
    } else {
      chain := VisitAllLead(t, expanded, todo[1..], depth, active, first.visited, x, c);
    }
  }

  lemma {:induction false} InThatWindowIs(s: seq<Process>, w: nat, p: Process)
    requires InThatWindow(s, w) && p in s
    ensures p.window == Some(w)
  {
    if p != s[0] { InThatWindowIs(s[1..], w, p); }
  }

  lemma {:induction false} VisitItemLeads(
      t: ProcessTree, expanded: set<Key>, p: Process, item: Item, depth: nat, active: Option<nat>, visited: set<nat>,
      x: nat, c: Process)
      returns (chain: seq<Process>)
    requires Fits(t, p.pid, item) && Grouped([item], active) && ProcessKey(t.rootPid, p.pid) in expanded
    requires visited <= Pids(t.processes) && c in t.processes && x !in visited
    requires x in VisitItem(t, expanded, p.pid, item, depth, active, visited).visited
    ensures chain != [] && Opens(t, expanded, p, active, chain[0])
    ensures Leads(t, expanded, chain, Next(active, chain[0]), x, c,
                  VisitItem(t, expanded, p.pid, item, depth, active, visited).visited)
    decreases Pids(t.processes) - visited, 2, 0
  {
    match item
    case Single(d) =>
      chain := VisitLeads(t, expanded, d, depth, active, visited, x, c);
    case Window(w, members) =>
      chain := VisitAllLead(t, expanded, members, depth + 1, Some(w), visited, x, c);
      InThatWindowIs(members, w, chain[0]);
      ChildOfThat(t, p.pid, members, chain[0]);
  }

  lemma {:induction false} ChildOfThat(t: ProcessTree, pid: nat, s: seq<Process>, c: Process)
    requires ChildrenOf(t, pid, s) && c in s
    ensures c.parent == Some(pid)
  {
    if c != s[0] { ChildOfThat(t, pid, s[1..], c); }
  }

  lemma {:induction false} VisitItemsLead(
      t: ProcessTree, expanded: set<Key>, p: Process, items: seq<Item>, depth: nat, active: Option<nat>,
      visited: set<nat>, x: nat, c: Process)
      returns (chain: seq<Process>)
    requires AllFit(t, p.pid, items) && Grouped(items, active) && ProcessKey(t.rootPid, p.pid) in expanded
    requires visited <= Pids(t.processes) && c in t.processes && x !in visited
    requires x in VisitItems(t, expanded, p.pid, items, depth, active, visited).visited
    ensures chain != [] && Opens(t, expanded, p, active, chain[0])
    ensures Leads(t, expanded, chain, Next(active, chain[0]), x, c,
                  VisitItems(t, expanded, p.pid, items, depth, active, visited).visited)
    decreases Pids(t.processes) - visited, 3, |items|
  {
    var first := VisitItem(t, expanded, p.pid, items[0], depth, active, visited);
    if x in first.visited {
      assert [items[0]][1..] == [];
      chain := VisitItemLeads(t, expanded, p, items[0], depth, active, visited, x, c);
    } else {
      chain := VisitItemsLead(t, expanded, p, items[1..], depth, active, first.visited, x, c);
    }
  }

  lemma {:induction false} VisitRootsLead(
      t: ProcessTree, expanded: set<Key>, roots: seq<Process>, visited: set<nat>, x: nat, c: Process)
      returns (chain: seq<Process>)
    requires AllIn(t, roots) && visited <= Pids(t.processes) && c in t.processes && x !in visited
    requires x in VisitRoots(t, expanded, roots, visited).visited
    ensures chain != [] && chain[0] in roots
    ensures Leads(t, expanded, chain, chain[0].window, x, c, VisitRoots(t, expanded, roots, visited).visited)
    decreases |roots|
  {
    var first := Visit(t, expanded, roots[0], 1, roots[0].window, visited);
    if x in first.visited {
      chain := VisitLeads(t, expanded, roots[0], 1, roots[0].window, visited, x, c);
    } else {
      chain := VisitRootsLead(t, expanded, roots[1..], first.visited, x, c);
    }
  }

  // ---- the exact set

  /** A chain from a root, which starts in its own window. */
  ghost predicate FromRoot(t: ProcessTree, expanded: set<Key>, chain: seq<Process>) {
    chain != [] && chain[0] in Roots(t) && Chain(t, expanded, chain, chain[0].window)
  }

  ghost predicate Entered(t: ProcessTree, expanded: set<Key>, x: nat) {
    exists chain: seq<Process> :: FromRoot(t, expanded, chain) && chain[|chain| - 1].pid == x
  }

  ghost predicate PidsDiffer(t: ProcessTree) {
    forall p, q | p in t.processes && q in t.processes && p.pid == q.pid :: p == q
  }

  lemma {:induction false} FrontFromRoot(t: ProcessTree, expanded: set<Key>, chain: seq<Process>)
    requires FromRoot(t, expanded, chain) && |chain| > 1
    ensures FromRoot(t, expanded, chain[..|chain| - 1])
  {
    assert chain[..|chain| - 1][0] == chain[0];
  }

  lemma {:induction false} RootsAreRoots(t: ProcessTree, p: Process)
    ensures p in Roots(t) <==> p in t.processes && IsRoot(t, p)
  {
    RootMembers(t, t.processes, p);
  }

  lemma {:induction false} PrevIsParent(t: ProcessTree, expanded: set<Key>, chain: seq<Process>)
    requires FromRoot(t, expanded, chain) && |chain| > 1
    ensures var last := |chain| - 1;
      && chain[last].parent == Some(chain[last - 1].pid) && chain[last - 1] in t.processes && !IsRoot(t, chain[last])
  {
    FrontFromRoot(t, expanded, chain);
    var front := chain[..|chain| - 1];
    assert front[|front| - 1] == chain[|chain| - 2];
  }

  /** With different process ids only one window can be active at a process. */
  lemma {:induction false} SameWindow(t: ProcessTree, expanded: set<Key>, a: seq<Process>, b: seq<Process>)
    requires PidsDiffer(t) && FromRoot(t, expanded, a) && FromRoot(t, expanded, b)
    requires a[|a| - 1] == b[|b| - 1]
    ensures ActiveAt(a, a[0].window) == ActiveAt(b, b[0].window)
    decreases |a|
  {
    RootsAreRoots(t, a[0]);
    RootsAreRoots(t, b[0]);
    if |a| > 1 { PrevIsParent(t, expanded, a); }
    if |b| > 1 { PrevIsParent(t, expanded, b); }
    if |a| > 1 && |b| > 1 {
      var c, d := a[..|a| - 1], b[..|b| - 1];
      assert c[|c| - 1] == a[|a| - 2] && d[|d| - 1] == b[|b| - 2];
      FrontFromRoot(t, expanded, a);
      FrontFromRoot(t, expanded, b);
      SameWindow(t, expanded, c, d);
      assert c[0] == a[0] && d[0] == b[0];
    }
  }

  lemma {:induction false} ChainIsVisited(t: ProcessTree, expanded: set<Key>, chain: seq<Process>)
    requires PidsDiffer(t) && FromRoot(t, expanded, chain)
    ensures chain[|chain| - 1].pid in VisitRoots(t, expanded, Roots(t), {}).visited
    decreases |chain|
  {
    var last := |chain| - 1;
    if last == 0 {
      RootVisited(t, expanded, Roots(t), {}, chain[0]);
    } else {
      var front := chain[..last];
      FrontFromRoot(t, expanded, chain);
      PrevIsParent(t, expanded, chain);
      assert front[|front| - 1] == chain[last - 1] && front[0] == chain[0];
      ChainIsVisited(t, expanded, front);
      var other := VisitRootsLead(t, expanded, Roots(t), {}, chain[last - 1].pid, chain[last]);
      assert other[|other| - 1] == chain[last - 1];
      SameWindow(t, expanded, other, front);
    }
  }

  lemma {:induction false} VisitedIsEntered(t: ProcessTree, expanded: set<Key>, x: nat)
    requires x in VisitRoots(t, expanded, Roots(t), {}).visited
    ensures Entered(t, expanded, x)
  {
    VisitRootsLists(t, expanded, Roots(t), {});
    var c :| c in t.processes && c.pid == x;
    var chain := VisitRootsLead(t, expanded, Roots(t), {}, x, c);
    assert FromRoot(t, expanded, chain);
  }

  /** Every shown process is entered through its windows, also when process ids repeat; when they differ, the
      entered processes are exactly the shown ones. */
  lemma {:induction false} ShownExactly(t: ProcessTree, expanded: set<Key>, x: nat)
    requires ProcessTreeKey(t.rootPid) in expanded
    ensures x in ShownPids(TreeRows(t, expanded)) ==> Entered(t, expanded, x)
    ensures PidsDiffer(t) ==> (x in ShownPids(TreeRows(t, expanded)) <==> Entered(t, expanded, x))
  {
    var walk := VisitRoots(t, expanded, Roots(t), {});
    VisitRootsLists(t, expanded, Roots(t), {});
    assert TreeRows(t, expanded)[1..] == walk.rows;
    if x in walk.visited { VisitedIsEntered(t, expanded, x); }
    if PidsDiffer(t) && Entered(t, expanded, x) {
      var chain: seq<Process> :| FromRoot(t, expanded, chain) && chain[|chain| - 1].pid == x;
      ChainIsVisited(t, expanded, chain);
    }
  }
}
