/** In which order the children of a process are listed: by process id, a window at its least one. */
module ProcessItems {
  import opened Common
  import opened Outline
  import opened ProcessOutline
  import opened Subsequences

  predicate ChildOf(t: ProcessTree, x: nat, c: Process) {
    c in t.processes && c.parent == Some(x)
  }

  /** Where a row below process `x` belongs among its siblings: a process at its id, a window at the least
      id of the children in it. */
  ghost predicate Ranks(t: ProcessTree, x: nat, k: Key, n: nat) {
    match k
    case ProcessKey(_, y) => n == y
    case WindowKey(_, w) =>
      && (exists c :: ChildOf(t, x, c) && c.window == Some(w) && c.pid == n)
      && (forall c | ChildOf(t, x, c) && c.window == Some(w) :: n <= c.pid)
    case _ => false
  }

  function ItemKey(t: ProcessTree, item: Item): Key {
    match item
    case Single(p) => ProcessKey(t.rootPid, p.pid)
    case Window(w, _) => WindowKey(t.rootPid, w)
  }

  ghost predicate ByPid(s: seq<Process>) {
    forall i, j | 0 <= i < j < |s| :: s[i].pid <= s[j].pid
  }

  lemma {:induction false} InsertByPidAscends(s: seq<Process>, p: Process)
    requires ByPid(s)
    ensures ByPid(InsertByPid(s, p))
  {
    if s != [] && p.pid >= s[0].pid {
      var rest := InsertByPid(s[1..], p);
      InsertByPidAscends(s[1..], p);
      forall j | 0 <= j < |rest| ensures s[0].pid <= rest[j].pid {
        InsertMembers(s[1..], p, rest[j]);
      }
    }
  }

  lemma {:induction false} SortByPidAscends(s: seq<Process>)
    ensures ByPid(SortByPid(s))
  {
    if s != [] {
      SortByPidAscends(s[..|s| - 1]);
      InsertByPidAscends(SortByPid(s[..|s| - 1]), s[|s| - 1]);
    }
  }

  /** The children still to render hold all children of windows that are not rendered yet. */
  ghost predicate Ahead(
    t: ProcessTree, pid: nat, children: seq<Process>, active: Option<nat>, rendered: set<nat>)
  {
    && ByPid(children)
    && (forall c | c in children :: ChildOf(t, pid, c))
    && (forall c | ChildOf(t, pid, c) && c.window.Some? && c.window != active && c.window.value !in rendered ::
          c in children)
  }

  /** The item is this child, without a window or in the active one; or it is the window of this child, whose
      process id is the least in it. */
  ghost predicate IsItem(t: ProcessTree, pid: nat, c: Process, active: Option<nat>, item: Item)
  {
    && ChildOf(t, pid, c) && Ranks(t, pid, ItemKey(t, item), c.pid)
    && match item
       case Single(p) => p == c && (c.window.Some? ==> c.window == active)
       case Window(w, _) => c.window == Some(w) && c.window != active
  }

  lemma {:induction false} WindowRanks(
      t: ProcessTree, pid: nat, children: seq<Process>, active: Option<nat>, rendered: set<nat>)
    requires Ahead(t, pid, children, active, rendered) && children != []
    requires children[0].window.Some? && children[0].window != active && children[0].window.value !in rendered
    ensures Ranks(t, pid, WindowKey(t.rootPid, children[0].window.value), children[0].pid)
  {
    forall c | ChildOf(t, pid, c) && c.window == children[0].window ensures children[0].pid <= c.pid {
      var i :| 0 <= i < |children| && children[i] == c;
    }
  }

  lemma {:induction false} AheadRest(
      t: ProcessTree, pid: nat, children: seq<Process>, active: Option<nat>, rendered: set<nat>, more: set<nat>)
    requires Ahead(t, pid, children, active, rendered) && children != [] && rendered <= more
    requires children[0].window.Some? && children[0].window != active ==> children[0].window.value in more
    ensures Ahead(t, pid, children[1..], active, more)
  {
    assert children == [children[0]] + children[1..];
  }

  predicate Away(c: Process, active: Option<nat>) {
    c.window.Some? && c.window != active
  }

  function After(c: Process, active: Option<nat>, rendered: set<nat>): set<nat> {
    if Away(c, active) then rendered + {c.window.value} else rendered
  }

  /** The children that bring in an item: all but those whose window is rendered already. */
  function Bringing(children: seq<Process>, active: Option<nat>, rendered: set<nat>): seq<Process> {
    if children == [] then []
    else
      (if Away(children[0], active) && children[0].window.value in rendered then [] else [children[0]])
      + Bringing(children[1..], active, After(children[0], active, rendered))
  }

  lemma {:induction false} BringingAmong(children: seq<Process>, active: Option<nat>, rendered: set<nat>)
    ensures Among(Bringing(children, active, rendered), children)
  {
    if children != [] {
      var more := After(children[0], active, rendered);
      BringingAmong(children[1..], active, more);
      AmongStep(if Away(children[0], active) && children[0].window.value in rendered then [] else [children[0]],
        Bringing(children[1..], active, more), children);
    }
  }

  /** The first child brings in nothing or an item that stands for it. */
  lemma {:induction false} ItemsStep(
      t: ProcessTree, pid: nat, children: seq<Process>, active: Option<nat>, rendered: set<nat>)
      returns (some: seq<Item>)
    requires Ahead(t, pid, children, active, rendered) && children != []
    ensures var more := After(children[0], active, rendered);
      && Ahead(t, pid, children[1..], active, more)
      && Items(t, pid, children, active, rendered) == some + Items(t, pid, children[1..], active, more)
      && |some| == (if Away(children[0], active) && children[0].window.value in rendered then 0 else 1)
    ensures some != [] ==> IsItem(t, pid, children[0], active, some[0])
  {
    var c := children[0];
    AheadRest(t, pid, children, active, rendered, After(c, active, rendered));
    if Away(c, active) {
      if c.window.value in rendered {
        some := [];
        assert After(c, active, rendered) == rendered;
      } else {
        WindowRanks(t, pid, children, active, rendered);
        some := [Window(c.window.value, Members(t, pid, c.window.value))];
      }
    } else {
      some := [Single(c)];
    }
  }

  /** Each item stands for the child that brought it in. */
  lemma {:induction false} ItemAt(
      t: ProcessTree, pid: nat, children: seq<Process>, active: Option<nat>, rendered: set<nat>, items: seq<Item>,
      m: nat)
    requires Ahead(t, pid, children, active, rendered)
    requires items == Items(t, pid, children, active, rendered)
    ensures var who := Bringing(children, active, rendered);
      |who| == |items| && (m < |items| ==> IsItem(t, pid, who[m], active, items[m]))
    decreases children
  {
    if children != [] {
      var more := After(children[0], active, rendered);
      var rest := Items(t, pid, children[1..], active, more);
      var some := ItemsStep(t, pid, children, active, rendered);
      ItemAt(t, pid, children[1..], active, more, rest, if m < |some| then 0 else m - |some|);
    }
  }

  lemma {:induction false} WindowIsNew(
      t: ProcessTree, pid: nat, children: seq<Process>, active: Option<nat>, rendered: set<nat>, items: seq<Item>,
      m: nat)
    requires items == Items(t, pid, children, active, rendered) && m < |items| && items[m].Window?
    ensures items[m].windowId !in rendered
    decreases children
  {
    var c := children[0];
    var more := After(c, active, rendered);
    var rest := Items(t, pid, children[1..], active, more);
    if Away(c, active) && c.window.value in rendered {
      assert more == rendered;
      WindowIsNew(t, pid, children[1..], active, rendered, rest, m);
    } else if m > 0 {
      WindowIsNew(t, pid, children[1..], active, more, rest, m - 1);
    }
  }

  lemma {:induction false} WindowsDiffer(
      t: ProcessTree, pid: nat, children: seq<Process>, active: Option<nat>, rendered: set<nat>, items: seq<Item>,
      m: nat, n: nat)
    requires items == Items(t, pid, children, active, rendered) && m < n < |items|
    requires items[m].Window? && items[n].Window?
    ensures items[m].windowId != items[n].windowId
    decreases children
  {
    var c := children[0];
    var more := After(c, active, rendered);
    var rest := Items(t, pid, children[1..], active, more);
    if Away(c, active) && c.window.value in rendered {
      assert more == rendered;
      WindowsDiffer(t, pid, children[1..], active, rendered, rest, m, n);
    } else if m > 0 {
      WindowsDiffer(t, pid, children[1..], active, more, rest, m - 1, n - 1);
    } else {
      WindowIsNew(t, pid, children[1..], active, more, rest, n - 1);
    }
  }

  lemma {:induction false} AllAhead(t: ProcessTree, pid: nat, active: Option<nat>)
    ensures Ahead(t, pid, Children(t, pid), active, {})
  {
    SortByPidAscends(WithParent(t.processes, pid));
    forall c ensures c in Children(t, pid) <==> ChildOf(t, pid, c) { ChildMembers(t, pid, c); }
  }

  /** Two rows below process `x`, in this order: the first ranks no higher, a window has one row, and no
      process stands beside the row of its window. */
  ghost predicate Ordered(t: ProcessTree, x: nat, a: Key, b: Key) {
    && (exists m, n :: m <= n && Ranks(t, x, a, m) && Ranks(t, x, b, n))
    && !(a.WindowKey? && a == b)
    && (a.WindowKey? && b.ProcessKey? ==> Outside(t, x, b.pid, a.windowId))
    && (a.ProcessKey? && b.WindowKey? ==> Outside(t, x, a.pid, b.windowId))
  }

  /** Some child with process id `y` is not in window `w`. */
  ghost predicate Outside(t: ProcessTree, x: nat, y: nat, w: nat) {
    exists c :: ChildOf(t, x, c) && c.pid == y && c.window != Some(w)
  }

  lemma {:induction false} ItemsInOrder(t: ProcessTree, pid: nat, active: Option<nat>, m: nat, n: nat)
    requires m < n < |ItemsOf(t, pid, active)|
    ensures var items := ItemsOf(t, pid, active); Ordered(t, pid, ItemKey(t, items[m]), ItemKey(t, items[n]))
  {
    var items, children := ItemsOf(t, pid, active), Children(t, pid);
    var who := Bringing(children, active, {});
    AllAhead(t, pid, active);
    ItemAt(t, pid, children, active, {}, items, m);
    ItemAt(t, pid, children, active, {}, items, n);
    BringingAmong(children, active, {});
    var k, l := TwoAmong(who, children, m, n);
    if items[m].Window? && items[n].Window? { WindowsDiffer(t, pid, children, active, {}, items, m, n); }
    ItemsOrdered(t, pid, active, who[m], who[n], items[m], items[n]);
  }

  lemma {:induction false} ItemsOrdered(
      t: ProcessTree, pid: nat, active: Option<nat>, c: Process, d: Process, a: Item, b: Item)
    requires IsItem(t, pid, c, active, a) && IsItem(t, pid, d, active, b) && c.pid <= d.pid
    requires a.Window? && b.Window? ==> a.windowId != b.windowId
    ensures Ordered(t, pid, ItemKey(t, a), ItemKey(t, b))
  {
  }

  /** A row below process `x` stands for a child of it. */
  ghost predicate StandsFor(t: ProcessTree, x: nat, k: Key) {
    match k
    case ProcessKey(r, y) => r == t.rootPid && exists c :: ChildOf(t, x, c) && c.pid == y
    case WindowKey(r, w) => r == t.rootPid && exists c :: ChildOf(t, x, c) && c.window == Some(w)
    case _ => false
  }

  lemma {:induction false} ItemStandsFor(t: ProcessTree, pid: nat, active: Option<nat>, m: nat)
    requires m < |ItemsOf(t, pid, active)|
    ensures StandsFor(t, pid, ItemKey(t, ItemsOf(t, pid, active)[m]))
  {
    AllAhead(t, pid, active);
    ItemAt(t, pid, Children(t, pid), active, {}, ItemsOf(t, pid, active), m);
  }

  /** A window comes with all children in it, of which there is one. */
  predicate Complete(t: ProcessTree, pid: nat, item: Item) {
    item.Window? ==> item.members == Members(t, pid, item.windowId) && item.members != []
  }

  predicate AllComplete(t: ProcessTree, pid: nat, items: seq<Item>) {
    items != [] ==> Complete(t, pid, items[0]) && AllComplete(t, pid, items[1..])
  }

  lemma {:induction false} ItemsComplete(
      t: ProcessTree, pid: nat, children: seq<Process>, active: Option<nat>, rendered: set<nat>)
    requires ChildrenOf(t, pid, children)
    ensures AllComplete(t, pid, Items(t, pid, children, active, rendered))
  {
    if children != [] {
      var c := children[0];
      ItemsComplete(t, pid, children[1..], active, After(c, active, rendered));
      if Away(c, active) { WindowMembers(t, pid, c.window.value, c); }
      if Away(c, active) && c.window.value in rendered {
        assert After(c, active, rendered) == rendered;
      } else {
        var items := Items(t, pid, children, active, rendered);
        assert items[1..] == Items(t, pid, children[1..], active, After(c, active, rendered));
      }
    }
  }

  lemma {:induction false} ItemsOfComplete(t: ProcessTree, pid: nat, active: Option<nat>)
    ensures AllComplete(t, pid, ItemsOf(t, pid, active))
  {
    forall x | x in Children(t, pid) ensures x in t.processes && x.parent == Some(pid) { ChildMembers(t, pid, x); }
    AreChildren(t, pid, Children(t, pid));
    ItemsComplete(t, pid, Children(t, pid), active, {});
  }

  // ---- snapshot order

  lemma {:induction false} WithParentAmong(s: seq<Process>, pid: nat)
    ensures Among(WithParent(s, pid), s)
  {
    if s != [] {
      WithParentAmong(s[1..], pid);
      AmongStep(if s[0].parent == Some(pid) then [s[0]] else [], WithParent(s[1..], pid), s);
    }
  }

  lemma {:induction false} InWindowAmong(s: seq<Process>, w: nat)
    ensures Among(InWindow(s, w), s)
  {
    if s != [] {
      InWindowAmong(s[1..], w);
      AmongStep(if s[0].window == Some(w) then [s[0]] else [], InWindow(s[1..], w), s);
    }
  }

  lemma {:induction false} MembersAmong(t: ProcessTree, pid: nat, w: nat)
    ensures Among(Members(t, pid, w), t.processes)
  {
    WithParentAmong(t.processes, pid);
    InWindowAmong(WithParent(t.processes, pid), w);
    AmongAmong(Members(t, pid, w), WithParent(t.processes, pid), t.processes);
  }

  lemma {:induction false} RootsAmong(t: ProcessTree, s: seq<Process>)
    ensures Among(RootsFrom(t, s), s)
  {
    if s != [] {
      RootsAmong(t, s[1..]);
      AmongStep(if IsRoot(t, s[0]) then [s[0]] else [], RootsFrom(t, s[1..]), s);
    }
  }
}
