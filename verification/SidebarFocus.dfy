/** Two things that the keys of sidebar rows get wrong: rows that share a key, and default keys that no
    row has. */
module SidebarFocus {
  import opened Common
  import opened Outline
  import opened AppModel
  import opened FocusRestore
  import opened Sidebar
  import Proc = ProcessOutline

  // ---- a breakpoint applied at two places of one script

  const PLACE := Application("connection", "target", "script")
  const BREAKPOINT := Breakpoint("b", [PLACE, PLACE])
  const SNAPSHOT := ContextSnapshot("a", 0, 0, [], [], [BREAKPOINT])

  /** The debug tab with the second of the two places selected. */
  function SecondPlaceSelected(links: map<Key, Key>): App {
    Initial([ContextSummary("a", 0)], 0, SNAPSHOT).(
      tab := Debug, focus := PerTab(Focus(Contexts, Some(0)), Focus(Breakpoints, Some(2))),
      collapsed := {Processes, Connections, Targets, Attention, Sources, Captures, CallStacks},
      visible := {Breakpoints}, lastVisited := links)
  }

  function PlaceRow(): Row {
    Row(OtherKey("breakpoint-app", "b" + ":" + "connection" + ":" + "target" + ":" + "script"), 1, false, false)
  }

  lemma {:induction false} PlaceRowsAre(v: View)
    requires v.context == Some(SNAPSHOT) && BreakpointKey("b") in v.expanded
    ensures BreakpointRows(v) == [Row(BreakpointKey("b"), 0, true, true), PlaceRow(), PlaceRow()]
  {
    var b := BREAKPOINT;
    assert [b][..0] == [] && [b][1..] == [];
    assert SortBreakpoints([b]) == [b];
    assert [PLACE, PLACE][1..] == [PLACE] && [PLACE][1..] == [];
    assert ApplicationRows("b", [PLACE]) == [PlaceRow()];
    assert ApplicationRows("b", [PLACE, PLACE]) == [PlaceRow(), PlaceRow()];
    assert AllBreakpoints(v, [b]) == OneBreakpoint(v, b) + [];
  }

  lemma {:induction false} PlacesShareTheirPath(head: Row, row: Row)
    requires head.depth == 0 && row.depth == 1
    ensures NodePath([head, row, row], 1) == [head.key, row.key] == NodePath([head, row, row], 2)
  {
    var rows := [head, row, row];
    assert Climb(rows, 1, 1) == [] + [head.key];
    assert Climb(rows, 2, 1) == Climb(rows, 1, 1);
  }

  lemma {:induction false} SameSnapshotSameView(e: Env, a: App)
    requires a == SecondPlaceSelected(a.lastVisited)
    ensures var b := Refreshed(e, a, NewContext(SNAPSHOT));
      Applies(a, SNAPSHOT) && ViewOf(b) == ViewOf(a) && b.collapsed == a.collapsed
  {
    assert ViewOf(Installed(e, a, NewContext(SNAPSHOT))) == ViewOf(a);
    RestoredFrame(e, Installed(e, a, NewContext(SNAPSHOT)), Paths(e, a));
  }

  lemma {:induction false} SecondPlaceRows(e: Env, parts: Parts, a: App)
    requires a == SecondPlaceSelected(a.lastVisited) && e == EnvOf(e.place, parts)
    ensures var head := Row(BreakpointKey("b"), 0, true, true);
      && e.outline(ViewOf(a), Breakpoints) == [head, PlaceRow(), PlaceRow()]
      && PathOf(e, a, Debug).ids == [head.key, PlaceRow().key]
  {
    PlaceRowsAre(ViewOf(a));
    PlacesShareTheirPath(Row(BreakpointKey("b"), 0, true, true), PlaceRow());
  }

  lemma {:induction false} LandsOnFirst(e: Env, a: App, r: Refresh, head: Row, row: Row)
    requires Sound(a) && !Dropped(a, r) && a.focus.debug.section == Breakpoints
    requires var b := Refreshed(e, a, r);
      Breakpoints !in b.collapsed && e.outline(ViewOf(b), Breakpoints) == [head, row, row]
    requires head.depth == 0 && row.depth == 1 && PathOf(e, a, Debug).ids == [head.key, row.key]
    ensures Refreshed(e, a, r).focus.debug == Focus(Breakpoints, Some(1))
  {
    RefreshLands(e, a, r, Debug);
    FirstOfEqual(head, row, Refreshed(e, a, r).focus.debug.row);
  }

  /** The service lists such a breakpoint with two equal rows. When the snapshot of the context arrives
      again, unchanged, the selection moves from the second to the first. */
  lemma {:induction false} SameSnapshotMovesFocus(e: Env, parts: Parts, a: App)
    requires e == EnvOf(e.place, parts) && a == SecondPlaceSelected(a.lastVisited)
    ensures var b := Refreshed(e, a, NewContext(SNAPSHOT));
      && Sound(a) && Applies(a, SNAPSHOT) && ViewOf(b) == ViewOf(a)
      && a.focus.debug == Focus(Breakpoints, Some(2)) && b.focus.debug == Focus(Breakpoints, Some(1))
  {
    SameSnapshotSameView(e, a);
    SecondPlaceRows(e, parts, a);
    LandsOnFirst(e, a, NewContext(SNAPSHOT), Row(BreakpointKey("b"), 0, true, true), PlaceRow());
  }

  lemma {:induction false} FirstOfEqual(head: Row, row: Row, found: Option<nat>)
    requires head.depth == 0 && row.depth == 1
    requires Deepest([head, row, row], [head.key, row.key], found)
    ensures found == Some(1)
  {
    var rows, ids := [head, row, row], [head.key, row.key];
    PlacesShareTheirPath(head, row);
    assert NodePath(rows, 0) == [] + [head.key];
    assert OnPath(rows, ids, 1);
    assert Deepest(rows, ids, Some(1));
    DeepestIsUnique(rows, ids, found, Some(1));
  }

  // ---- target groups

  lemma {:induction false} GroupKeysAre(connections: seq<string>, k: Key)
    ensures k in GroupKeys(connections) <==> k.TargetGroupKey? && k.group in connections
  {
    if connections != [] { GroupKeysAre(connections[1..], k); }
  }

  lemma {:induction false} NoGroupsAmong(a: App, k: Key)
    requires k.TargetGroupKey?
    ensures k !in TreeKeys(a.processes)
    ensures a.context.Some? ==> k !in BreakpointKeys(a.context.value.breakpoints)
  {
    NoGroupsInTrees(a.processes, k);
    if a.context.Some? { NoGroupsInBreakpoints(a.context.value.breakpoints, k); }
  }

  lemma {:induction false} NoGroupsInTrees(trees: seq<Proc.ProcessTree>, k: Key)
    requires k.TargetGroupKey?
    ensures k !in TreeKeys(trees)
  {
    if trees != [] { NoGroupsInTrees(trees[1..], k); }
  }

  lemma {:induction false} NoGroupsInBreakpoints(breakpoints: seq<Breakpoint>, k: Key)
    requires k.TargetGroupKey?
    ensures k !in BreakpointKeys(breakpoints)
  {
    if breakpoints != [] { NoGroupsInBreakpoints(breakpoints[1..], k); }
  }

  /** The defaults add one key per connection. It opens a group of targets exactly when some connection is
      named like the group's projection and connection together. */
  lemma {:induction false} DefaultsOpenGroup(a: App, attached: bool, connection: string)
    ensures var key := TargetGroupKey(GroupName(attached, connection));
      key in ExpandedDefaults(a).expanded <==>
        key in a.expanded
        || (a.context.Some? && Projection(attached) + ":" + connection in a.context.value.connections)
  {
    var key := TargetGroupKey(GroupName(attached, connection));
    NoGroupsAmong(a, key);
    if a.context.Some? { GroupKeysAre(a.context.value.connections, key); }
  }
}
