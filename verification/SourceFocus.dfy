/** Every navigation keeps the source cache fresh and the focus on it valid. */
module SourceFocus {
  import opened Outline
  import opened SourceOutline
  import opened AppModel
  import opened ClientModel
  import opened FocusRestore
  import opened SourceNavigation
  import opened SourceCache
  import SelectionMoves

  function HomeTab(s: Section): Tab {
    if s == Contexts || s == Processes || s == Connections || s == Targets then Runtime else Debug
  }

  ghost predicate Valid(a: App, f: Focus) {
    f.section == Sources && f.row.Some? ==> Sources !in a.collapsed && f.row.value < |a.sourceRows|
  }

  /** Each tab's focus is in one of its sections, and a focused source row exists and is not collapsed. */
  ghost predicate FocusOk(a: App) {
    HomeTab(a.focus.runtime.section) == Runtime && HomeTab(a.focus.debug.section) == Debug && Valid(a, a.focus.debug)
  }

  ghost predicate SourcesOk(e: Env, a: App) {
    SourcesFresh(e, a) && FocusOk(a)
  }

  /** Moving one tab's focus to a valid place, with the rows as they are. */
  lemma {:induction false} MovedFocusOk(e: Env, a: App, b: App, tab: Tab, f: Focus)
    requires SourcesOk(e, a) && HomeTab(f.section) == tab && Valid(a, f)
    requires b.focus == a.focus.Set(tab, f)
    requires b.sources == a.sources && b.hierarchy == a.hierarchy && b.sourceKind == a.sourceKind
    requires b.sourceRows == a.sourceRows && b.expanded == a.expanded && b.collapsed == a.collapsed
    ensures SourcesOk(e, b)
  {
    CacheKept(e, a, b);
  }

  lemma {:induction false} PositionIsOk(e: Env, a: App, sections: seq<Section>, j: nat)
    requires j < |PositionsIn(e, a, sections)|
    ensures var f := PositionsIn(e, a, sections)[j]; f.section in sections && Valid(a, f)
    decreases |sections|
  {
    var s := sections[0];
    var rows := if s !in a.collapsed && s in a.visible then RowPositions(s, |Rows(e, a, s)|) else [];
    if 0 < j <= |rows| {
      SelectionMoves.RowPositionsAre(s, |Rows(e, a, s)|, j - 1);
    } else if j > 0 {
      PositionIsOk(e, a, sections[1..], j - 1 - |rows|);
    }
  }

  lemma {:induction false} SelectedOk(e: Env, a: App, b: App, j: nat)
    requires SourcesOk(e, a) && j < |Positions(e, a)| && SelectionMoves.Selected(a, b, Positions(e, a)[j])
    ensures SourcesOk(e, b)
  {
    PositionIsOk(e, a, SectionsOf(a.tab), j);
    MovedFocusOk(e, a, b, a.tab, Positions(e, a)[j]);
  }

  lemma {:induction false} SelectionOk(e: Env, a: App, delta: int)
    requires SourcesOk(e, a)
    ensures SourcesOk(e, MoveSelection(e, a, delta))
  {
    if !a.documentFocused {
      var j := SelectionMoves.SelectsPosition(e, a, delta);
      SelectedOk(e, a, MoveSelection(e, a, delta), j);
    }
  }

  lemma {:induction false} EdgeOk(e: Env, a: App, last: bool)
    requires SourcesOk(e, a)
    ensures SourcesOk(e, SelectEdge(e, a, last))
  {
    if !a.documentFocused {
      SelectionMoves.SelectsEdge(e, a, last);
      SelectedOk(e, a, SelectEdge(e, a, last), if last then |Positions(e, a)| - 1 else 0);
    }
  }

  /** Clamping leaves the section and finds an existing row of it, or its header. */
  lemma ClampedShape(e: Env, a: App)
    ensures var b := Clamped(e, a); var f := b.focus.Get(a.tab);
      b == a.(focus := a.focus.Set(a.tab, f)) && f.section == a.focus.Get(a.tab).section && Valid(a, f)
  {
  }

  /** A valid focus makes up for an invalid one of the shown tab. */
  lemma {:induction false} RefocusedOk(e: Env, a: App, b: App, f: Focus)
    requires SourcesFresh(e, a) && HomeTab(a.focus.runtime.section) == Runtime
      && HomeTab(a.focus.debug.section) == Debug
    requires a.tab.Runtime? ==> Valid(a, a.focus.debug)
    requires b == a.(focus := a.focus.Set(a.tab, f)) && f.section == a.focus.Get(a.tab).section && Valid(a, f)
    ensures SourcesOk(e, b)
  {
    CacheKept(e, a, b);
  }

  lemma {:induction false} TabOk(e: Env, a: App, tab: Tab)
    requires SourcesOk(e, a)
    ensures SourcesOk(e, SetTab(e, a, tab))
  {
    var b := a.(tab := tab, documentFocused := false, details := if tab.Runtime? then map[] else a.details);
    CacheKept(e, a, b);
    ClampedShape(e, b);
    RefocusedOk(e, b, Clamped(e, b), Clamped(e, b).focus.Get(tab));
  }

  lemma {:induction false} ViewportOk(e: Env, a: App, s: Section, height: nat)
    requires SourcesOk(e, a)
    ensures SourcesOk(e, SetViewport(a, s, height))
  {
    CacheKept(e, a, SetViewport(a, s, height));
  }

  // ---- left and right

  lemma {:induction false} ClimbKeyIsRow(rows: seq<Row>, n: nat, depth: nat, i: nat) returns (j: nat)
    requires n <= |rows| && i < |Climb(rows, n, depth)|
    ensures j < n && rows[j].key == Climb(rows, n, depth)[i]
  {
    if rows[n - 1].depth < depth {
      if i < |Climb(rows, n - 1, rows[n - 1].depth)| { j := ClimbKeyIsRow(rows, n - 1, rows[n - 1].depth, i); }
      else { j := n - 1; }
    } else {
      j := ClimbKeyIsRow(rows, n - 1, depth, i);
    }
  }

  /** The ids of other sections' rows are no folder keys. */
  lemma {:induction false} OtherPath(e: Env, a: App, s: Section, index: nat, i: nat)
    requires OtherRows(e) && s != Sources && i < |NodePath(Rows(e, a, s), index)|
    ensures !NodePath(Rows(e, a, s), index)[i].FolderKey?
  {
    var rows := Rows(e, a, s);
    if i < |NodePath(rows, index)| - 1 {
      var j := ClimbKeyIsRow(rows, index, rows[index].depth, i);
    }
  }

  /** Left on a row of another section. */
  lemma {:induction false} LeftElsewhereOk(e: Env, a: App)
    requires OtherRows(e) && SourcesOk(e, a) && a.focus.Get(a.tab).section != Sources
    ensures SourcesOk(e, NavigateLeft(e, a))
  {
    var f := a.focus.Get(a.tab);
    if !a.documentFocused && f.row.Some? && f.row.value < |Rows(e, a, f.section)| {
      var path := NodePath(Rows(e, a, f.section), f.row.value);
      if |path| >= 2 { OtherPath(e, a, f.section, f.row.value, |path| - 2); }
      ClosedElsewhereOk(e, a, f.section, path);
      LeftFromClosed(e, a);
      MovedFocusOk(e, Closed(a, f.section, path), NavigateLeft(e, a), a.tab, NavigateLeft(e, a).focus.Get(a.tab));
    }
  }

  /** After closing the parent or the section, Left only moves the focus within the section. */
  lemma {:induction false} LeftFromClosed(e: Env, a: App)
    requires var f := a.focus.Get(a.tab); !a.documentFocused && f.row.Some? && f.row.value < |Rows(e, a, f.section)|
    ensures var f := a.focus.Get(a.tab);
      var b, left := Closed(a, f.section, NodePath(Rows(e, a, f.section), f.row.value)), NavigateLeft(e, a);
      && left == b.(focus := left.focus, lastVisited := left.lastVisited)
      && left.focus == a.focus.Set(a.tab, left.focus.Get(a.tab)) && left.focus.Get(a.tab).section == f.section
  {
  }

  lemma {:induction false} ClosedElsewhereOk(e: Env, a: App, s: Section, path: seq<Key>)
    requires SourcesOk(e, a) && s != Sources && (|path| >= 2 ==> !path[|path| - 2].FolderKey?)
    ensures SourcesOk(e, Closed(a, s, path))
  {
    CacheKept(e, a, Closed(a, s, path));
  }

  /** Left on a source row lands on its parent, whose index is unchanged, or on the header. */
  lemma {:induction false} LeftHereOk(e: Env, a: App)
    requires SourcesOk(e, a) && a.focus.Get(a.tab).section == Sources && a.focus.Get(a.tab).row.Some?
    ensures SourcesOk(e, NavigateLeft(e, a))
  {
    if !a.documentFocused {
      var j := a.focus.Get(a.tab).row.value;
      FreshRows(e, a, j);
      var sources := a.sources.value.sources;
      RowsHaveFacts(e.place, sources, a.expanded, a.sourceKind, j);
      if |NodePath(a.sourceRows, j)| >= 2 {
        var i := ParentShown(e.place, sources, a.expanded, a.sourceKind, j);
        LeftState(e, a, j, i, a.sourceRows[i].key);
        var _ := CollapseRemovesBlock(e.place, sources, a.expanded, a.sourceKind, i);
      } else {
        CacheKept(e, a, NavigateLeft(e, a));
      }
    }
  }

  lemma {:induction false} EnterOk(e: Env, a: App, s: Section, ids: seq<Key>)
    requires SourcesOk(e, a) && HomeTab(s) == a.tab && (s == Sources ==> Sources !in a.collapsed)
    ensures SourcesOk(e, EnterChild(e, a, s, ids))
  {
    var b := EnterChild(e, a, s, ids);
    if b != a {
      MovedFocusOk(e, a, b, a.tab, b.focus.Get(a.tab));
    }
  }

  /** Opening one more row of a section. */
  lemma {:induction false} OpenedOk(e: Env, a: App, s: Section, key: Key)
    requires SourcesOk(e, a) && (s == Sources || !key.FolderKey?)
    ensures SourcesOk(e, RebuiltIf(a.(expanded := a.expanded + {key}), s))
  {
    var b := RebuiltIf(a.(expanded := a.expanded + {key}), s);
    if s != Sources {
      CacheKept(e, a, b);
    } else if a.hierarchy.Some? {
      RowsGrow(a.hierarchy.value, a.expanded, b.expanded, a.sourceKind, [], 0);
    }
  }

  lemma {:induction false} RightOk(e: Env, a: App)
    requires OtherRows(e) && SourcesOk(e, a)
    ensures SourcesOk(e, NavigateRight(e, a))
  {
    var f := a.focus.Get(a.tab);
    if a.documentFocused {
    } else if f.row.None? {
      var b := a.(collapsed := a.collapsed - {f.section});
      CacheKept(e, a, b);
      EnterOk(e, b, f.section, []);
    } else {
      var rows, index := Rows(e, a, f.section), f.row.value;
      if index < |rows| && rows[index].expandable {
        OpenedOk(e, a, f.section, rows[index].key);
        EnterOk(e, RebuiltIf(a.(expanded := a.expanded + {rows[index].key}), f.section), f.section,
          NodePath(rows, index));
      }
    }
  }

  lemma {:induction false} FlippedFresh(e: Env, a: App, s: Section, key: Key)
    requires SourcesFresh(e, a) && (s == Sources || !key.FolderKey?)
    ensures SourcesFresh(e, RebuiltIf(a.(expanded := Toggled(a.expanded, key)), s))
  {
    if s != Sources { CacheKept(e, a, RebuiltIf(a.(expanded := Toggled(a.expanded, key)), s)); }
  }

  lemma {:induction false} ToggleOk(e: Env, a: App)
    requires OtherRows(e) && SourcesOk(e, a)
    ensures SourcesOk(e, ToggleExpanded(e, a))
  {
    var f := a.focus.Get(a.tab);
    if a.documentFocused {
    } else if f.row.None? {
      CacheKept(e, a, a.(collapsed := Toggled(a.collapsed, f.section)));
    } else {
      var rows, index := Rows(e, a, f.section), f.row.value;
      if index < |rows| && rows[index].expandable {
        var b := RebuiltIf(a.(expanded := Toggled(a.expanded, rows[index].key)), f.section);
        FlippedFresh(e, a, f.section, rows[index].key);
        ClampedShape(e, b);
        RefocusedOk(e, b, Clamped(e, b), Clamped(e, b).focus.Get(b.tab));
      }
    }
  }

  // ---- everything else

  lemma {:induction false} DrawOk(e: Env, a: App, viewports: seq<(Section, nat)>)
    requires SourcesOk(e, a)
    ensures SourcesOk(e, Draw(a, viewports))
    decreases |viewports|
  {
    if viewports != [] {
      ViewportOk(e, a, viewports[0].0, viewports[0].1);
      DrawOk(e, SetViewport(a, viewports[0].0, viewports[0].1), viewports[1..]);
    }
  }

  lemma {:induction false} RefreshOk(e: Env, a: App, r: Refresh)
    requires Sound(a) && SourcesOk(e, a)
    ensures SourcesOk(e, Refreshed(e, a, r))
  {
    RefreshKeepsFresh(e, a, r);
    if !Dropped(a, r) {
      var data := Installed(e, a, r);
      RestoredOk(e, data, Paths(e, a));
    }
  }

  lemma {:induction false} RestoredOk(e: Env, a: App, paths: PerTab<FocusPath>)
    requires HomeTab(paths.runtime.section) == Runtime && HomeTab(paths.debug.section) == Debug
    ensures FocusOk(Restored(e, a, paths))
  {
    RestoredFrame(e, a, paths);
    RestoredRowAgainst(a.sourceRows, paths.debug.ids, 0);
  }

  lemma ActivateOk(e: Env, a: App, index: nat)
    ensures SourcesOk(e, Activate(a, index))
  {
  }

  lemma CycleOk(e: Env, a: App)
    requires SourcesOk(e, a)
    ensures SourcesOk(e, ToggleSourceKind(a))
  {
  }
}
