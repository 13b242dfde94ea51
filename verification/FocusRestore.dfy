/** Where the focus goes when data is refreshed. */
module FocusRestore {
  import opened Common
  import opened Outline
  import opened AppModel
  import Nav = SourceNavigation

  /** Row `j` stands for the node at `ids` or one of its ancestors. */
  predicate OnPath(rows: seq<Row>, ids: seq<Key>, j: nat) {
    j < |rows| && NodePath(rows, j) <= ids
  }

  /** Row `i` comes before row `j` or stands for a deeper node. */
  ghost predicate Ahead(rows: seq<Row>, i: nat, j: nat) {
    |NodePath(rows, j)| < |NodePath(rows, i)| || (NodePath(rows, j) == NodePath(rows, i) && i <= j)
  }

  /** `row` is the first row of the deepest node on the way to `ids` that still exists. */
  ghost predicate Deepest(rows: seq<Row>, ids: seq<Key>, row: Option<nat>) {
    match row
    case None => forall j :: !OnPath(rows, ids, j)
    case Some(i) => OnPath(rows, ids, i) && forall j | OnPath(rows, ids, j) :: Ahead(rows, i, j)
  }

  lemma {:induction false} RestoredRowAgainst(rows: seq<Row>, ids: seq<Key>, j: nat)
    ensures var r := RestoredRow(rows, ids);
      && (r.Some? ==> OnPath(rows, ids, r.value))
      && (OnPath(rows, ids, j) ==> r.Some? && Ahead(rows, r.value, j))
    decreases |ids|
  {
    if ids != [] {
      var r := FirstWithPath(rows, ids, 0);
      if r.None? {
        RestoredRowAgainst(rows, ids[..|ids| - 1], j);
        assert OnPath(rows, ids, j) ==> NodePath(rows, j) <= ids[..|ids| - 1];
      }
    }
  }

  lemma {:induction false} RestoredRowExact(rows: seq<Row>, ids: seq<Key>)
    ensures Deepest(rows, ids, RestoredRow(rows, ids))
  {
    forall j: nat ensures OnPath(rows, ids, j)
      ==> RestoredRow(rows, ids).Some? && Ahead(rows, RestoredRow(rows, ids).value, j) {
      RestoredRowAgainst(rows, ids, j);
    }
    RestoredRowAgainst(rows, ids, 0);
  }

  /** At most one row answers to a path of node ids. */
  lemma DeepestIsUnique(rows: seq<Row>, ids: seq<Key>, a: Option<nat>, b: Option<nat>)
    requires Deepest(rows, ids, a) && Deepest(rows, ids, b)
    ensures a == b
  {
  }

  /** Restoring changes the focus and the memory of visited children, nothing else. */
  lemma RestoredFrame(e: Env, a: App, paths: PerTab<FocusPath>)
    ensures var b := Restored(e, a, paths); b == a.(focus := b.focus, lastVisited := b.lastVisited)
  {
  }

  /** The tab's focus is in its old section, on the deepest surviving node of its old path. */
  ghost predicate Landed(e: Env, a: App, b: App, tab: Tab) {
    var was, now := a.focus.Get(tab), b.focus.Get(tab);
    && now.section == was.section
    && if was.section in b.collapsed then now.row.None?
       else Deepest(Rows(e, b, was.section), PathOf(e, a, tab).ids, now.row)
  }

  lemma {:induction false} RestoredLands(e: Env, a: App, data: App, tab: Tab)
    ensures Landed(e, a, Restored(e, data, Paths(e, a)), tab)
  {
    var b := Restored(e, data, Paths(e, a));
    RestoredFrame(e, data, Paths(e, a));
    RestoredRowExact(Rows(e, b, a.focus.Get(tab).section), PathOf(e, a, tab).ids);
  }

  /** After every refresh each tab's focus has landed; a dropped one does not move it. */
  lemma {:induction false} RefreshLands(e: Env, a: App, r: Refresh, tab: Tab)
    requires Sound(a)
    ensures if Dropped(a, r) then Refreshed(e, a, r).focus == a.focus else Landed(e, a, Refreshed(e, a, r), tab)
  {
    if !Dropped(a, r) {
      var data := Installed(e, a, r);
      assert Refreshed(e, a, r) == Restored(e, data, Paths(e, a));
      RestoredLands(e, a, data, tab);
    }
  }

  /** The focus stays put exactly when it is on a header, or the section is open and its row is
      the first with its path. */
  ghost predicate Stable(e: Env, a: App, tab: Tab) {
    var f := a.focus.Get(tab);
    f.row.None? ||
    (f.section !in a.collapsed && f.row.value < |Rows(e, a, f.section)|
     && forall j | 0 <= j < f.row.value ::
          NodePath(Rows(e, a, f.section), j) != NodePath(Rows(e, a, f.section), f.row.value))
  }

  /** A refresh that leaves the rows of the focused section as they are keeps the focus iff it was stable. */
  lemma {:induction false} UnchangedRowsKeepFocus(e: Env, a: App, b: App, tab: Tab)
    requires Landed(e, a, b, tab) && b.collapsed == a.collapsed
    requires Rows(e, b, a.focus.Get(tab).section) == Rows(e, a, a.focus.Get(tab).section)
    ensures b.focus.Get(tab) == a.focus.Get(tab) <==> Stable(e, a, tab)
  {
    var f := a.focus.Get(tab);
    var rows := Rows(e, a, f.section);
    if f.row.None? {
      assert PathOf(e, a, tab).ids == [];
    } else if f.section !in a.collapsed && f.row.value < |rows| {
      var i := f.row.value;
      assert OnPath(rows, NodePath(rows, i), i);
      var now := b.focus.Get(tab).row;
      assert now.Some? && Ahead(rows, now.value, i);
      assert NodePath(rows, now.value) == NodePath(rows, i);
      if Stable(e, a, tab) {
        assert now.value >= i;
      } else {
        var j :| 0 <= j < i && NodePath(rows, j) == NodePath(rows, i);
        assert OnPath(rows, NodePath(rows, i), j);
        assert Ahead(rows, now.value, j);
      }
    }
  }

  /** Refreshing without changing the rows of the focused section. */
  lemma {:induction false} RefreshOfSameRows(e: Env, a: App, r: Refresh, tab: Tab)
    requires Sound(a) && !Dropped(a, r)
    requires var s := a.focus.Get(tab).section; Rows(e, Refreshed(e, a, r), s) == Rows(e, a, s)
    ensures Refreshed(e, a, r).focus.Get(tab) == a.focus.Get(tab) <==> Stable(e, a, tab)
  {
    RefreshLands(e, a, r, tab);
    RestoredFrame(e, Installed(e, a, r), Paths(e, a));
    UnchangedRowsKeepFocus(e, a, Refreshed(e, a, r), tab);
  }

  /** Source rows have different paths, so an open, in-range source focus is always stable. */
  lemma {:induction false} SourceFocusIsStable(e: Env, a: App, tab: Tab)
    requires Nav.SourcesFresh(e, a)
    requires var f := a.focus.Get(tab);
      f.section == Sources && Sources !in a.collapsed && f.row.Some? && f.row.value < |a.sourceRows|
    ensures Stable(e, a, tab)
  {
    var i := a.focus.Get(tab).row.value;
    var rows := a.sourceRows;
    var sources := a.sources.value.sources;
    forall j | 0 <= j < i ensures NodePath(rows, j) != NodePath(rows, i) {
      if NodePath(rows, j) == NodePath(rows, i) {
        assert rows[j].key == NodePath(rows, j)[|NodePath(rows, j)| - 1];
        Nav.KeyFindsRow(e.place, sources, a.expanded, a.sourceKind, i, j);
        assert false;
      }
    }
  }
}
