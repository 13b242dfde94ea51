/** Moving to the parent and back in the Sources section. */
module SourceNavigation {
  import opened Common
  import opened Outline
  import opened SourceTrie
  import opened SourceMetrics
  import opened SourceRows
  import opened SourcePreorder
  import opened SourceOutline
  import M = AppModel

  /** The hierarchy is the trie of the source tree, the tree has the selected kind, and the cached
      rows are a fresh flattening. */
  ghost predicate SourcesFresh(e: M.Env, a: M.App) {
    && (a.sources.Some? ==> a.sources.value.kind == a.sourceKind)
    && (a.sources.Some? ==> a.hierarchy == Some(FromSnapshot(e.place, a.sources.value.sources)))
    && (a.sources.None? ==> a.hierarchy.None?)
    && a.sourceRows == M.Rebuilt(a).sourceRows
  }

  /** Facts about the rows of a snapshot that navigation relies on. */
  ghost predicate RowFacts(place: Placer, kind: SourceKind, rows: seq<Row>, i: nat)
    requires i < |rows|
  {
    NodePath(rows, i) == KeyPath(place, kind, rows[i].key) && NodePath(rows, i) != []
  }

  lemma {:induction false} RowsHaveFacts(place: Placer, sources: seq<SourceNode>, expanded: set<Key>,
      kind: SourceKind, i: nat)
    requires i < |SnapshotRows(place, sources, expanded, kind)|
    ensures RowFacts(place, kind, SnapshotRows(place, sources, expanded, kind), i)
  {
    SnapshotPlaced(place, sources);
    PathIsAncestry(place, FromSnapshot(place, sources), expanded, kind, i);
  }

  /** Rows have different keys, so a key finds its row. */
  lemma {:induction false} KeyFindsRow(place: Placer, sources: seq<SourceNode>, expanded: set<Key>, kind: SourceKind,
      i: nat, j: nat)
    requires var rows := SnapshotRows(place, sources, expanded, kind);
      i < |rows| && j < |rows| && rows[i].key == rows[j].key
    ensures i == j
  {
    RowsExact(place, sources, expanded, kind);
    var keys := RowKeys(SnapshotRows(place, sources, expanded, kind));
    assert keys[i] == keys[j];
  }

  lemma {:induction false} ParentPath(place: Placer, kind: SourceKind, key: Key)
    requires key.SourceKey? || (key.FolderKey? && key.kind == kind)
    requires |KeyPath(place, kind, key)| >= 2
    ensures var path := KeyPath(place, kind, key);
      var parent := path[|path| - 2];
      && parent.FolderKey? && parent.kind == kind && parent.path != []
      && KeyPath(place, kind, parent) == path[..|path| - 1]
  {
    var whole := if key.FolderKey? then key.path else place(key.uri).folder;
    var path := KeyPath(place, kind, key);
    var n := |path| - 2;
    assert path[n] == FolderKey(kind, whole[..n + 1]);
    AncestryPrefix(kind, whole[..n + 1], whole);
    assert path[..n + 1] == Ancestry(kind, whole)[..n + 1];
  }

  /** The parent of a visible node is visible and expanded. */
  lemma {:induction false} ParentShown(place: Placer, sources: seq<SourceNode>, expanded: set<Key>, kind: SourceKind,
      j: nat)
      returns (i: nat)
    requires j < |SnapshotRows(place, sources, expanded, kind)|
    requires |KeyPath(place, kind, SnapshotRows(place, sources, expanded, kind)[j].key)| >= 2
    ensures var rows := SnapshotRows(place, sources, expanded, kind);
      var path := KeyPath(place, kind, rows[j].key);
      && i < |rows| && rows[i].key == path[|path| - 2] && rows[i].key in expanded
      && rows[i].key.FolderKey? && rows[i].key.kind == kind
      && KeyPath(place, kind, rows[i].key) == path[..|path| - 1]
  {
    var rows := SnapshotRows(place, sources, expanded, kind);
    var key := rows[j].key;
    var path := KeyPath(place, kind, key);
    var parent := path[|path| - 2];
    RowsExact(place, sources, expanded, kind);
    assert RowKeys(rows)[j] == key && key in RowKeys(rows);
    assert InSnapshot(place, sources, kind, key) && Visible(place, kind, expanded, key);
    ParentPath(place, kind, key);
    AncestorsInSnapshot(place, sources, kind, key, |path| - 2);
    assert Visible(place, kind, expanded, parent);
    assert parent in RowKeys(rows);
    i :| 0 <= i < |rows| && RowKeys(rows)[i] == parent;
  }

  // ---- the memory of the last visited child

  lemma {:induction false} LinkedKeeps(m: map<Key, Key>, path: seq<Key>, k: Key)
    requires k in m && forall i | 0 <= i < |path| - 1 :: path[i] != k
    ensures k in M.Linked(m, path) && M.Linked(m, path)[k] == m[k]
    decreases |path|
  {
    if |path| >= 2 { LinkedKeeps(m[path[0] := path[1]], path[1..], k); }
  }

  /** Writing the edges on the way to a folder leaves the folder's own memory alone. */
  lemma {:induction false} FolderMemoryKept(place: Placer, kind: SourceKind, m: map<Key, Key>, folder: Key)
    requires folder.FolderKey? && folder.kind == kind && folder in m
    ensures var m' := M.Linked(m, [SectionKey(Sources)] + KeyPath(place, kind, folder));
      folder in m' && m'[folder] == m[folder]
  {
    var path := [SectionKey(Sources)] + KeyPath(place, kind, folder);
    forall i | 0 <= i < |path| - 1 ensures path[i] != folder {
      if i > 0 { assert path[i] == FolderKey(kind, folder.path[..i]); }
    }
    LinkedKeeps(m, path, folder);
  }

  // ---- left, then right

  /** The focus is on row `j` of the Sources section, which is open. */
  ghost predicate OnSourceRow(e: M.Env, a: M.App, j: nat) {
    && SourcesFresh(e, a)
    && a.focus.Get(a.tab) == M.Focus(Sources, Some(j)) && j < |a.sourceRows|
    && !a.documentFocused && Sources !in a.collapsed
  }

  lemma {:induction false} FreshRows(e: M.Env, a: M.App, j: nat)
    requires OnSourceRow(e, a, j)
    ensures a.sources.Some? && a.sourceRows == SnapshotRows(e.place, a.sources.value.sources, a.expanded, a.sourceKind)
  {
  }

  /** Entering the children of `ids` finds row `j` again when its key is the remembered one. */
  lemma {:induction false} EntersRemembered(
    place: Placer, sources: seq<SourceNode>, expanded: set<Key>, kind: SourceKind, ids: seq<Key>, j: nat)
    requires var rows := SnapshotRows(place, sources, expanded, kind);
      j < |rows| && |KeyPath(place, kind, rows[j].key)| == |ids| + 1 && ids <= KeyPath(place, kind, rows[j].key)
    ensures var rows := SnapshotRows(place, sources, expanded, kind);
      M.EnteredChild(rows, ids, Some(rows[j].key)) == Some(j)
  {
    var rows := SnapshotRows(place, sources, expanded, kind);
    RowsHaveFacts(place, sources, expanded, kind, j);
    assert M.IsChild(rows, ids, j);
    var kept := M.FirstChild(rows, ids, Some(rows[j].key), 0);
    assert kept.Some?;
    KeyFindsRow(place, sources, expanded, kind, kept.value, j);
  }

  /** From a row at the top level: the section closes and opens again on the same row. */
  lemma {:induction false} TopLevelRoundTrip(e: M.Env, a: M.App, j: nat)
    requires OnSourceRow(e, a, j) && |NodePath(a.sourceRows, j)| < 2
    ensures var b := M.NavigateRight(e, M.NavigateLeft(e, a)); b == a.(lastVisited := b.lastVisited)
  {
    FreshRows(e, a, j);
    var rows, key := a.sourceRows, a.sourceRows[j].key;
    RowsHaveFacts(e.place, a.sources.value.sources, a.expanded, a.sourceKind, j);
    EntersRemembered(e.place, a.sources.value.sources, a.expanded, a.sourceKind, [], j);
    var l := M.NavigateLeft(e, a);
    assert M.Rebuilt(a.(collapsed := a.collapsed + {Sources})).sourceRows == rows;
    assert l == a.(collapsed := a.collapsed + {Sources}, focus := a.focus.Set(a.tab, M.Focus(Sources, None)),
                   lastVisited := a.lastVisited[SectionKey(Sources) := key]);
    assert a.collapsed + {Sources} - {Sources} == a.collapsed;
    var open := l.(collapsed := l.collapsed - {Sources});
    assert M.NavigateRight(e, l) == M.EnterChild(e, open, Sources, []);
    assert M.EnteredChild(rows, [], Some(key)) == Some(j);
  }

  /** The state after moving left from a row that has a parent folder at row `i`. */
  lemma {:induction false} LeftState(e: M.Env, a: M.App, j: nat, i: nat, parent: Key)
    requires OnSourceRow(e, a, j) && i < |a.sourceRows| && a.sourceRows[i].key == parent
    requires |NodePath(a.sourceRows, j)| >= 2 && NodePath(a.sourceRows, j)[|NodePath(a.sourceRows, j)| - 2] == parent
    ensures var l := M.NavigateLeft(e, a);
      var rows := SnapshotRows(e.place, a.sources.value.sources, a.expanded - {parent}, a.sourceKind);
      l == a.(expanded := a.expanded - {parent}, sourceRows := rows,
              focus := a.focus.Set(a.tab, M.Focus(Sources, Some(i))),
              lastVisited := M.Linked(a.lastVisited[parent := a.sourceRows[j].key],
                                      [SectionKey(Sources)] + NodePath(rows, i)))
  {
    FreshRows(e, a, j);
    var found := M.FirstWithKey(a.sourceRows, parent, 0);
    assert found.Some?;
    KeyFindsRow(e.place, a.sources.value.sources, a.expanded, a.sourceKind, found.value, i);
  }

  /** A collapsed folder keeps its place, its path, and can be opened again. */
  lemma {:induction false} CollapsedRow(place: Placer, sources: seq<SourceNode>, expanded: set<Key>,
      kind: SourceKind, i: nat)
    requires i < |SnapshotRows(place, sources, expanded, kind)|
    requires SnapshotRows(place, sources, expanded, kind)[i].key.FolderKey?
    ensures var key := SnapshotRows(place, sources, expanded, kind)[i].key;
      var rows := SnapshotRows(place, sources, expanded - {key}, kind);
      i < |rows| && rows[i].key == key && rows[i].expandable && NodePath(rows, i) == KeyPath(place, kind, key)
  {
    var key := SnapshotRows(place, sources, expanded, kind)[i].key;
    var _ := CollapseRemovesBlock(place, sources, expanded, kind, i);
    RowsHaveFacts(place, sources, expanded - {key}, kind, i);
    FolderRowsExpand(place, sources, expanded - {key}, kind, i);
  }

  lemma {:induction false} NestedRoundTrip(e: M.Env, a: M.App, j: nat)
    requires OnSourceRow(e, a, j) && |NodePath(a.sourceRows, j)| >= 2
    ensures var b := M.NavigateRight(e, M.NavigateLeft(e, a)); b == a.(lastVisited := b.lastVisited)
  {
    FreshRows(e, a, j);
    var place, sources, kind := e.place, a.sources.value.sources, a.sourceKind;
    var rows, key := a.sourceRows, a.sourceRows[j].key;
    RowsHaveFacts(place, sources, a.expanded, kind, j);
    var i := ParentShown(place, sources, a.expanded, kind, j);
    var parent := rows[i].key;
    LeftState(e, a, j, i, parent);
    var l := M.NavigateLeft(e, a);
    CollapsedRow(place, sources, a.expanded, kind, i);
    FolderMemoryKept(place, kind, a.lastVisited[parent := key], parent);
    EntersRemembered(place, sources, a.expanded, kind, KeyPath(place, kind, parent), j);
    assert a.expanded - {parent} + {parent} == a.expanded;
    RightState(e, l, i, a.expanded);
    EnterBack(e, a, l, j, NodePath(l.sourceRows, i));
  }

  /** Entering the reopened folder `ids` with row `j` remembered restores everything. */
  lemma {:induction false} EnterBack(e: M.Env, a: M.App, l: M.App, j: nat, ids: seq<Key>)
    requires OnSourceRow(e, a, j) && ids != []
    requires l == a.(expanded := l.expanded, sourceRows := l.sourceRows, focus := l.focus, lastVisited := l.lastVisited)
    requires l.focus == a.focus.Set(a.tab, l.focus.Get(a.tab))
    requires ids[|ids| - 1] in l.lastVisited && l.lastVisited[ids[|ids| - 1]] == a.sourceRows[j].key
    requires M.EnteredChild(a.sourceRows, ids, Some(a.sourceRows[j].key)) == Some(j)
    ensures var b := M.EnterChild(e, M.Rebuilt(l.(expanded := a.expanded)), Sources, ids);
      b == a.(lastVisited := b.lastVisited)
  {
    assert M.Rebuilt(l.(expanded := a.expanded)).sourceRows == a.sourceRows;
  }

  /** Folder rows are expandable. */
  lemma {:induction false} FolderRowsExpand(place: Placer, sources: seq<SourceNode>, expanded: set<Key>,
      kind: SourceKind, i: nat)
    requires i < |SnapshotRows(place, sources, expanded, kind)|
    requires SnapshotRows(place, sources, expanded, kind)[i].key.FolderKey?
    ensures SnapshotRows(place, sources, expanded, kind)[i].expandable
  {
    SnapshotPlaced(place, sources);
    RowsShow(place, FromSnapshot(place, sources), expanded, kind, []);
    ShowMembers(place, kind, expanded, Nodes(FromSnapshot(place, sources), kind, []), i);
  }

  /** The state after moving right from a collapsed folder at row `i`. */
  lemma {:induction false} RightState(e: M.Env, l: M.App, i: nat, expanded: set<Key>)
    requires l.focus.Get(l.tab) == M.Focus(Sources, Some(i)) && i < |l.sourceRows|
    requires !l.documentFocused && l.sourceRows[i].expandable && l.expanded + {l.sourceRows[i].key} == expanded
    ensures M.NavigateRight(e, l)
      == M.EnterChild(e, M.Rebuilt(l.(expanded := expanded)), Sources, NodePath(l.sourceRows, i))
  {
  }

  /** Left, then Right, gives back the expanded set, the collapsed sections, the rows and the focus;
      only the memory of visited children differs. */
  lemma {:induction false} LeftThenRight(e: M.Env, a: M.App, j: nat)
    requires OnSourceRow(e, a, j)
    ensures var b := M.NavigateRight(e, M.NavigateLeft(e, a)); b == a.(lastVisited := b.lastVisited)
  {
    if |NodePath(a.sourceRows, j)| < 2 { TopLevelRoundTrip(e, a, j); } else { NestedRoundTrip(e, a, j); }
  }
}
