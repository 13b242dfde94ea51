/** The Sources rows are the visible nodes of the trie in preorder, each exactly once, and the
    path of node ids read back from the flat rows is the folder path of the node. */
module SourcePreorder {
  import opened Common
  import opened OrderedMap
  import opened SourceTrie
  import opened Outline
  import opened SourceRows

  // ---- rows are the visible nodes

  lemma {:induction false} AncestryPrefix(kind: SourceKind, p: seq<string>, q: seq<string>)
    requires p <= q
    ensures Ancestry(kind, p) <= Ancestry(kind, q)
  {
    forall i | 0 <= i < |p| ensures Ancestry(kind, p)[i] == Ancestry(kind, q)[i] {
      assert q[..i + 1] == p[..i + 1];
    }
  }

  lemma {:induction false} AncestrySnoc(kind: SourceKind, path: seq<string>, name: string)
    ensures Ancestry(kind, path + [name]) == Ancestry(kind, path) + [FolderKey(kind, path + [name])]
  {
    AncestryPrefix(kind, path, path + [name]);
    assert (path + [name])[..|path| + 1] == path + [name];
  }

  lemma {:induction false} BelowHasAncestry(place: Placer, kind: SourceKind, path: seq<string>, k: Key)
    requires Below(place, kind, path, k)
    ensures Ancestry(kind, path) < KeyPath(place, kind, k)
  {
    AncestryPrefix(kind, path, if k.FolderKey? then k.path else place(k.uri).folder);
  }

  lemma {:induction false} ShowConcat(place: Placer, kind: SourceKind, expanded: set<Key>, a: seq<Key>, b: seq<Key>)
    ensures Show(place, kind, expanded, a + b) == Show(place, kind, expanded, a) + Show(place, kind, expanded, b)
  {
    if a == [] {
      assert a + b == b;
    } else {
      assert (a + b)[1..] == a[1..] + b;
      ShowConcat(place, kind, expanded, a[1..], b);
      Assoc(ShowOne(place, kind, expanded, a[0]), Show(place, kind, expanded, a[1..]), Show(place, kind, expanded, b));
    }
  }

  lemma {:induction false} ShowNone(place: Placer, kind: SourceKind, expanded: set<Key>, nodes: seq<Key>)
    requires forall k | k in nodes :: !Visible(place, kind, expanded, k)
    ensures Show(place, kind, expanded, nodes) == []
  {
    if nodes != [] { ShowNone(place, kind, expanded, nodes[1..]); }
  }

  lemma {:induction false} UriRowsShow(
    place: Placer, d: Dict<SourceFile>, expanded: set<Key>, kind: SourceKind, path: seq<string>, name: string)
    requires UrisPlaced(place, d, path, name)
    requires forall k | k in Ancestry(kind, path) :: k in expanded
    ensures UriRows(d, |path|) == Show(place, kind, expanded, UriNodes(d))
  {
    if d.Entry? {
      UriRowsShow(place, d.rest, expanded, kind, path, name);
      assert Visible(place, kind, expanded, SourceKey(d.key));
      assert UriNodes(d)[1..] == UriNodes(d.rest);
    }
  }

  lemma {:induction false} FileRowsShow(
    place: Placer, d: Dict<Dict<SourceFile>>, expanded: set<Key>, kind: SourceKind, path: seq<string>)
    requires FilesPlaced(place, d, path)
    requires forall k | k in Ancestry(kind, path) :: k in expanded
    ensures FileRows(d, |path|) == Show(place, kind, expanded, FileNodes(d))
  {
    if d.Entry? {
      UriRowsShow(place, d.value, expanded, kind, path, d.key);
      FileRowsShow(place, d.rest, expanded, kind, path);
      ShowConcat(place, kind, expanded, UriNodes(d.value), FileNodes(d.rest));
    }
  }

  /** `append_rows` emits exactly the rows of the visible nodes, in preorder. */
  lemma {:induction false} RowsShow(place: Placer, f: Folder, expanded: set<Key>, kind: SourceKind, path: seq<string>)
    requires WellPlaced(place, f, path)
    requires forall k | k in Ancestry(kind, path) :: k in expanded
    ensures Rows(f, expanded, kind, path, |path|) == Show(place, kind, expanded, Nodes(f, kind, path))
    decreases f, 1
  {
    FolderRowsShow(place, f.folders, expanded, kind, path);
    FileRowsShow(place, f.files, expanded, kind, path);
    ShowConcat(place, kind, expanded, FolderNodes(f.folders, kind, path), FileNodes(f.files));
  }

  lemma {:induction false} FolderRowsShow(
    place: Placer, d: Dict<Folder>, expanded: set<Key>, kind: SourceKind, path: seq<string>)
    requires FoldersPlaced(place, d, path)
    requires forall k | k in Ancestry(kind, path) :: k in expanded
    ensures FolderRows(d, expanded, kind, path, |path|) == Show(place, kind, expanded, FolderNodes(d, kind, path))
    decreases d, 0
  {
    if d.Entry? {
      var here := path + [d.key];
      var key := FolderKey(kind, here);
      var nodes := Nodes(d.value, kind, here);
      AncestrySnoc(kind, path, d.key);
      if key in expanded {
        RowsShow(place, d.value, expanded, kind, here);
      } else {
        NodesBelow(place, kind, d.value, here);
        forall k | k in nodes ensures !Visible(place, kind, expanded, k) {
          BelowHasAncestry(place, kind, here, k);
          assert |KeyPath(place, kind, k)| - 1 > |path| && KeyPath(place, kind, k)[|path|] == key;
        }
        ShowNone(place, kind, expanded, nodes);
      }
      FolderRowsShow(place, d.rest, expanded, kind, path);
      ShowFolder(place, kind, expanded, path, d.key);
      ShowConcat(place, kind, expanded, [key], nodes);
      ShowConcat(place, kind, expanded, [key] + nodes, FolderNodes(d.rest, kind, path));
    }
  }

  lemma {:induction false} ShowFolder(place: Placer, kind: SourceKind, expanded: set<Key>, path: seq<string>,
      name: string)
    requires forall k | k in Ancestry(kind, path) :: k in expanded
    ensures var key := FolderKey(kind, path + [name]);
      Show(place, kind, expanded, [key]) == [Row(key, |path|, true, key in expanded)]
  {
    AncestrySnoc(kind, path, name);
    var key := FolderKey(kind, path + [name]);
    assert Visible(place, kind, expanded, key);
    assert [key][1..] == [];
  }

  // ---- reading the path back from the flat rows

  ghost predicate PathOk(place: Placer, kind: SourceKind, rows: seq<Row>, n: nat)
    requires n < |rows|
  {
    NodePath(rows, n) == KeyPath(place, kind, rows[n].key)
  }

  /** In `before + block`, every row of `block` has the path of its node. */
  ghost predicate PathsOk(place: Placer, kind: SourceKind, before: seq<Row>, block: seq<Row>) {
    var rows := before + block;
    forall n | |before| <= n < |rows| :: PathOk(place, kind, rows, n)
  }

  lemma {:induction false} PathsConcat(place: Placer, kind: SourceKind, before: seq<Row>, a: seq<Row>, b: seq<Row>)
    requires PathsOk(place, kind, before, a) && PathsOk(place, kind, before + a, b)
    ensures PathsOk(place, kind, before, a + b)
  {
    Assoc(before, a, b);
    var rows := before + a + b;
    forall n | |before| <= n < |before + a| ensures PathOk(place, kind, rows, n) {
      assert PathOk(place, kind, before + a, n);
      assert rows[..n] == (before + a)[..n];
      NodePathLocal(rows, before + a, n);
    }
  }

  /** The rows already emitted leave the folder at `path` open. */
  ghost predicate At(kind: SourceKind, before: seq<Row>, path: seq<string>) {
    Climb(before, |before|, |path|) == Ancestry(kind, path)
  }

  lemma {:induction false} SingleRow(place: Placer, kind: SourceKind, before: seq<Row>, row: Row, path: seq<string>)
    requires At(kind, before, path) && row.depth == |path|
    requires KeyPath(place, kind, row.key) == Ancestry(kind, path) + [row.key]
    ensures PathsOk(place, kind, before, [row])
  {
    ClimbStep(before, row);
  }

  lemma {:induction false} UrisDeep(d: Dict<SourceFile>, depth: nat)
    ensures AtLeast(UriRows(d, depth), depth)
  {
    if d.Entry? {
      UrisDeep(d.rest, depth);
      AtLeastOne(Row(SourceKey(d.key), depth, false, false), depth);
      AtLeastJoin([Row(SourceKey(d.key), depth, false, false)], UriRows(d.rest, depth), depth);
    }
  }

  lemma {:induction false} FilesDeep(d: Dict<Dict<SourceFile>>, depth: nat)
    ensures AtLeast(FileRows(d, depth), depth)
  {
    if d.Entry? {
      UrisDeep(d.value, depth);
      FilesDeep(d.rest, depth);
      AtLeastJoin(UriRows(d.value, depth), FileRows(d.rest, depth), depth);
    }
  }

  lemma {:induction false} RowsDeep(f: Folder, expanded: set<Key>, kind: SourceKind, path: seq<string>, depth: nat)
    ensures AtLeast(Rows(f, expanded, kind, path, depth), depth)
    decreases f, 1
  {
    FoldersDeep(f.folders, expanded, kind, path, depth);
    FilesDeep(f.files, depth);
    AtLeastJoin(FolderRows(f.folders, expanded, kind, path, depth), FileRows(f.files, depth), depth);
  }

  lemma {:induction false} FoldersDeep(d: Dict<Folder>, expanded: set<Key>, kind: SourceKind, path: seq<string>,
      depth: nat)
    ensures AtLeast(FolderRows(d, expanded, kind, path, depth), depth)
    decreases d, 0
  {
    if d.Entry? {
      EntryDeep(d.key, d.value, expanded, kind, path, depth);
      FoldersDeep(d.rest, expanded, kind, path, depth);
      AtLeastJoin(FolderEntryRows(d.key, d.value, expanded, kind, path, depth),
        FolderRows(d.rest, expanded, kind, path, depth), depth);
    }
  }

  lemma {:induction false} EntryDeep(
    name: string, f: Folder, expanded: set<Key>, kind: SourceKind, path: seq<string>, depth: nat)
    ensures AtLeast(FolderEntryRows(name, f, expanded, kind, path, depth), depth)
    decreases f, 2
  {
    var key := FolderKey(kind, path + [name]);
    var row := Row(key, depth, true, key in expanded);
    if key in expanded {
      RowsDeep(f, expanded, kind, path + [name], depth + 1);
      AtLeastUnder(row, Rows(f, expanded, kind, path + [name], depth + 1));
    } else {
      AtLeastOne(row, depth);
      assert [row] + [] == [row];
    }
  }

  lemma {:induction false} UriPaths(
    place: Placer, kind: SourceKind, before: seq<Row>, d: Dict<SourceFile>, path: seq<string>, name: string)
    requires UrisPlaced(place, d, path, name) && At(kind, before, path)
    ensures PathsOk(place, kind, before, UriRows(d, |path|))
    decreases d
  {
    if d.Entry? {
      var row := Row(SourceKey(d.key), |path|, false, false);
      SingleRow(place, kind, before, row, path);
      AtLeastOne(row, |path|);
      ClimbOver(before, [row], |path|);
      UriPaths(place, kind, before + [row], d.rest, path, name);
      PathsConcat(place, kind, before, [row], UriRows(d.rest, |path|));
    }
  }

  lemma {:induction false} FilePaths(
    place: Placer, kind: SourceKind, before: seq<Row>, d: Dict<Dict<SourceFile>>, path: seq<string>)
    requires FilesPlaced(place, d, path) && At(kind, before, path)
    ensures PathsOk(place, kind, before, FileRows(d, |path|))
    decreases d
  {
    if d.Entry? {
      var block := UriRows(d.value, |path|);
      UrisDeep(d.value, |path|);
      UriPaths(place, kind, before, d.value, path, d.key);
      ClimbOver(before, block, |path|);
      FilePaths(place, kind, before + block, d.rest, path);
      PathsConcat(place, kind, before, block, FileRows(d.rest, |path|));
    }
  }

  lemma {:induction false} FolderPaths(
    place: Placer, kind: SourceKind, before: seq<Row>, f: Folder, expanded: set<Key>, path: seq<string>)
    requires WellPlaced(place, f, path) && At(kind, before, path)
    ensures PathsOk(place, kind, before, Rows(f, expanded, kind, path, |path|))
    decreases f, 1
  {
    var block := FolderRows(f.folders, expanded, kind, path, |path|);
    SubfolderPaths(place, kind, before, f.folders, expanded, path);
    FoldersDeep(f.folders, expanded, kind, path, |path|);
    ClimbOver(before, block, |path|);
    FilePaths(place, kind, before + block, f.files, path);
    PathsConcat(place, kind, before, block, FileRows(f.files, |path|));
  }

  lemma {:induction false} SubfolderPaths(
    place: Placer, kind: SourceKind, before: seq<Row>, d: Dict<Folder>, expanded: set<Key>, path: seq<string>)
    requires FoldersPlaced(place, d, path) && At(kind, before, path)
    ensures PathsOk(place, kind, before, FolderRows(d, expanded, kind, path, |path|))
    decreases d, 0
  {
    if d.Entry? {
      var entry := FolderEntryRows(d.key, d.value, expanded, kind, path, |path|);
      EntryPaths(place, kind, before, d.key, d.value, expanded, path);
      EntryDeep(d.key, d.value, expanded, kind, path, |path|);
      ClimbOver(before, entry, |path|);
      SubfolderPaths(place, kind, before + entry, d.rest, expanded, path);
      PathsConcat(place, kind, before, entry, FolderRows(d.rest, expanded, kind, path, |path|));
    }
  }

  lemma {:induction false} FolderOpened(kind: SourceKind, before: seq<Row>, row: Row, path: seq<string>, name: string)
    requires At(kind, before, path) && row.depth == |path| && row.key == FolderKey(kind, path + [name])
    ensures At(kind, before + [row], path + [name])
  {
    AncestrySnoc(kind, path, name);
    ClimbStep(before, row);
  }

  lemma {:induction false} EntryPaths(
    place: Placer, kind: SourceKind, before: seq<Row>, name: string, f: Folder, expanded: set<Key>, path: seq<string>)
    requires WellPlaced(place, f, path + [name]) && At(kind, before, path)
    ensures PathsOk(place, kind, before, FolderEntryRows(name, f, expanded, kind, path, |path|))
    decreases f, 2
  {
    var here := path + [name];
    var key := FolderKey(kind, here);
    var row := Row(key, |path|, true, key in expanded);
    AncestrySnoc(kind, path, name);
    SingleRow(place, kind, before, row, path);
    if key in expanded {
      FolderOpened(kind, before, row, path, name);
      FolderPaths(place, kind, before + [row], f, expanded, here);
      PathsConcat(place, kind, before, [row], Rows(f, expanded, kind, here, |here|));
    } else {
      assert [row] + [] == [row];
    }
  }

  /** `row_node_id_path` on the Sources rows returns the folders of the node and the node, so its
      length is the row's depth plus one. */
  lemma {:induction false} PathIsAncestry(place: Placer, f: Folder, expanded: set<Key>, kind: SourceKind, i: nat)
    requires WellPlaced(place, f, []) && i < |Rows(f, expanded, kind, [], 0)|
    ensures var rows := Rows(f, expanded, kind, [], 0);
      && NodePath(rows, i) == KeyPath(place, kind, rows[i].key)
      && |NodePath(rows, i)| == rows[i].depth + 1
  {
    var rows := Rows(f, expanded, kind, [], 0);
    var none: seq<Row> := [];
    FolderPaths(place, kind, none, f, expanded, []);
    assert none + rows == rows;
    assert PathOk(place, kind, rows, i);
    RowsShow(place, f, expanded, kind, []);
    ShowMembers(place, kind, expanded, Nodes(f, kind, []), i);
    assert NodePath(rows, i) != [];
  }

  /** Each shown row is the row of some visible node. */
  lemma {:induction false} ShowMembers(place: Placer, kind: SourceKind, expanded: set<Key>, nodes: seq<Key>, i: nat)
    requires i < |Show(place, kind, expanded, nodes)|
    ensures var row := Show(place, kind, expanded, nodes)[i];
      row.key in nodes && Visible(place, kind, expanded, row.key) && row == RowFor(place, kind, expanded, row.key)
  {
    if Visible(place, kind, expanded, nodes[0]) {
      if i > 0 { ShowMembers(place, kind, expanded, nodes[1..], i - 1); }
    } else {
      ShowMembers(place, kind, expanded, nodes[1..], i);
    }
  }
}
