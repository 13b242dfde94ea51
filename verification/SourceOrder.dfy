/** In which order the Sources section lists what hangs in one folder. */
module SourceOrder {
  import opened Common
  import opened OrderedMap
  import opened SourceTrie
  import opened SourceMetrics
  import opened Outline
  import opened Subsequences
  import opened SourceRows
  import opened SourcePreorder
  import opened SourceOutline

  /** The folder a row of the section hangs in. */
  ghost function Home(place: Placer, k: Key): seq<string> {
    match k
    case FolderKey(_, path) => if path == [] then [] else path[..|path| - 1]
    case SourceKey(uri) => place(uri).folder
    case _ => []
  }

  /** Folders by name, then files by name and, under one name, by uri. */
  ghost predicate InOrder(place: Placer, a: Key, b: Key) {
    || (a.FolderKey? && b.FolderKey? && a.path != [] && b.path != []
        && Before(a.path[|a.path| - 1], b.path[|b.path| - 1]))
    || (a.FolderKey? && b.SourceKey?)
    || (a.SourceKey? && b.SourceKey?
        && (Before(place(a.uri).name, place(b.uri).name)
            || (place(a.uri).name == place(b.uri).name && Before(a.uri, b.uri))))
  }

  lemma {:induction false} UriKey(d: Dict<SourceFile>, i: nat)
    requires i < |UriNodes(d)|
    ensures UriNodes(d)[i].SourceKey? && UriNodes(d)[i].uri in Keys(d)
  {
    if i > 0 { UriKey(d.rest, i - 1); }
  }

  lemma {:induction false} UriOrder(d: Dict<SourceFile>, i: nat, j: nat)
    requires Sorted(d) && i < j < |UriNodes(d)|
    ensures var nodes := UriNodes(d);
      nodes[i].SourceKey? && nodes[j].SourceKey? && Before(nodes[i].uri, nodes[j].uri)
  {
    if i > 0 {
      UriOrder(d.rest, i - 1, j - 1);
    } else {
      UriKey(d.rest, j - 1);
      var uri := UriNodes(d.rest)[j - 1].uri;
      HeadIsLeast(d, uri);
      LessExact(d.key, uri);
    }
  }

  lemma {:induction false} FileOrder(place: Placer, d: Dict<Dict<SourceFile>>, path: seq<string>, i: nat, j: nat)
    requires FilesPlaced(place, d, path) && Sorted(d) && i < j < |FileNodes(d)|
    ensures InOrder(place, FileNodes(d)[i], FileNodes(d)[j])
  {
    var here, rest := UriNodes(d.value), FileNodes(d.rest);
    UriNodesBelow(place, Loaded, d.value, path, d.key);
    FileNodesBelow(place, Loaded, d.rest, path);
    if j < |here| {
      UriOrder(d.value, i, j);
      assert here[i] in here && here[j] in here;
    } else if i < |here| {
      assert here[i] in here && rest[j - |here|] in rest;
      var name := place(rest[j - |here|].uri).name;
      HeadIsLeast(d, name);
      LessExact(d.key, name);
    } else {
      FileOrder(place, d.rest, path, i - |here|, j - |here|);
    }
  }

  /** What hangs in the folder at `path` itself is one of its folders, or has no step further down. */
  lemma {:induction false} HomeStep(place: Placer, kind: SourceKind, path: seq<string>, k: Key)
    requires Below(place, kind, path, k) && Step(place, path, k) != []
    ensures path <= Home(place, k)
    ensures Home(place, k) == path ==> k == FolderKey(kind, path + Step(place, path, k))
    ensures Home(place, k) != path ==> |Home(place, k)| > |path| && [Home(place, k)[|path|]] == Step(place, path, k)
  {
    if k.FolderKey? && |k.path| == |path| + 1 {
      assert k.path == path + [k.path[|path|]];
    }
  }

  lemma {:induction false} NodeOrder(
      place: Placer, kind: SourceKind, f: Folder, path: seq<string>, nodes: seq<Key>, i: nat, j: nat)
    requires WellPlaced(place, f, path) && nodes == Nodes(f, kind, path) && i < j < |nodes|
    requires Home(place, nodes[i]) == Home(place, nodes[j])
    ensures InOrder(place, nodes[i], nodes[j])
    decreases f, 1
  {
    var folders, files := FolderNodes(f.folders, kind, path), FileNodes(f.files);
    if j < |folders| {
      FolderOrder(place, kind, f.folders, path, folders, i, j);
    } else if i < |folders| {
      FolderNodesStep(place, kind, f.folders, path);
      FileNodesBelow(place, kind, f.files, path);
      assert folders[i] in folders && files[j - |folders|] in files;
      HomeStep(place, kind, path, folders[i]);
    } else {
      FileOrder(place, f.files, path, i - |folders|, j - |folders|);
    }
  }

  lemma {:induction false} FolderOrder(
      place: Placer, kind: SourceKind, d: Dict<Folder>, path: seq<string>, nodes: seq<Key>, i: nat, j: nat)
    requires FoldersPlaced(place, d, path) && Sorted(d) && nodes == FolderNodes(d, kind, path) && i < j < |nodes|
    requires Home(place, nodes[i]) == Home(place, nodes[j])
    ensures InOrder(place, nodes[i], nodes[j])
    decreases d, 0
  {
    var entry, rest := EntryNodes(d, kind, path), FolderNodes(d.rest, kind, path);
    var n := |entry|;
    assert nodes == entry + rest;
    if i >= n {
      assert nodes[i] == rest[i - n] && nodes[j] == rest[j - n];
      FolderOrder(place, kind, d.rest, path, rest, i - n, j - n);
    } else if j < n {
      assert nodes[i] == entry[i] && nodes[j] == entry[j];
      EntryOrder(place, kind, d.value, path + [d.key], entry, i, j);
    } else {
      assert nodes[i] == entry[i] && nodes[j] == rest[j - n];
      EntryFirst(place, kind, d, path, nodes[i], nodes[j]);
    }
  }

  lemma {:induction false} EntryOrder(
      place: Placer, kind: SourceKind, f: Folder, here: seq<string>, nodes: seq<Key>, i: nat, j: nat)
    requires WellPlaced(place, f, here) && here != [] && i < j < |nodes|
    requires nodes == [FolderKey(kind, here)] + Nodes(f, kind, here)
    requires Home(place, nodes[i]) == Home(place, nodes[j])
    ensures InOrder(place, nodes[i], nodes[j])
    decreases f, 2
  {
    var below := Nodes(f, kind, here);
    assert nodes[j] == below[j - 1] && below[j - 1] in below;
    if i > 0 {
      assert nodes[i] == below[i - 1];
      NodeOrder(place, kind, f, here, below, i - 1, j - 1);
    } else {
      NodesBelow(place, kind, f, here);
      HomeUnder(place, kind, here, nodes[j]);
    }
  }

  /** A node of the first folder and one of a later folder, which hang in the same folder. */
  lemma {:induction false} EntryFirst(
      place: Placer, kind: SourceKind, d: Dict<Folder>, path: seq<string>, a: Key, b: Key)
    requires d.Entry? && FoldersPlaced(place, d, path) && Sorted(d)
    requires a in EntryNodes(d, kind, path) && b in FolderNodes(d.rest, kind, path)
    requires Home(place, a) == Home(place, b)
    ensures InOrder(place, a, b)
  {
    NodesBelow(place, kind, d.value, path + [d.key]);
    BelowStep(place, kind, path, d.key, a);
    HomeStep(place, kind, path, a);
    FolderNodesStep(place, kind, d.rest, path);
    HomeStep(place, kind, path, b);
    HeadIsLeast(d, Step(place, path, b)[0]);
    LessExact(d.key, Step(place, path, b)[0]);
  }

  lemma {:induction false} HomeUnder(place: Placer, kind: SourceKind, path: seq<string>, k: Key)
    requires Below(place, kind, path, k) && path != []
    ensures Home(place, k) != Home(place, FolderKey(kind, path))
  {
  }

  lemma {:induction false} ShowAmong(place: Placer, kind: SourceKind, expanded: set<Key>, nodes: seq<Key>)
    ensures Among(RowKeys(Show(place, kind, expanded, nodes)), nodes)
  {
    if nodes != [] {
      var one, rest := ShowOne(place, kind, expanded, nodes[0]), Show(place, kind, expanded, nodes[1..]);
      ShowAmong(place, kind, expanded, nodes[1..]);
      ShowOneKeys(place, kind, expanded, nodes[0]);
      RowKeysConcat(one, rest);
      if one == [] {
        assert RowKeys(one) + RowKeys(rest) == RowKeys(rest);
      } else {
        assert (RowKeys(one) + RowKeys(rest))[1..] == RowKeys(rest);
      }
    }
  }

  /** Of two rows that hang in the same folder, a folder stands before a file, folders stand by name, and
      files by name and uri. */
  lemma {:induction false} SnapshotInOrder(
      place: Placer, sources: seq<SourceNode>, expanded: set<Key>, kind: SourceKind, i: nat, j: nat)
    requires i < j < |SnapshotRows(place, sources, expanded, kind)|
    requires var rows := SnapshotRows(place, sources, expanded, kind);
      Home(place, rows[i].key) == Home(place, rows[j].key)
    ensures var rows := SnapshotRows(place, sources, expanded, kind);
      InOrder(place, rows[i].key, rows[j].key)
  {
    var f := FromSnapshot(place, sources);
    SnapshotPlaced(place, sources);
    RowsShow(place, f, expanded, kind, []);
    var nodes := Nodes(f, kind, []);
    ShowAmong(place, kind, expanded, nodes);
    var keys := RowKeys(SnapshotRows(place, sources, expanded, kind));
    var m, n := TwoAmong(keys, nodes, i, j);
    NodeOrder(place, kind, f, [], nodes, m, n);
  }

  /** A folder's row can be expanded and says whether it is; a file's row cannot; both are indented by the
      number of folders they hang in. */
  lemma {:induction false} SnapshotMarkers(
      place: Placer, sources: seq<SourceNode>, expanded: set<Key>, kind: SourceKind, i: nat)
    requires i < |SnapshotRows(place, sources, expanded, kind)|
    ensures var row := SnapshotRows(place, sources, expanded, kind)[i];
      if row.key.FolderKey? then
        row.expandable && (row.expanded <==> row.key in expanded) && row.depth + 1 == |row.key.path|
      else
        row.key.SourceKey? && !row.expandable && !row.expanded && row.depth == |place(row.key.uri).folder|
  {
    var f := FromSnapshot(place, sources);
    SnapshotPlaced(place, sources);
    RowsShow(place, f, expanded, kind, []);
    ShowMembers(place, kind, expanded, Nodes(f, kind, []), i);
    var key := SnapshotRows(place, sources, expanded, kind)[i].key;
    NodesBelow(place, kind, f, []);
    assert Below(place, kind, [], key);
  }
}
