/** The rows of the Sources section: the visible part of the trie, in preorder. */
module SourceRows {
  import opened Common
  import opened OrderedMap
  import opened SourceTrie
  import opened Outline

  // ---- append_rows

  function Rows(f: Folder, expanded: set<Key>, kind: SourceKind, path: seq<string>, depth: nat): seq<Row>
    decreases f, 1
  {
    FolderRows(f.folders, expanded, kind, path, depth) + FileRows(f.files, depth)
  }

  function FolderRows(d: Dict<Folder>, expanded: set<Key>, kind: SourceKind, path: seq<string>, depth: nat): seq<Row>
    decreases d, 0
  {
    match d
    case Empty => []
    case Entry(name, folder, rest) =>
      FolderEntryRows(name, folder, expanded, kind, path, depth) + FolderRows(rest, expanded, kind, path, depth)
  }

  function FolderEntryRows(
    name: string, folder: Folder, expanded: set<Key>, kind: SourceKind, path: seq<string>, depth: nat): seq<Row>
    decreases folder, 2
  {
    var key := FolderKey(kind, path + [name]);
    [Row(key, depth, true, key in expanded)]
    + if key in expanded then Rows(folder, expanded, kind, path + [name], depth + 1) else []
  }

  function FileRows(d: Dict<Dict<SourceFile>>, depth: nat): seq<Row> {
    match d case Empty => [] case Entry(_, uris, rest) => UriRows(uris, depth) + FileRows(rest, depth)
  }

  function UriRows(d: Dict<SourceFile>, depth: nat): seq<Row> {
    match d
    case Empty => []
    case Entry(uri, _, rest) => [Row(SourceKey(uri), depth, false, false)] + UriRows(rest, depth)
  }

  /** The list that `append_rows` pushes onto and the path it extends and shortens on the way. */
  class RowWriter {
    var rows: seq<Row>
    var path: seq<string>

    constructor ()
      ensures rows == [] && path == []
    {
      rows, path := [], [];
    }

    method AppendRows(f: Folder, expanded: set<Key>, kind: SourceKind, depth: nat)
      modifies this
      ensures path == old(path)
      ensures rows == old(rows) + Rows(f, expanded, kind, path, depth)
      decreases f, 1
    {
      var folders := f.folders;
      ghost var done: seq<Row> := [];
      while folders.Entry?
        invariant path == old(path)
        invariant folders == f.folders || folders < f.folders
        invariant rows == old(rows) + done
        invariant done + FolderRows(folders, expanded, kind, path, depth)
          == FolderRows(f.folders, expanded, kind, path, depth)
        decreases folders
      {
        AppendFolder(folders.key, folders.value, expanded, kind, depth);
        ghost var entry := FolderEntryRows(folders.key, folders.value, expanded, kind, path, depth);
        Assoc(old(rows), done, entry);
        Assoc(done, entry, FolderRows(folders.rest, expanded, kind, path, depth));
        done := done + entry;
        folders := folders.rest;
      }
      assert done + [] == done;
      AppendFiles(f.files, depth);
      Assoc(old(rows), done, FileRows(f.files, depth));
    }

    method AppendFolder(name: string, folder: Folder, expanded: set<Key>, kind: SourceKind, depth: nat)
      modifies this
      ensures path == old(path)
      ensures rows == old(rows) + FolderEntryRows(name, folder, expanded, kind, path, depth)
      decreases folder, 2
    {
      path := path + [name];
      var key := FolderKey(kind, path);
      var open := key in expanded;
      rows := rows + [Row(key, depth, true, open)];
      if open {
        AppendRows(folder, expanded, kind, depth + 1);
      }
      path := path[..|path| - 1];
      assert path == old(path);
    }

    method AppendFiles(d: Dict<Dict<SourceFile>>, depth: nat)
      modifies this
      ensures path == old(path)
      ensures rows == old(rows) + FileRows(d, depth)
    {
      var files := d;
      ghost var done: seq<Row> := [];
      while files.Entry?
        invariant path == old(path)
        invariant rows == old(rows) + done && done + FileRows(files, depth) == FileRows(d, depth)
        decreases files
      {
        ghost var before := done;
        var uris := files.value;
        while uris.Entry?
          invariant path == old(path)
          invariant rows == old(rows) + done && done + UriRows(uris, depth) == before + UriRows(files.value, depth)
          decreases uris
        {
          var row := Row(SourceKey(uris.key), depth, false, false);
          Assoc(old(rows), done, [row]);
          Assoc(done, [row], UriRows(uris.rest, depth));
          rows := rows + [row];
          done := done + [row];
          uris := uris.rest;
        }
        assert done + [] == done;
        Assoc(before, UriRows(files.value, depth), FileRows(files.rest, depth));
        files := files.rest;
      }
      assert done + [] == done;
    }
  }

  /** `collect_folder_keys`. */
  function CollectFolderKeys(f: Folder, kind: SourceKind, path: seq<string>): set<Key>
    decreases f, 1
  {
    CollectIn(f.folders, kind, path)
  }

  function CollectIn(d: Dict<Folder>, kind: SourceKind, path: seq<string>): set<Key>
    decreases d, 0
  {
    match d
    case Empty => {}
    case Entry(name, folder, rest) =>
      {FolderKey(kind, path + [name])} + CollectFolderKeys(folder, kind, path + [name]) + CollectIn(rest, kind, path)
  }

  // ---- what a row stands for

  ghost function Ancestry(kind: SourceKind, path: seq<string>): (keys: seq<Key>)
    ensures |keys| == |path|
  {
    seq(|path|, i requires 0 <= i < |path| => FolderKey(kind, path[..i + 1]))
  }

  /** The folders above a node, outermost first, and the node itself. */
  ghost function KeyPath(place: Placer, kind: SourceKind, key: Key): seq<Key> {
    match key
    case FolderKey(k, path) => Ancestry(k, path)
    case SourceKey(uri) => Ancestry(kind, place(uri).folder) + [key]
    case _ => [key]
  }

  ghost predicate Visible(place: Placer, kind: SourceKind, expanded: set<Key>, key: Key) {
    var p := KeyPath(place, kind, key);
    forall i | 0 <= i < |p| - 1 :: p[i] in expanded
  }

  ghost function RowFor(place: Placer, kind: SourceKind, expanded: set<Key>, key: Key): Row {
    Row(key, if KeyPath(place, kind, key) == [] then 0 else |KeyPath(place, kind, key)| - 1,
        key.FolderKey?, key.FolderKey? && key in expanded)
  }

  /** The rows that the visible ones among `nodes` get. */
  ghost function Show(place: Placer, kind: SourceKind, expanded: set<Key>, nodes: seq<Key>): seq<Row> {
    if nodes == [] then [] else ShowOne(place, kind, expanded, nodes[0]) + Show(place, kind, expanded, nodes[1..])
  }

  ghost function ShowOne(place: Placer, kind: SourceKind, expanded: set<Key>, node: Key): seq<Row> {
    if Visible(place, kind, expanded, node) then [RowFor(place, kind, expanded, node)] else []
  }

  /** All nodes of the trie in preorder, folders before files. */
  function Nodes(f: Folder, kind: SourceKind, path: seq<string>): seq<Key>
    decreases f, 1
  {
    FolderNodes(f.folders, kind, path) + FileNodes(f.files)
  }

  function FolderNodes(d: Dict<Folder>, kind: SourceKind, path: seq<string>): seq<Key>
    decreases d, 0
  {
    match d
    case Empty => []
    case Entry(name, folder, rest) =>
      [FolderKey(kind, path + [name])] + Nodes(folder, kind, path + [name]) + FolderNodes(rest, kind, path)
  }

  function FileNodes(d: Dict<Dict<SourceFile>>): seq<Key> {
    match d case Empty => [] case Entry(_, uris, rest) => UriNodes(uris) + FileNodes(rest)
  }

  function UriNodes(d: Dict<SourceFile>): seq<Key> {
    match d case Empty => [] case Entry(uri, _, rest) => [SourceKey(uri)] + UriNodes(rest)
  }

  // ---- which nodes a folder holds

  /** Node `k` hangs in the folder at `path`, at any depth. */
  ghost predicate Below(place: Placer, kind: SourceKind, path: seq<string>, k: Key) {
    || (k.FolderKey? && k.kind == kind && path < k.path)
    || (k.SourceKey? && path <= place(k.uri).folder)
  }

  lemma {:induction false} UriNodesBelow(place: Placer, kind: SourceKind, d: Dict<SourceFile>, path: seq<string>,
      name: string)
    requires UrisPlaced(place, d, path, name)
    ensures forall k | k in UriNodes(d) :: k.SourceKey? && place(k.uri) == Place(path, name)
  {
    if d.Entry? { UriNodesBelow(place, kind, d.rest, path, name); }
  }

  lemma {:induction false} FileNodesBelow(place: Placer, kind: SourceKind, d: Dict<Dict<SourceFile>>, path: seq<string>)
    requires FilesPlaced(place, d, path)
    ensures forall k | k in FileNodes(d) :: k.SourceKey? && place(k.uri).folder == path && place(k.uri).name in Keys(d)
  {
    if d.Entry? {
      UriNodesBelow(place, kind, d.value, path, d.key);
      FileNodesBelow(place, kind, d.rest, path);
    }
  }

  lemma {:induction false} NodesBelow(place: Placer, kind: SourceKind, f: Folder, path: seq<string>)
    requires WellPlaced(place, f, path)
    ensures forall k | k in Nodes(f, kind, path) :: Below(place, kind, path, k)
    decreases f, 1
  {
    FolderNodesBelow(place, kind, f.folders, path);
    FileNodesBelow(place, kind, f.files, path);
    forall k | k in FolderNodes(f.folders, kind, path) ensures Below(place, kind, path, k) {
      var name :|
        name in Keys(f.folders) && (k == FolderKey(kind, path + [name]) || Below(place, kind, path + [name], k));
      assert path < path + [name];
    }
  }

  lemma {:induction false} FolderNodesBelow(place: Placer, kind: SourceKind, d: Dict<Folder>, path: seq<string>)
    requires FoldersPlaced(place, d, path)
    ensures forall k | k in FolderNodes(d, kind, path) ::
      exists name :: name in Keys(d) && (k == FolderKey(kind, path + [name]) || Below(place, kind, path + [name], k))
    decreases d, 0
  {
    if d.Entry? {
      NodesBelow(place, kind, d.value, path + [d.key]);
      FolderNodesBelow(place, kind, d.rest, path);
    }
  }
}
