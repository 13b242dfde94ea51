/** The folder trie behind the Sources section: how a snapshot is sorted into folders and
    files, and what the two counters of a folder mean. */
module SourceTrie {
  import opened Common
  import opened OrderedMap

  datatype SourceFile = SourceFile(snapshots: nat, revision: string)

  /** Rust owns these maps by value, so a folder is a value here: no two folders can share one. */
  datatype Folder = Folder(
    folders: Dict<Folder>,
    files: Dict<Dict<SourceFile>>,
    sourceCount: nat,
    snapshotCount: nat)

  const NOTHING := Folder(Empty, Empty, 0, 0)

  datatype SourceNode = SourceNode(uri: string, revision: string)

  /** Where a URI belongs: `SourceUri.PlaceOf` computes this from the parsed URI. */
  datatype Place = Place(folder: seq<string>, name: string)

  type Placer = string -> Place

  // ---- building the trie

  function Insert(f: Folder, path: seq<string>, name: string, source: SourceNode): Folder
    decreases path
  {
    if path == [] then
      var uris := GetOr(f.files, name, Empty);
      var file := GetOr(uris, source.uri, SourceFile(0, source.revision));
      f.(files := Put(f.files, name, Put(uris, source.uri, file.(snapshots := file.snapshots + 1))))
    else
      var child := GetOr(f.folders, path[0], NOTHING);
      f.(folders := Put(f.folders, path[0], Insert(child, path[1..], name, source)))
  }

  function Gather(place: Placer, sources: seq<SourceNode>): Folder {
    if sources == [] then NOTHING
    else
      var s := sources[|sources| - 1];
      Insert(Gather(place, sources[..|sources| - 1]), place(s.uri).folder, place(s.uri).name, s)
  }

  function UriCount(d: Dict<SourceFile>): nat {
    match d case Empty => 0 case Entry(_, _, rest) => 1 + UriCount(rest)
  }

  function FileCount(d: Dict<Dict<SourceFile>>): nat {
    match d case Empty => 0 case Entry(_, uris, rest) => UriCount(uris) + FileCount(rest)
  }

  function UriSnapshots(d: Dict<SourceFile>): nat {
    match d case Empty => 0 case Entry(_, file, rest) => file.snapshots + UriSnapshots(rest)
  }

  function FileSnapshots(d: Dict<Dict<SourceFile>>): nat {
    match d case Empty => 0 case Entry(_, uris, rest) => UriSnapshots(uris) + FileSnapshots(rest)
  }

  function SumSources(d: Dict<Folder>): nat {
    match d case Empty => 0 case Entry(_, f, rest) => f.sourceCount + SumSources(rest)
  }

  function SumSnapshots(d: Dict<Folder>): nat {
    match d case Empty => 0 case Entry(_, f, rest) => f.snapshotCount + SumSnapshots(rest)
  }

  /** `recalculate_metrics`: fills in both counters, children first. */
  function Recalculate(f: Folder): Folder {
    var folders := RecalculateAll(f.folders);
    Folder(folders, f.files, FileCount(f.files) + SumSources(folders), FileSnapshots(f.files) + SumSnapshots(folders))
  }

  function RecalculateAll(d: Dict<Folder>): Dict<Folder> {
    match d case Empty => Empty case Entry(k, f, rest) => Entry(k, Recalculate(f), RecalculateAll(rest))
  }

  function FromSnapshot(place: Placer, sources: seq<SourceNode>): Folder {
    Recalculate(Gather(place, sources))
  }

  /** The loop of `from_snapshot`. */
  method BuildFromSnapshot(place: Placer, sources: seq<SourceNode>) returns (root: Folder)
    ensures root == FromSnapshot(place, sources)
  {
    root := NOTHING;
    for i := 0 to |sources|
      invariant root == Gather(place, sources[..i])
    {
      assert sources[..i + 1][..i] == sources[..i];
      var s := sources[i];
      root := Insert(root, place(s.uri).folder, place(s.uri).name, s);
    }
    assert sources[..|sources|] == sources;
    root := Recalculate(root);
  }

  // ---- reading the trie

  function Sub(f: Folder, path: seq<string>): Option<Folder>
    decreases path
  {
    if path == [] then Some(f)
    else
      var child := Get(f.folders, path[0]);
      if child.None? then None else Sub(child.value, path[1..])
  }

  function FileAt(f: Folder, path: seq<string>, name: string, uri: string): Option<SourceFile> {
    var folder := Sub(f, path);
    if folder.None? then None else Get(GetOr(folder.value.files, name, Empty), uri)
  }

  /** Every uri stored in a folder belongs to that folder and that file name, and every map is
      in key order. */
  predicate WellPlaced(place: Placer, f: Folder, path: seq<string>) {
    && Sorted(f.folders) && Sorted(f.files)
    && FilesPlaced(place, f.files, path) && FoldersPlaced(place, f.folders, path)
  }

  predicate FoldersPlaced(place: Placer, d: Dict<Folder>, path: seq<string>) {
    d.Entry? ==> WellPlaced(place, d.value, path + [d.key]) && FoldersPlaced(place, d.rest, path)
  }

  predicate FilesPlaced(place: Placer, d: Dict<Dict<SourceFile>>, path: seq<string>) {
    d.Entry? ==>
      Sorted(d.value) && UrisPlaced(place, d.value, path, d.key) && FilesPlaced(place, d.rest, path)
  }

  predicate UrisPlaced(place: Placer, d: Dict<SourceFile>, path: seq<string>, name: string) {
    d.Entry? ==>
      place(d.key).folder == path && place(d.key).name == name && UrisPlaced(place, d.rest, path, name)
  }

  lemma {:induction false} FolderPlaced(place: Placer, d: Dict<Folder>, path: seq<string>, k: string)
    requires FoldersPlaced(place, d, path) && k in Keys(d)
    ensures WellPlaced(place, Get(d, k).value, path + [k])
  {
    if d.key != k { FolderPlaced(place, d.rest, path, k); }
  }

  lemma {:induction false} FilePlaced(place: Placer, d: Dict<Dict<SourceFile>>, path: seq<string>, k: string)
    requires FilesPlaced(place, d, path) && k in Keys(d)
    ensures Sorted(Get(d, k).value) && UrisPlaced(place, Get(d, k).value, path, k)
  {
    if d.key != k { FilePlaced(place, d.rest, path, k); }
  }

  lemma {:induction false} PutFolderPlaced(place: Placer, d: Dict<Folder>, path: seq<string>, k: string, f: Folder)
    requires FoldersPlaced(place, d, path) && WellPlaced(place, f, path + [k])
    ensures FoldersPlaced(place, Put(d, k, f), path)
  {
    if d.Entry? { PutFolderPlaced(place, d.rest, path, k, f); }
  }

  lemma {:induction false} PutFilePlaced(
    place: Placer, d: Dict<Dict<SourceFile>>, path: seq<string>, k: string, uris: Dict<SourceFile>)
    requires FilesPlaced(place, d, path) && Sorted(uris) && UrisPlaced(place, uris, path, k)
    ensures FilesPlaced(place, Put(d, k, uris), path)
  {
    if d.Entry? { PutFilePlaced(place, d.rest, path, k, uris); }
  }

  lemma {:induction false} PutUriPlaced(
    place: Placer, d: Dict<SourceFile>, path: seq<string>, name: string, uri: string, file: SourceFile)
    requires UrisPlaced(place, d, path, name) && place(uri).folder == path && place(uri).name == name
    ensures UrisPlaced(place, Put(d, uri, file), path, name)
  {
    if d.Entry? { PutUriPlaced(place, d.rest, path, name, uri, file); }
  }

  /** `here` is where `f` hangs, `path` the way that is still to go. */
  lemma {:induction false} InsertPlaced(
    place: Placer, f: Folder, here: seq<string>, path: seq<string>, source: SourceNode)
    requires WellPlaced(place, f, here) && here + path == place(source.uri).folder
    ensures WellPlaced(place, Insert(f, path, place(source.uri).name, source), here)
    decreases path
  {
    var name := place(source.uri).name;
    if path == [] {
      assert here + path == here;
      var uris := GetOr(f.files, name, Empty);
      if name in Keys(f.files) { FilePlaced(place, f.files, here, name); }
      var file := GetOr(uris, source.uri, SourceFile(0, source.revision));
      var file' := file.(snapshots := file.snapshots + 1);
      PutSorted(uris, source.uri, file');
      PutUriPlaced(place, uris, here, name, source.uri, file');
      PutSorted(f.files, name, Put(uris, source.uri, file'));
      PutFilePlaced(place, f.files, here, name, Put(uris, source.uri, file'));
    } else {
      var child := GetOr(f.folders, path[0], NOTHING);
      if path[0] in Keys(f.folders) { FolderPlaced(place, f.folders, here, path[0]); }
      assert (here + [path[0]]) + path[1..] == here + path;
      InsertPlaced(place, child, here + [path[0]], path[1..], source);
      var child' := Insert(child, path[1..], name, source);
      PutSorted(f.folders, path[0], child');
      PutFolderPlaced(place, f.folders, here, path[0], child');
    }
  }

  lemma {:induction false} GatherPlaced(place: Placer, sources: seq<SourceNode>)
    ensures WellPlaced(place, Gather(place, sources), [])
  {
    if sources != [] {
      var s := sources[|sources| - 1];
      GatherPlaced(place, sources[..|sources| - 1]);
      assert [] + place(s.uri).folder == place(s.uri).folder;
      InsertPlaced(place, Gather(place, sources[..|sources| - 1]), [], place(s.uri).folder, s);
    }
  }

  // ---- what one insertion changes

  lemma {:induction false} SubInsert(f: Folder, path: seq<string>, name: string, source: SourceNode, q: seq<string>)
    ensures Sub(Insert(f, path, name, source), q).Some? <==> Sub(f, q).Some? || q <= path
    decreases path
  {
    if path != [] && q != [] {
      var child := GetOr(f.folders, path[0], NOTHING);
      GetPut(f.folders, path[0], Insert(child, path[1..], name, source), q[0]);
      if q[0] == path[0] {
        SubInsert(child, path[1..], name, source, q[1..]);
        assert q <= path <==> q[1..] <= path[1..] by { assert q == [q[0]] + q[1..] && path == [path[0]] + path[1..]; }
        if Get(f.folders, path[0]).None? { SubNothing(q[1..]); }
      }
    }
  }

  lemma {:induction false} SubNothing(q: seq<string>)
    ensures q != [] ==> Sub(NOTHING, q).None?
  {
  }

  /** Inserting touches one file: a new one starts with the source's revision, an old one keeps
      its revision and gains a snapshot. */
  lemma {:induction false} FileAtInsert(
    f: Folder, path: seq<string>, name: string, source: SourceNode,
    q: seq<string>, name': string, uri: string)
    ensures
      var was := FileAt(f, q, name', uri);
      FileAt(Insert(f, path, name, source), q, name', uri) ==
      if q == path && name' == name && uri == source.uri then
        Some(if was.Some? then was.value.(snapshots := was.value.snapshots + 1) else SourceFile(1, source.revision))
      else was
    decreases path
  {
    if path == [] && q == [] {
      var uris := GetOr(f.files, name, Empty);
      var file := GetOr(uris, source.uri, SourceFile(0, source.revision));
      var file' := file.(snapshots := file.snapshots + 1);
      GetPut(f.files, name, Put(uris, source.uri, file'), name');
      GetPut(uris, source.uri, file', uri);
    } else if path != [] && q != [] {
      var child := GetOr(f.folders, path[0], NOTHING);
      GetPut(f.folders, path[0], Insert(child, path[1..], name, source), q[0]);
      if q[0] == path[0] {
        FileAtInsert(child, path[1..], name, source, q[1..], name', uri);
        assert q == path <==> q[1..] == path[1..] by { assert q == [q[0]] + q[1..] && path == [path[0]] + path[1..]; }
        if Get(f.folders, path[0]).None? { SubNothing(q[1..]); }
      }
    }
  }

  // ---- the trie holds exactly the snapshot

  function Occurrences(sources: seq<SourceNode>, uri: string): nat {
    if sources == [] then 0
    else Occurrences(sources[..|sources| - 1], uri) + if sources[|sources| - 1].uri == uri then 1 else 0
  }

  function FirstRevision(sources: seq<SourceNode>, uri: string): string {
    if sources == [] then ""
    else if Occurrences(sources[..|sources| - 1], uri) > 0 then FirstRevision(sources[..|sources| - 1], uri)
    else sources[|sources| - 1].revision
  }

  function Uris(sources: seq<SourceNode>): set<string> {
    if sources == [] then {} else Uris(sources[..|sources| - 1]) + {sources[|sources| - 1].uri}
  }

  lemma {:induction false} OccursIffListed(sources: seq<SourceNode>, uri: string)
    ensures Occurrences(sources, uri) > 0 <==> uri in Uris(sources)
  {
    if sources != [] {
      OccursIffListed(sources[..|sources| - 1], uri);
    }
  }

  /** Faithfulness: a URI is stored in the folder and under the name its components give, with
      its number of occurrences and its first revision, and nowhere else. */
  lemma {:induction false} GatherExact(place: Placer, sources: seq<SourceNode>, path: seq<string>, name: string,
      uri: string)
    ensures
      FileAt(Gather(place, sources), path, name, uri) ==
      if Occurrences(sources, uri) > 0 && path == place(uri).folder && name == place(uri).name then
        Some(SourceFile(Occurrences(sources, uri), FirstRevision(sources, uri)))
      else None
  {
    if sources != [] {
      var front, s := sources[..|sources| - 1], sources[|sources| - 1];
      GatherExact(place, front, path, name, uri);
      FileAtInsert(Gather(place, front), place(s.uri).folder, place(s.uri).name, s, path, name, uri);
    } else {
      SubNothing(path);
    }
  }

  /** Some uri of the snapshot belongs below folder `q`. */
  ghost predicate Inhabited(place: Placer, sources: seq<SourceNode>, q: seq<string>) {
    exists u :: u in Uris(sources) && q <= place(u).folder
  }

  /** A folder exists exactly where some URI needs it. */
  lemma {:induction false} GatherFolders(place: Placer, sources: seq<SourceNode>, q: seq<string>)
    ensures Sub(Gather(place, sources), q).Some? <==> q == [] || Inhabited(place, sources, q)
  {
    if sources != [] {
      var front, s := sources[..|sources| - 1], sources[|sources| - 1];
      GatherFolders(place, front, q);
      SubInsert(Gather(place, front), place(s.uri).folder, place(s.uri).name, s, q);
      assert s.uri in Uris(sources);
    } else {
      SubNothing(q);
    }
  }
}
