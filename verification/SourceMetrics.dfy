/** What the finished trie stores and what its two counters mean. */
module SourceMetrics {
  import opened Common
  import opened OrderedMap
  import opened SourceTrie

  /** The number of files in the trie, and of their snapshots, whatever the counters say. */
  function SourcesIn(f: Folder): nat { FileCount(f.files) + SourcesInAll(f.folders) }

  function SourcesInAll(d: Dict<Folder>): nat {
    match d case Empty => 0 case Entry(_, f, rest) => SourcesIn(f) + SourcesInAll(rest)
  }

  function SnapshotsIn(f: Folder): nat { FileSnapshots(f.files) + SnapshotsInAll(f.folders) }

  function SnapshotsInAll(d: Dict<Folder>): nat {
    match d case Empty => 0 case Entry(_, f, rest) => SnapshotsIn(f) + SnapshotsInAll(rest)
  }

  lemma {:induction false} RecalculateCounts(f: Folder)
    ensures Recalculate(f).sourceCount == SourcesIn(f)
    ensures Recalculate(f).snapshotCount == SnapshotsIn(f)
    decreases f, 1
  {
    MetricsCount(f.folders);
  }

  lemma {:induction false} MetricsCount(d: Dict<Folder>)
    ensures SumSources(RecalculateAll(d)) == SourcesInAll(d)
    ensures SumSnapshots(RecalculateAll(d)) == SnapshotsInAll(d)
    decreases d, 0
  {
    if d.Entry? {
      RecalculateCounts(d.value);
      MetricsCount(d.rest);
    }
  }

  lemma {:induction false} GetRecalculated(d: Dict<Folder>, k: string)
    ensures Get(RecalculateAll(d), k) == if k in Keys(d) then Some(Recalculate(Get(d, k).value)) else None
  {
    if d.Entry? && d.key != k { GetRecalculated(d.rest, k); }
  }

  lemma {:induction false} SubRecalculated(f: Folder, q: seq<string>)
    ensures Sub(Recalculate(f), q) == if Sub(f, q).Some? then Some(Recalculate(Sub(f, q).value)) else None
    decreases q
  {
    if q != [] {
      GetRecalculated(f.folders, q[0]);
      if Get(f.folders, q[0]).Some? { SubRecalculated(Get(f.folders, q[0]).value, q[1..]); }
    }
  }

  lemma {:induction false} PutUri(d: Dict<SourceFile>, k: string, file: SourceFile, was: SourceFile)
    requires Sorted(d) && (k in Keys(d) ==> was == Get(d, k).value) && (k !in Keys(d) ==> was.snapshots == 0)
    ensures UriCount(Put(d, k, file)) == UriCount(d) + if k in Keys(d) then 0 else 1
    ensures UriSnapshots(Put(d, k, file)) + was.snapshots == UriSnapshots(d) + file.snapshots
  {
    if d.Entry? {
      if d.key == k || Less(k, d.key) { NotLater(d, k); } else { PutUri(d.rest, k, file, was); }
    }
  }

  lemma {:induction false} PutFile(d: Dict<Dict<SourceFile>>, k: string, uris: Dict<SourceFile>, was: Dict<SourceFile>)
    requires Sorted(d) && was == GetOr(d, k, Empty)
    ensures FileCount(Put(d, k, uris)) + UriCount(was) == FileCount(d) + UriCount(uris)
    ensures FileSnapshots(Put(d, k, uris)) + UriSnapshots(was) == FileSnapshots(d) + UriSnapshots(uris)
  {
    if d.Entry? {
      if d.key == k || Less(k, d.key) { NotLater(d, k); } else { PutFile(d.rest, k, uris, was); }
    }
  }

  lemma {:induction false} PutFolder(d: Dict<Folder>, k: string, f: Folder)
    requires Sorted(d) && k in Keys(d)
    ensures SourcesInAll(Put(d, k, f)) + SourcesIn(Get(d, k).value) == SourcesInAll(d) + SourcesIn(f)
    ensures SnapshotsInAll(Put(d, k, f)) + SnapshotsIn(Get(d, k).value) == SnapshotsInAll(d) + SnapshotsIn(f)
  {
    if Less(k, d.key) { NotLater(d, k); }
    if d.key != k { PutFolder(d.rest, k, f); }
  }

  lemma {:induction false} PutNewFolder(d: Dict<Folder>, k: string, f: Folder)
    requires k !in Keys(d)
    ensures SourcesInAll(Put(d, k, f)) == SourcesInAll(d) + SourcesIn(f)
    ensures SnapshotsInAll(Put(d, k, f)) == SnapshotsInAll(d) + SnapshotsIn(f)
  {
    if d.Entry? && !Less(k, d.key) { PutNewFolder(d.rest, k, f); }
  }

  function SourcesAt(f: Folder, q: seq<string>): nat {
    if Sub(f, q).Some? then SourcesIn(Sub(f, q).value) else 0
  }

  function SnapshotsAt(f: Folder, q: seq<string>): nat {
    if Sub(f, q).Some? then SnapshotsIn(Sub(f, q).value) else 0
  }

  lemma NothingCounts(q: seq<string>)
    ensures SourcesAt(NOTHING, q) == 0 && SnapshotsAt(NOTHING, q) == 0
  {
    if q == [] {} else {}
  }

  /** One if the uri has no file yet, else none. */
  function NewSource(f: Folder, path: seq<string>, name: string, uri: string): nat {
    if FileAt(f, path, name, uri).None? then 1 else 0
  }

  lemma {:induction false} NewSourceBelow(f: Folder, path: seq<string>, name: string, uri: string)
    requires path != []
    ensures NewSource(f, path, name, uri) == NewSource(GetOr(f.folders, path[0], NOTHING), path[1..], name, uri)
  {
    SubNothing(path[1..]);
  }

  lemma {:induction false} CountsInsertFile(place: Placer, f: Folder, here: seq<string>, name: string,
      source: SourceNode)
    requires WellPlaced(place, f, here)
    ensures SourcesIn(Insert(f, [], name, source)) == SourcesIn(f) + NewSource(f, [], name, source.uri)
    ensures SnapshotsIn(Insert(f, [], name, source)) == SnapshotsIn(f) + 1
  {
    var uris := GetOr(f.files, name, Empty);
    if name in Keys(f.files) { FilePlaced(place, f.files, here, name); }
    var file := GetOr(uris, source.uri, SourceFile(0, source.revision));
    var file' := file.(snapshots := file.snapshots + 1);
    PutUri(uris, source.uri, file', file);
    PutFile(f.files, name, Put(uris, source.uri, file'), uris);
    assert Insert(f, [], name, source) == f.(files := Put(f.files, name, Put(uris, source.uri, file')));
  }

  /** The branch that an insertion grows where there was nothing. */
  lemma {:induction false} CountsOfBranch(path: seq<string>, name: string, source: SourceNode)
    ensures SourcesIn(Insert(NOTHING, path, name, source)) == 1
    ensures SnapshotsIn(Insert(NOTHING, path, name, source)) == 1
    decreases path
  {
    if path == [] {
      var uris := Entry(source.uri, SourceFile(1, source.revision), Empty);
      assert Insert(NOTHING, path, name, source) == Folder(Empty, Entry(name, uris, Empty), 0, 0);
      assert UriCount(uris) == 1 && UriSnapshots(uris) == 1;
    } else {
      CountsOfBranch(path[1..], name, source);
      var folders := Entry(path[0], Insert(NOTHING, path[1..], name, source), Empty);
      assert Insert(NOTHING, path, name, source) == Folder(folders, Empty, 0, 0);
      assert SourcesInAll(folders) == 1 && SnapshotsInAll(folders) == 1;
    }
  }

  lemma {:induction false} CountsInsertHere(
    place: Placer, f: Folder, here: seq<string>, path: seq<string>, name: string, source: SourceNode)
    requires WellPlaced(place, f, here)
    ensures SourcesIn(Insert(f, path, name, source)) == SourcesIn(f) + NewSource(f, path, name, source.uri)
    ensures SnapshotsIn(Insert(f, path, name, source)) == SnapshotsIn(f) + 1
    decreases path
  {
    if path == [] {
      CountsInsertFile(place, f, here, name, source);
    } else if path[0] in Keys(f.folders) {
      var child := Get(f.folders, path[0]).value;
      FolderPlaced(place, f.folders, here, path[0]);
      CountsInsertHere(place, child, here + [path[0]], path[1..], name, source);
      PutFolder(f.folders, path[0], Insert(child, path[1..], name, source));
    } else {
      CountsOfBranch(path[1..], name, source);
      PutNewFolder(f.folders, path[0], Insert(NOTHING, path[1..], name, source));
    }
  }

  /** An insertion adds one snapshot, and a new uri one source, to every folder on its way. */
  lemma {:induction false} CountsInsert(
    place: Placer, f: Folder, here: seq<string>, path: seq<string>, name: string, source: SourceNode, q: seq<string>)
    requires WellPlaced(place, f, here)
    ensures SourcesAt(Insert(f, path, name, source), q)
      == SourcesAt(f, q) + if q <= path then NewSource(f, path, name, source.uri) else 0
    ensures SnapshotsAt(Insert(f, path, name, source), q) == SnapshotsAt(f, q) + if q <= path then 1 else 0
    decreases path
  {
    if q == [] {
      CountsInsertHere(place, f, here, path, name, source);
    } else if path != [] {
      var child := GetOr(f.folders, path[0], NOTHING);
      GetPut(f.folders, path[0], Insert(child, path[1..], name, source), q[0]);
      assert q <= path <==> q[0] == path[0] && q[1..] <= path[1..] by {
        assert q == [q[0]] + q[1..] && path == [path[0]] + path[1..];
      }
      if q[0] == path[0] {
        if path[0] in Keys(f.folders) { FolderPlaced(place, f.folders, here, path[0]); }
        CountsInsert(place, child, here + [path[0]], path[1..], name, source, q[1..]);
        NewSourceBelow(f, path, name, source.uri);
        CountsBelow(f, q);
        CountsBelow(Insert(f, path, name, source), q);
      }
    }
  }

  lemma {:induction false} CountsBelow(f: Folder, q: seq<string>)
    requires q != []
    ensures SourcesAt(f, q) == SourcesAt(GetOr(f.folders, q[0], NOTHING), q[1..])
    ensures SnapshotsAt(f, q) == SnapshotsAt(GetOr(f.folders, q[0], NOTHING), q[1..])
  {
    SubNothing(q[1..]);
  }

  function UrisBelow(place: Placer, sources: seq<SourceNode>, q: seq<string>): set<string> {
    set u | u in Uris(sources) && q <= place(u).folder
  }

  function SnapshotsBelow(place: Placer, sources: seq<SourceNode>, q: seq<string>): nat {
    if sources == [] then 0
    else
      SnapshotsBelow(place, sources[..|sources| - 1], q)
      + if q <= place(sources[|sources| - 1].uri).folder then 1 else 0
  }

  lemma {:induction false} UrisBelowSnoc(place: Placer, front: seq<SourceNode>, s: SourceNode, q: seq<string>)
    ensures |UrisBelow(place, front + [s], q)| == |UrisBelow(place, front, q)|
      + if q <= place(s.uri).folder && s.uri !in Uris(front) then 1 else 0
  {
    assert (front + [s])[..|front|] == front;
    var was := UrisBelow(place, front, q);
    if q <= place(s.uri).folder {
      assert UrisBelow(place, front + [s], q) == was + {s.uri};
      assert s.uri in Uris(front) ==> was + {s.uri} == was;
    } else {
      assert UrisBelow(place, front + [s], q) == was;
    }
  }

  lemma {:induction false} GatherCountsStep(place: Placer, front: seq<SourceNode>, s: SourceNode, q: seq<string>)
    ensures var f, f' := Gather(place, front), Gather(place, front + [s]);
      var below := q <= place(s.uri).folder;
      && SourcesAt(f', q) == SourcesAt(f, q) + (if below && s.uri !in Uris(front) then 1 else 0)
      && SnapshotsAt(f', q) == SnapshotsAt(f, q) + (if below then 1 else 0)
  {
    assert (front + [s])[..|front|] == front;
    var path, name := place(s.uri).folder, place(s.uri).name;
    GatherPlaced(place, front);
    CountsInsert(place, Gather(place, front), [], path, name, s, q);
    GatherExact(place, front, path, name, s.uri);
    OccursIffListed(front, s.uri);
  }

  lemma {:induction false} GatherCounts(place: Placer, sources: seq<SourceNode>, q: seq<string>)
    ensures SourcesAt(Gather(place, sources), q) == |UrisBelow(place, sources, q)|
    ensures SnapshotsAt(Gather(place, sources), q) == SnapshotsBelow(place, sources, q)
  {
    if sources == [] {
      NothingCounts(q);
      assert UrisBelow(place, sources, q) == {};
    } else {
      var front, s := sources[..|sources| - 1], sources[|sources| - 1];
      assert front + [s] == sources;
      GatherCounts(place, front, q);
      GatherCountsStep(place, front, s, q);
      UrisBelowSnoc(place, front, s, q);
    }
  }

  /** Folders exist exactly on the way to some uri. */
  lemma {:induction false} FoldersExact(place: Placer, sources: seq<SourceNode>, q: seq<string>)
    ensures Sub(FromSnapshot(place, sources), q).Some? <==> q == [] || Inhabited(place, sources, q)
  {
    SubRecalculated(Gather(place, sources), q);
    GatherFolders(place, sources, q);
  }

  /** Conservation: every folder counts the distinct uris below it and all their snapshots. */
  lemma {:induction false} CountersExact(place: Placer, sources: seq<SourceNode>, q: seq<string>)
    requires q == [] || Inhabited(place, sources, q)
    ensures var folder := Sub(FromSnapshot(place, sources), q);
      && folder.Some?
      && folder.value.sourceCount == |UrisBelow(place, sources, q)|
      && folder.value.snapshotCount == SnapshotsBelow(place, sources, q)
  {
    var f := Gather(place, sources);
    FoldersExact(place, sources, q);
    SubRecalculated(f, q);
    GatherCounts(place, sources, q);
    RecalculateCounts(Sub(f, q).value);
  }

  /** At the root the counters are the totals of the snapshot. */
  lemma {:induction false} RootTotals(place: Placer, sources: seq<SourceNode>)
    ensures FromSnapshot(place, sources).sourceCount == |Uris(sources)|
    ensures FromSnapshot(place, sources).snapshotCount == |sources|
  {
    CountersExact(place, sources, []);
    EverySnapshotIsBelowTheRoot(place, sources);
    assert UrisBelow(place, sources, []) == Uris(sources);
  }

  lemma {:induction false} EverySnapshotIsBelowTheRoot(place: Placer, sources: seq<SourceNode>)
    ensures SnapshotsBelow(place, sources, []) == |sources|
  {
    if sources != [] { EverySnapshotIsBelowTheRoot(place, sources[..|sources| - 1]); }
  }

  /** Faithfulness of the finished trie: a uri sits in the folder and under the name its
      components give, with its occurrences and its first revision, and nowhere else. */
  lemma {:induction false} TrieFaithful(
    place: Placer, sources: seq<SourceNode>, path: seq<string>, name: string, uri: string)
    ensures
      FileAt(FromSnapshot(place, sources), path, name, uri) ==
      if Occurrences(sources, uri) > 0 && path == place(uri).folder && name == place(uri).name then
        Some(SourceFile(Occurrences(sources, uri), FirstRevision(sources, uri)))
      else None
  {
    SubRecalculated(Gather(place, sources), path);
    GatherExact(place, sources, path, name, uri);
  }

  lemma {:induction false} RecalculatePlaced(place: Placer, f: Folder, path: seq<string>)
    requires WellPlaced(place, f, path)
    ensures WellPlaced(place, Recalculate(f), path)
    decreases f, 1
  {
    RecalculateAllPlaced(place, f.folders, path);
  }

  lemma {:induction false} RecalculateAllPlaced(place: Placer, d: Dict<Folder>, path: seq<string>)
    requires Sorted(d) && FoldersPlaced(place, d, path)
    ensures Sorted(RecalculateAll(d)) && FoldersPlaced(place, RecalculateAll(d), path)
    decreases d, 0
  {
    if d.Entry? {
      RecalculatePlaced(place, d.value, path + [d.key]);
      RecalculateAllPlaced(place, d.rest, path);
    }
  }

  lemma {:induction false} SnapshotPlaced(place: Placer, sources: seq<SourceNode>)
    ensures WellPlaced(place, FromSnapshot(place, sources), [])
  {
    GatherPlaced(place, sources);
    RecalculatePlaced(place, Gather(place, sources), []);
  }
}
