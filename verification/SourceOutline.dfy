/** Main results about the Sources outline: which rows it has for a given snapshot, that none is
    repeated, and what collapsing one folder removes. */
module SourceOutline {
  import opened Common
  import opened OrderedMap
  import opened SourceTrie
  import opened SourceMetrics
  import opened Outline
  import opened SourceRows
  import opened SourcePreorder

  // ---- the nodes of a well placed trie

  lemma {:induction false} UriNodesExact(d: Dict<SourceFile>)
    ensures forall k: Key :: k in UriNodes(d) <==> k.SourceKey? && k.uri in Keys(d)
    ensures Sorted(d) ==> Distinct(UriNodes(d))
  {
    if d.Entry? {
      UriNodesExact(d.rest);
      if Sorted(d) {
        if d.key in Keys(d.rest) { HeadIsLeast(d, d.key); }
        DistinctConcat([SourceKey(d.key)], UriNodes(d.rest));
      }
    }
  }

  ghost predicate Stored(place: Placer, d: Dict<Dict<SourceFile>>, uri: string) {
    Get(GetOr(d, place(uri).name, Empty), uri).Some?
  }

  lemma {:induction false} FileNodesExact(place: Placer, kind: SourceKind, d: Dict<Dict<SourceFile>>, path: seq<string>)
    requires FilesPlaced(place, d, path) && Sorted(d)
    ensures forall k: Key :: k in FileNodes(d) <==> k.SourceKey? && Stored(place, d, k.uri)
    ensures Distinct(FileNodes(d))
  {
    if d.Entry? {
      UriNodesExact(d.value);
      UriNodesBelow(place, kind, d.value, path, d.key);
      FileNodesExact(place, kind, d.rest, path);
      FileNodesBelow(place, kind, d.rest, path);
      if d.key in Keys(d.rest) { HeadIsLeast(d, d.key); }
      forall k: Key | k.SourceKey? ensures k in FileNodes(d) <==> Stored(place, d, k.uri) {
        if place(k.uri).name == d.key { assert k !in FileNodes(d.rest); } else { assert k !in UriNodes(d.value); }
      }
      DistinctConcat(UriNodes(d.value), FileNodes(d.rest));
    }
  }

  /** The folder one level down that a node below `path` belongs to. */
  ghost function Step(place: Placer, path: seq<string>, k: Key): seq<string> {
    var whole := if k.FolderKey? then k.path else if k.SourceKey? then place(k.uri).folder else [];
    if |whole| > |path| then [whole[|path|]] else []
  }

  lemma {:induction false} BelowStep(place: Placer, kind: SourceKind, path: seq<string>, name: string, k: Key)
    requires k == FolderKey(kind, path + [name]) || Below(place, kind, path + [name], k)
    ensures Step(place, path, k) == [name] && Below(place, kind, path, k)
  {
    assert path < path + [name];
  }

  lemma {:induction false} FolderNodesStep(place: Placer, kind: SourceKind, d: Dict<Folder>, path: seq<string>)
    requires FoldersPlaced(place, d, path)
    ensures forall k | k in FolderNodes(d, kind, path) ::
      && Step(place, path, k) != [] && Step(place, path, k)[0] in Keys(d) && Below(place, kind, path, k)
  {
    FolderNodesBelow(place, kind, d, path);
    forall k | k in FolderNodes(d, kind, path)
      ensures Step(place, path, k) != [] && Step(place, path, k)[0] in Keys(d) && Below(place, kind, path, k)
    {
      var name :| name in Keys(d) && (k == FolderKey(kind, path + [name]) || Below(place, kind, path + [name], k));
      BelowStep(place, kind, path, name, k);
    }
  }

  lemma {:induction false} NodesDistinct(place: Placer, kind: SourceKind, f: Folder, path: seq<string>)
    requires WellPlaced(place, f, path)
    ensures Distinct(Nodes(f, kind, path))
    decreases f, 1
  {
    FolderNodesDistinct(place, kind, f.folders, path);
    FolderNodesStep(place, kind, f.folders, path);
    FileNodesExact(place, kind, f.files, path);
    FileNodesBelow(place, kind, f.files, path);
    DistinctConcat(FolderNodes(f.folders, kind, path), FileNodes(f.files));
  }

  lemma {:induction false} FolderNodesDistinct(place: Placer, kind: SourceKind, d: Dict<Folder>, path: seq<string>)
    requires FoldersPlaced(place, d, path) && Sorted(d)
    ensures Distinct(FolderNodes(d, kind, path))
    decreases d, 0
  {
    if d.Entry? {
      var here := path + [d.key];
      var entry := [FolderKey(kind, here)] + Nodes(d.value, kind, here);
      NodesDistinct(place, kind, d.value, here);
      NodesBelow(place, kind, d.value, here);
      DistinctConcat([FolderKey(kind, here)], Nodes(d.value, kind, here));
      FolderNodesDistinct(place, kind, d.rest, path);
      FolderNodesStep(place, kind, d.rest, path);
      if d.key in Keys(d.rest) { HeadIsLeast(d, d.key); }
      forall k | k in entry ensures k !in FolderNodes(d.rest, kind, path) {
        BelowStep(place, kind, path, d.key, k);
      }
      DistinctConcat(entry, FolderNodes(d.rest, kind, path));
    }
  }

  ghost predicate Apart(place: Placer, kind: SourceKind, p: seq<string>, k: Key) {
    k != FolderKey(kind, p) && !Below(place, kind, p, k)
  }

  /** `nodes` lists what comes before folder `p`, the folder, what is below it, what comes after. */
  ghost predicate Splits(
    place: Placer, kind: SourceKind, nodes: seq<Key>, p: seq<string>, a: seq<Key>, u: seq<Key>, b: seq<Key>)
  {
    && nodes == a + [FolderKey(kind, p)] + u + b
    && (forall k | k in u :: Below(place, kind, p, k))
    && (forall k | k in a :: Apart(place, kind, p, k))
    && (forall k | k in b :: Apart(place, kind, p, k))
  }

  lemma {:induction false} SplitsWithin(
    place: Placer, kind: SourceKind, x: seq<Key>, nodes: seq<Key>, y: seq<Key>,
    p: seq<string>, a: seq<Key>, u: seq<Key>, b: seq<Key>)
    requires Splits(place, kind, nodes, p, a, u, b)
    requires forall k | k in x :: Apart(place, kind, p, k)
    requires forall k | k in y :: Apart(place, kind, p, k)
    ensures Splits(place, kind, x + nodes + y, p, x + a, u, b + y)
  {
    assert x + nodes + y == (x + a) + [FolderKey(kind, p)] + u + (b + y);
  }

  lemma {:induction false} StepApart(place: Placer, kind: SourceKind, path: seq<string>, q: seq<string>, k: Key)
    requires q != [] && Step(place, path, k) != [q[0]]
    ensures Apart(place, kind, path + q, k)
  {
    assert (path + q)[|path|] == q[0];
  }

  lemma {:induction false} RestApart(place: Placer, kind: SourceKind, d: Dict<Folder>, path: seq<string>,
      q: seq<string>)
    requires d.Entry? && FoldersPlaced(place, d, path) && Sorted(d) && q != [] && d.key == q[0]
    ensures forall k | k in FolderNodes(d.rest, kind, path) :: Apart(place, kind, path + q, k)
  {
    if d.key in Keys(d.rest) { HeadIsLeast(d, d.key); }
    FolderNodesStep(place, kind, d.rest, path);
    forall k | k in FolderNodes(d.rest, kind, path) ensures Apart(place, kind, path + q, k) {
      StepApart(place, kind, path, q, k);
    }
  }

  lemma {:induction false} EntryApart(place: Placer, kind: SourceKind, d: Dict<Folder>, path: seq<string>,
      q: seq<string>)
    requires d.Entry? && FoldersPlaced(place, d, path) && q != [] && d.key != q[0]
    ensures forall k | k in EntryNodes(d, kind, path) :: Apart(place, kind, path + q, k)
  {
    NodesBelow(place, kind, d.value, path + [d.key]);
    forall k | k in EntryNodes(d, kind, path) ensures Apart(place, kind, path + q, k) {
      BelowStep(place, kind, path, d.key, k);
      StepApart(place, kind, path, q, k);
    }
  }

  function EntryNodes(d: Dict<Folder>, kind: SourceKind, path: seq<string>): seq<Key>
    requires d.Entry?
  {
    [FolderKey(kind, path + [d.key])] + Nodes(d.value, kind, path + [d.key])
  }

  /** The preorder list around folder `path + q`. */
  lemma {:induction false} Around(place: Placer, kind: SourceKind, f: Folder, path: seq<string>, q: seq<string>)
      returns (a: seq<Key>, u: seq<Key>, b: seq<Key>)
    requires WellPlaced(place, f, path) && q != [] && Sub(f, q).Some?
    ensures Splits(place, kind, Nodes(f, kind, path), path + q, a, u, b)
    decreases f, 1
  {
    var nodes := FolderNodes(f.folders, kind, path);
    var a', u', b' := AroundIn(place, kind, f.folders, path, q);
    FileNodesBelow(place, kind, f.files, path);
    SplitsWithin(place, kind, [], nodes, FileNodes(f.files), path + q, a', u', b');
    assert [] + nodes == nodes;
    a, u, b := [] + a', u', b' + FileNodes(f.files);
  }

  lemma {:induction false} AroundIn(place: Placer, kind: SourceKind, d: Dict<Folder>, path: seq<string>, q: seq<string>)
      returns (a: seq<Key>, u: seq<Key>, b: seq<Key>)
    requires FoldersPlaced(place, d, path) && Sorted(d) && q != []
    requires Get(d, q[0]).Some? && Sub(Get(d, q[0]).value, q[1..]).Some?
    ensures Splits(place, kind, FolderNodes(d, kind, path), path + q, a, u, b)
    decreases d, 0
  {
    var here, rest := path + [d.key], FolderNodes(d.rest, kind, path);
    var nodes := Nodes(d.value, kind, here);
    if d.key != q[0] {
      var a', u', b' := AroundIn(place, kind, d.rest, path, q);
      EntryApart(place, kind, d, path, q);
      SplitsWithin(place, kind, EntryNodes(d, kind, path), rest, [], path + q, a', u', b');
      a, u, b := EntryNodes(d, kind, path) + a', u', b' + [];
    } else {
      RestApart(place, kind, d, path, q);
      if |q| == 1 {
        assert path + q == here;
        NodesBelow(place, kind, d.value, here);
        a, u, b := [], nodes, rest;
      } else {
        assert path + q == here + q[1..] && here < path + q;
        var a', u', b' := Around(place, kind, d.value, here, q[1..]);
        SplitsWithin(place, kind, [FolderKey(kind, here)], nodes, rest, path + q, a', u', b');
        a, u, b := [FolderKey(kind, here)] + a', u', b' + rest;
      }
    }
  }

  // ---- rows of a snapshot

  /** Keys of the nodes a snapshot has: its uris, and every folder on the way to one. */
  ghost predicate InSnapshot(place: Placer, sources: seq<SourceNode>, kind: SourceKind, key: Key) {
    || (key.SourceKey? && key.uri in Uris(sources))
    || (key.FolderKey? && key.kind == kind && key.path != [] && Inhabited(place, sources, key.path))
  }

  lemma {:induction false} FolderNodesExact(place: Placer, kind: SourceKind, f: Folder, path: seq<string>,
      q: seq<string>)
    requires WellPlaced(place, f, path) && q != []
    ensures FolderKey(kind, path + q) in Nodes(f, kind, path) <==> Sub(f, q).Some?
    decreases f, 1
  {
    FileNodesBelow(place, kind, f.files, path);
    FolderNodesExactIn(place, kind, f.folders, path, q);
  }

  lemma {:induction false} FolderNodesExactIn(place: Placer, kind: SourceKind, d: Dict<Folder>, path: seq<string>,
      q: seq<string>)
    requires FoldersPlaced(place, d, path) && Sorted(d) && q != []
    ensures FolderKey(kind, path + q) in FolderNodes(d, kind, path)
      <==> Get(d, q[0]).Some? && Sub(Get(d, q[0]).value, q[1..]).Some?
    decreases d, 0
  {
    if d.Entry? {
      var here := path + [d.key];
      if d.key == q[0] {
        RestApart(place, kind, d, path, q);
        NodesBelow(place, kind, d.value, here);
        if |q| == 1 {
          assert path + q == here;
        } else {
          assert path + q == here + q[1..] && path + q != here;
          FolderNodesExact(place, kind, d.value, here, q[1..]);
        }
      } else {
        EntryApart(place, kind, d, path, q);
        FolderNodesExactIn(place, kind, d.rest, path, q);
        assert FolderKey(kind, path + q) !in EntryNodes(d, kind, path);
      }
    }
  }

  lemma {:induction false} SourceNodesExact(place: Placer, kind: SourceKind, f: Folder, path: seq<string>, uri: string)
    requires WellPlaced(place, f, path) && path <= place(uri).folder
    ensures SourceKey(uri) in Nodes(f, kind, path)
      <==> FileAt(f, place(uri).folder[|path|..], place(uri).name, uri).Some?
    decreases f, 1
  {
    FileNodesExact(place, kind, f.files, path);
    FileNodesBelow(place, kind, f.files, path);
    FolderNodesStep(place, kind, f.folders, path);
    if place(uri).folder != path { SourceNodesExactIn(place, kind, f.folders, path, uri); }
  }

  lemma {:induction false} SourceNodesExactIn(place: Placer, kind: SourceKind, d: Dict<Folder>, path: seq<string>,
      uri: string)
    requires FoldersPlaced(place, d, path) && Sorted(d) && path < place(uri).folder
    ensures SourceKey(uri) in FolderNodes(d, kind, path) <==>
      var q := place(uri).folder[|path|..];
      Get(d, q[0]).Some? && FileAt(Get(d, q[0]).value, q[1..], place(uri).name, uri).Some?
    decreases d, 0
  {
    if d.Entry? {
      var here, q := path + [d.key], place(uri).folder[|path|..];
      NodesBelow(place, kind, d.value, here);
      FolderNodesStep(place, kind, d.rest, path);
      if d.key == q[0] {
        if d.key in Keys(d.rest) { HeadIsLeast(d, d.key); }
        assert here <= place(uri).folder && place(uri).folder[|here|..] == q[1..];
        SourceNodesExact(place, kind, d.value, here, uri);
      } else {
        SourceNodesExactIn(place, kind, d.rest, path, uri);
      }
    }
  }

  lemma {:induction false} SnapshotFolders(place: Placer, sources: seq<SourceNode>, kind: SourceKind, q: seq<string>)
    requires q != []
    ensures FolderKey(kind, q) in Nodes(FromSnapshot(place, sources), kind, []) <==> Inhabited(place, sources, q)
  {
    SnapshotPlaced(place, sources);
    FolderNodesExact(place, kind, FromSnapshot(place, sources), [], q);
    FoldersExact(place, sources, q);
    assert [] + q == q;
  }

  lemma {:induction false} SnapshotSources(place: Placer, sources: seq<SourceNode>, kind: SourceKind, uri: string)
    ensures SourceKey(uri) in Nodes(FromSnapshot(place, sources), kind, []) <==> uri in Uris(sources)
  {
    SnapshotPlaced(place, sources);
    SourceNodesExact(place, kind, FromSnapshot(place, sources), [], uri);
    TrieFaithful(place, sources, place(uri).folder, place(uri).name, uri);
    OccursIffListed(sources, uri);
    assert place(uri).folder[0..] == place(uri).folder;
  }

  lemma {:induction false} SnapshotNodes(place: Placer, sources: seq<SourceNode>, kind: SourceKind, key: Key)
    ensures key in Nodes(FromSnapshot(place, sources), kind, []) <==> InSnapshot(place, sources, kind, key)
  {
    SnapshotPlaced(place, sources);
    NodesBelow(place, kind, FromSnapshot(place, sources), []);
    if key.FolderKey? && key.kind == kind && key.path != [] {
      SnapshotFolders(place, sources, kind, key.path);
    } else if key.SourceKey? {
      SnapshotSources(place, sources, kind, key.uri);
    }
  }

  // ---- main results

  /** The rows of the Sources section for a snapshot, as `set_sources` and
      `rebuild_source_rows` produce them. */
  function SnapshotRows(place: Placer, sources: seq<SourceNode>, expanded: set<Key>, kind: SourceKind): seq<Row> {
    Rows(FromSnapshot(place, sources), expanded, kind, [], 0)
  }

  lemma {:induction false} ShowOneKeys(place: Placer, kind: SourceKind, expanded: set<Key>, node: Key)
    ensures RowKeys(ShowOne(place, kind, expanded, node)) == if Visible(place, kind, expanded, node) then [node] else []
  {
  }

  lemma {:induction false} ShowExact(place: Placer, kind: SourceKind, expanded: set<Key>, nodes: seq<Key>)
    ensures forall k ::
      k in RowKeys(Show(place, kind, expanded, nodes)) <==> k in nodes && Visible(place, kind, expanded, k)
  {
    if nodes != [] {
      ShowExact(place, kind, expanded, nodes[1..]);
      ShowOneKeys(place, kind, expanded, nodes[0]);
      RowKeysConcat(ShowOne(place, kind, expanded, nodes[0]), Show(place, kind, expanded, nodes[1..]));
    }
  }

  lemma {:induction false} ShowDistinct(place: Placer, kind: SourceKind, expanded: set<Key>, nodes: seq<Key>)
    requires Distinct(nodes)
    ensures Distinct(RowKeys(Show(place, kind, expanded, nodes)))
  {
    if nodes != [] {
      var one, rest := ShowOne(place, kind, expanded, nodes[0]), Show(place, kind, expanded, nodes[1..]);
      ShowDistinct(place, kind, expanded, nodes[1..]);
      ShowOneKeys(place, kind, expanded, nodes[0]);
      ShowExact(place, kind, expanded, nodes[1..]);
      assert nodes[0] !in nodes[1..];
      RowKeysJoin(one, rest);
    }
  }

  /** A node of the snapshot has a row exactly when all folders above it are expanded; no node has
      two rows, and there are no other rows. */
  lemma {:induction false} RowsExact(place: Placer, sources: seq<SourceNode>, expanded: set<Key>, kind: SourceKind)
    ensures var keys := RowKeys(SnapshotRows(place, sources, expanded, kind));
      && Distinct(keys)
      && (forall k :: k in keys <==> InSnapshot(place, sources, kind, k) && Visible(place, kind, expanded, k))
  {
    var f := FromSnapshot(place, sources);
    SnapshotPlaced(place, sources);
    RowsShow(place, f, expanded, kind, []);
    NodesDistinct(place, kind, f, []);
    ShowExact(place, kind, expanded, Nodes(f, kind, []));
    ShowDistinct(place, kind, expanded, Nodes(f, kind, []));
    forall k ensures k in Nodes(f, kind, []) <==> InSnapshot(place, sources, kind, k) {
      SnapshotNodes(place, sources, kind, k);
    }
  }

  lemma {:induction false} CollectExact(kind: SourceKind, f: Folder, path: seq<string>)
    ensures forall k :: k in CollectFolderKeys(f, kind, path) <==> k in Nodes(f, kind, path) && k.FolderKey?
    decreases f, 1
  {
    CollectInExact(kind, f.folders, path);
    FileNodesAreSources(f.files);
  }

  lemma {:induction false} CollectInExact(kind: SourceKind, d: Dict<Folder>, path: seq<string>)
    ensures forall k :: k in CollectIn(d, kind, path) <==> k in FolderNodes(d, kind, path) && k.FolderKey?
    decreases d, 0
  {
    if d.Entry? {
      CollectExact(kind, d.value, path + [d.key]);
      CollectInExact(kind, d.rest, path);
    }
  }

  lemma {:induction false} FileNodesAreSources(d: Dict<Dict<SourceFile>>)
    ensures forall k | k in FileNodes(d) :: k.SourceKey?
  {
    if d.Entry? {
      UriNodesExact(d.value);
      FileNodesAreSources(d.rest);
    }
  }

  /** The folders above a node of the snapshot are nodes of the snapshot. */
  lemma {:induction false} AncestorsInSnapshot(place: Placer, sources: seq<SourceNode>, kind: SourceKind, key: Key,
      i: nat)
    requires InSnapshot(place, sources, kind, key) && i < |KeyPath(place, kind, key)| - 1
    ensures KeyPath(place, kind, key)[i].FolderKey? && InSnapshot(place, sources, kind, KeyPath(place, kind, key)[i])
  {
    var whole := if key.FolderKey? then key.path else place(key.uri).folder;
    var u :| u in Uris(sources) && whole <= place(u).folder;
    assert whole[..i + 1] <= place(u).folder;
    assert KeyPath(place, kind, key)[i] == FolderKey(kind, whole[..i + 1]);
  }

  /** With every collected folder key expanded, and any others, every folder and every uri has exactly one row. */
  lemma {:induction false} ExpandAllShowsAll(place: Placer, sources: seq<SourceNode>, others: set<Key>,
      kind: SourceKind)
    ensures var expanded := others + CollectFolderKeys(FromSnapshot(place, sources), kind, []);
      var keys := RowKeys(SnapshotRows(place, sources, expanded, kind));
      && Distinct(keys)
      && (forall k :: k in keys <==> InSnapshot(place, sources, kind, k))
  {
    var expanded := others + CollectFolderKeys(FromSnapshot(place, sources), kind, []);
    RowsExact(place, sources, expanded, kind);
    CollectExact(kind, FromSnapshot(place, sources), []);
    forall k | InSnapshot(place, sources, kind, k) ensures Visible(place, kind, expanded, k) {
      forall i | 0 <= i < |KeyPath(place, kind, k)| - 1 ensures KeyPath(place, kind, k)[i] in expanded {
        AncestorsInSnapshot(place, sources, kind, k, i);
        SnapshotNodes(place, sources, kind, KeyPath(place, kind, k)[i]);
      }
    }
  }

  lemma {:induction false} AncestorIffBelow(place: Placer, kind: SourceKind, p: seq<string>, k: Key)
    requires p != [] && (k.SourceKey? || (k.FolderKey? && k.kind == kind))
    ensures var path := KeyPath(place, kind, k);
      Below(place, kind, p, k) <==> exists i :: 0 <= i < |path| - 1 && path[i] == FolderKey(kind, p)
  {
    var whole := if k.FolderKey? then k.path else place(k.uri).folder;
    var path := KeyPath(place, kind, k);
    if Below(place, kind, p, k) {
      assert whole[..|p| - 1 + 1] == p;
      assert path[|p| - 1] == FolderKey(kind, p);
    }
    if i :| 0 <= i < |path| - 1 && path[i] == FolderKey(kind, p) {
      assert path[i] == FolderKey(kind, whole[..i + 1]);
    }
  }

  lemma {:induction false} ShowApart(place: Placer, kind: SourceKind, expanded: set<Key>, p: seq<string>,
      nodes: seq<Key>)
    requires p != []
    requires forall k | k in nodes :: Below(place, kind, [], k) && Apart(place, kind, p, k)
    ensures Show(place, kind, expanded - {FolderKey(kind, p)}, nodes) == Show(place, kind, expanded, nodes)
  {
    if nodes != [] {
      assert nodes[0] in nodes;
      AncestorIffBelow(place, kind, p, nodes[0]);
      ShowApart(place, kind, expanded, p, nodes[1..]);
    }
  }

  lemma {:induction false} ShowBelow(place: Placer, kind: SourceKind, expanded: set<Key>, p: seq<string>,
      nodes: seq<Key>)
    requires p != []
    requires forall k | k in nodes :: Below(place, kind, p, k)
    ensures Show(place, kind, expanded - {FolderKey(kind, p)}, nodes) == []
    ensures forall r | r in Show(place, kind, expanded, nodes) :: Below(place, kind, p, r.key)
  {
    if nodes != [] {
      assert nodes[0] in nodes;
      AncestorIffBelow(place, kind, p, nodes[0]);
      ShowBelow(place, kind, expanded, p, nodes[1..]);
    }
  }

  lemma {:induction false} ShowKeys(place: Placer, kind: SourceKind, expanded: set<Key>, nodes: seq<Key>)
    ensures forall r | r in Show(place, kind, expanded, nodes) :: r.key in nodes
  {
    if nodes != [] { ShowKeys(place, kind, expanded, nodes[1..]); }
  }

  lemma {:induction false} ShownFolder(place: Placer, sources: seq<SourceNode>, expanded: set<Key>, kind: SourceKind,
      i: nat)
    requires i < |SnapshotRows(place, sources, expanded, kind)|
    requires SnapshotRows(place, sources, expanded, kind)[i].key.FolderKey?
    ensures var key := SnapshotRows(place, sources, expanded, kind)[i].key;
      && key.kind == kind && key.path != [] && Visible(place, kind, expanded, key)
      && Sub(FromSnapshot(place, sources), key.path).Some?
  {
    var rows := SnapshotRows(place, sources, expanded, kind);
    var key := rows[i].key;
    RowsExact(place, sources, expanded, kind);
    assert key == RowKeys(rows)[i] && key in RowKeys(rows);
    FoldersExact(place, sources, key.path);
  }

  /** Collapsing a shown folder clears its marker and deletes the one contiguous block of rows that
      lie below it; nothing else moves. */
  lemma {:induction false} CollapseRemovesBlock(
      place: Placer, sources: seq<SourceNode>, expanded: set<Key>, kind: SourceKind, i: nat)
      returns (j: nat)
    requires i < |SnapshotRows(place, sources, expanded, kind)|
    requires SnapshotRows(place, sources, expanded, kind)[i].key.FolderKey?
    ensures var rows := SnapshotRows(place, sources, expanded, kind);
      && i < j <= |rows|
      && (forall n | 0 <= n < |rows| :: i < n < j <==> Below(place, kind, rows[i].key.path, rows[n].key))
      && SnapshotRows(place, sources, expanded - {rows[i].key}, kind)
        == rows[..i] + [rows[i].(expanded := false)] + rows[j..]
  {
    var f := FromSnapshot(place, sources);
    var rows := SnapshotRows(place, sources, expanded, kind);
    var key := rows[i].key;
    ShownFolder(place, sources, expanded, kind, i);
    SnapshotPlaced(place, sources);
    assert [] + key.path == key.path;
    var a, u, b := Around(place, kind, f, [], key.path);
    ghost var ra, ru, rb, row := BlockRows(place, kind, f, expanded, key.path, a, u, b);
    assert RowKeys(rows)[|ra|] == key;
    j := i + 1 + |ru|;
    BlockBounds(place, kind, key.path, ra, row, ru, rb);
  }

  lemma {:induction false} BlockBounds(
    place: Placer, kind: SourceKind, p: seq<string>, ra: seq<Row>, row: Row, ru: seq<Row>, rb: seq<Row>)
    requires row.key == FolderKey(kind, p)
    requires forall r | r in ra :: Apart(place, kind, p, r.key)
    requires forall r | r in rb :: Apart(place, kind, p, r.key)
    requires forall r | r in ru :: Below(place, kind, p, r.key)
    ensures var rows := ra + [row] + ru + rb;
      forall n | 0 <= n < |rows| :: |ra| < n < |ra| + 1 + |ru| <==> Below(place, kind, p, rows[n].key)
  {
    var rows := ra + [row] + ru + rb;
    forall n | 0 <= n < |rows| ensures |ra| < n < |ra| + 1 + |ru| <==> Below(place, kind, p, rows[n].key) {
      if n < |ra| { assert rows[n] in ra; }
      else if |ra| < n < |ra| + 1 + |ru| { assert rows[n] == ru[n - |ra| - 1]; }
      else if n > |ra| { assert rows[n] == rb[n - |ra| - 1 - |ru|]; }
    }
  }

  lemma {:induction false} BlockRows(
      place: Placer, kind: SourceKind, f: Folder, expanded: set<Key>, p: seq<string>, a: seq<Key>, u: seq<Key>,
      b: seq<Key>)
      returns (ra: seq<Row>, ru: seq<Row>, rb: seq<Row>, row: Row)
    requires WellPlaced(place, f, []) && p != [] && Splits(place, kind, Nodes(f, kind, []), p, a, u, b)
    requires Visible(place, kind, expanded, FolderKey(kind, p))
    ensures row.key == FolderKey(kind, p) && row.depth == |p| - 1
    ensures Rows(f, expanded, kind, [], 0) == ra + [row] + ru + rb
    ensures Rows(f, expanded - {row.key}, kind, [], 0) == ra + [row.(expanded := false)] + rb
    ensures forall r | r in ra :: Apart(place, kind, p, r.key)
    ensures forall r | r in rb :: Apart(place, kind, p, r.key)
    ensures forall r | r in ru :: Below(place, kind, p, r.key)
  {
    var key := FolderKey(kind, p);
    RowsShow(place, f, expanded, kind, []);
    RowsShow(place, f, expanded - {key}, kind, []);
    NodesBelow(place, kind, f, []);
    ShowKeys(place, kind, expanded, a);
    ShowKeys(place, kind, expanded, b);
    ShowParts(place, kind, expanded, a, key, u, b);
    CollapsedParts(place, kind, expanded, p, a, u, b);
    ra, ru, rb := Show(place, kind, expanded, a), Show(place, kind, expanded, u), Show(place, kind, expanded, b);
    row := RowFor(place, kind, expanded, key);
  }

  lemma {:induction false} CollapsedParts(
    place: Placer, kind: SourceKind, expanded: set<Key>, p: seq<string>, a: seq<Key>, u: seq<Key>, b: seq<Key>)
    requires p != [] && Visible(place, kind, expanded, FolderKey(kind, p))
    requires forall k | k in a :: Below(place, kind, [], k) && Apart(place, kind, p, k)
    requires forall k | k in b :: Below(place, kind, [], k) && Apart(place, kind, p, k)
    requires forall k | k in u :: Below(place, kind, p, k)
    ensures forall r | r in Show(place, kind, expanded, u) :: Below(place, kind, p, r.key)
    ensures var key := FolderKey(kind, p);
      Show(place, kind, expanded - {key}, a + [key] + u + b) == Show(place, kind, expanded, a)
        + [RowFor(place, kind, expanded, key).(expanded := false)] + Show(place, kind, expanded, b)
  {
    var key := FolderKey(kind, p);
    var less := expanded - {key};
    ShowParts(place, kind, less, a, key, u, b);
    assert Show(place, kind, less, a) == Show(place, kind, expanded, a) by { ShowApart(place, kind, expanded, p, a); }
    assert Show(place, kind, less, b) == Show(place, kind, expanded, b) by { ShowApart(place, kind, expanded, p, b); }
    ShowBelow(place, kind, expanded, p, u);
    CollapsedSelf(place, kind, expanded, p);
    var front := Show(place, kind, less, a) + ShowOne(place, kind, less, key);
    assert front + [] == front;
  }

  lemma {:induction false} CollapsedSelf(place: Placer, kind: SourceKind, expanded: set<Key>, p: seq<string>)
    requires p != [] && Visible(place, kind, expanded, FolderKey(kind, p))
    ensures var key := FolderKey(kind, p);
      ShowOne(place, kind, expanded - {key}, key) == [RowFor(place, kind, expanded, key).(expanded := false)]
  {
    AncestorIffBelow(place, kind, p, FolderKey(kind, p));
  }

  lemma {:induction false} ShowParts(
    place: Placer, kind: SourceKind, expanded: set<Key>, a: seq<Key>, key: Key, u: seq<Key>, b: seq<Key>)
    ensures Show(place, kind, expanded, a + [key] + u + b) == Show(place, kind, expanded, a)
      + ShowOne(place, kind, expanded, key) + Show(place, kind, expanded, u) + Show(place, kind, expanded, b)
  {
    ShowConcat(place, kind, expanded, a, [key]);
    ShowConcat(place, kind, expanded, a + [key], u);
    ShowConcat(place, kind, expanded, a + [key] + u, b);
    assert [key][1..] == [];
    assert Show(place, kind, expanded, [key]) == ShowOne(place, kind, expanded, key);
  }
}
