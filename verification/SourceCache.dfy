/** The cached source rows stay a fresh flattening, and the focus on them stays valid. */
module SourceCache {
  import opened Common
  import opened OrderedMap
  import opened Outline
  import opened SourceTrie
  import SourceRows
  import Proc = ProcessOutline
  import opened AppModel
  import opened FocusRestore
  import opened SourceNavigation

  /** The row builders of the other sections make no source-folder rows. */
  ghost predicate OtherRows(e: Env) {
    forall v, s, i | s != Sources && 0 <= i < |e.outline(v, s)| :: !e.outline(v, s)[i].key.FolderKey?
  }

  ghost predicate SameFolders(x: set<Key>, y: set<Key>) {
    forall k: Key | k.FolderKey? :: k in x <==> k in y
  }

  lemma {:induction false} RowsLocal(f: Folder, x: set<Key>, y: set<Key>, kind: SourceKind, path: seq<string>,
      depth: nat)
    requires SameFolders(x, y)
    ensures SourceRows.Rows(f, x, kind, path, depth) == SourceRows.Rows(f, y, kind, path, depth)
    decreases f, 1
  {
    FolderRowsLocal(f.folders, x, y, kind, path, depth);
  }

  lemma {:induction false} FolderRowsLocal(
      d: Dict<Folder>, x: set<Key>, y: set<Key>, kind: SourceKind, path: seq<string>, depth: nat)
    requires SameFolders(x, y)
    ensures SourceRows.FolderRows(d, x, kind, path, depth) == SourceRows.FolderRows(d, y, kind, path, depth)
    decreases d, 0
  {
    if d.Entry? {
      RowsLocal(d.value, x, y, kind, path + [d.key], depth + 1);
      FolderRowsLocal(d.rest, x, y, kind, path, depth);
    }
  }

  lemma {:induction false} RowsGrow(f: Folder, x: set<Key>, y: set<Key>, kind: SourceKind, path: seq<string>,
      depth: nat)
    requires x <= y
    ensures |SourceRows.Rows(f, x, kind, path, depth)| <= |SourceRows.Rows(f, y, kind, path, depth)|
    decreases f, 1
  {
    FolderRowsGrow(f.folders, x, y, kind, path, depth);
  }

  lemma {:induction false} FolderRowsGrow(
      d: Dict<Folder>, x: set<Key>, y: set<Key>, kind: SourceKind, path: seq<string>, depth: nat)
    requires x <= y
    ensures |SourceRows.FolderRows(d, x, kind, path, depth)| <= |SourceRows.FolderRows(d, y, kind, path, depth)|
    decreases d, 0
  {
    if d.Entry? {
      RowsGrow(d.value, x, y, kind, path + [d.key], depth + 1);
      FolderRowsGrow(d.rest, x, y, kind, path, depth);
    }
  }

  /** Editing keys of other sections in the shared set leaves the cache fresh without a rebuild. */
  lemma {:induction false} CacheKept(e: Env, a: App, b: App)
    requires SourcesFresh(e, a) && SameFolders(a.expanded, b.expanded)
    requires b.sources == a.sources && b.hierarchy == a.hierarchy && b.sourceKind == a.sourceKind
      && b.sourceRows == a.sourceRows
    ensures SourcesFresh(e, b)
  {
    if a.hierarchy.Some? { RowsLocal(a.hierarchy.value, a.expanded, b.expanded, a.sourceKind, [], 0); }
  }

  lemma {:induction false} DefaultsAreNoFolders(a: App)
    ensures SameFolders(a.expanded, ExpandedDefaults(a).expanded)
  {
    TreeKeysAreNoFolders(a.processes);
    if a.context.Some? {
      GroupKeysAreNoFolders(a.context.value.connections);
      BreakpointKeysAreNoFolders(a.context.value.breakpoints);
    }
  }

  lemma {:induction false} TreeKeysAreNoFolders(trees: seq<Proc.ProcessTree>)
    ensures forall k | k in TreeKeys(trees) :: !k.FolderKey?
  {
    if trees != [] { TreeKeysAreNoFolders(trees[1..]); }
  }

  lemma {:induction false} GroupKeysAreNoFolders(connections: seq<string>)
    ensures forall k | k in GroupKeys(connections) :: !k.FolderKey?
  {
    if connections != [] { GroupKeysAreNoFolders(connections[1..]); }
  }

  lemma {:induction false} BreakpointKeysAreNoFolders(breakpoints: seq<Breakpoint>)
    ensures forall k | k in BreakpointKeys(breakpoints) :: !k.FolderKey?
  {
    if breakpoints != [] { BreakpointKeysAreNoFolders(breakpoints[1..]); }
  }

  lemma {:induction false} InstalledFresh(e: Env, a: App, r: Refresh)
    requires Sound(a) && SourcesFresh(e, a) && !Dropped(a, r)
    ensures SourcesFresh(e, Installed(e, a, r))
  {
    match r {
      case NewContext(snapshot) =>
        DefaultsAreNoFolders(a.(details := BackedDetails(a.details, snapshot.forest),
                                contexts := Summarized(a.contexts, snapshot.id, snapshot.revision),
                                context := Some(snapshot)));
        CacheKept(e, a, WithContext(a, snapshot));
      case NewProcesses(processes) =>
        DefaultsAreNoFolders(a.(queried := a.queried + {Processes} - {Connections}, processes := processes));
        CacheKept(e, a, WithProcesses(a, processes));
      case NewSources(tree) =>
      case _ => CacheKept(e, a, Installed(e, a, r));
    }
  }

  lemma {:induction false} RefreshKeepsFresh(e: Env, a: App, r: Refresh)
    requires Sound(a) && SourcesFresh(e, a)
    ensures SourcesFresh(e, Refreshed(e, a, r))
  {
    if Dropped(a, r) {
      CacheKept(e, a, Noted(a, r));
    } else {
      var data := Installed(e, a, r);
      InstalledFresh(e, a, r);
      RestoredFrame(e, data, Paths(e, a));
      CacheKept(e, data, Restored(e, data, Paths(e, a)));
    }
  }
}
