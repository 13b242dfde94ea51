/** The terminal client's state, updated in place. Each operation is proved to do to the fields what
    its function in `AppModel` does to the value `Model()`. */
module TuiApp {
  import opened Common
  import opened Outline
  import opened SourceTrie
  import SourceRows
  import Proc = ProcessOutline
  import Res = ResourceOutline
  import M = AppModel

  // ---- the searches over rows

  method FindPath(rows: seq<Row>, ids: seq<Key>) returns (found: Option<nat>)
    ensures found == M.FirstWithPath(rows, ids, 0)
  {
    var index: nat := 0;
    while index < |rows|
      invariant index <= |rows| && M.FirstWithPath(rows, ids, index) == M.FirstWithPath(rows, ids, 0)
    {
      var path := RowNodeIdPath(rows, index);
      if path == ids { return Some(index); }
      index := index + 1;
    }
    return None;
  }

  /** Tries the path and its prefixes, longest first. */
  method FindSurvivor(rows: seq<Row>, ids: seq<Key>) returns (found: Option<nat>)
    ensures found == M.RestoredRow(rows, ids)
  {
    var length: nat := |ids|;
    assert ids[..length] == ids;
    while length > 0
      invariant length <= |ids| && M.RestoredRow(rows, ids[..length]) == M.RestoredRow(rows, ids)
    {
      found := FindPath(rows, ids[..length]);
      if found.Some? { return; }
      assert ids[..length][..length - 1] == ids[..length - 1];
      length := length - 1;
    }
    return None;
  }

  method LinkPath(links: map<Key, Key>, path: seq<Key>) returns (linked: map<Key, Key>)
    ensures linked == M.Linked(links, path)
  {
    linked := links;
    var i: nat := 0;
    assert path[0..] == path;
    while i + 1 < |path|
      invariant i <= |path| && M.Linked(linked, path[i..]) == M.Linked(links, path)
    {
      assert path[i..][1..] == path[i + 1..];
      linked := linked[path[i] := path[i + 1]];
      i := i + 1;
    }
  }

  /** The rows of a node's children, and the remembered one among them or else the first. */
  method FindChild(rows: seq<Row>, ids: seq<Key>, remembered: Option<Key>) returns (found: Option<nat>)
    ensures found == M.EnteredChild(rows, ids, remembered)
  {
    var first: Option<nat> := None;
    var kept: Option<nat> := None;
    var index: nat := 0;
    while index < |rows|
      invariant index <= |rows|
      invariant M.FirstChild(rows, ids, None, 0) == if first.Some? then first else M.FirstChild(rows, ids, None, index)
      invariant kept.Some? ==> remembered.Some?
      invariant remembered.Some? ==>
        M.FirstChild(rows, ids, remembered, 0) == if kept.Some? then kept
          else M.FirstChild(rows, ids, remembered, index)
    {
      var path := RowNodeIdPath(rows, index);
      if |path| == |ids| + 1 && ids <= path {
        if first.None? { first := Some(index); }
        if kept.None? && remembered == Some(rows[index].key) { kept := Some(index); }
      }
      index := index + 1;
    }
    found := if kept.Some? then kept else first;
  }

  class App {
    const env: M.Env
    var contexts: seq<M.ContextSummary>
    var contextIndex: nat
    var context: Option<M.ContextSnapshot>
    var tab: M.Tab
    var focus: M.PerTab<M.Focus>
    var collapsed: set<Section>
    var visible: set<Section>
    var expanded: set<Key>
    var lastVisited: map<Key, Key>
    var processes: seq<Proc.ProcessTree>
    var resources: Option<Res.Graph>
    var sources: Option<M.SourceTree>
    var hierarchy: Option<Folder>
    var sourceRows: seq<Row>
    var content: Option<string>
    var documentFocused: bool
    var sourceKind: SourceKind
    var initializedKinds: set<SourceKind>
    var captures: seq<string>
    var details: map<M.TargetId, M.Detail>
    var loading: set<Section>
    var queried: set<Section>
    var pending: Option<Key>

    function Model(): M.App
      reads this
    {
      M.App(contexts, contextIndex, context, tab, focus, collapsed, visible, expanded, lastVisited, processes,
            resources, sources, hierarchy, sourceRows, content, documentFocused, sourceKind, initializedKinds,
            captures, details, loading, queried, pending)
    }

    constructor (env: M.Env, contexts: seq<M.ContextSummary>, contextIndex: nat, context: M.ContextSnapshot)
      ensures this.env == env && Model() == M.Initial(contexts, contextIndex, context)
    {
      this.env := env;
      this.contexts, this.contextIndex, this.context := contexts, contextIndex, Some(context);
      tab := M.Runtime;
      focus := M.PerTab(M.Focus(Contexts, Some(contextIndex)), M.Focus(Attention, None));
      collapsed := {Processes, Connections, Targets, Attention, Sources, Breakpoints, Captures, CallStacks};
      visible, expanded, lastVisited := {}, {}, map[];
      processes, resources, sources, hierarchy, sourceRows := [], None, None, None, [];
      content, documentFocused, sourceKind, initializedKinds := None, false, SourceMapped, {};
      captures, details, loading, queried, pending := [], map[], {}, {Contexts}, None;
      new;
      ExpandDefaults();
    }

    method RebuildSourceRows()
      modifies `sourceRows
      ensures Model() == M.Rebuilt(old(Model()))
    {
      var writer := new SourceRows.RowWriter();
      if hierarchy.Some? {
        writer.AppendRows(hierarchy.value, expanded, sourceKind, 0);
        assert [] + writer.rows == writer.rows;
      }
      sourceRows := writer.rows;
    }

    method ExpandTrees()
      modifies `expanded
      ensures expanded == old(expanded) + M.TreeKeys(processes)
    {
      var trees := processes;
      while trees != []
        invariant expanded + M.TreeKeys(trees) == old(expanded) + M.TreeKeys(processes)
        decreases |trees|
      {
        expanded := expanded + {ProcessTreeKey(trees[0].rootPid)};
        trees := trees[1..];
      }
    }

    method ExpandGroups(connections: seq<string>)
      modifies `expanded
      ensures expanded == old(expanded) + M.GroupKeys(connections)
    {
      var rest := connections;
      while rest != []
        invariant expanded + M.GroupKeys(rest) == old(expanded) + M.GroupKeys(connections)
        decreases |rest|
      {
        expanded := expanded + {TargetGroupKey(rest[0])};
        rest := rest[1..];
      }
    }

    method ExpandBreakpoints(breakpoints: seq<M.Breakpoint>)
      modifies `expanded
      ensures expanded == old(expanded) + M.BreakpointKeys(breakpoints)
    {
      var rest := breakpoints;
      while rest != []
        invariant expanded + M.BreakpointKeys(rest) == old(expanded) + M.BreakpointKeys(breakpoints)
        decreases |rest|
      {
        if rest[0].applications != [] { expanded := expanded + {BreakpointKey(rest[0].id)}; }
        rest := rest[1..];
      }
    }

    method ExpandDefaults()
      modifies `expanded
      ensures Model() == M.ExpandedDefaults(old(Model()))
    {
      ExpandTrees();
      if context.Some? {
        ExpandGroups(context.value.connections);
        ExpandBreakpoints(context.value.breakpoints);
      }
      assert expanded == old(expanded) + M.DefaultKeys(old(Model()));
    }

    function RowsOf(section: Section): seq<Row>
      reads this
    {
      M.Rows(env, Model(), section)
    }

    // ---- focus

    method FocusPaths() returns (paths: M.PerTab<M.FocusPath>)
      ensures paths == M.Paths(env, Model())
    {
      var runtime, debug := [], [];
      if focus.runtime.row.Some? { runtime := RowNodeIdPath(RowsOf(focus.runtime.section), focus.runtime.row.value); }
      if focus.debug.row.Some? { debug := RowNodeIdPath(RowsOf(focus.debug.section), focus.debug.row.value); }
      paths := M.PerTab(M.FocusPath(focus.runtime.section, runtime), M.FocusPath(focus.debug.section, debug));
    }

    method RememberFocusPath(tab: M.Tab)
      modifies `lastVisited
      ensures Model() == M.Remembered(env, old(Model()), tab)
    {
      var f := focus.Get(tab);
      if f.row.Some? {
        var path := RowNodeIdPath(RowsOf(f.section), f.row.value);
        lastVisited := LinkPath(lastVisited, [SectionKey(f.section)] + path);
      }
    }

    method RestoreTab(tab: M.Tab, path: M.FocusPath)
      modifies `focus, `lastVisited
      ensures Model() == M.RestoredTab(env, old(Model()), tab, path)
    {
      var row: Option<nat> := None;
      if path.section !in collapsed { row := FindSurvivor(RowsOf(path.section), path.ids); }
      focus := focus.Set(tab, M.Focus(path.section, row));
      RememberFocusPath(tab);
    }

    method RestoreFocusPaths(paths: M.PerTab<M.FocusPath>)
      modifies `focus, `lastVisited
      ensures Model() == M.Restored(env, old(Model()), paths)
    {
      RestoreTab(M.Runtime, paths.runtime);
      RestoreTab(M.Debug, paths.debug);
    }

    method ClampFocus()
      modifies `focus
      ensures Model() == M.Clamped(env, old(Model()))
    {
      var f := focus.Get(tab);
      if f.section in collapsed {
        focus := focus.Set(tab, f.(row := None));
        return;
      }
      var count := |RowsOf(f.section)|;
      if f.row.Some? {
        if count == 0 {
          focus := focus.Set(tab, f.(row := None));
        } else if f.row.value >= count {
          focus := focus.Set(tab, f.(row := Some(count - 1)));
        }
      }
    }

    method FocusPositions() returns (positions: seq<M.Focus>)
      ensures positions == M.Positions(env, Model())
    {
      positions := [];
      var sections := M.SectionsOf(tab);
      while sections != []
        invariant positions + M.PositionsIn(env, Model(), sections) == M.Positions(env, Model())
        decreases |sections|
      {
        var section := sections[0];
        ghost var before, rest := positions, M.PositionsIn(env, Model(), sections[1..]);
        var block := [M.Focus(section, None)];
        if section !in collapsed && section in visible {
          var count := |RowsOf(section)|;
          var row := 0;
          while row < count
            invariant row <= count && block == [M.Focus(section, None)] + M.RowPositions(section, row)
          {
            Assoc([M.Focus(section, None)], M.RowPositions(section, row), [M.Focus(section, Some(row))]);
            block := block + [M.Focus(section, Some(row))];
            row := row + 1;
          }
        }
        assert M.PositionsIn(env, Model(), sections) == block + rest;
        Assoc(before, block, rest);
        positions := positions + block;
        sections := sections[1..];
      }
      assert positions + [] == positions;
    }

    method SetSectionViewport(section: Section, height: nat)
      modifies `focus, `visible
      ensures Model() == M.SetViewport(old(Model()), section, height)
    {
      if height > 0 {
        visible := visible + {section};
      } else {
        visible := visible - {section};
        if focus.runtime.section == section { focus := focus.(runtime := focus.runtime.(row := None)); }
        if focus.debug.section == section { focus := focus.(debug := focus.debug.(row := None)); }
      }
    }

    // ---- navigation

    method ShowTab(tab: M.Tab)
      modifies `tab, `documentFocused, `details
      ensures this.tab == tab && !documentFocused && details == if tab.Runtime? then map[] else old(details)
    {
      this.tab := tab;
      documentFocused := false;
      if tab.Runtime? { details := map[]; }
    }

    method SetTab(tab: M.Tab)
      modifies `tab, `documentFocused, `details, `focus
      ensures Model() == M.SetTab(env, old(Model()), tab)
    {
      ShowTab(tab);
      ClampFocus();
    }

    method NextTab()
      modifies `tab, `documentFocused, `details, `focus
      ensures Model() == M.NextTab(env, old(Model()))
    {
      SetTab(if tab.Runtime? then M.Debug else M.Runtime);
    }

    method MoveSelection(delta: int)
      modifies `focus, `lastVisited
      ensures Model() == M.MoveSelection(env, old(Model()), delta)
    {
      if documentFocused { return; }
      var positions := FocusPositions();
      var found := M.PositionOf(positions, focus.Get(tab), 0);
      var wanted := (if found.Some? then found.value else 0) + delta;
      var next := if wanted < 0 then 0 else if wanted >= |positions| then |positions| - 1 else wanted;
      focus := focus.Set(tab, positions[next]);
      RememberFocusPath(tab);
    }

    method SelectEdge(last: bool)
      modifies `focus, `lastVisited
      ensures Model() == M.SelectEdge(env, old(Model()), last)
    {
      if documentFocused { return; }
      var positions := FocusPositions();
      focus := focus.Set(tab, if last then positions[|positions| - 1] else positions[0]);
      RememberFocusPath(tab);
    }

    method Close(section: Section, path: seq<Key>)
      modifies `expanded, `collapsed, `sourceRows
      ensures Model() == M.Closed(old(Model()), section, path)
    {
      if |path| >= 2 {
        expanded := expanded - {path[|path| - 2]};
      } else {
        collapsed := collapsed + {section};
      }
      if section == Sources { RebuildSourceRows(); }
    }

    /** Focuses a header or row, whose parent remembers the row that is left. */
    method FocusParent(section: Section, row: Option<nat>, parent: Key, child: Key)
      modifies `lastVisited, `focus
      ensures Model() == M.Remembered(env,
        M.Focused(old(Model()).(lastVisited := old(lastVisited)[parent := child]), M.Focus(section, row)), old(tab))
    {
      lastVisited := lastVisited[parent := child];
      focus := focus.Set(tab, M.Focus(section, row));
      RememberFocusPath(tab);
    }

    method NavigateLeft()
      modifies `expanded, `collapsed, `sourceRows, `lastVisited, `focus
      ensures Model() == M.NavigateLeft(env, old(Model()))
    {
      var f := focus.Get(tab);
      if documentFocused || f.row.None? { return; }
      var rows, index := RowsOf(f.section), f.row.value;
      if index >= |rows| { return; }
      var path := RowNodeIdPath(rows, index);
      var parent := M.ParentKey(f.section, path);
      var parentRow := if |path| >= 2 then M.FirstWithKey(rows, parent, 0) else None;
      Close(f.section, path);
      FocusParent(f.section, parentRow, parent, rows[index].key);
    }

    method FocusOn(f: M.Focus)
      modifies `focus
      ensures Model() == M.Focused(old(Model()), f)
    {
      focus := focus.Set(tab, f);
    }

    method EnterChild(section: Section, ids: seq<Key>)
      modifies `focus, `lastVisited
      ensures Model() == M.EnterChild(env, old(Model()), section, ids)
    {
      var parent := if ids == [] then SectionKey(section) else ids[|ids| - 1];
      var remembered := if parent in lastVisited then Some(lastVisited[parent]) else None;
      var next := FindChild(RowsOf(section), ids, remembered);
      if next.Some? {
        FocusOn(M.Focus(section, next));
        RememberFocusPath(tab);
      }
    }

    method Open(section: Section, key: Key)
      modifies `expanded, `sourceRows
      ensures Model() == M.RebuiltIf(old(Model()).(expanded := old(expanded) + {key}), section)
    {
      expanded := expanded + {key};
      if section == Sources { RebuildSourceRows(); }
    }

    method NavigateRight()
      modifies `expanded, `collapsed, `sourceRows, `lastVisited, `focus
      ensures Model() == M.NavigateRight(env, old(Model()))
    {
      if documentFocused { return; }
      var f := focus.Get(tab);
      if f.row.Some? {
        var rows, index := RowsOf(f.section), f.row.value;
        if index >= |rows| || !rows[index].expandable { return; }
        var ids := RowNodeIdPath(rows, index);
        Open(f.section, rows[index].key);
        EnterChild(f.section, ids);
      } else {
        collapsed := collapsed - {f.section};
        EnterChild(f.section, []);
      }
    }

    method ToggleExpanded()
      modifies `expanded, `collapsed, `sourceRows, `focus
      ensures Model() == M.ToggleExpanded(env, old(Model()))
    {
      if documentFocused { return; }
      var f := focus.Get(tab);
      if f.row.None? {
        if f.section in collapsed {
          collapsed := collapsed - {f.section};
        } else {
          collapsed := collapsed + {f.section};
        }
        return;
      }
      var rows, index := RowsOf(f.section), f.row.value;
      if index >= |rows| || !rows[index].expandable { return; }
      var key := rows[index].key;
      if key in expanded { expanded := expanded - {key}; } else { expanded := expanded + {key}; }
      if f.section == Sources { RebuildSourceRows(); }
      ClampFocus();
    }

    method OpenSelected()
      modifies `documentFocused
      ensures Model() == M.OpenSelected(env, old(Model()))
    {
      var key := M.SelectedKey(env, Model());
      if key.Some? && key.value.SourceKey? && content.Some? { documentFocused := true; }
    }

    method LeaveDocument()
      modifies `documentFocused
      ensures Model() == M.LeaveDocument(old(Model()))
    {
      documentFocused := false;
    }

    // ---- contexts

    method ForgetContext()
      modifies `context, `resources, `sources, `hierarchy, `sourceRows, `content, `initializedKinds, `captures, `details
      ensures context.None? && resources.None? && sources.None? && hierarchy.None? && sourceRows == [] && content.None?
      ensures initializedKinds == {} && captures == [] && details == map[]
    {
      context, resources, sources, hierarchy := None, None, None, None;
      sourceRows, content, initializedKinds, captures, details := [], None, {}, [], map[];
    }

    method ResetOutline(index: nat)
      modifies `contextIndex, `focus, `documentFocused, `expanded, `lastVisited, `loading, `queried
      ensures contextIndex == index && focus == M.PerTab(M.Focus(Contexts, Some(index)), M.Focus(Attention, None))
      ensures !documentFocused && expanded == {} && lastVisited == map[] && loading == {}
      ensures queried == old(queried) * {Contexts}
    {
      contextIndex := index;
      focus := M.PerTab(M.Focus(Contexts, Some(index)), M.Focus(Attention, None));
      documentFocused, expanded, lastVisited, loading := false, {}, map[], {};
      queried := queried * {Contexts};
    }

    method ActivateContext(index: nat)
      modifies this
      ensures Model() == M.Activate(old(Model()), index)
    {
      ForgetContext();
      ResetOutline(index);
    }

    method SelectContext(delta: int)
      requires M.Sound(Model())
      modifies this
      ensures Model() == M.SelectContext(old(Model()), delta)
    {
      ActivateContext((contextIndex + delta) % |contexts|);
    }

    method SelectContextId(id: string) returns (selected: bool)
      modifies this
      ensures selected == M.SelectContextId(old(Model()), id).Some?
      ensures Model() == if selected then M.SelectContextId(old(Model()), id).value else old(Model())
    {
      var index := M.ContextPosition(contexts, id);
      selected := index.Some? && index.value != contextIndex;
      if selected { ActivateContext(index.value); }
    }

    // ---- data from the service

    method InstallContexts(contexts: seq<M.ContextSummary>)
      requires M.Sound(Model())
      modifies `contexts, `contextIndex, `queried
      ensures Model() == M.WithContexts(old(Model()), contexts)
    {
      var index := M.ContextPosition(contexts, this.contexts[contextIndex].id);
      queried := queried + {Contexts};
      this.contexts := contexts;
      if index.Some? { contextIndex := index.value; }
    }

    method SetContexts(contexts: seq<M.ContextSummary>)
      requires M.Sound(Model())
      modifies this
      ensures Model() == M.Refreshed(env, old(Model()), M.NewContexts(contexts))
    {
      var paths := FocusPaths();
      InstallContexts(contexts);
      RestoreFocusPaths(paths);
    }

    method HoldContext(snapshot: M.ContextSnapshot)
      modifies `details, `contexts, `context
      ensures context == Some(snapshot) && details == M.BackedDetails(old(details), snapshot.forest)
      ensures contexts == M.Summarized(old(contexts), snapshot.id, snapshot.revision)
    {
      details := M.BackedDetails(details, snapshot.forest);
      contexts := M.Summarized(contexts, snapshot.id, snapshot.revision);
      context := Some(snapshot);
    }

    method InstallContext(snapshot: M.ContextSnapshot)
      modifies `details, `contexts, `context, `expanded
      ensures Model() == M.WithContext(old(Model()), snapshot)
    {
      HoldContext(snapshot);
      ExpandDefaults();
    }

    /** The tests that a snapshot must pass. */
    method Fits(snapshot: M.ContextSnapshot) returns (fits: bool)
      requires M.Sound(Model())
      ensures fits == M.Applies(Model(), snapshot)
    {
      if snapshot.id != contexts[contextIndex].id { return false; }
      return !(context.Some? && context.value.revision > snapshot.revision);
    }

    method ApplyContext(snapshot: M.ContextSnapshot)
      requires M.Sound(Model())
      modifies this
      ensures Model() == M.Refreshed(env, old(Model()), M.NewContext(snapshot))
    {
      var fits := Fits(snapshot);
      if !fits { return; }
      var paths := FocusPaths();
      InstallContext(snapshot);
      RestoreFocusPaths(paths);
    }

    method InstallProcesses(processes: seq<Proc.ProcessTree>)
      modifies `processes, `queried, `expanded
      ensures Model() == M.WithProcesses(old(Model()), processes)
    {
      queried := queried + {Processes} - {Connections};
      this.processes := processes;
      ExpandDefaults();
    }

    method SetProcesses(processes: seq<Proc.ProcessTree>)
      requires M.Sound(Model())
      modifies this
      ensures Model() == M.Refreshed(env, old(Model()), M.NewProcesses(processes))
    {
      var paths := FocusPaths();
      InstallProcesses(processes);
      RestoreFocusPaths(paths);
    }

    method InstallResources(resources: Res.Graph)
      modifies `resources, `queried
      ensures Model() == M.WithResources(old(Model()), resources)
    {
      queried := queried + {Connections};
      this.resources := Some(resources);
    }

    method SetResources(resources: Res.Graph)
      requires M.Sound(Model())
      modifies this
      ensures Model() == M.Refreshed(env, old(Model()), M.NewResources(resources))
    {
      var paths := FocusPaths();
      InstallResources(resources);
      RestoreFocusPaths(paths);
    }

    /** Stores the tree; the first one of a kind is shown with all its folders open. */
    method HoldSources(tree: M.SourceTree, folders: Folder)
      modifies `sources, `hierarchy, `queried, `initializedKinds, `expanded
      ensures sources == Some(tree) && hierarchy == Some(folders) && queried == old(queried) + {Sources}
      ensures initializedKinds == old(initializedKinds) + {tree.kind}
      ensures expanded
        == if tree.kind in old(initializedKinds) then old(expanded)
           else old(expanded) + SourceRows.CollectFolderKeys(folders, tree.kind, [])
    {
      queried := queried + {Sources};
      if tree.kind !in initializedKinds {
        expanded := expanded + SourceRows.CollectFolderKeys(folders, tree.kind, []);
      }
      initializedKinds := initializedKinds + {tree.kind};
      sources, hierarchy := Some(tree), Some(folders);
    }

    method ShowSources(tree: M.SourceTree, folders: Folder)
      modifies `sources, `hierarchy, `sourceRows, `queried, `initializedKinds, `expanded
      ensures Model() == M.Rebuilt(M.SourcesHeld(old(Model()), tree, folders))
    {
      HoldSources(tree, folders);
      assert Model() == M.SourcesHeld(old(Model()), tree, folders);
      RebuildSourceRows();
    }

    method SetSources(tree: M.SourceTree)
      requires M.Sound(Model())
      modifies this
      ensures Model() == M.Refreshed(env, old(Model()), M.NewSources(tree))
    {
      if tree.kind != sourceKind { return; }
      if sources == Some(tree) {
        queried := queried + {Sources};
        return;
      }
      var paths := FocusPaths();
      var folders := BuildFromSnapshot(env.place, tree.sources);
      ShowSources(tree, folders);
      RestoreFocusPaths(paths);
    }

    method CycleSources()
      modifies `sourceKind, `sources, `hierarchy, `sourceRows, `content, `loading, `queried, `focus
      ensures sourceKind == M.NextKind(old(sourceKind))
      ensures sources.None? && hierarchy.None? && sourceRows == [] && content.None?
      ensures loading == old(loading) - {Sources} && queried == old(queried) - {Sources}
      ensures focus == old(focus).Set(M.Debug, M.Focus(Sources, None))
    {
      sourceKind := M.NextKind(sourceKind);
      sources, hierarchy, sourceRows, content := None, None, [], None;
      loading, queried := loading - {Sources}, queried - {Sources};
      focus := focus.Set(M.Debug, M.Focus(Sources, None));
    }

    method ToggleSourceKind()
      modifies this
      ensures Model() == M.ToggleSourceKind(old(Model()))
    {
      CycleSources();
    }

    method InstallCaptures(captures: seq<string>)
      modifies `captures, `queried
      ensures Model() == M.WithCaptures(old(Model()), captures)
    {
      queried := queried + {Captures};
      this.captures := captures;
    }

    method SetCaptures(captures: seq<string>)
      requires M.Sound(Model())
      modifies this
      ensures Model() == M.Refreshed(env, old(Model()), M.NewCaptures(captures))
    {
      var paths := FocusPaths();
      InstallCaptures(captures);
      RestoreFocusPaths(paths);
    }

    method SetSourceContent(content: Option<string>)
      modifies `content, `documentFocused
      ensures Model() == M.SetSourceContent(old(Model()), content)
    {
      if content.None? { documentFocused := false; }
      this.content := content;
    }

    method InstallDetails(details: map<M.TargetId, M.Detail>)
      modifies `details
      ensures Model() == old(Model()).(details := details)
    {
      this.details := details;
    }

    method ReplaceDetails(details: map<M.TargetId, M.Detail>)
      modifies `details, `focus, `lastVisited
      ensures Model() == M.Restored(env, old(Model()).(details := details), M.Paths(env, old(Model())))
    {
      var paths := FocusPaths();
      InstallDetails(details);
      RestoreFocusPaths(paths);
    }

    /** The tests that a detail must pass. */
    method Wants(detail: M.Detail) returns (wanted: bool)
      requires M.Sound(Model())
      ensures wanted == M.Wanted(Model(), detail)
    {
      if detail.contextId != contexts[contextIndex].id { return false; }
      if context.None? { return false; }
      var current := M.FindTarget(context.value.forest, (detail.connectionId, detail.targetId));
      return current.Some? && current.value.attachment == M.Debugger && current.value.generation == detail.generation;
    }

    method SetTargetDetail(detail: M.Detail)
      requires M.Sound(Model())
      modifies this
      ensures Model() == M.Refreshed(env, old(Model()), M.NewDetail(detail))
    {
      var wanted := Wants(detail);
      if wanted { ReplaceDetails(details[(detail.connectionId, detail.targetId) := detail]); }
    }

    method RemoveTargetDetail(id: M.TargetId)
      requires M.Sound(Model())
      modifies this
      ensures Model() == M.Refreshed(env, old(Model()), M.LostDetail(id))
    {
      ReplaceDetails(details - {id});
    }

    // ---- loads and actions

    method BeginLoading(section: Section) returns (started: bool)
      modifies `loading
      ensures started == (section !in old(loading)) && Model() == M.BeginLoading(old(Model()), section)
    {
      started := section !in loading;
      loading := loading + {section};
    }

    method FinishLoading(section: Section)
      modifies `loading
      ensures Model() == M.FinishLoading(old(Model()), section)
    {
      loading := loading - {section};
    }

    method RefreshActiveData()
      modifies `queried
      ensures Model() == M.RefreshActiveData(old(Model()))
    {
      var sections := M.SectionsOf(tab);
      while sections != []
        invariant queried - M.LoadableOf(sections) == old(queried) - M.LoadableOf(M.SectionsOf(tab))
        decreases |sections|
      {
        assert M.LoadableOf(sections) == M.LoadableOf([sections[0]]) + M.LoadableOf(sections[1..]);
        if M.Loadable(sections[0]) { queried := queried - {sections[0]}; }
        sections := sections[1..];
      }
      if tab.Runtime? && Connections !in collapsed { queried := queried - {Processes}; }
    }

    method BeginAction(key: Key)
      modifies `pending
      ensures Model() == M.BeginAction(old(Model()), key)
    {
      pending := Some(key);
    }

    method FinishAction(result: Option<M.ContextSnapshot>)
      requires M.Sound(Model())
      modifies this
      ensures Model() == M.FinishAction(env, old(Model()), result)
    {
      pending := None;
      if result.Some? { ApplyContext(result.value); }
    }
  }
}
