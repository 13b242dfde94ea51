/** The state of the terminal client and what each operation does to it, as functions on values.
    `App` is the same state with fields that the operations update in place. */
module AppModel {
  import opened Common
  import opened Outline
  import opened SourceTrie
  import SourceRows
  import Sorting
  import Proc = ProcessOutline
  import Res = ResourceOutline

  datatype Tab = Runtime | Debug

  function SectionsOf(tab: Tab): seq<Section> {
    match tab
    case Runtime => [Contexts, Processes, Connections, Targets]
    case Debug => [Attention, Sources, Breakpoints, Captures, CallStacks]
  }

  datatype ContextSummary = ContextSummary(id: string, revision: nat)

  datatype Attachment = Detached | CdpClient | Debugger

  datatype TargetNode = TargetNode(
    connectionId: string, targetId: string, generation: nat, attachment: Attachment, parentId: Option<string>)

  datatype Application = Application(connectionId: string, targetId: string, scriptId: string)

  datatype Breakpoint = Breakpoint(id: string, applications: seq<Application>)

  datatype ContextSnapshot = ContextSnapshot(
    id: string, revision: nat, resourceRevision: nat,
    connections: seq<string>, forest: seq<TargetNode>, breakpoints: seq<Breakpoint>)

  datatype SourceTree = SourceTree(kind: SourceKind, sources: seq<SourceNode>)

  datatype Detail = Detail(contextId: string, connectionId: string, targetId: string, generation: nat, revision: nat)

  datatype TargetRef = TargetRef(contextId: string, connectionId: string, targetId: string, generation: nat)

  datatype Focus = Focus(section: Section, row: Option<nat>)

  datatype FocusPath = FocusPath(section: Section, ids: seq<Key>)

  /** One value per tab, as the two-element arrays of the program. */
  datatype PerTab<T> = PerTab(runtime: T, debug: T) {
    function Get(tab: Tab): T { if tab.Runtime? then runtime else debug }
    function Set(tab: Tab, t: T): PerTab<T> { if tab.Runtime? then PerTab(t, debug) else PerTab(runtime, t) }
  }

  type TargetId = (string, string)

  datatype App = App(
    contexts: seq<ContextSummary>,
    contextIndex: nat,
    context: Option<ContextSnapshot>,
    tab: Tab,
    focus: PerTab<Focus>,
    collapsed: set<Section>,
    visible: set<Section>,              // sections whose viewport has a positive height
    expanded: set<Key>,
    lastVisited: map<Key, Key>,
    processes: seq<Proc.ProcessTree>,
    resources: Option<Res.Graph>,
    sources: Option<SourceTree>,
    hierarchy: Option<Folder>,
    sourceRows: seq<Row>,
    content: Option<string>,            // path of the source shown in the document pane
    documentFocused: bool,
    sourceKind: SourceKind,
    initializedKinds: set<SourceKind>,
    captures: seq<string>,
    details: map<TargetId, Detail>,
    loading: set<Section>,
    queried: set<Section>,
    pending: Option<Key>)

  /** What the row builders of the other sections look at. */
  datatype View = View(
    contexts: seq<ContextSummary>, context: Option<ContextSnapshot>, processes: seq<Proc.ProcessTree>,
    resources: Option<Res.Graph>, captures: seq<string>, details: map<TargetId, Detail>, expanded: set<Key>)

  /** The URI placement and the row builders of the sections other than Sources. */
  datatype Env = Env(place: Placer, outline: (View, Section) -> seq<Row>)

  /** The index of the current context is in range; otherwise every use of it panics. */
  predicate Sound(a: App) { a.contextIndex < |a.contexts| }

  function ContextId(a: App): string
    requires Sound(a)
  {
    a.contexts[a.contextIndex].id
  }

  function ViewOf(a: App): View {
    View(a.contexts, a.context, a.processes, a.resources, a.captures, a.details, a.expanded)
  }

  function Rows(e: Env, a: App, s: Section): seq<Row> {
    if s == Sources then a.sourceRows else e.outline(ViewOf(a), s)
  }

  /** `rebuild_source_rows`. */
  function Rebuilt(a: App): App {
    a.(sourceRows :=
      if a.hierarchy.Some? then SourceRows.Rows(a.hierarchy.value, a.expanded, a.sourceKind, [], 0) else [])
  }

  // ---- focus

  function PathOf(e: Env, a: App, tab: Tab): FocusPath {
    var f := a.focus.Get(tab);
    FocusPath(f.section, if f.row.Some? then NodePath(Rows(e, a, f.section), f.row.value) else [])
  }

  function Paths(e: Env, a: App): PerTab<FocusPath> {
    PerTab(PathOf(e, a, Runtime), PathOf(e, a, Debug))
  }

  function FirstWithPath(rows: seq<Row>, ids: seq<Key>, from: nat): (r: Option<nat>)
    ensures r.Some? ==> from <= r.value < |rows| && NodePath(rows, r.value) == ids
    ensures r.Some? ==> forall i | from <= i < r.value :: NodePath(rows, i) != ids
    ensures r.None? ==> forall i | from <= i < |rows| :: NodePath(rows, i) != ids
    decreases |rows| - from
  {
    if from >= |rows| then None
    else if NodePath(rows, from) == ids then Some(from)
    else FirstWithPath(rows, ids, from + 1)
  }

  /** The first row whose path is the longest possible prefix of `ids`. */
  function RestoredRow(rows: seq<Row>, ids: seq<Key>): Option<nat> {
    if ids == [] then None
    else
      var r := FirstWithPath(rows, ids, 0);
      if r.Some? then r else RestoredRow(rows, ids[..|ids| - 1])
  }

  function Linked(m: map<Key, Key>, path: seq<Key>): map<Key, Key>
    decreases |path|
  {
    if |path| < 2 then m else Linked(m[path[0] := path[1]], path[1..])
  }

  /** `remember_focus_path`: every node on the way to the focus remembers its child there. */
  function Remembered(e: Env, a: App, tab: Tab): App {
    var f := a.focus.Get(tab);
    if f.row.None? then a
    else a.(lastVisited := Linked(a.lastVisited,
      [SectionKey(f.section)] + NodePath(Rows(e, a, f.section), f.row.value)))
  }

  function RestoredTab(e: Env, a: App, tab: Tab, path: FocusPath): App {
    var row := if path.section in a.collapsed then None else RestoredRow(Rows(e, a, path.section), path.ids);
    Remembered(e, a.(focus := a.focus.Set(tab, Focus(path.section, row))), tab)
  }

  /** `restore_focus_paths`. */
  function Restored(e: Env, a: App, paths: PerTab<FocusPath>): App {
    RestoredTab(e, RestoredTab(e, a, Runtime, paths.runtime), Debug, paths.debug)
  }

  function Focused(a: App, f: Focus): App {
    a.(focus := a.focus.Set(a.tab, f))
  }

  function Clamped(e: Env, a: App): App {
    var f := a.focus.Get(a.tab);
    if f.section in a.collapsed then Focused(a, f.(row := None))
    else
      var count := |Rows(e, a, f.section)|;
      if f.row.None? then a
      else if count == 0 then Focused(a, f.(row := None))
      else if f.row.value < count then a
      else Focused(a, f.(row := Some(count - 1)))
  }

  function PositionsIn(e: Env, a: App, sections: seq<Section>): seq<Focus> {
    if sections == [] then []
    else
      var s := sections[0];
      [Focus(s, None)]
      + (if s !in a.collapsed && s in a.visible then RowPositions(s, |Rows(e, a, s)|) else [])
      + PositionsIn(e, a, sections[1..])
  }

  function RowPositions(s: Section, n: nat): (r: seq<Focus>)
    ensures |r| == n
  {
    if n == 0 then [] else RowPositions(s, n - 1) + [Focus(s, Some(n - 1))]
  }

  function Positions(e: Env, a: App): (r: seq<Focus>)
    ensures r != []
  {
    PositionsIn(e, a, SectionsOf(a.tab))
  }

  function SetViewport(a: App, s: Section, height: nat): App {
    if height > 0 then a.(visible := a.visible + {s})
    else
      var drop := (f: Focus) => if f.section == s then f.(row := None) else f;
      a.(visible := a.visible - {s}, focus := PerTab(drop(a.focus.runtime), drop(a.focus.debug)))
  }

  // ---- navigation

  function SetTab(e: Env, a: App, tab: Tab): App {
    Clamped(e, a.(tab := tab, documentFocused := false, details := if tab.Runtime? then map[] else a.details))
  }

  function NextTab(e: Env, a: App): App {
    SetTab(e, a, if a.tab.Runtime? then Debug else Runtime)
  }

  function PositionOf(positions: seq<Focus>, f: Focus, from: nat): (r: Option<nat>)
    ensures r.Some? ==> from <= r.value < |positions| && positions[r.value] == f
    ensures r.None? ==> from > |positions| || f !in positions[from..]
    decreases |positions| - from
  {
    if from >= |positions| then None
    else if positions[from] == f then Some(from)
    else PositionOf(positions, f, from + 1)
  }

  function MoveSelection(e: Env, a: App, delta: int): App {
    if a.documentFocused then a
    else
      var positions := Positions(e, a);
      var found := PositionOf(positions, a.focus.Get(a.tab), 0);
      var wanted := (if found.Some? then found.value else 0) + delta;
      var next := if wanted < 0 then 0 else if wanted >= |positions| then |positions| - 1 else wanted;
      Remembered(e, Focused(a, positions[next]), a.tab)
  }

  function SelectEdge(e: Env, a: App, last: bool): App {
    if a.documentFocused then a
    else
      var positions := Positions(e, a);
      Remembered(e, Focused(a, if last then positions[|positions| - 1] else positions[0]), a.tab)
  }

  function RebuiltIf(a: App, s: Section): App {
    if s == Sources then Rebuilt(a) else a
  }

  function FirstWithKey(rows: seq<Row>, key: Key, from: nat): (r: Option<nat>)
    ensures r.Some? ==> from <= r.value < |rows| && rows[r.value].key == key
    ensures r.None? ==> forall i | from <= i < |rows| :: rows[i].key != key
    decreases |rows| - from
  {
    if from >= |rows| then None else if rows[from].key == key then Some(from) else FirstWithKey(rows, key, from + 1)
  }

  /** Closes the parent of the node at `path`, or the whole section when the node is at the top. */
  function Closed(a: App, s: Section, path: seq<Key>): App {
    RebuiltIf(
      if |path| >= 2 then a.(expanded := a.expanded - {path[|path| - 2]}) else a.(collapsed := a.collapsed + {s}), s)
  }

  function ParentKey(s: Section, path: seq<Key>): Key {
    if |path| >= 2 then path[|path| - 2] else SectionKey(s)
  }

  function NavigateLeft(e: Env, a: App): App {
    var f := a.focus.Get(a.tab);
    if a.documentFocused || f.row.None? then a
    else
      var rows, index := Rows(e, a, f.section), f.row.value;
      if index >= |rows| then a
      else
        var path := NodePath(rows, index);
        var parent := ParentKey(f.section, path);
        var parentRow := if |path| >= 2 then FirstWithKey(rows, parent, 0) else None;
        Remembered(e,
          Focused(Closed(a, f.section, path).(lastVisited := a.lastVisited[parent := rows[index].key]),
                  Focus(f.section, parentRow)),
          a.tab)
  }

  /** Row `i` is a child of the node at path `ids`. */
  predicate IsChild(rows: seq<Row>, ids: seq<Key>, i: nat) {
    i < |rows| && |NodePath(rows, i)| == |ids| + 1 && ids <= NodePath(rows, i)
  }

  /** The remembered child of the node at `ids` if it still exists, else the first child. */
  function EnteredChild(rows: seq<Row>, ids: seq<Key>, remembered: Option<Key>): Option<nat> {
    var kept := if remembered.Some? then FirstChild(rows, ids, remembered, 0) else None;
    if kept.Some? then kept else FirstChild(rows, ids, None, 0)
  }

  /** The first child, or the first child with the wanted key. */
  function FirstChild(rows: seq<Row>, ids: seq<Key>, wanted: Option<Key>, from: nat): (r: Option<nat>)
    ensures r.Some? ==> from <= r.value && IsChild(rows, ids, r.value)
    ensures r.Some? && wanted.Some? ==> rows[r.value].key == wanted.value
    ensures r.None? ==> forall i | from <= i < |rows| ::
      !(IsChild(rows, ids, i) && (wanted.None? || rows[i].key == wanted.value))
    decreases |rows| - from
  {
    if from >= |rows| then None
    else if IsChild(rows, ids, from) && (wanted.None? || rows[from].key == wanted.value) then Some(from)
    else FirstChild(rows, ids, wanted, from + 1)
  }

  function EnterChild(e: Env, a: App, s: Section, ids: seq<Key>): App {
    var parent := if ids == [] then SectionKey(s) else ids[|ids| - 1];
    var remembered := if parent in a.lastVisited then Some(a.lastVisited[parent]) else None;
    var next := EnteredChild(Rows(e, a, s), ids, remembered);
    if next.Some? then Remembered(e, Focused(a, Focus(s, next)), a.tab) else a
  }

  function NavigateRight(e: Env, a: App): App {
    var f := a.focus.Get(a.tab);
    if a.documentFocused then a
    else if f.row.None? then EnterChild(e, a.(collapsed := a.collapsed - {f.section}), f.section, [])
    else
      var rows, index := Rows(e, a, f.section), f.row.value;
      if index >= |rows| || !rows[index].expandable then a
      else
        EnterChild(e, RebuiltIf(a.(expanded := a.expanded + {rows[index].key}), f.section),
                   f.section, NodePath(rows, index))
  }

  function Toggled<T>(s: set<T>, x: T): set<T> {
    if x in s then s - {x} else s + {x}
  }

  function ToggleExpanded(e: Env, a: App): App {
    var f := a.focus.Get(a.tab);
    if a.documentFocused then a
    else if f.row.None? then a.(collapsed := Toggled(a.collapsed, f.section))
    else
      var rows, index := Rows(e, a, f.section), f.row.value;
      if index >= |rows| || !rows[index].expandable then a
      else Clamped(e, RebuiltIf(a.(expanded := Toggled(a.expanded, rows[index].key)), f.section))
  }

  function SelectedKey(e: Env, a: App): Option<Key> {
    var f := a.focus.Get(a.tab);
    if f.row.None? then None
    else
      var rows := Rows(e, a, f.section);
      if f.row.value < |rows| then Some(rows[f.row.value].key) else None
  }

  function OpenSelected(e: Env, a: App): App {
    var key := SelectedKey(e, a);
    if key.Some? && key.value.SourceKey? && a.content.Some? then a.(documentFocused := true) else a
  }

  function LeaveDocument(a: App): App { a.(documentFocused := false) }

  // ---- contexts

  /** `activate_context`: nothing of the old context stays. */
  function Activate(a: App, index: nat): App {
    a.(contextIndex := index, context := None, resources := None, sources := None, hierarchy := None,
       sourceRows := [], content := None, initializedKinds := {}, captures := [], details := map[],
       focus := PerTab(Focus(Contexts, Some(index)), Focus(Attention, None)),
       documentFocused := false, expanded := {}, lastVisited := map[], loading := {},
       queried := a.queried * {Contexts})
  }

  function SelectContext(a: App, delta: int): App
    requires Sound(a)
  {
    Activate(a, (a.contextIndex + delta) % |a.contexts|)
  }

  function ContextPosition(contexts: seq<ContextSummary>, id: string): (r: Option<nat>)
    ensures r.Some? ==> r.value < |contexts| && contexts[r.value].id == id
    ensures r.None? <==> !Lists(contexts, id)
  {
    PositionFrom(contexts, id, 0)
  }

  predicate Lists(contexts: seq<ContextSummary>, id: string) {
    exists c | c in contexts :: c.id == id
  }

  function PositionFrom(contexts: seq<ContextSummary>, id: string, from: nat): (r: Option<nat>)
    requires from <= |contexts|
    ensures r.Some? ==> from <= r.value < |contexts| && contexts[r.value].id == id
    ensures r.None? <==> !Lists(contexts[from..], id)
    decreases |contexts| - from
  {
    if from == |contexts| then None
    else
      assert contexts[from..] == [contexts[from]] + contexts[from + 1..];
      if contexts[from].id == id then Some(from) else PositionFrom(contexts, id, from + 1)
  }

  function SelectContextId(a: App, id: string): Option<App> {
    var index := ContextPosition(a.contexts, id);
    if index.Some? && index.value != a.contextIndex then Some(Activate(a, index.value)) else None
  }

  /** A context row's id, if it is still listed. */
  function SelectedContextId(e: Env, a: App): Option<string> {
    var key := SelectedKey(e, a);
    if key.Some? && key.value.ContextKey? && ContextPosition(a.contexts, key.value.contextId).Some?
    then Some(key.value.contextId) else None
  }

  // ---- data arriving from the service

  /** When the current context is no longer listed its old index is kept. */
  function WithContexts(a: App, contexts: seq<ContextSummary>): App
    requires Sound(a)
  {
    var index := ContextPosition(contexts, ContextId(a));
    a.(queried := a.queried + {Contexts}, contexts := contexts,
       contextIndex := if index.Some? then index.value else a.contextIndex)
  }

  function TreeKeys(trees: seq<Proc.ProcessTree>): set<Key> {
    if trees == [] then {} else {ProcessTreeKey(trees[0].rootPid)} + TreeKeys(trees[1..])
  }

  function GroupKeys(connections: seq<string>): set<Key> {
    if connections == [] then {} else {TargetGroupKey(connections[0])} + GroupKeys(connections[1..])
  }

  function BreakpointKeys(breakpoints: seq<Breakpoint>): set<Key> {
    if breakpoints == [] then {}
    else
      (if breakpoints[0].applications != [] then {BreakpointKey(breakpoints[0].id)} else {})
      + BreakpointKeys(breakpoints[1..])
  }

  function DefaultKeys(a: App): set<Key> {
    TreeKeys(a.processes)
    + if a.context.Some? then GroupKeys(a.context.value.connections) + BreakpointKeys(a.context.value.breakpoints)
      else {}
  }

  function ExpandedDefaults(a: App): App {
    a.(expanded := a.expanded + DefaultKeys(a))
  }

  /** Some debugger-attached target has this identity and connection generation. */
  predicate Backs(forest: seq<TargetNode>, id: TargetId, generation: nat) {
    forest != [] &&
    ((forest[0].connectionId == id.0 && forest[0].targetId == id.1 && forest[0].generation == generation
      && forest[0].attachment == Debugger)
     || Backs(forest[1..], id, generation))
  }

  function FindTarget(forest: seq<TargetNode>, id: TargetId): Option<TargetNode> {
    if forest == [] then None
    else if forest[0].connectionId == id.0 && forest[0].targetId == id.1 then Some(forest[0])
    else FindTarget(forest[1..], id)
  }

  function Summarized(contexts: seq<ContextSummary>, id: string, revision: nat): (r: seq<ContextSummary>)
    ensures |r| == |contexts|
  {
    if contexts == [] then []
    else if contexts[0].id == id then [ContextSummary(id, revision)] + contexts[1..]
    else [contexts[0]] + Summarized(contexts[1..], id, revision)
  }

  /** Details of targets that the snapshot no longer shows attached in the same generation. */
  function BackedDetails(details: map<TargetId, Detail>, forest: seq<TargetNode>): map<TargetId, Detail> {
    map k | k in details && Backs(forest, k, details[k].generation) :: details[k]
  }

  function WithContext(a: App, snapshot: ContextSnapshot): App {
    ExpandedDefaults(a.(details := BackedDetails(a.details, snapshot.forest),
                        contexts := Summarized(a.contexts, snapshot.id, snapshot.revision),
                        context := Some(snapshot)))
  }

  /** Snapshots of other contexts and older revisions are dropped. */
  predicate Applies(a: App, snapshot: ContextSnapshot)
    requires Sound(a)
  {
    snapshot.id == ContextId(a) && !(a.context.Some? && a.context.value.revision > snapshot.revision)
  }

  function WithProcesses(a: App, processes: seq<Proc.ProcessTree>): App {
    ExpandedDefaults(a.(queried := a.queried + {Processes} - {Connections}, processes := processes))
  }

  function WithResources(a: App, resources: Res.Graph): App {
    a.(queried := a.queried + {Connections}, resources := Some(resources))
  }

  /** The folders of a kind seen for the first time open. */
  function SourcesHeld(a: App, tree: SourceTree, hierarchy: Folder): App {
    a.(queried := a.queried + {Sources}, initializedKinds := a.initializedKinds + {tree.kind},
       expanded :=
         if tree.kind in a.initializedKinds then a.expanded
         else a.expanded + SourceRows.CollectFolderKeys(hierarchy, tree.kind, []),
       sources := Some(tree), hierarchy := Some(hierarchy))
  }

  function WithSources(e: Env, a: App, tree: SourceTree): App {
    Rebuilt(SourcesHeld(a, tree, FromSnapshot(e.place, tree.sources)))
  }

  function NextKind(kind: SourceKind): SourceKind {
    match kind
    case SourceMapped => Formatted
    case Formatted => Loaded
    case Loaded => SourceMapped
    case Resolved => SourceMapped
  }

  function ToggleSourceKind(a: App): App {
    a.(sourceKind := NextKind(a.sourceKind), sources := None, hierarchy := None, sourceRows := [], content := None,
       loading := a.loading - {Sources}, queried := a.queried - {Sources},
       focus := a.focus.Set(Debug, Focus(Sources, None)))
  }

  function WithCaptures(a: App, captures: seq<string>): App {
    a.(queried := a.queried + {Captures}, captures := captures)
  }

  function SetSourceContent(a: App, content: Option<string>): App {
    a.(content := content, documentFocused := content.Some? && a.documentFocused)
  }

  function WithDetail(a: App, detail: Detail): App {
    a.(details := a.details[(detail.connectionId, detail.targetId) := detail])
  }

  /** The detail is about a target that the current snapshot shows attached in the same generation. */
  predicate Wanted(a: App, detail: Detail)
    requires Sound(a)
  {
    var current := if a.context.Some? then FindTarget(a.context.value.forest, (detail.connectionId, detail.targetId))
      else None;
    detail.contextId == ContextId(a) && current.Some?
    && current.value.attachment == Debugger && current.value.generation == detail.generation
  }

  function WithoutDetail(a: App, id: TargetId): App {
    a.(details := a.details - {id})
  }

  /** Data brought by the service. */
  datatype Refresh =
    | NewContexts(contexts: seq<ContextSummary>)
    | NewContext(snapshot: ContextSnapshot)
    | NewProcesses(processes: seq<Proc.ProcessTree>)
    | NewResources(resources: Res.Graph)
    | NewSources(sources: SourceTree)
    | NewCaptures(captures: seq<string>)
    | NewDetail(detail: Detail)
    | LostDetail(id: TargetId)

  /** The state with the new data in place and the focus not yet restored. */
  function Installed(e: Env, a: App, r: Refresh): App
    requires Sound(a)
  {
    match r
    case NewContexts(contexts) => WithContexts(a, contexts)
    case NewContext(snapshot) => WithContext(a, snapshot)
    case NewProcesses(processes) => WithProcesses(a, processes)
    case NewResources(resources) => WithResources(a, resources)
    case NewSources(sources) => WithSources(e, a, sources)
    case NewCaptures(captures) => WithCaptures(a, captures)
    case NewDetail(detail) => WithDetail(a, detail)
    case LostDetail(id) => WithoutDetail(a, id)
  }

  /** The refresh is dropped: stale, foreign, of another source kind, or no news. */
  predicate Dropped(a: App, r: Refresh)
    requires Sound(a)
  {
    match r
    case NewContext(snapshot) => !Applies(a, snapshot)
    case NewSources(sources) => sources.kind != a.sourceKind || a.sources == Some(sources)
    case NewDetail(detail) => !Wanted(a, detail)
    case _ => false
  }

  /** Even a dropped source tree of the selected kind counts as an answer to the query. */
  function Noted(a: App, r: Refresh): App {
    if r.NewSources? && r.sources.kind == a.sourceKind then a.(queried := a.queried + {Sources}) else a
  }

  /** The effect of a refresh: `set_contexts`, `apply_context`, and the other setters. */
  function Refreshed(e: Env, a: App, r: Refresh): App
    requires Sound(a)
  {
    if Dropped(a, r) then Noted(a, r) else Restored(e, Installed(e, a, r), Paths(e, a))
  }

  // ---- loads and actions

  predicate Loadable(s: Section) {
    s == Contexts || s == Processes || s == Connections || s == Sources || s == Captures
  }

  predicate AnyExpanded(tree: Proc.ProcessTree, processes: seq<Proc.Process>, expanded: set<Key>) {
    processes != [] &&
    (ProcessKey(tree.rootPid, processes[0].pid) in expanded || AnyExpanded(tree, processes[1..], expanded))
  }

  predicate AnyRenderer(processes: seq<Proc.Process>) {
    processes != [] && (processes[0].renderer || AnyRenderer(processes[1..]))
  }

  predicate Demanded(tree: Proc.ProcessTree, collapsed: set<Section>, expanded: set<Key>) {
    (Connections !in collapsed && AnyRenderer(tree.processes)) || AnyExpanded(tree, tree.processes, expanded)
  }

  /** Roots whose runtime children the next process query should discover. */
  function DemandedRoots(trees: seq<Proc.ProcessTree>, collapsed: set<Section>, expanded: set<Key>): set<nat> {
    if trees == [] then {}
    else (if Demanded(trees[0], collapsed, expanded) then {trees[0].rootPid} else {})
         + DemandedRoots(trees[1..], collapsed, expanded)
  }

  predicate AnyUnobserved(trees: seq<Proc.ProcessTree>, roots: set<nat>) {
    trees != [] &&
    ((trees[0].rootPid in roots && !trees[0].targetsObserved) || AnyUnobserved(trees[1..], roots))
  }

  predicate NeedsLoad(a: App, s: Section) {
    s !in a.loading && Loadable(s) &&
    (s !in a.queried
     || (s == Processes && AnyUnobserved(a.processes, DemandedRoots(a.processes, a.collapsed, a.expanded)))
     || (s == Connections && a.context.Some? && a.resources.Some?
         && a.context.value.resourceRevision > a.resources.value.revision))
  }

  function BeginLoading(a: App, s: Section): App { a.(loading := a.loading + {s}) }

  function FinishLoading(a: App, s: Section): App { a.(loading := a.loading - {s}) }

  function LoadableOf(sections: seq<Section>): set<Section> {
    set s | s in sections && Loadable(s)
  }

  function RefreshActiveData(a: App): App {
    a.(queried := a.queried - LoadableOf(SectionsOf(a.tab))
         - (if a.tab.Runtime? && Connections !in a.collapsed then {Processes} else {}))
  }

  function BeginAction(a: App, key: Key): App { a.(pending := Some(key)) }

  /** `None` is a failed action. */
  function FinishAction(e: Env, a: App, result: Option<ContextSnapshot>): App
    requires Sound(a)
  {
    var done := a.(pending := None);
    if result.Some? then Refreshed(e, done, NewContext(result.value)) else done
  }

  // ---- what the client watches

  function AttachedTargets(contextId: string, forest: seq<TargetNode>): seq<TargetRef> {
    if forest == [] then []
    else
      (if forest[0].attachment == Debugger
       then [TargetRef(contextId, forest[0].connectionId, forest[0].targetId, forest[0].generation)] else [])
      + AttachedTargets(contextId, forest[1..])
  }

  function ObservedTargets(a: App): seq<TargetRef>
    requires Sound(a)
  {
    if a.tab.Debug? && a.context.Some? then AttachedTargets(ContextId(a), a.context.value.forest) else []
  }

  function SelectedSource(e: Env, a: App): Option<string> {
    var key := SelectedKey(e, a);
    if a.tab.Runtime? || key.None? then None
    else if key.value.SourceKey? then Some(key.value.uri)
    else a.content
  }

  function RevisionsOf(sources: seq<SourceNode>, uri: string): seq<string> {
    if sources == [] then []
    else (if sources[0].uri == uri then [sources[0].revision] else []) + RevisionsOf(sources[1..], uri)
  }

  function RevisionToken(a: App, uri: string): seq<string> {
    if a.sources.Some? then Sorting.SortIds(RevisionsOf(a.sources.value.sources, uri)) else []
  }

  /** The state right after start-up. */
  function Initial(contexts: seq<ContextSummary>, contextIndex: nat, context: ContextSnapshot): App {
    ExpandedDefaults(App(
      contexts, contextIndex, Some(context), Runtime,
      PerTab(Focus(Contexts, Some(contextIndex)), Focus(Attention, None)),
      {Processes, Connections, Targets, Attention, Sources, Breakpoints, Captures, CallStacks},
      {}, {}, map[], [], None, None, None, [], None, false, SourceMapped, {}, [], map[], {}, {Contexts}, None))
  }
}
