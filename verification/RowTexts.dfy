/** The program compares row keys as texts. In every state of a run this comes to the same as comparing the
    keys themselves. */
module RowTexts {
  import opened Common
  import opened Outline
  import opened SourceTrie
  import opened SourceUri
  import opened SourceOutline
  import opened SourceNavigation
  import opened AppModel
  import opened ClientModel
  import opened ClientFrames
  import opened ClientInvariant
  import opened ClientRuns
  import opened KeyText
  import opened Sidebar
  import opened SidebarKeys
  import FocusRestore
  import Proc = ProcessOutline
  import SourceCache
  import SourceRows

  // ---- the keys of rows

  ghost predicate GoodPlacer(place: Placer) {
    forall uri :: place(uri).folder != [] ==> GoodPath(place(uri).folder)
  }

  lemma {:induction false} ParserIsGood(parse: Parser)
    requires forall uri :: GoodUrl(parse(uri))
    ensures GoodPlacer(PlacerOf(parse))
  {
    forall uri ensures PlacerOf(parse)(uri).folder != [] ==> GoodPath(PlacerOf(parse)(uri).folder) {
      FolderPathIsGood(parse, uri);
    }
  }

  /** Folder paths are good, and the other sections have keys of their own. */
  ghost predicate GoodEnv(e: Env) {
    GoodPlacer(e.place) && forall v, s | s != Sources :: Foreign(e.outline(v, s))
  }

  lemma {:induction false} SidebarIsGood(parse: Parser, parts: Parts)
    requires (forall uri :: GoodUrl(parse(uri))) && OthersForeign(parts)
    ensures GoodEnv(EnvOf(PlacerOf(parse), parts)) && SourceCache.OtherRows(EnvOf(PlacerOf(parse), parts))
  {
    ParserIsGood(parse);
    SidebarHasNoFolders(PlacerOf(parse), parts);
    forall v, s | s != Sources ensures Foreign(RowsOf(parts, v, s)) { RowsForeign(parts, v, s); }
  }

  lemma {:induction false} PrefixIsGood(path: seq<string>, p: seq<string>)
    requires GoodPath(path) && p <= path && p != []
    ensures GoodPath(p)
  {
    assert p[0] == path[0];
    forall i | 0 < i < |p| ensures Plain(p[i]) { assert p[i] == path[i]; }
  }

  lemma {:induction false} SnapshotKeyIsGood(place: Placer, sources: seq<SourceNode>, kind: SourceKind, k: Key)
    requires GoodPlacer(place) && InSnapshot(place, sources, kind, k)
    ensures GoodKey(k)
  {
    if k.FolderKey? {
      var u :| u in Uris(sources) && k.path <= place(u).folder;
      PrefixIsGood(place(u).folder, k.path);
    }
  }

  lemma {:induction false} RowKeyIsGood(e: Env, a: App, s: Section, i: nat)
    requires GoodEnv(e) && SourcesFresh(e, a) && i < |Rows(e, a, s)|
    ensures GoodKey(Rows(e, a, s)[i].key)
  {
    if s == Sources {
      var sources, k := a.sources.value.sources, a.sourceRows[i].key;
      RowsExact(e.place, sources, a.expanded, a.sourceKind);
      assert k == RowKeys(SnapshotRows(e.place, sources, a.expanded, a.sourceKind))[i];
      SnapshotKeyIsGood(e.place, sources, a.sourceKind, k);
    } else {
      assert ForeignKey(e.outline(ViewOf(a), s)[i].key);
    }
  }

  // ---- the expanded keys

  ghost predicate GoodKeys(keys: set<Key>) { forall k | k in keys :: GoodKey(k) }

  lemma {:induction false} DefaultsAreGood(a: App)
    ensures GoodKeys(DefaultKeys(a))
  {
    TreeKeysAreGood(a.processes);
    if a.context.Some? {
      GroupKeysAreGood(a.context.value.connections);
      BreakpointKeysAreGood(a.context.value.breakpoints);
    }
  }

  lemma {:induction false} TreeKeysAreGood(trees: seq<Proc.ProcessTree>)
    ensures GoodKeys(TreeKeys(trees))
  {
    if trees != [] { TreeKeysAreGood(trees[1..]); }
  }

  lemma {:induction false} GroupKeysAreGood(connections: seq<string>)
    ensures GoodKeys(GroupKeys(connections))
  {
    if connections != [] { GroupKeysAreGood(connections[1..]); }
  }

  lemma {:induction false} BreakpointKeysAreGood(breakpoints: seq<Breakpoint>)
    ensures GoodKeys(BreakpointKeys(breakpoints))
  {
    if breakpoints != [] { BreakpointKeysAreGood(breakpoints[1..]); }
  }

  lemma {:induction false} CollectedAreGood(place: Placer, tree: SourceTree)
    requires GoodPlacer(place)
    ensures GoodKeys(SourceRows.CollectFolderKeys(FromSnapshot(place, tree.sources), tree.kind, []))
  {
    var f := FromSnapshot(place, tree.sources);
    CollectExact(tree.kind, f, []);
    forall k | k in SourceRows.CollectFolderKeys(f, tree.kind, []) ensures GoodKey(k) {
      SnapshotNodes(place, tree.sources, tree.kind, k);
      SnapshotKeyIsGood(place, tree.sources, tree.kind, k);
    }
  }

  lemma GoodParts(keys: set<Key>, a: set<Key>, b: set<Key>)
    requires keys <= a + b && GoodKeys(a) && GoodKeys(b)
    ensures GoodKeys(keys)
  {
  }

  /** The folders that a new source tree opens. */
  function OpenedFolders(e: Env, r: Refresh): set<Key> {
    if r.NewSources?
    then SourceRows.CollectFolderKeys(FromSnapshot(e.place, r.sources.sources), r.sources.kind, []) else {}
  }

  lemma {:induction false} RefreshOpens(e: Env, a: App, r: Refresh)
    requires Sound(a)
    ensures Refreshed(e, a, r).expanded <= a.expanded + (DefaultKeys(Installed(e, a, r)) + OpenedFolders(e, r))
  {
    if !Dropped(a, r) { FocusRestore.RestoredFrame(e, Installed(e, a, r), Paths(e, a)); }
  }

  lemma {:induction false} OpenedFoldersAreGood(e: Env, r: Refresh)
    requires GoodEnv(e)
    ensures GoodKeys(OpenedFolders(e, r))
  {
    if r.NewSources? { CollectedAreGood(e.place, r.sources); }
  }

  lemma {:induction false} RefreshKeepsGood(e: Env, a: App, r: Refresh)
    requires GoodEnv(e) && Sound(a) && GoodKeys(a.expanded)
    ensures GoodKeys(Refreshed(e, a, r).expanded)
  {
    var defaults, folders := DefaultKeys(Installed(e, a, r)), OpenedFolders(e, r);
    DefaultsAreGood(Installed(e, a, r));
    OpenedFoldersAreGood(e, r);
    GoodParts(defaults + folders, defaults, folders);
    RefreshOpens(e, a, r);
    GoodParts(Refreshed(e, a, r).expanded, a.expanded, defaults + folders);
  }

  /** The key of the focused row. */
  function FocusedKey(e: Env, a: App): set<Key> {
    var key := SelectedKey(e, a);
    if key.Some? then {key.value} else {}
  }

  lemma {:induction false} FocusedKeyIsGood(e: Env, a: App)
    requires GoodEnv(e) && SourcesFresh(e, a)
    ensures GoodKeys(FocusedKey(e, a))
  {
    var f := a.focus.Get(a.tab);
    if f.row.Some? && f.row.value < |Rows(e, a, f.section)| { RowKeyIsGood(e, a, f.section, f.row.value); }
  }

  lemma {:induction false} RightOpens(e: Env, a: App)
    ensures NavigateRight(e, a).expanded <= a.expanded + FocusedKey(e, a)
  {
    var f := a.focus.Get(a.tab);
    if !a.documentFocused {
      if f.row.None? {
        EnterFrame(e, a.(collapsed := a.collapsed - {f.section}), f.section, []);
      } else if f.row.value < |Rows(e, a, f.section)| {
        var rows, index := Rows(e, a, f.section), f.row.value;
        EnterFrame(e, RebuiltIf(a.(expanded := a.expanded + {rows[index].key}), f.section), f.section,
          NodePath(rows, index));
      }
    }
  }

  lemma TabOpens(e: Env, a: App, tab: Tab)
    ensures SetTab(e, a, tab).expanded == a.expanded
  {
  }

  lemma SelectionOpens(e: Env, a: App, delta: int, last: bool)
    ensures MoveSelection(e, a, delta).expanded == a.expanded && SelectEdge(e, a, last).expanded == a.expanded
  {
  }

  lemma LeftOpens(e: Env, a: App)
    ensures NavigateLeft(e, a).expanded <= a.expanded
  {
  }

  lemma ToggleOpens(e: Env, a: App)
    ensures ToggleExpanded(e, a).expanded <= a.expanded + FocusedKey(e, a)
  {
  }

  lemma SpaceOpens(e: Env, c: Client, offer: Option<Key>)
    ensures PressSpace(e, c, offer).app.expanded <= c.app.expanded + FocusedKey(e, c.app)
  {
    ToggleOpens(e, c.app);
  }

  lemma {:induction false} EnterOpens(e: Env, c: Client)
    ensures PressEnter(e, c).app.expanded <= c.app.expanded
  {
    var step := EnterTakes(e, c);
  }

  lemma {:induction false} MoveCharOpens(e: Env, c: Client, ch: char, offer: Option<Key>)
    requires Sound(c.app) && ch in {'1', '2', 'k', 'j', 'g', 'G', 'h', 'l'}
    ensures PressChar(e, c, ch, offer).app.expanded <= c.app.expanded + FocusedKey(e, c.app)
  {
    if ch == 'l' { RightOpens(e, c.app); }
    else if ch == 'h' { LeftOpens(e, c.app); }
    else if ch == '1' || ch == '2' { TabOpens(e, c.app, if ch == '1' then Runtime else Debug); }
    else { SelectionOpens(e, c.app, if ch == 'k' then -1 else 1, ch == 'G'); }
  }

  lemma {:induction false} StepOpens(e: Env, c: Client, p: Client, step: KeyStep)
    requires Took(e, c, p, step) && !step.Moves?
    ensures p.app.expanded <= c.app.expanded
  {
  }

  lemma {:induction false} CharOpens(e: Env, c: Client, ch: char, offer: Option<Key>)
    requires Sound(c.app)
    ensures PressChar(e, c, ch, offer).app.expanded <= c.app.expanded + FocusedKey(e, c.app)
  {
    if ch in {'1', '2', 'k', 'j', 'g', 'G', 'h', 'l'} {
      MoveCharOpens(e, c, ch, offer);
    } else if ch == ' ' {
      SpaceOpens(e, c, offer);
    } else {
      var step := CharTakes(e, c, ch, offer);
      if !step.Moves? { StepOpens(e, c, PressChar(e, c, ch, offer), step); }
    }
  }

  /** A key opens nothing but the focused row. */
  lemma {:induction false} PressOpens(e: Env, c: Client, key: KeyCode, offer: Option<Key>)
    requires Sound(c.app)
    ensures Press(e, c, key, offer).app.expanded <= c.app.expanded + FocusedKey(e, c.app)
  {
    match key {
      case Char(ch) => CharOpens(e, c, ch, offer);
      case TabKey(_) => TabOpens(e, c.app, if c.app.tab.Runtime? then Debug else Runtime);
      case BackTab => TabOpens(e, c.app, if c.app.tab.Runtime? then Debug else Runtime);
      case Left => LeftOpens(e, c.app);
      case Right => RightOpens(e, c.app);
      case Enter => EnterOpens(e, c);
      case _ => SelectionOpens(e, c.app, if key.Up? then -1 else 1, key.End?);
    }
  }

  lemma {:induction false} PressKeepsGood(e: Env, c: Client, key: KeyCode, offer: Option<Key>)
    requires GoodEnv(e) && Sound(c.app) && SourcesFresh(e, c.app) && GoodKeys(c.app.expanded)
    ensures GoodKeys(Press(e, c, key, offer).app.expanded)
  {
    PressOpens(e, c, key, offer);
    FocusedKeyIsGood(e, c.app);
    GoodParts(Press(e, c, key, offer).app.expanded, c.app.expanded, FocusedKey(e, c.app));
  }

  lemma {:induction false} HandleKeepsGood(e: Env, c: Client, event: Event)
    requires GoodEnv(e) && SourceCache.OtherRows(e) && Inv(e, c) && Lawful(c, event) && GoodKeys(c.app.expanded)
    ensures GoodKeys(Handle(e, c, event).app.expanded)
  {
    match event {
      case Tick => RequestIsRequested(c);
      case Pressed(key, offer) =>
        PressKeepsGood(e, c, key, offer);
        PressKeepsInv(e, c, key, offer);
        RequestIsRequested(Press(e, c, key, offer));
      case ContextArrived(snapshot) => RefreshKeepsGood(e, c.app, NewContext(snapshot));
      case TargetArrived(ord, target, detail) => RefreshKeepsGood(e, c.app, TargetRefresh(target, detail));
      case DataArrived(load, data) =>
        if data.Some? { RefreshKeepsGood(e, FinishLoading(c.app, load.section), data.value); }
      case ActionFinished(result) =>
        if result.Some? { RefreshKeepsGood(e, c.app.(pending := None), NewContext(result.value)); }
      case _ =>
    }
  }

  lemma {:induction false} TurnKeepsGood(e: Env, c: Client, t: Turn)
    requires GoodEnv(e) && SourceCache.OtherRows(e) && Good(e, c) && GoodKeys(c.app.expanded)
    requires Sound(Drawn(c, t).app) && Lawful(Drawn(c, t), t.event)
    ensures Sound(Handle(e, Drawn(c, t), t.event).app) && GoodKeys(TakeTurn(e, c, t).app.expanded)
  {
    MovedDraw(c.app, t.viewports);
    DrawKeepsInv(e, c, t);
    HandleKeepsInv(e, Drawn(c, t), t.event);
    HandleKeepsGood(e, Drawn(c, t), t.event);
  }

  lemma {:induction false} RunKeepsGood(e: Env, c: Client, turns: seq<Turn>)
    requires GoodEnv(e) && SourceCache.OtherRows(e) && Good(e, c) && GoodKeys(c.app.expanded) && Possible(e, c, turns)
    ensures GoodKeys(After(e, c, turns).app.expanded)
    decreases |turns|
  {
    if turns != [] {
      TurnKeepsGood(e, c, turns[0]);
      TurnIsGood(e, c, turns[0]);
      RunKeepsGood(e, TakeTurn(e, c, turns[0]), turns[1..]);
    }
  }

  lemma {:induction false} ReachableIsGood(e: Env, c: Client)
    requires GoodEnv(e) && SourceCache.OtherRows(e) && Reachable(e, c)
    ensures GoodKeys(c.app.expanded)
  {
    var c0: Client, turns: seq<Turn> :| Starting(c0) && Possible(e, c0, turns) && c == After(e, c0, turns);
    var contexts: seq<ContextSummary>, index: nat, context: ContextSnapshot :|
      index < |contexts| && context.id == contexts[index].id && c0 == Start(Initial(contexts, index, context));
    var a := Initial(contexts, index, context);
    DefaultsAreGood(a);
    RequestIsRequested(Client(a, Service(map[], 0, [], 0, None), [], None, {}, 0, map[], map[]));
    StartIsGood(e, contexts, index, context);
    RunKeepsGood(e, c0, turns);
  }

  // ---- comparing texts

  ghost function Texts(keys: set<Key>): set<string> { set k | k in keys :: Text(k) }

  lemma {:induction false} TextLookup(keys: set<Key>, k: Key)
    requires GoodKeys(keys) && GoodKey(k)
    ensures Text(k) in Texts(keys) <==> k in keys
  {
    if Text(k) in Texts(keys) {
      var l :| l in keys && Text(l) == Text(k);
      TextInjective(k, l);
    }
  }

  /** In every reachable state of the client with its sidebar: looking up the text of a row among the texts
      of the expanded keys finds it exactly when the row's key is expanded, and rows of any sections have
      the same text only if they have the same key. */
  lemma {:induction false} TextsSpeakForKeys(
      parse: Parser, parts: Parts, e: Env, c: Client, s: Section, i: nat, t: Section, j: nat)
    requires (forall uri :: GoodUrl(parse(uri))) && OthersForeign(parts) && e == EnvOf(PlacerOf(parse), parts)
    requires Reachable(e, c) && i < |Rows(e, c.app, s)| && j < |Rows(e, c.app, t)|
    ensures var k, l := Rows(e, c.app, s)[i].key, Rows(e, c.app, t)[j].key;
      && (Text(k) in Texts(c.app.expanded) <==> k in c.app.expanded)
      && (Text(k) == Text(l) <==> k == l)
  {
    SidebarIsGood(parse, parts);
    ReachableStatesAreInOrder(e, c);
    ReachableIsGood(e, c);
    RowKeyIsGood(e, c.app, s, i);
    RowKeyIsGood(e, c.app, t, j);
    TextLookup(c.app.expanded, Rows(e, c.app, s)[i].key);
    if Text(Rows(e, c.app, s)[i].key) == Text(Rows(e, c.app, t)[j].key) {
      TextInjective(Rows(e, c.app, s)[i].key, Rows(e, c.app, t)[j].key);
    }
  }
}
