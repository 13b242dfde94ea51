/** A run that opens a document and takes its sources away under it. */
module DocumentRun {
  import opened Common
  import opened Outline
  import opened SourceTrie
  import opened AppModel
  import opened ClientModel
  import opened ClientFrames
  import opened ClientRuns
  import opened Walkthroughs
  import ClientSync
  import FocusRestore
  import SourceRows
  import VanishedContext

  const FILE := SourceNode("s", "")
  const TREE := SourceTree(SourceMapped, [FILE])
  const FILE_ROW := Row(SourceKey("s"), 0, false, false)

  lemma {:induction false} OneFileRow(place: Placer, expanded: set<Key>, kind: SourceKind)
    requires place("s") == Place([], "s")
    ensures SourceRows.Rows(FromSnapshot(place, [FILE]), expanded, kind, [], 0) == [FILE_ROW]
  {
    assert [FILE][..0] == [];
    assert Gather(place, []) == NOTHING;
    assert Gather(place, [FILE]) == Insert(NOTHING, [], "s", FILE);
  }

  // ---- opening Sources and asking for them

  ghost predicate OnlySources(a: App) {
    && a.tab.Debug? && Sources !in a.collapsed
    && {Connections, Attention, Breakpoints, Captures, CallStacks} <= a.collapsed
  }

  lemma {:induction false} OnlySourcesOpen(c: Client)
    requires Sound(c.app) && OnlySources(c.app)
    ensures RequestActive(c) == if NeedsLoad(c.app, Sources) then StartLoad(c, Sources) else c
  {
    var others := [Breakpoints, Captures, CallStacks];
    assert Uncollapsed(c.app, []) == [];
    VanishedContext.ShutSection(c.app, CallStacks, []);
    VanishedContext.ShutSection(c.app, Captures, [CallStacks]);
    VanishedContext.ShutSection(c.app, Breakpoints, [Captures, CallStacks]);
    assert [CallStacks] + [] == [CallStacks] && [Captures] + [CallStacks] == [Captures, CallStacks];
    assert [Breakpoints] + [Captures, CallStacks] == others && Uncollapsed(c.app, others) == [];
    VanishedContext.ShutSection(c.app, Attention, [Sources] + others);
    assert [Attention] + ([Sources] + others) == SectionsOf(Debug) && ([Sources] + others)[1..] == others;
    assert ActiveSections(c.app) == [Sources];
    var next := if NeedsLoad(c.app, Sources) then StartLoad(c, Sources) else c;
    assert RequestLoads(c, [Sources]) == RequestLoads(next, [Sources][1..]);
  }

  /** The Sources section of the debug tab, nothing attached; the focus on its header or its one row. */
  ghost predicate InSources(c: Client, row: Option<nat>) {
    && Sound(c.app) && ContextId(c.app) == "a" && OnlySources(c.app) && c.app.focus.debug == Focus(Sources, row)
    && c.app.context.Some? && c.app.context.value.forest == [] && c.observed == [] && c.app.sourceKind.SourceMapped?
  }

  const RIGHT := Turn([], Pressed(Char('l'), None))
  const QUERY := Load(Sources, "a", 1, SourceMapped)

  lemma {:induction false} NoTargets(c: Client)
    requires Sound(c.app) && c.app.context.Some? && c.app.context.value.forest == [] && c.observed == []
    ensures SyncTargets(c) == c
  {
  }

  /** The header is focused and the sources are asked for. */
  ghost predicate Asked(e: Env, c: Client) {
    && Reachable(e, c) && InSources(c, None) && c.selected.None? && c.app.content.None? && !c.app.documentFocused
    && c.app.sources.None? && c.app.hierarchy.None? && c.app.loading == {Sources}
    && QUERY in c.loads && LoadOrd(c.service, Sources) == 1
  }

  lemma {:induction false} OpensNothing(e: Env, a: App)
    requires a.tab.Debug? && !a.documentFocused && a.focus.debug == Focus(Sources, None) && a.sourceRows == []
    ensures NavigateRight(e, a) == a.(collapsed := a.collapsed - {Sources})
  {
  }

  lemma {:induction false} SourcesAreAsked(e: Env) returns (c: Client)
    ensures Asked(e, c)
  {
    var snapshot := ContextSnapshot("a", 0, 0, [], [], []);
    var b := Begun(snapshot);
    var h := b.(app := DebugHeader(b.app, Sources));
    SourcesHeaderIsReached(e, snapshot);
    c := AsksForSources(e, h);
  }

  lemma {:induction false} KeyAsksForSources(e: Env, h: Client)
    requires Sound(h.app) && h.app.tab.Debug? && h.app.focus.debug == Focus(Sources, None) && !h.app.documentFocused
    requires h.app.sourceRows == [] && h.app.loading == {} && Sources !in h.app.queried
    requires {Connections, Attention, Breakpoints, Captures, CallStacks} <= h.app.collapsed
    ensures Handle(e, h, RIGHT.event)
      == StartLoad(h.(app := h.app.(collapsed := h.app.collapsed - {Sources})), Sources)
  {
    OpensNothing(e, h.app);
    RightAsks(e, h, h.(app := h.app.(collapsed := h.app.collapsed - {Sources})));
  }

  /** A turn whose event leaves nothing to bring in line. */
  lemma {:induction false} PlainTurn(e: Env, c: Client, t: Turn, d: Client)
    requires Reachable(e, c) && Sound(c.app) && t.viewports == [] && Lawful(c, t.event) && Handle(e, c, t.event) == d
    requires Sound(d.app) && SyncTargets(d) == d && SyncSource(e, d) == d
    ensures Reachable(e, d)
  {
    TurnIsReachable(e, c, t);
  }

  /** A turn whose event makes another source selected. */
  lemma {:induction false} SelectingTurn(e: Env, c: Client, t: Turn, p: Client)
    requires Reachable(e, c) && Sound(c.app) && t.viewports == [] && Lawful(c, t.event) && Handle(e, c, t.event) == p
    requires Sound(p.app) && SyncTargets(p) == p
    ensures Reachable(e, SyncSource(e, p))
  {
    TurnIsReachable(e, c, t);
  }

  lemma NothingSelected(e: Env, c: Client)
    requires InSources(c, None) && c.selected.None? && c.app.content.None?
    ensures SyncSource(e, c) == c
  {
  }

  lemma AskedState(c: Client, h: Client)
    requires Sound(h.app) && ContextId(h.app) == "a" && h.app.sourceKind.SourceMapped? && h.app.tab.Debug?
    requires h.app.context.Some? && h.app.context.value.forest == [] && h.observed == []
    requires {Connections, Attention, Breakpoints, Captures, CallStacks} <= h.app.collapsed
    requires h.app.focus.debug == Focus(Sources, None) && h.app.loading == {} && LoadOrd(h.service, Sources) == 0
    requires c == StartLoad(h.(app := h.app.(collapsed := h.app.collapsed - {Sources})), Sources)
    ensures InSources(c, None) && c.app.loading == {Sources} && QUERY in c.loads && LoadOrd(c.service, Sources) == 1
  {
  }

  lemma {:induction false} AsksForSources(e: Env, h: Client) returns (c: Client)
    requires AtRest(e, h) && h.app.focus.debug == Focus(Sources, None) && h.app.sourceRows == []
    requires {Connections, Attention, Breakpoints, Captures, CallStacks} <= h.app.collapsed
    requires ContextId(h.app) == "a" && h.app.sourceKind.SourceMapped? && h.app.sources.None? && h.app.hierarchy.None?
    requires h.app.loading == {} && Sources !in h.app.queried && LoadOrd(h.service, Sources) == 0
    ensures Asked(e, c)
  {
    c := StartLoad(h.(app := h.app.(collapsed := h.app.collapsed - {Sources})), Sources);
    KeyAsksForSources(e, h);
    AskedState(c, h);
    NoTargets(c);
    NothingSelected(e, c);
    PlainTurn(e, h, RIGHT, c);
  }

  // ---- the tree arrives

  /** The tree is shown, its header focused. */
  ghost predicate Shown(e: Env, c: Client) {
    && Reachable(e, c) && InSources(c, None) && c.selected.None? && c.app.content.None? && !c.app.documentFocused
    && c.app.sources == Some(TREE) && c.app.sourceRows == [FILE_ROW] && c.app.loading == {} && Sources in c.app.queried
  }

  lemma {:induction false} TreeArrives(e: Env, a: App)
    requires Sound(a) && a.sourceKind.SourceMapped? && a.sources.None? && a.focus.debug == Focus(Sources, None)
    requires e.place("s") == Place([], "s")
    ensures var b := Refreshed(e, a, NewSources(TREE));
      && b.sources == Some(TREE) && b.sourceRows == [FILE_ROW] && Sources in b.queried
      && b.focus.debug == Focus(Sources, None)
  {
    var data := Installed(e, a, NewSources(TREE));
    FocusRestore.RestoredFrame(e, data, Paths(e, a));
    OneFileRow(e.place, data.expanded, SourceMapped);
  }

  lemma {:induction false} AnswerIsShown(e: Env, c: Client) returns (d: Client)
    requires Asked(e, c) && e.place("s") == Place([], "s")
    ensures Shown(e, d)
  {
    var done := FinishLoading(c.app, Sources);
    var t := Turn([], DataArrived(QUERY, Some(NewSources(TREE))));
    d := Handle(e, c, t.event);
    TreeArrives(e, done);
    RefreshHasEffect(e, done, NewSources(TREE));
    assert d.app == Refreshed(e, done, NewSources(TREE));
    NoTargets(d);
    PlainTurn(e, c, t, d);
  }

  // ---- the source is selected, shown, and opened

  lemma {:induction false} EntersRow(e: Env, a: App)
    requires a.tab.Debug? && !a.documentFocused && a.focus.debug == Focus(Sources, None) && Sources !in a.collapsed
    requires a.sourceRows == [FILE_ROW]
    ensures var b := NavigateRight(e, a);
      b == a.(focus := PerTab(a.focus.runtime, Focus(Sources, Some(0))), lastVisited := b.lastVisited)
  {
    var rows := [FILE_ROW];
    assert NodePath(rows, 0) == [] + [FILE_ROW.key];
    assert IsChild(rows, [], 0);
    forall wanted: Option<Key> ensures FirstChild(rows, [], wanted, 1) == None {}
  }

  function Chosen(a: App): Selection { Selection("a", "s", SourceMapped, RevisionToken(a, "s")) }

  /** The row is focused and its source asked for; `content` is what is shown. */
  ghost predicate Picked(e: Env, c: Client, content: Option<string>) {
    && Reachable(e, c) && InSources(c, Some(0)) && c.selected == Some(Chosen(c.app)) && c.app.content == content
    && !c.app.documentFocused && c.app.sourceRows == [FILE_ROW] && c.app.loading == {} && Sources in c.app.queried
    && c.service.sourceOrd > 0
  }

  lemma {:induction false} SelectsFile(e: Env, c: Client)
    requires InSources(c, Some(0)) && c.app.sourceRows == [FILE_ROW]
    ensures NextSelection(e, c.app) == Some(Chosen(c.app)) && SelectedSource(e, c.app) == Some("s")
    ensures SelectedContextId(e, c.app).None?
  {
  }

  lemma {:induction false} RightPicksRow(e: Env, c: Client)
    requires Shown(e, c)
    ensures var p := c.(app := NavigateRight(e, c.app));
      && InSources(p, Some(0)) && p.app.sourceRows == [FILE_ROW] && p.app.loading == {} && Sources in p.app.queried
      && !p.app.documentFocused && p.app.content.None?
  {
    EntersRow(e, c.app);
  }

  lemma {:induction false} RightAsks(e: Env, c: Client, p: Client)
    requires Sound(c.app) && Sound(p.app) && p == c.(app := NavigateRight(e, c.app)) && OnlySources(p.app)
    ensures Handle(e, c, RIGHT.event) == if NeedsLoad(p.app, Sources) then StartLoad(p, Sources) else p
  {
    OnlySourcesOpen(p);
  }

  lemma {:induction false} KeyPicksRow(e: Env, c: Client)
    requires Shown(e, c)
    ensures Handle(e, c, RIGHT.event) == c.(app := NavigateRight(e, c.app))
  {
    RightPicksRow(e, c);
    RightAsks(e, c, c.(app := NavigateRight(e, c.app)));
  }

  lemma {:induction false} SyncPicks(e: Env, p: Client)
    requires InSources(p, Some(0)) && p.app.sourceRows == [FILE_ROW] && p.selected.None?
    ensures SyncSource(e, p) == p.(selected := Some(Chosen(p.app)), app := SetSourceContent(p.app, None),
                                   service := SetSource(p.service, Some(("a", "s", SourceMapped))))
  {
    SelectsFile(e, p);
  }

  lemma {:induction false} RowIsPicked(e: Env, c: Client) returns (d: Client)
    requires Shown(e, c)
    ensures Picked(e, d, None)
  {
    var p := c.(app := NavigateRight(e, c.app));
    RightPicksRow(e, c);
    KeyPicksRow(e, c);
    NoTargets(p);
    SyncPicks(e, p);
    SelectingTurn(e, c, RIGHT, p);
    d := SyncSource(e, p);
  }

  lemma {:induction false} ContentArrives(e: Env, c: Client) returns (d: Client)
    requires Picked(e, c, None)
    ensures Picked(e, d, Some("s"))
  {
    var t := Turn([], SourceArrived("a", "s", c.service.sourceOrd, Some("s")));
    SelectsFile(e, c);
    d := c.(app := SetSourceContent(c.app, Some("s")));
    SelectsFile(e, d);
    NoTargets(d);
    PlainTurn(e, c, t, d);
  }

  lemma {:induction false} DocumentIsOpened(e: Env, c: Client) returns (d: Client)
    requires Picked(e, c, Some("s"))
    ensures Reachable(e, d) && InSources(d, Some(0)) && d.app.content == Some("s") && d.app.documentFocused
  {
    var t := Turn([], Pressed(Enter, None));
    SelectsFile(e, c);
    d := c.(app := c.app.(documentFocused := true));
    OnlySourcesOpen(d);
    SelectsFile(e, d);
    NoTargets(d);
    PlainTurn(e, c, t, d);
  }

  lemma {:induction false} CyclingUndercuts(e: Env, c: Client)
    requires InSources(c, Some(0)) && c.app.content == Some("s") && c.app.documentFocused
    ensures ClientSync.DocumentShown(c.app) && Lawful(c, Pressed(Char('m'), None))
    ensures !ClientSync.DocumentShown(Handle(e, c, Pressed(Char('m'), None)).app)
  {
    ClientSync.EventKeepsDocument(e, c, Pressed(Char('m'), None));
  }

  /** The keys `2`, `j`, `l`, the tree of one source, `l`, its content and Enter open a document; then `m`
      leaves it focused without content. */
  lemma {:induction false} DocumentIsUndercut(e: Env) returns (c: Client)
    requires e.place("s") == Place([], "s")
    ensures Reachable(e, c) && Sound(c.app) && ClientSync.DocumentShown(c.app)
    ensures Lawful(c, Pressed(Char('m'), None)) && !ClientSync.DocumentShown(Handle(e, c, Pressed(Char('m'), None)).app)
  {
    var asked := SourcesAreAsked(e);
    var shown := AnswerIsShown(e, asked);
    var picked := RowIsPicked(e, shown);
    var read := ContentArrives(e, picked);
    c := DocumentIsOpened(e, read);
    CyclingUndercuts(e, c);
  }
}
