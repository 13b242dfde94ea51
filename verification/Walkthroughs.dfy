/** Two runs from start-up, key by key. */
module Walkthroughs {
  import opened Common
  import opened Outline
  import opened AppModel
  import opened ClientModel
  import opened ClientRuns
  import opened SelectionMoves
  import opened Sidebar
  import opened SidebarFocus
  import VanishedContext

  // ---- turns of the debug tab

  lemma {:induction false} UncollapsedAre(a: App, sections: seq<Section>)
    ensures forall s | s in Uncollapsed(a, sections) :: s in sections && s !in a.collapsed
  {
    if sections != [] { UncollapsedAre(a, sections[1..]); }
  }

  lemma {:induction false} NoneNeeded(c: Client, sections: seq<Section>)
    requires Sound(c.app) && forall s | s in sections :: !NeedsLoad(c.app, s)
    ensures RequestLoads(c, sections) == c
    decreases |sections|
  {
    if sections != [] { NoneNeeded(c, sections[1..]); }
  }

  /** Open in the debug tab is at most what is never loaded, no target is attached and no source selected. */
  ghost predicate Idle(e: Env, a: App) {
    && Sound(a) && a.tab.Debug? && Sources in a.collapsed && Captures in a.collapsed
    && a.context.Some? && a.context.value.forest == [] && a.content.None?
    && (SelectedKey(e, a).Some? ==> !SelectedKey(e, a).value.SourceKey?)
  }

  lemma {:induction false} IdleAsksNothing(e: Env, c: Client)
    requires Idle(e, c.app)
    ensures RequestActive(c) == c && ObservedTargets(c.app) == [] && NextSelection(e, c.app).None?
  {
    UncollapsedAre(c.app, SectionsOf(Debug));
    NoneNeeded(c, ActiveSections(c.app));
  }

  /** A key leads to an idle state. */
  lemma {:induction false} IdleTurn(e: Env, c: Client, t: Turn, p: App)
    requires Reachable(e, c) && Sound(Drawn(c, t).app) && c.observed == [] && c.selected.None? && Idle(e, p)
    requires t.event.Pressed? && !Quits(Drawn(c, t), t.event.key)
    requires Press(e, Drawn(c, t), t.event.key, t.event.offer) == c.(app := p)
    ensures Reachable(e, c.(app := p))
  {
    IdleAsksNothing(e, c.(app := p));
    TurnIsReachable(e, c, t);
  }

  /** Start-up with one context "a". */
  function Begun(snapshot: ContextSnapshot): Client {
    Client(Initial([ContextSummary("a", 0)], 0, snapshot), Service(map[], 0, [], 0, None), [], None, {}, 0, map[],
      map[])
  }

  lemma {:induction false} BegunIsReached(e: Env, snapshot: ContextSnapshot)
    requires snapshot.id == "a"
    ensures Reachable(e, Begun(snapshot))
  {
    var contexts := [ContextSummary("a", 0)];
    VanishedContext.OnlyContextsOpen(Begun(snapshot));
    assert Start(Initial(contexts, 0, snapshot)) == Begun(snapshot);
    assert Starting(Begun(snapshot));
    ReachedBy(e, Begun(snapshot), []);
  }

  function DebugHeader(a: App, s: Section): App {
    a.(tab := Debug, focus := PerTab(a.focus.runtime, Focus(s, None)))
  }

  lemma TabShowsHeader(e: Env, a: App)
    requires Attention in a.collapsed && a.focus.debug == Focus(Attention, None) && !a.documentFocused
    ensures SetTab(e, a, Debug) == DebugHeader(a, Attention)
  {
  }

  lemma PressShowsHeader(e: Env, c: Client)
    requires Attention in c.app.collapsed && c.app.focus.debug == Focus(Attention, None) && !c.app.documentFocused
    requires Sound(c.app)
    ensures Press(e, c, Char('2'), None) == c.(app := DebugHeader(c.app, Attention))
  {
    TabShowsHeader(e, c.app);
  }

  lemma UndrawnTurn(c: Client, t: Turn)
    requires t.viewports == []
    ensures Drawn(c, t) == c
  {
  }

  lemma {:induction false} DebugIsReached(e: Env, c: Client, t: Turn)
    requires Reachable(e, c) && c.observed == [] && c.selected.None? && t == Turn([], Pressed(Char('2'), None))
    requires Attention in c.app.collapsed && c.app.focus.debug == Focus(Attention, None) && !c.app.documentFocused
    requires Idle(e, DebugHeader(c.app, Attention))
    ensures Reachable(e, c.(app := DebugHeader(c.app, Attention)))
  {
    PressShowsHeader(e, c);
    UndrawnTurn(c, t);
    IdleTurn(e, c, t, DebugHeader(c.app, Attention));
  }

  // ---- positions

  lemma {:induction false} ShutPositions(e: Env, a: App, s: Section, rest: seq<Section>)
    requires s in a.collapsed
    ensures PositionsIn(e, a, [s] + rest) == [Focus(s, None)] + PositionsIn(e, a, rest)
  {
    assert ([s] + rest)[1..] == rest;
  }

  const BELOW := [Breakpoints, Captures, CallStacks]

  lemma {:induction false} PositionsStart(e: Env, a: App)
    requires a.tab.Debug? && Attention in a.collapsed && Sources in a.collapsed
    ensures Positions(e, a) == [Focus(Attention, None), Focus(Sources, None)] + PositionsIn(e, a, BELOW)
  {
    ShutPositions(e, a, Sources, BELOW);
    ShutPositions(e, a, Attention, [Sources] + BELOW);
    assert [Attention] + ([Sources] + BELOW) == SectionsOf(Debug);
  }

  /** The first positions of the debug tab. */
  lemma {:induction false} HeaderPositions(e: Env, a: App)
    requires a.tab.Debug? && Attention in a.collapsed && Sources in a.collapsed
    ensures var p := Positions(e, a);
      && |p| >= 3 && p[0] == Focus(Attention, None) && p[1] == Focus(Sources, None) && p[2] == Focus(Breakpoints, None)
  {
    PositionsStart(e, a);
    assert PositionsIn(e, a, BELOW)[0] == Focus(Breakpoints, None);
  }

  lemma {:induction false} RowPositionAt(e: Env, a: App, k: nat)
    requires a.tab.Debug? && Attention in a.collapsed && Sources in a.collapsed
    requires Breakpoints !in a.collapsed && Breakpoints in a.visible && k < |Rows(e, a, Breakpoints)|
    ensures var p := Positions(e, a); 3 + k < |p| && p[3 + k] == Focus(Breakpoints, Some(k))
  {
    var n := |Rows(e, a, Breakpoints)|;
    PositionsStart(e, a);
    RowPositionsAre(Breakpoints, n, k);
    assert BELOW[1..] == [Captures, CallStacks];
    assert PositionsIn(e, a, BELOW)
      == [Focus(Breakpoints, None)] + RowPositions(Breakpoints, n) + PositionsIn(e, a, [Captures, CallStacks]);
  }

  lemma {:induction false} DownLands(e: Env, a: App, i: nat)
    requires !a.documentFocused && i + 1 < |Positions(e, a)| && a.focus.Get(a.tab) == Positions(e, a)[i]
    ensures MoveSelection(e, a, 1) == Remembered(e, Focused(a, Positions(e, a)[i + 1]), a.tab)
  {
    PositionsDiffer(e, a);
    PositionFound(Positions(e, a), i);
  }

  const DOWN := Turn([], Pressed(Char('j'), None))

  /** The client looks idle and waits for nothing. */
  ghost predicate AtRest(e: Env, c: Client) {
    Reachable(e, c) && Idle(e, c.app) && !c.app.documentFocused && c.observed == [] && c.selected.None?
  }

  lemma {:induction false} DownToHeader(e: Env, c: Client, i: nat)
    requires AtRest(e, c) && i + 1 < |Positions(e, c.app)| && c.app.focus.debug == Positions(e, c.app)[i]
    requires Positions(e, c.app)[i + 1].row.None?
    ensures AtRest(e, c.(app := DebugHeader(c.app, Positions(e, c.app)[i + 1].section)))
  {
    var p := DebugHeader(c.app, Positions(e, c.app)[i + 1].section);
    DownLands(e, c.app, i);
    assert MoveSelection(e, c.app, 1) == p;
    IdleTurn(e, c, DOWN, p);
  }

  lemma {:induction false} RowIsIdle(e: Env, a: App, b: App, k: nat)
    requires Idle(e, a) && Selected(a, b, Focus(Breakpoints, Some(k)))
    requires k < |Rows(e, a, Breakpoints)| && !Rows(e, a, Breakpoints)[k].key.SourceKey?
    ensures Idle(e, b)
  {
  }

  lemma {:induction false} DownToRow(e: Env, c: Client, i: nat, k: nat) returns (d: Client)
    requires AtRest(e, c) && i + 1 < |Positions(e, c.app)| && c.app.focus.debug == Positions(e, c.app)[i]
    requires Positions(e, c.app)[i + 1] == Focus(Breakpoints, Some(k))
    requires k < |Rows(e, c.app, Breakpoints)| && !Rows(e, c.app, Breakpoints)[k].key.SourceKey?
    ensures AtRest(e, d) && d == c.(app := d.app) && Selected(c.app, d.app, Focus(Breakpoints, Some(k)))
  {
    DownLands(e, c.app, i);
    var p := MoveSelection(e, c.app, 1);
    assert Selected(c.app, p, Focus(Breakpoints, Some(k)));
    RowIsIdle(e, c.app, p, k);
    IdleTurn(e, c, DOWN, p);
    d := c.(app := p);
  }

  // ---- the second place of a breakpoint

  const OPEN := Turn([(Breakpoints, 1)], Pressed(Char('l'), None))

  /** The breakpoints, drawn and opened. */
  function Opened(a: App): App {
    a.(visible := a.visible + {Breakpoints}, collapsed := a.collapsed - {Breakpoints})
  }

  lemma {:induction false} FirstRowIsChild(rows: seq<Row>)
    requires rows != []
    ensures rows[0].depth == 0 ==> FirstChild(rows, [], None, 0) == Some(0)
  {
    if rows[0].depth == 0 { assert NodePath(rows, 0) == [] + [rows[0].key]; }
  }

  lemma {:induction false} RightEnters(e: Env, a: App)
    requires a.tab.Debug? && !a.documentFocused && a.focus.debug == Focus(Breakpoints, None)
    requires SectionKey(Breakpoints) !in a.lastVisited
    requires var rows := Rows(e, Opened(a), Breakpoints); rows != [] && rows[0].depth == 0
    ensures Selected(Opened(a), NavigateRight(e, a.(visible := a.visible + {Breakpoints})), Focus(Breakpoints, Some(0)))
  {
    FirstRowIsChild(Rows(e, Opened(a), Breakpoints));
  }

  lemma BreakpointsDrawn(c: Client)
    ensures Drawn(c, OPEN) == c.(app := c.app.(visible := c.app.visible + {Breakpoints}))
  {
    assert OPEN.viewports[1..] == [];
  }

  lemma {:induction false} OpensBreakpoints(e: Env, c: Client) returns (d: Client)
    requires AtRest(e, c) && c.app.focus.debug == Focus(Breakpoints, None)
      && SectionKey(Breakpoints) !in c.app.lastVisited
    requires var rows := Rows(e, Opened(c.app), Breakpoints);
      rows != [] && rows[0].depth == 0 && !rows[0].key.SourceKey?
    ensures AtRest(e, d) && d == c.(app := d.app) && Selected(Opened(c.app), d.app, Focus(Breakpoints, Some(0)))
  {
    RightEnters(e, c.app);
    var p := NavigateRight(e, c.app.(visible := c.app.visible + {Breakpoints}));
    BreakpointsDrawn(c);
    IdleTurn(e, c, OPEN, p);
    d := c.(app := p);
  }

  const PLACES := Begun(SNAPSHOT)

  lemma {:induction false} DownToSources(e: Env, c: Client)
    requires AtRest(e, c) && Attention in c.app.collapsed && c.app.focus.debug == Focus(Attention, None)
    ensures AtRest(e, c.(app := DebugHeader(c.app, Sources)))
  {
    HeaderPositions(e, c.app);
    DownToHeader(e, c, 0);
  }

  lemma {:induction false} DownToBreakpoints(e: Env, c: Client)
    requires AtRest(e, c) && Attention in c.app.collapsed && c.app.focus.debug == Focus(Sources, None)
    ensures AtRest(e, c.(app := DebugHeader(c.app, Breakpoints)))
  {
    HeaderPositions(e, c.app);
    DownToHeader(e, c, 1);
  }

  lemma HeadersReplace(c: Client, s: Section, t: Section)
    ensures DebugHeader(DebugHeader(c.app, s), t) == DebugHeader(c.app, t)
    ensures c.(app := DebugHeader(c.app, s)).(app := DebugHeader(c.app, t)) == c.(app := DebugHeader(c.app, t))
  {
  }

  /** From start-up: the keys `2` and `j`. */
  lemma {:induction false} SourcesHeaderIsReached(e: Env, snapshot: ContextSnapshot)
    requires snapshot.id == "a" && snapshot.forest == []
    ensures var c := Begun(snapshot); AtRest(e, c.(app := DebugHeader(c.app, Sources)))
  {
    var c := Begun(snapshot);
    BegunIsReached(e, snapshot);
    DebugIsReached(e, c, Turn([], Pressed(Char('2'), None)));
    HeadersReplace(c, Attention, Sources);
    DownToSources(e, c.(app := DebugHeader(c.app, Attention)));
  }

  lemma {:induction false} BreakpointsHeaderIsReached(e: Env) returns (c: Client)
    ensures AtRest(e, c) && c == PLACES.(app := DebugHeader(PLACES.app, Breakpoints))
  {
    SourcesHeaderIsReached(e, SNAPSHOT);
    HeadersReplace(PLACES, Sources, Breakpoints);
    DownToBreakpoints(e, PLACES.(app := DebugHeader(PLACES.app, Sources)));
    c := PLACES.(app := DebugHeader(PLACES.app, Breakpoints));
  }

  /** The rows of the breakpoint whatever is focused. */
  lemma {:induction false} PlaceRowsShown(e: Env, parts: Parts, a: App)
    requires e == EnvOf(e.place, parts) && a.context == Some(SNAPSHOT) && BreakpointKey("b") in a.expanded
    ensures Rows(e, a, Breakpoints) == [Row(BreakpointKey("b"), 0, true, true), PlaceRow(), PlaceRow()]
  {
    PlaceRowsAre(ViewOf(a));
  }

  /** The keys `2`, `j`, `j`, `l`, `j`, `j` select the second place. */
  lemma {:induction false} SecondPlaceIsReached(e: Env, parts: Parts) returns (c: Client)
    requires e == EnvOf(e.place, parts)
    ensures Reachable(e, c) && c.app == SecondPlaceSelected(c.app.lastVisited)
  {
    var c3 := BreakpointsHeaderIsReached(e);
    PlaceRowsShown(e, parts, Opened(c3.app));
    var c4 := OpensBreakpoints(e, c3);
    PlaceRowsShown(e, parts, c4.app);
    RowPositionAt(e, c4.app, 0);
    RowPositionAt(e, c4.app, 1);
    var c5 := DownToRow(e, c4, 3, 1);
    PlaceRowsShown(e, parts, c5.app);
    RowPositionAt(e, c5.app, 1);
    RowPositionAt(e, c5.app, 2);
    c := DownToRow(e, c5, 4, 2);
    SecondPlaceIs(c4.app, c5.app, c.app);
  }

  lemma {:induction false} SecondPlaceIs(a: App, b: App, c: App)
    requires Selected(Opened(DebugHeader(PLACES.app, Breakpoints)), a, Focus(Breakpoints, Some(0)))
    requires Selected(a, b, Focus(Breakpoints, Some(1))) && Selected(b, c, Focus(Breakpoints, Some(2)))
    ensures c == SecondPlaceSelected(c.lastVisited)
  {
  }

  /** In that state the unchanged snapshot may arrive again, and the selection moves to the first place. */
  lemma {:induction false} SelectionMovesInARun(e: Env, parts: Parts) returns (c: Client)
    requires e == EnvOf(e.place, parts)
    ensures Reachable(e, c) && Sound(c.app) && c.app.context == Some(SNAPSHOT)
    ensures Lawful(c, ContextArrived(SNAPSHOT)) && c.app.focus.debug == Focus(Breakpoints, Some(2))
    ensures var d := Handle(e, c, ContextArrived(SNAPSHOT));
      ViewOf(d.app) == ViewOf(c.app) && d.app.focus.debug == Focus(Breakpoints, Some(1))
  {
    c := SecondPlaceIsReached(e, parts);
    SameSnapshotMovesFocus(e, parts, c.app);
  }
}
