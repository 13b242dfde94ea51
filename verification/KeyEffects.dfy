/** What the keys do, and what the client then watches, told key by key and field by field. */
module KeyEffects {
  import opened Common
  import opened Outline
  import opened AppModel
  import opened ClientModel
  import opened ClientFrames
  import opened Demand
  import opened SourceTrie
  import Arrivals

  // ---- which key starts what

  const UP_KEYS: set<KeyCode> := {Up, Char('k')}
  const DOWN_KEYS: set<KeyCode> := {Down, Char('j')}
  const FIRST_KEYS: set<KeyCode> := {Home, Char('g')}
  const LAST_KEYS: set<KeyCode> := {End, Char('G')}
  const LEFT_KEYS: set<KeyCode> := {Left, Char('h')}
  const RIGHT_KEYS: set<KeyCode> := {Right, Char('l')}
  const TAB_KEYS: set<KeyCode> := {TabKey(false), TabKey(true), BackTab}

  /** The keys that move the selection in a list. */
  lemma {:induction false} ListKeys(e: Env, c: Client, key: KeyCode, offer: Option<Key>)
    requires Sound(c.app)
    ensures var a, p := c.app, Press(e, c, key, offer);
      && (key in UP_KEYS ==> p == c.(app := MoveSelection(e, a, -1)))
      && (key in DOWN_KEYS ==> p == c.(app := MoveSelection(e, a, 1)))
      && (key in FIRST_KEYS ==> p == c.(app := SelectEdge(e, a, false)))
      && (key in LAST_KEYS ==> p == c.(app := SelectEdge(e, a, true)))
  {
  }

  /** The keys that go out of a node or into it. */
  lemma {:induction false} TreeKeys(e: Env, c: Client, key: KeyCode, offer: Option<Key>)
    requires Sound(c.app)
    ensures var a, p := c.app, Press(e, c, key, offer);
      && (key in LEFT_KEYS ==> p == c.(app := NavigateLeft(e, a)))
      && (key in RIGHT_KEYS ==> p == c.(app := NavigateRight(e, a)))
  {
  }

  /** The keys that change the tab, and the one that leaves the document. */
  lemma {:induction false} TabKeys(e: Env, c: Client, key: KeyCode, offer: Option<Key>)
    requires Sound(c.app)
    ensures var a, p := c.app, Press(e, c, key, offer);
      && (key in TAB_KEYS ==> p == c.(app := SetTab(e, a, if a.tab == Debug then Runtime else Debug)))
      && (key == Char('1') ==> p == c.(app := SetTab(e, a, Runtime)))
      && (key == Char('2') ==> p == c.(app := SetTab(e, a, Debug)))
      && (key == Esc ==> p == c.(app := a.(documentFocused := false)))
  {
  }

  /** The selected row is a process or a window of the Processes section. */
  predicate OnProcess(e: Env, a: App) {
    var f := a.focus.Get(a.tab);
    && f.section == Processes && f.row.Some? && f.row.value < |Rows(e, a, Processes)|
    && var k := Rows(e, a, Processes)[f.row.value].key;
       k.ProcessKey? || k.WindowKey?
  }

  /** The key asks for the action that the selected row offers. */
  predicate Asks(e: Env, a: App, key: KeyCode) {
    var section := a.focus.Get(a.tab).section;
    || key == Char('c')
    || (key == Char(' ') && OnProcess(e, a))
    || (key in {Char('a'), Char('f')} && section == Targets)
    || (key in {Char('d'), Delete} && section == Connections)
    || (key == Char('b') && a.documentFocused)
  }

  lemma {:induction false} AskingKeys(e: Env, c: Client, key: KeyCode, offer: Option<Key>)
    requires Sound(c.app) && Asks(e, c.app, key)
    ensures Press(e, c, key, offer) == Perform(c, offer)
  {
  }

  lemma {:induction false} SilentChars(e: Env, c: Client, ch: char, offer: Option<Key>)
    requires Sound(c.app) && !Asks(e, c.app, Char(ch))
    ensures PressChar(e, c, ch, offer).actions == c.actions
  {
  }

  lemma {:induction false} SilentKeys(e: Env, c: Client, key: KeyCode, offer: Option<Key>)
    requires Sound(c.app) && !Asks(e, c.app, key)
    ensures Press(e, c, key, offer).actions == c.actions
  {
    if key.Char? { SilentChars(e, c, key.c, offer); }
  }

  /** An action starts by a key that asks for one, if the row offers one and none is pending; no other key
      starts one. */
  lemma {:induction false} ActionKeys(e: Env, c: Client, key: KeyCode, offer: Option<Key>)
    requires Sound(c.app)
    ensures var p, starts := Press(e, c, key, offer), c.app.pending.None? && offer.Some?;
      && (Asks(e, c.app, key) ==>
            p == if starts then c.(app := c.app.(pending := offer), actions := c.actions + 1) else c)
      && (p.actions > c.actions <==> Asks(e, c.app, key) && starts)
  {
    if Asks(e, c.app, key) { AskingKeys(e, c, key, offer); } else { SilentKeys(e, c, key, offer); }
  }

  /** The remaining keys, each with what it needs to have an effect. */
  lemma {:induction false} OtherKeys(e: Env, c: Client, key: KeyCode, offer: Option<Key>)
    requires Sound(c.app)
    ensures var a, p := c.app, Press(e, c, key, offer);
      && (key == Char(' ') && !OnProcess(e, a) ==> p == c.(app := ToggleExpanded(e, a)))
      && (key == Char('m') && a.focus.Get(a.tab).section == Sources ==> p == c.(app := ToggleSourceKind(a)))
      && (key == Char('r') ==> p == c.(app := RefreshActiveData(a)))
      && (key in {Char('a'), Char('f')} && a.focus.Get(a.tab).section != Targets ==> p == c)
      && (key in {Char('d'), Delete} && a.focus.Get(a.tab).section != Connections ==> p == c)
      && (key == Char('m') && a.focus.Get(a.tab).section != Sources ==> p == c)
      && (key == Char('b') && !a.documentFocused ==> p == c)
  {
  }

  // ---- Enter

  /** The selected row names a listed context other than the current one. */
  ghost predicate OnOtherContext(e: Env, a: App, index: nat) {
    var f := a.focus.Get(a.tab);
    && f.row.Some? && f.row.value < |Rows(e, a, f.section)|
    && var k := Rows(e, a, f.section)[f.row.value].key;
       k.ContextKey? && Arrivals.FirstOf(a.contexts, k.contextId, index) && index != a.contextIndex
  }

  /** The selected row is a source, and its document is shown. */
  predicate OnShownSource(e: Env, a: App) {
    var f := a.focus.Get(a.tab);
    && f.row.Some? && f.row.value < |Rows(e, a, f.section)|
    && Rows(e, a, f.section)[f.row.value].key.SourceKey? && a.content.Some?
  }

  lemma {:induction false} EnterSelects(e: Env, c: Client, index: nat)
    requires Sound(c.app)
    ensures OnOtherContext(e, c.app, index) ==> PressEnter(e, c) == Switched(c, Activate(c.app, index))
    ensures (forall i :: !OnOtherContext(e, c.app, i)) ==> PressEnter(e, c) == c.(app := OpenSelected(e, c.app))
  {
    var key := SelectedKey(e, c.app);
    if key.Some? && key.value.ContextKey? {
      Arrivals.PositionIsFirst(c.app.contexts, key.value.contextId, 0);
      var found := ContextPosition(c.app.contexts, key.value.contextId);
      if found.Some? && found.value != c.app.contextIndex { assert OnOtherContext(e, c.app, found.value); }
    }
  }

  /** Enter switches to the context of the selected row, or focuses the document of the selected source, or
      does nothing. */
  lemma {:induction false} EnterKey(e: Env, c: Client, offer: Option<Key>, index: nat)
    requires Sound(c.app)
    ensures var p := Press(e, c, Enter, offer);
      && (OnOtherContext(e, c.app, index) ==>
            Emptied(c.app, p.app, index) && Detached(c.service, p.service)
            && p == c.(app := p.app, service := p.service))
      && ((forall i :: !OnOtherContext(e, c.app, i)) ==>
            p == c.(app := c.app.(documentFocused := c.app.documentFocused || OnShownSource(e, c.app))))
  {
    EnterSelects(e, c, index);
  }

  // ---- what a switch of the context leaves

  /** Nothing of the old context is left but the processes, and that the contexts themselves were queried. */
  predicate Emptied(a: App, b: App, index: nat) {
    && b == a.(contextIndex := index, context := None, resources := None, sources := None, hierarchy := None,
               sourceRows := [], content := None, initializedKinds := {}, captures := [], details := map[],
               focus := PerTab(Focus(Contexts, Some(index)), Focus(Attention, None)), documentFocused := false,
               expanded := {}, lastVisited := map[], loading := {}, queried := b.queried)
    && b.queried == if Contexts in a.queried then {Contexts} else {}
  }

  /** Observers and document query of the old context are ended; messages they still send are stale. */
  predicate Detached(was: Service, now: Service) {
    now == was.(targetOrd := was.targetOrd + 1, targets := [], sourceOrd := was.sourceOrd + 1, source := None)
  }

  /** After a switch these are asked for: everything open in the shown tab that has data, except contexts that
      were queried before. */
  predicate AskedAnew(a: App, s: Section) {
    match s
    case Contexts => a.tab.Runtime? && Contexts !in a.collapsed && Contexts !in a.queried
    case Processes => a.tab.Runtime? && (Processes !in a.collapsed || Connections !in a.collapsed)
    case Connections => a.tab.Runtime? && Connections !in a.collapsed
    case Sources => a.tab.Debug? && Sources !in a.collapsed
    case Captures => a.tab.Debug? && Captures !in a.collapsed
    case _ => false
  }

  lemma {:induction false} EmptiedAsks(a: App, b: App, index: nat, s: Section)
    requires Sound(a) && index < |a.contexts| && Emptied(a, b, index)
    ensures Wants(b, s) <==> AskedAnew(a, s)
  {
  }

  lemma {:induction false} SwitchEmpties(e: Env, c: Client, forward: bool, offer: Option<Key>)
    requires Sound(c.app)
    ensures var p := Press(e, c, Char(if forward then ']' else '['), offer);
      Emptied(c.app, p.app, p.app.contextIndex) && Sound(p.app) && Detached(c.service, p.service)
  {
    Arrivals.SelectTurns(c.app, forward);
  }

  /** The keys `[` and `]` empty the client and ask anew for what is open: exactly these sections load
      afterwards, one load each, numbered one up. */
  lemma {:induction false} SwitchAsksAnew(e: Env, c: Client, forward: bool, offer: Option<Key>, s: Section)
    requires Sound(c.app)
    ensures var d := Handle(e, c, Pressed(Char(if forward then ']' else '['), offer));
      && Sound(d.app) && Emptied(c.app, d.app.(loading := {}), d.app.contextIndex)
      && Detached(c.service, d.service.(loadOrds := c.service.loadOrds))
      && (s in d.app.loading <==> AskedAnew(c.app, s))
      && LoadOrd(d.service, s) == LoadOrd(c.service, s) + (if AskedAnew(c.app, s) then 1 else 0)
  {
    var p := Press(e, c, Char(if forward then ']' else '['), offer);
    SwitchEmpties(e, c, forward, offer);
    RequestIsRequested(p);
    RequestStarts(p, s);
    EmptiedAsks(c.app, p.app, p.app.contextIndex, s);
  }

  // ---- the key r

  /** Sections of a tab whose data is queried. */
  predicate HasData(tab: Tab, s: Section) {
    if tab.Runtime? then s in {Contexts, Processes, Connections} else s in {Sources, Captures}
  }

  /** The queries of the shown tab's sections are forgotten. */
  ghost predicate Requeried(a: App, b: App) {
    && b == a.(queried := b.queried)
    && forall s :: s in b.queried <==> s in a.queried && !HasData(a.tab, s)
  }

  lemma {:induction false} RequeriedAsks(a: App, b: App, s: Section)
    requires Requeried(a, b)
    ensures Wants(b, s) <==>
      s !in a.loading
      && ((HasData(a.tab, s) && s !in a.collapsed)
          || (s == Processes && a.tab.Runtime? && Connections !in a.collapsed))
  {
  }

  lemma {:induction false} RefreshRequeries(a: App)
    ensures Requeried(a, RefreshActiveData(a))
  {
  }

  /** The key `r` asks anew for all open data of the shown tab that is not on its way. */
  lemma {:induction false} RefreshAsksAnew(e: Env, c: Client, offer: Option<Key>, s: Section)
    requires Sound(c.app)
    ensures var d := Handle(e, c, Pressed(Char('r'), offer));
      && Requeried(c.app, d.app.(loading := c.app.loading))
      && (s in d.app.loading <==>
            s in c.app.loading || (HasData(c.app.tab, s) && s !in c.app.collapsed)
            || (s == Processes && c.app.tab.Runtime? && Connections !in c.app.collapsed))
  {
    var p := Press(e, c, Char('r'), offer);
    assert p.app == RefreshActiveData(c.app);
    RefreshRequeries(c.app);
    RequestIsRequested(p);
    RequestStarts(p, s);
    RequeriedAsks(c.app, p.app, s);
  }

  // ---- the kinds of sources

  /** The next kind shown: source-mapped, formatted, loaded, and around. */
  predicate Follows(kind: SourceKind, next: SourceKind) {
    || (kind == SourceMapped && next == Formatted)
    || (kind == Formatted && next == Loaded)
    || (kind == Loaded && next == SourceMapped)
  }

  lemma {:induction false} PressKind(e: Env, c: Client, key: KeyCode, offer: Option<Key>)
    requires Sound(c.app) && c.app.sourceKind != Resolved
    ensures var was, now := c.app.sourceKind, Handle(e, c, Pressed(key, offer)).app.sourceKind;
      if key == Char('m') && c.app.focus.Get(c.app.tab).section == Sources then Follows(was, now) else now == was
  {
    var p := Press(e, c, key, offer);
    var step := PressTakes(e, c, key, offer);
    PressIsSound(e, c, key, offer);
    RequestIsRequested(p);
  }

  lemma {:induction false} RefreshKind(e: Env, a: App, r: Refresh)
    requires Sound(a)
    ensures Refreshed(e, a, r).sourceKind == a.sourceKind
  {
    RefreshHasEffect(e, a, r);
  }

  lemma {:induction false} EventKind(e: Env, c: Client, event: Event)
    requires Sound(c.app) && !event.Pressed?
    ensures Handle(e, c, event).app.sourceKind == c.app.sourceKind
  {
    match event {
      case Tick => RequestIsRequested(c);
      case ContextArrived(snapshot) => RefreshKind(e, c.app, NewContext(snapshot));
      case TargetArrived(ord, target, detail) => RefreshKind(e, c.app, TargetRefresh(target, detail));
      case DataArrived(load, data) =>
        if data.Some? { RefreshKind(e, FinishLoading(c.app, load.section), data.value); }
      case ActionFinished(result) =>
        if result.Some? { RefreshKind(e, c.app.(pending := None), NewContext(result.value)); }
      case _ =>
    }
  }

  /** One of the three kinds is selected. Only the key `m` in Sources changes it, and turns it on. */
  lemma {:induction false} KindFollows(e: Env, c: Client, event: Event)
    requires Sound(c.app) && c.app.sourceKind != Resolved
    ensures var was, now := c.app.sourceKind, Handle(e, c, event).app.sourceKind;
      && now != Resolved
      && if event.Pressed? && event.key == Char('m') && c.app.focus.Get(c.app.tab).section == Sources
         then Follows(was, now) else now == was
  {
    if event.Pressed? { PressKind(e, c, event.key, event.offer); } else { EventKind(e, c, event); }
  }

  /** A turned kind starts without its sources: they are asked for anew when they are open, the old ones and
      their document are gone, the Sources header has the focus, and the rest stays. */
  lemma {:induction false} KindStartsEmpty(e: Env, c: Client, offer: Option<Key>)
    requires Sound(c.app) && c.app.focus.Get(c.app.tab).section == Sources
    ensures var a, b := c.app, Handle(e, c, Pressed(Char('m'), offer)).app;
      && b == a.(sourceKind := b.sourceKind, sources := None, hierarchy := None, sourceRows := [], content := None,
                 focus := PerTab(a.focus.runtime, Focus(Sources, None)), queried := a.queried - {Sources},
                 loading := b.loading)
      && (Sources in b.loading <==> a.tab.Debug? && Sources !in a.collapsed)
  {
    var p := Press(e, c, Char('m'), offer);
    assert p.app == ToggleSourceKind(c.app);
    RequestIsRequested(p);
    RequestStarts(p, Sources);
  }

  // ---- what is watched

  /** A target is watched if the debug tab shows a snapshot with a node of it attached to the debugger. */
  ghost predicate Watched(a: App, t: TargetRef)
    requires Sound(a)
  {
    && a.tab.Debug? && a.context.Some? && t.contextId == a.contexts[a.contextIndex].id
    && exists n | n in a.context.value.forest ::
      n.attachment == Debugger && n.connectionId == t.connectionId && n.targetId == t.targetId
      && n.generation == t.generation
  }

  lemma {:induction false} AttachedExact(contextId: string, forest: seq<TargetNode>, t: TargetRef)
    ensures t in AttachedTargets(contextId, forest) <==>
      t.contextId == contextId && exists n | n in forest ::
        n.attachment == Debugger && n.connectionId == t.connectionId && n.targetId == t.targetId
        && n.generation == t.generation
  {
    if forest != [] {
      assert forest == [forest[0]] + forest[1..];
      AttachedExact(contextId, forest[1..], t);
    }
  }

  lemma {:induction false} WatchedExact(a: App, t: TargetRef)
    requires Sound(a)
    ensures t in ObservedTargets(a) <==> Watched(a, t)
  {
    if a.tab.Debug? && a.context.Some? { AttachedExact(ContextId(a), a.context.value.forest, t); }
  }

  lemma {:induction false} RevisionsExact(sources: seq<SourceNode>, uri: string, r: string)
    ensures r in RevisionsOf(sources, uri) <==> exists s | s in sources :: s.uri == uri && s.revision == r
  {
    if sources != [] {
      assert sources == [sources[0]] + sources[1..];
      RevisionsExact(sources[1..], uri, r);
    }
  }

  /** The document asked for: in the debug tab the selected source, or the shown document while another row is
      selected; with all revisions of it that the source tree lists. */
  ghost predicate Shows(e: Env, a: App, selection: Option<Selection>)
    requires Sound(a)
  {
    var f := a.focus.Get(a.tab);
    if a.tab.Runtime? || f.row.None? || f.row.value >= |Rows(e, a, f.section)| then selection.None?
    else
      var k := Rows(e, a, f.section)[f.row.value].key;
      if !k.SourceKey? && a.content.None? then selection.None?
      else
        && selection.Some? && selection.value.context == a.contexts[a.contextIndex].id
        && selection.value.kind == a.sourceKind
        && selection.value.path == (if k.SourceKey? then k.uri else a.content.value)
        && forall r :: r in selection.value.token
             <==> a.sources.Some? && exists s | s in a.sources.value.sources ::
               s.uri == selection.value.path && s.revision == r
  }

  lemma {:induction false} SelectionExact(e: Env, a: App)
    requires Sound(a)
    ensures Shows(e, a, NextSelection(e, a))
  {
    var path := SelectedSource(e, a);
    if path.Some? && a.sources.Some? {
      forall r ensures r in RevisionToken(a, path.value)
        <==> exists s | s in a.sources.value.sources :: s.uri == path.value && s.revision == r {
        RevisionsExact(a.sources.value.sources, path.value, r);
      }
    }
  }
}
