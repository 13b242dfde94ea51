/** What each input of the client may change. */
module ClientFrames {
  import opened Common
  import opened Outline
  import opened AppModel
  import opened ClientModel
  import opened FocusRestore

  /** Navigation changes what is shown and focused. Data stays, except that details may be dropped. */
  ghost predicate Moved(a: App, b: App) {
    && b == a.(tab := b.tab, focus := b.focus, collapsed := b.collapsed, visible := b.visible, expanded := b.expanded,
               lastVisited := b.lastVisited, sourceRows := b.sourceRows, documentFocused := b.documentFocused,
               details := b.details)
    && (b.details == a.details || b.details == map[])
    && (b.documentFocused ==> a.documentFocused || a.content.Some?)
  }

  lemma MovedTab(e: Env, a: App, tab: Tab)
    ensures Moved(a, SetTab(e, a, tab))
  {
  }

  lemma MovedSelection(e: Env, a: App, delta: int, last: bool)
    ensures Moved(a, MoveSelection(e, a, delta)) && Moved(a, SelectEdge(e, a, last))
  {
  }

  lemma MovedLeft(e: Env, a: App)
    ensures Moved(a, NavigateLeft(e, a))
  {
  }

  lemma EnterFrame(e: Env, a: App, s: Section, ids: seq<Key>)
    ensures var b := EnterChild(e, a, s, ids); b == a.(focus := b.focus, lastVisited := b.lastVisited)
  {
  }

  lemma MovedRight(e: Env, a: App)
    ensures Moved(a, NavigateRight(e, a))
  {
    var f := a.focus.Get(a.tab);
    if !a.documentFocused {
      if f.row.None? {
        EnterFrame(e, a.(collapsed := a.collapsed - {f.section}), f.section, []);
      } else if f.row.value < |Rows(e, a, f.section)| {
        var rows, index := Rows(e, a, f.section), f.row.value;
        EnterFrame(e, RebuiltIf(a.(expanded := a.expanded + {rows[index].key}), f.section), f.section,
          NodePath(rows, index));
      }
    }
  }

  lemma MovedToggle(e: Env, a: App)
    ensures Moved(a, ToggleExpanded(e, a)) && Moved(a, OpenSelected(e, a)) && Moved(a, LeaveDocument(a))
  {
  }

  /** Drawing only reports viewport heights, which can take the focus off rows that are not shown. */
  lemma {:induction false} MovedDraw(a: App, viewports: seq<(Section, nat)>)
    ensures var b := Draw(a, viewports); b == a.(visible := b.visible, focus := b.focus)
    decreases |viewports|
  {
    if viewports != [] { MovedDraw(SetViewport(a, viewports[0].0, viewports[0].1), viewports[1..]); }
  }

  /** What a key does to the client before demanded data is requested. */
  datatype KeyStep = Moves | Acts(action: Key) | Cycles | Switches(index: nat) | Requeries

  ghost predicate Took(e: Env, c: Client, p: Client, step: KeyStep) {
    match step
    case Moves => p == c.(app := p.app) && Moved(c.app, p.app)
    case Acts(action) => c.app.pending.None? && p == c.(app := BeginAction(c.app, action), actions := c.actions + 1)
    case Cycles => c.app.focus.Get(c.app.tab).section == Sources && p == c.(app := ToggleSourceKind(c.app))
    case Switches(index) => index < |c.app.contexts| && p == Switched(c, Activate(c.app, index))
    case Requeries => p == c.(app := RefreshActiveData(c.app))
  }

  lemma PerformTakes(e: Env, c: Client, offer: Option<Key>) returns (step: KeyStep)
    ensures Took(e, c, Perform(c, offer), step) && !step.Cycles?
  {
    step := if c.app.pending.Some? || offer.None? then Moves else Acts(offer.value);
  }

  lemma {:induction false} EnterTakes(e: Env, c: Client) returns (step: KeyStep)
    ensures Took(e, c, PressEnter(e, c), step) && !step.Cycles?
  {
    var id := SelectedContextId(e, c.app);
    if id.Some? && SelectContextId(c.app, id.value).Some? {
      step := Switches(ContextPosition(c.app.contexts, id.value).value);
    } else {
      MovedToggle(e, c.app);
      step := Moves;
    }
  }

  lemma {:induction false} CharTakes(e: Env, c: Client, ch: char, offer: Option<Key>) returns (step: KeyStep)
    requires Sound(c.app)
    ensures Took(e, c, PressChar(e, c, ch, offer), step)
    ensures step.Cycles? <==> ch == 'm' && c.app.focus.Get(c.app.tab).section == Sources
  {
    var section := c.app.focus.Get(c.app.tab).section;
    if ch == '1' || ch == '2' {
      MovedTab(e, c.app, if ch == '1' then Runtime else Debug);
      step := Moves;
    } else if ch == 'k' || ch == 'j' || ch == 'g' || ch == 'G' {
      MovedSelection(e, c.app, if ch == 'k' then -1 else 1, ch == 'G');
      step := Moves;
    } else if ch == 'h' || ch == 'l' {
      MovedLeft(e, c.app);
      MovedRight(e, c.app);
      step := Moves;
    } else if ch == 'm' && section == Sources {
      step := Cycles;
    } else if ch == '[' {
      step := Switches((c.app.contextIndex - 1) % |c.app.contexts|);
    } else if ch == ']' {
      step := Switches((c.app.contextIndex + 1) % |c.app.contexts|);
    } else if ch == 'r' {
      step := Requeries;
    } else if PressChar(e, c, ch, offer) == Perform(c, offer) {
      step := PerformTakes(e, c, offer);
    } else {
      MovedToggle(e, c.app);
      step := Moves;
    }
  }

  /** Every key moves, acts, cycles the source kind, switches the context, or asks for a new query. */
  lemma {:induction false} PressTakes(e: Env, c: Client, key: KeyCode, offer: Option<Key>) returns (step: KeyStep)
    requires Sound(c.app)
    ensures Took(e, c, Press(e, c, key, offer), step)
    ensures step.Cycles? <==> key == Char('m') && c.app.focus.Get(c.app.tab).section == Sources
  {
    match key {
      case Char(ch) => step := CharTakes(e, c, ch, offer);
      case Enter => step := EnterTakes(e, c);
      case Delete =>
        var asked := if c.app.focus.Get(c.app.tab).section == Connections then offer else None;
        step := PerformTakes(e, c, asked);
      case Esc =>
        MovedToggle(e, c.app);
        step := Moves;
      case TabKey(_) =>
        MovedTab(e, c.app, if c.app.tab.Runtime? then Debug else Runtime);
        step := Moves;
      case BackTab =>
        MovedTab(e, c.app, if c.app.tab.Runtime? then Debug else Runtime);
        step := Moves;
      case Up =>
        MovedSelection(e, c.app, -1, false);
        step := Moves;
      case Down =>
        MovedSelection(e, c.app, 1, false);
        step := Moves;
      case Home =>
        MovedSelection(e, c.app, 1, false);
        step := Moves;
      case End =>
        MovedSelection(e, c.app, 1, true);
        step := Moves;
      case Left =>
        MovedLeft(e, c.app);
        step := Moves;
      case Right =>
        MovedRight(e, c.app);
        step := Moves;
      case Unmapped => step := Moves;
    }
  }

  lemma {:induction false} PressIsSound(e: Env, c: Client, key: KeyCode, offer: Option<Key>)
    requires Sound(c.app)
    ensures Sound(Press(e, c, key, offer).app)
  {
    var step := PressTakes(e, c, key, offer);
  }

  // ---- requesting demanded data

  lemma {:induction false} RequestFrame(c: Client, sections: seq<Section>)
    requires Sound(c.app)
    ensures var r := RequestLoads(c, sections);
      && r.app == c.app.(loading := r.app.loading)
      && r == c.(app := r.app, service := r.service, loads := r.loads, latest := r.latest)
      && r.service == c.service.(loadOrds := r.service.loadOrds)
    decreases |sections|
  {
    if sections != [] {
      RequestFrame(if NeedsLoad(c.app, sections[0]) then StartLoad(c, sections[0]) else c, sections[1..]);
    }
  }

  /** A request starts one load for each listed section that needs one, and touches no other section. */
  lemma {:induction false} RequestExact(c: Client, sections: seq<Section>, s: Section)
    requires Sound(c.app)
    ensures var r := RequestLoads(c, sections);
      && (s in r.app.loading <==> s in c.app.loading || (s in sections && NeedsLoad(c.app, s)))
      && LoadOrd(r.service, s) == LoadOrd(c.service, s) + (if s in sections && NeedsLoad(c.app, s) then 1 else 0)
      && c.loads <= r.loads
      && (s in sections ==> !NeedsLoad(r.app, s))
    decreases |sections|
  {
    if sections != [] {
      var next := if NeedsLoad(c.app, sections[0]) then StartLoad(c, sections[0]) else c;
      RequestExact(next, sections[1..], s);
      RequestFrame(next, sections[1..]);
    }
  }

  // ---- data from the service

  lemma {:induction false} SummarizedIds(contexts: seq<ContextSummary>, id: string, revision: nat, i: nat)
    requires i < |contexts|
    ensures Summarized(contexts, id, revision)[i].id == contexts[i].id
  {
    if contexts[0].id != id && i > 0 { SummarizedIds(contexts[1..], id, revision, i - 1); }
  }

  /** A refresh replaces its own data if it is not dropped, and nothing else; the current context stays
      unless a new list of contexts does not show it. */
  ghost predicate RefreshEffect(a: App, b: App, r: Refresh)
    requires Sound(a)
  {
    && (KeepsListed(a, r) ==> Sound(b) && ContextId(b) == ContextId(a))
    && b == a.(contexts := b.contexts, contextIndex := b.contextIndex, context := b.context, processes := b.processes,
               resources := b.resources, sources := b.sources, hierarchy := b.hierarchy, sourceRows := b.sourceRows,
               initializedKinds := b.initializedKinds, captures := b.captures, details := b.details,
               queried := b.queried, expanded := b.expanded, focus := b.focus, lastVisited := b.lastVisited)
    && b.context == (if r.NewContext? && Applies(a, r.snapshot) then Some(r.snapshot) else a.context)
    && b.resources == (if r.NewResources? then Some(r.resources) else a.resources)
    && b.captures == (if r.NewCaptures? then r.captures else a.captures)
    && b.sources == (if r.NewSources? && r.sources.kind == a.sourceKind then Some(r.sources) else a.sources)
    && b.details ==
         if r.NewContext? && Applies(a, r.snapshot) then BackedDetails(a.details, r.snapshot.forest)
         else if r.NewDetail? && Wanted(a, r.detail)
           then a.details[(r.detail.connectionId, r.detail.targetId) := r.detail]
         else if r.LostDetail? then a.details - {r.id}
         else a.details
  }

  lemma {:induction false} RefreshHasEffect(e: Env, a: App, r: Refresh)
    requires Sound(a)
    ensures RefreshEffect(a, Refreshed(e, a, r), r)
  {
    RestoredFrame(e, Installed(e, a, r), Paths(e, a));
    if r.NewContext? { SummarizedIds(a.contexts, r.snapshot.id, r.snapshot.revision, a.contextIndex); }
  }

  /** A refresh leaves the index of the current context in range, except when a new list of contexts
      neither shows the current one nor reaches its old index. */
  lemma {:induction false} RefreshIsSound(e: Env, a: App, r: Refresh)
    requires Sound(a)
    ensures Sound(Refreshed(e, a, r)) <==>
      (r.NewContexts? ==> Lists(r.contexts, ContextId(a)) || a.contextIndex < |r.contexts|)
  {
    RefreshHasEffect(e, a, r);
    RestoredFrame(e, Installed(e, a, r), Paths(e, a));
  }

  lemma FinishIsSound(e: Env, a: App, result: Option<ContextSnapshot>)
    requires Sound(a)
    ensures Sound(FinishAction(e, a, result))
  {
    if result.Some? { RefreshHasEffect(e, a.(pending := None), NewContext(result.value)); }
  }

  ghost predicate Requested(c: Client, d: Client)
    requires Sound(c.app)
  {
    && d == RequestActive(c)
    && d == c.(app := c.app.(loading := d.app.loading), loads := d.loads, latest := d.latest,
               service := c.service.(loadOrds := d.service.loadOrds))
  }

  lemma RequestIsRequested(c: Client)
    requires Sound(c.app)
    ensures Requested(c, RequestActive(c))
  {
    RequestFrame(c, ActiveSections(c.app));
  }

  /** Taking an answer in. */
  ghost predicate Answered(c: Client, d: Client, load: Load, data: Option<Refresh>)
    requires Sound(c.app)
  {
    var done := FinishLoading(c.app, load.section);
    if !Accepts(c, load) then d == c.(loads := c.loads - {load})
    else
      && d == c.(loads := c.loads - {load}, app := d.app,
                 origins := if Adopted(done, data) then c.origins[load.section := load] else c.origins)
      && if data.Some? then KeepsListed(done, data.value) && RefreshEffect(done, d.app, data.value) else d.app == done
  }

  lemma {:induction false} DataIsAnswered(e: Env, c: Client, load: Load, data: Option<Refresh>)
    requires Sound(c.app) && (Accepts(c, load) && data.Some? ==> KeepsListed(c.app, data.value))
    ensures Answered(c, DataLoaded(e, c, load, data), load, data)
  {
    if Accepts(c, load) && data.Some? { RefreshHasEffect(e, FinishLoading(c.app, load.section), data.value); }
  }
}
