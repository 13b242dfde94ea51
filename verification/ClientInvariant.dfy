/** What holds of the client between any two events. */
module ClientInvariant {
  import opened Common
  import opened Outline
  import opened AppModel
  import opened ClientModel
  import opened ClientFrames
  import opened ClientLoads
  import opened ClientData
  import opened SourceCache
  import opened SourceFocus

  ghost predicate Inv(e: Env, c: Client) {
    Sound(c.app) && LoadsOk(c) && DataOwned(c) && DetailsBacked(c.app) && ActionsOk(c) && SourcesOk(e, c.app)
  }

  /** Nothing that the invariant speaks of differs, except that focus may leave a row that is not shown. */
  lemma {:induction false} InvFrame(e: Env, c: Client, d: Client)
    requires Inv(e, c) && SourcesOk(e, d.app)
    requires d == c.(app := d.app, service := d.service, observed := d.observed, selected := d.selected)
    requires d.service.loadOrds == c.service.loadOrds
    requires d.app == c.app.(focus := d.app.focus, visible := d.app.visible, content := d.app.content,
                             documentFocused := d.app.documentFocused)
    ensures Inv(e, d)
  {
    LoadsFrame(c, d);
    DetailsFrame(c.app, d.app);
  }

  /** The fields that the source cache and the focus on it depend on. */
  lemma {:induction false} SourcesFrame(e: Env, a: App, b: App)
    requires SourcesOk(e, a)
    requires b.sources == a.sources && b.hierarchy == a.hierarchy && b.sourceKind == a.sourceKind
    requires b.sourceRows == a.sourceRows && b.expanded == a.expanded && b.collapsed == a.collapsed
      && b.focus == a.focus
    ensures SourcesOk(e, b)
  {
    CacheKept(e, a, b);
  }

  // ---- keys

  lemma {:induction false} MoveCharSourcesOk(e: Env, c: Client, ch: char, offer: Option<Key>)
    requires OtherRows(e) && Sound(c.app) && SourcesOk(e, c.app)
    requires ch in {'1', '2', 'k', 'j', 'g', 'G', 'h', 'l'}
    ensures SourcesOk(e, PressChar(e, c, ch, offer).app)
  {
    var a := c.app;
    if ch == '1' { TabOk(e, a, Runtime); }
    else if ch == '2' { TabOk(e, a, Debug); }
    else if ch == 'k' { SelectionOk(e, a, -1); }
    else if ch == 'j' { SelectionOk(e, a, 1); }
    else if ch == 'g' { EdgeOk(e, a, false); }
    else if ch == 'G' { EdgeOk(e, a, true); }
    else if ch == 'h' { LeftOk(e, a); }
    else { RightOk(e, a); }
  }

  lemma SelectOk(e: Env, a: App, delta: int)
    requires Sound(a) && SourcesOk(e, a)
    ensures SourcesOk(e, SelectContext(a, delta))
  {
    ActivateOk(e, a, (a.contextIndex + delta) % |a.contexts|);
  }

  lemma RequeryOk(e: Env, a: App)
    requires SourcesOk(e, a)
    ensures SourcesOk(e, RefreshActiveData(a))
  {
    SourcesFrame(e, a, RefreshActiveData(a));
  }

  lemma {:induction false} CharSourcesOk(e: Env, c: Client, ch: char, offer: Option<Key>)
    requires OtherRows(e) && Sound(c.app) && SourcesOk(e, c.app)
    ensures SourcesOk(e, PressChar(e, c, ch, offer).app)
  {
    var a := c.app;
    if ch in {'1', '2', 'k', 'j', 'g', 'G', 'h', 'l'} { MoveCharSourcesOk(e, c, ch, offer); }
    else if ch == '[' { SelectOk(e, a, -1); }
    else if ch == ']' { SelectOk(e, a, 1); }
    else if ch == 'r' { RequeryOk(e, a); }
    else if ch == 'm' && a.focus.Get(a.tab).section == Sources { CycleOk(e, a); }
    else if ch == ' ' { SpaceSourcesOk(e, c, offer); }
    else { PerformSourcesOk(e, c, offer); }
  }

  lemma SpaceSourcesOk(e: Env, c: Client, offer: Option<Key>)
    requires OtherRows(e) && SourcesOk(e, c.app)
    ensures SourcesOk(e, PressSpace(e, c, offer).app)
  {
    PerformSourcesOk(e, c, offer);
    ToggleOk(e, c.app);
  }

  lemma PerformSourcesOk(e: Env, c: Client, offer: Option<Key>)
    requires SourcesOk(e, c.app)
    ensures SourcesOk(e, Perform(c, offer).app)
  {
    SourcesFrame(e, c.app, Perform(c, offer).app);
  }

  lemma {:induction false} PressSourcesOk(e: Env, c: Client, key: KeyCode, offer: Option<Key>)
    requires OtherRows(e) && Sound(c.app) && SourcesOk(e, c.app)
    ensures SourcesOk(e, Press(e, c, key, offer).app)
  {
    var a := c.app;
    match key {
      case Char(ch) => CharSourcesOk(e, c, ch, offer);
      case Enter =>
        var id := SelectedContextId(e, a);
        if id.Some? && SelectContextId(a, id.value).Some? {
          ActivateOk(e, a, ContextPosition(a.contexts, id.value).value);
        } else {
          SourcesFrame(e, a, OpenSelected(e, a));
        }
      case Delete => PerformSourcesOk(e, c, offer);
      case Esc => SourcesFrame(e, a, LeaveDocument(a));
      case TabKey(_) => TabOk(e, a, if a.tab.Runtime? then Debug else Runtime);
      case BackTab => TabOk(e, a, if a.tab.Runtime? then Debug else Runtime);
      case Up => SelectionOk(e, a, -1);
      case Down => SelectionOk(e, a, 1);
      case Home => EdgeOk(e, a, false);
      case End => EdgeOk(e, a, true);
      case Left => LeftOk(e, a);
      case Right => RightOk(e, a);
      case Unmapped =>
    }
  }

  lemma {:induction false} LeftOk(e: Env, a: App)
    requires OtherRows(e) && SourcesOk(e, a)
    ensures SourcesOk(e, NavigateLeft(e, a))
  {
    if a.focus.Get(a.tab).section != Sources { LeftElsewhereOk(e, a); }
    else if a.focus.Get(a.tab).row.Some? { LeftHereOk(e, a); }
  }

  lemma {:induction false} PressKeepsInv(e: Env, c: Client, key: KeyCode, offer: Option<Key>)
    requires OtherRows(e) && Inv(e, c)
    ensures Inv(e, Press(e, c, key, offer))
  {
    var p := Press(e, c, key, offer);
    var step := PressTakes(e, c, key, offer);
    TookKeepsInv(e, c, p, step);
    PressSourcesOk(e, c, key, offer);
  }

  lemma {:induction false} TookKeepsInv(e: Env, c: Client, p: Client, step: KeyStep)
    requires Inv(e, c) && Took(e, c, p, step)
    ensures Sound(p.app) && LoadsOk(p) && DataOwned(p) && DetailsBacked(p.app) && ActionsOk(p)
  {
    KeyKeepsLoads(e, c, p, step);
    KeyKeepsOwned(e, c, p, step);
    KeyKeepsDetails(e, c, p, step);
  }

  lemma {:induction false} RequestKeepsInv(e: Env, c: Client)
    requires Inv(e, c)
    ensures Inv(e, RequestActive(c))
  {
    var d := RequestActive(c);
    RequestIsRequested(c);
    RequestKeeps(c, ActiveSections(c.app));
    RequestKeepsOwned(c, d);
    DetailsFrame(c.app, d.app);
    SourcesFrame(e, c.app, d.app);
  }

  // ---- events

  /** Refreshes that do not answer a data query. */
  predicate Unasked(r: Refresh) { r.NewContext? || r.NewDetail? || r.LostDetail? }

  lemma {:induction false} RefreshKeepsInv(e: Env, c: Client, r: Refresh)
    requires Inv(e, c) && Unasked(r)
    ensures Inv(e, c.(app := Refreshed(e, c.app, r)))
  {
    var d := c.(app := Refreshed(e, c.app, r));
    RefreshHasEffect(e, c.app, r);
    RefreshOk(e, c.app, r);
    LoadsFrame(c, d);
    RefreshKeepsOwned(c, d, r);
    RefreshKeepsDetails(c.app, d.app, r);
  }

  lemma {:induction false} AnswerKeepsInv(e: Env, c: Client, load: Load, data: Option<Refresh>)
    requires Inv(e, c) && Lawful(c, DataArrived(load, data))
    ensures Inv(e, DataLoaded(e, c, load, data))
  {
    var d := DataLoaded(e, c, load, data);
    DataIsAnswered(e, c, load, data);
    AnswerKeepsLoads(c, d, load, data);
    AnswerKeepsOwned(c, d, load, data);
    AnswerKeepsDetails(c, d, load, data);
    SourcesFrame(e, c.app, FinishLoading(c.app, load.section));
    if Accepts(c, load) && data.Some? { RefreshOk(e, FinishLoading(c.app, load.section), data.value); }
  }

  /** The action in flight has ended. */
  function Done(c: Client): Client {
    c.(app := c.app.(pending := None), actions := if c.actions == 0 then 0 else c.actions - 1)
  }

  lemma {:induction false} DoneKeepsInv(e: Env, c: Client)
    requires Inv(e, c) && c.actions > 0
    ensures Inv(e, Done(c))
  {
    LoadsFrame(c, Done(c));
    DetailsFrame(c.app, Done(c).app);
    SourcesFrame(e, c.app, Done(c).app);
  }

  lemma {:induction false} FinishKeepsInv(e: Env, c: Client, result: Option<ContextSnapshot>)
    requires Inv(e, c) && c.actions > 0
    ensures Inv(e, Handle(e, c, ActionFinished(result)))
  {
    DoneKeepsInv(e, c);
    if result.Some? { RefreshKeepsInv(e, Done(c), NewContext(result.value)); }
  }

  lemma {:induction false} SourceKeepsInv(e: Env, c: Client, content: Option<string>)
    requires Inv(e, c)
    ensures Inv(e, c.(app := SetSourceContent(c.app, content)))
  {
    var d := c.(app := SetSourceContent(c.app, content));
    SourcesFrame(e, c.app, d.app);
    InvFrame(e, c, d);
  }

  lemma {:induction false} HandleKeepsInv(e: Env, c: Client, event: Event)
    requires OtherRows(e) && Inv(e, c) && Lawful(c, event)
    ensures Inv(e, Handle(e, c, event))
  {
    match event {
      case Tick => RequestKeepsInv(e, c);
      case Pressed(key, offer) =>
        PressKeepsInv(e, c, key, offer);
        RequestKeepsInv(e, Press(e, c, key, offer));
      case ContextArrived(snapshot) => RefreshKeepsInv(e, c, NewContext(snapshot));
      case ContextFailed =>
      case TargetArrived(ord, target, detail) => RefreshKeepsInv(e, c, TargetRefresh(target, detail));
      case DataArrived(load, data) => AnswerKeepsInv(e, c, load, data);
      case SourceArrived(_, _, _, content) => SourceKeepsInv(e, c, content);
      case ActionFinished(result) => FinishKeepsInv(e, c, result);
    }
  }

  // ---- turns

  lemma {:induction false} DrawKeepsInv(e: Env, c: Client, t: Turn)
    requires Inv(e, c)
    ensures Inv(e, Drawn(c, t))
  {
    MovedDraw(c.app, t.viewports);
    DrawOk(e, c.app, t.viewports);
    InvFrame(e, c, Drawn(c, t));
  }

  lemma {:induction false} SyncKeepsInv(e: Env, c: Client)
    requires Inv(e, c)
    ensures Inv(e, SyncSource(e, SyncTargets(c)))
  {
    var d := SyncTargets(c);
    InvFrame(e, c, d);
    var f := SyncSource(e, d);
    SourcesFrame(e, d.app, f.app);
    InvFrame(e, d, f);
  }

  lemma {:induction false} StartInv(e: Env, contexts: seq<ContextSummary>, index: nat, context: ContextSnapshot)
    requires index < |contexts| && context.id == contexts[index].id
    ensures Inv(e, Start(Initial(contexts, index, context)))
  {
    var a := Initial(contexts, index, context);
    RequestKeepsInv(e, Client(a, Service(map[], 0, [], 0, None), [], None, {}, 0, map[], map[]));
  }
}
