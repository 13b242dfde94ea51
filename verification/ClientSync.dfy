/** Observers and the document pane follow the selection. */
module ClientSync {
  import opened Common
  import opened Outline
  import opened AppModel
  import opened ClientModel
  import opened ClientFrames

  /** The service watches what the loop last told it to; a shown document is the one last asked for. */
  ghost predicate Told(c: Client) {
    && c.service.targets == c.observed && c.service.source == Asked(c.selected)
    && (c.app.content.Some? ==> c.selected.Some? && c.selected.value.path == c.app.content.value)
    && (c.app.documentFocused ==> c.app.content.Some?)
  }

  /** The service watches exactly the attached targets of the open debug tab; a shown document is the
      selected source of the current context, kind and revisions; a focused document is shown. */
  ghost predicate Synced(e: Env, c: Client)
    requires Sound(c.app)
  {
    && Told(c) && c.observed == ObservedTargets(c.app)
    && (c.app.content.Some? ==> c.selected == NextSelection(e, c.app))
  }

  /** What an event does to the watched targets, the asked source, and the document. */
  ghost predicate Shifted(e: Env, c: Client, d: Client) {
    && Sound(d.app) && d.observed == c.observed && d.selected == c.selected
    && (d.service.targets == c.service.targets || (d.service.targets == [] && d.app.context.None?))
    && (d.service.source == c.service.source || (d.service.source.None? && NextSelection(e, d.app).None?))
    && if d.app.content.None? then d.app.documentFocused && c.app.content.Some? ==> NextSelection(e, d.app).None?
       else d.app.content == c.app.content || SelectedSource(e, d.app) == d.app.content
  }

  ghost predicate FocusShifted(c: Client, d: Client) {
    d.app.documentFocused ==> c.app.documentFocused || c.app.content.Some?
  }

  /** Bringing the observers in line after an event. */
  lemma {:induction false} SyncEnds(e: Env, c: Client, d: Client)
    requires Told(c) && Shifted(e, c, d) && FocusShifted(c, d)
    ensures Synced(e, SyncSource(e, SyncTargets(d)))
  {
    var f := SyncTargets(d);
    assert f.app == d.app && f.service.targets == f.observed == ObservedTargets(d.app);
    assert f.service.source == d.service.source && f.selected == d.selected;
    var g := SyncSource(e, f);
    assert g.app.content.Some? ==> g == f;
  }

  lemma {:induction false} KeyShifts(e: Env, c: Client, p: Client, step: KeyStep)
    requires Sound(c.app) && Took(e, c, p, step) && Sound(p.app)
    ensures Shifted(e, c, p) && FocusShifted(c, p)
  {
  }

  lemma {:induction false} RequestShifts(e: Env, c: Client, p: Client, d: Client)
    requires Sound(p.app) && Shifted(e, c, p) && FocusShifted(c, p) && Requested(p, d)
    ensures Shifted(e, c, d) && FocusShifted(c, d)
  {
    SelectionFrame(e, p.app, d.app);
  }

  lemma {:induction false} SelectionFrame(e: Env, a: App, b: App)
    requires Sound(a) && b == a.(loading := b.loading)
    ensures NextSelection(e, b) == NextSelection(e, a)
  {
  }

  lemma {:induction false} RefreshShifts(e: Env, c: Client, a: App, d: Client, r: Refresh)
    requires Sound(a) && KeepsListed(a, r) && RefreshEffect(a, d.app, r)
    requires a.content == c.app.content && a.documentFocused == c.app.documentFocused
    requires d.observed == c.observed && d.selected == c.selected && d.service == c.service
    ensures Shifted(e, c, d) && FocusShifted(c, d)
  {
  }

  lemma {:induction false} KeyEventShifts(e: Env, c: Client, key: KeyCode, offer: Option<Key>)
    requires Sound(c.app)
    ensures var d := Handle(e, c, Pressed(key, offer)); Shifted(e, c, d) && FocusShifted(c, d)
  {
    var p := Press(e, c, key, offer);
    var step := PressTakes(e, c, key, offer);
    KeyShifts(e, c, p, step);
    RequestIsRequested(p);
    RequestShifts(e, c, p, RequestActive(p));
  }

  lemma {:induction false} RefreshEventShifts(e: Env, c: Client, r: Refresh)
    requires Sound(c.app) && KeepsListed(c.app, r)
    ensures var d := c.(app := Refreshed(e, c.app, r)); Shifted(e, c, d) && FocusShifted(c, d)
  {
    RefreshHasEffect(e, c.app, r);
    RefreshShifts(e, c, c.app, c.(app := Refreshed(e, c.app, r)), r);
  }

  lemma {:induction false} AnswerShifts(e: Env, c: Client, load: Load, data: Option<Refresh>)
    requires Sound(c.app) && Lawful(c, DataArrived(load, data))
    ensures var d := DataLoaded(e, c, load, data); Shifted(e, c, d) && FocusShifted(c, d)
  {
    var d := DataLoaded(e, c, load, data);
    DataIsAnswered(e, c, load, data);
    if Accepts(c, load) && data.Some? { RefreshShifts(e, c, FinishLoading(c.app, load.section), d, data.value); }
  }

  lemma {:induction false} FinishShifts(e: Env, c: Client, result: Option<ContextSnapshot>)
    requires Sound(c.app)
    ensures var d := Handle(e, c, ActionFinished(result)); Shifted(e, c, d) && FocusShifted(c, d)
  {
    var done := c.(app := c.app.(pending := None), actions := if c.actions == 0 then 0 else c.actions - 1);
    if result.Some? {
      var r := NewContext(result.value);
      assert Handle(e, c, ActionFinished(result)) == done.(app := Refreshed(e, done.app, r));
      RefreshEventShifts(e, done, r);
    }
  }

  lemma {:induction false} HandleShifts(e: Env, c: Client, event: Event)
    requires Sound(c.app) && Lawful(c, event)
    ensures var d := Handle(e, c, event); Shifted(e, c, d) && FocusShifted(c, d)
  {
    match event {
      case Tick =>
        RequestIsRequested(c);
        RequestShifts(e, c, c, RequestActive(c));
      case Pressed(key, offer) => KeyEventShifts(e, c, key, offer);
      case ContextArrived(snapshot) => RefreshEventShifts(e, c, NewContext(snapshot));
      case TargetArrived(ord, target, detail) => RefreshEventShifts(e, c, TargetRefresh(target, detail));
      case DataArrived(load, data) => AnswerShifts(e, c, load, data);
      case ActionFinished(result) => FinishShifts(e, c, result);
      case _ =>
    }
  }

  /** Whatever the event, the turn ends in line with the selection. */
  lemma {:induction false} TurnSyncs(e: Env, c: Client, t: Turn)
    requires Told(c) && Sound(Drawn(c, t).app) && Lawful(Drawn(c, t), t.event)
    ensures Sound(Handle(e, Drawn(c, t), t.event).app) && Sound(TakeTurn(e, c, t).app) && Synced(e, TakeTurn(e, c, t))
  {
    MovedDraw(c.app, t.viewports);
    var drawn := Drawn(c, t);
    assert Told(drawn);
    HandleShifts(e, drawn, t.event);
    SyncEnds(e, drawn, Handle(e, drawn, t.event));
  }

  // ---- within a turn

  /** A focused document is shown. */
  predicate DocumentShown(a: App) { a.documentFocused ==> a.content.Some? }

  /** The key that takes the sources away under a focused document. */
  predicate Undercuts(a: App, key: KeyCode) {
    key == Char('m') && a.focus.Get(a.tab).section == Sources && a.documentFocused
  }

  lemma StepKeepsDocument(e: Env, c: Client, p: Client, step: KeyStep)
    requires Took(e, c, p, step) && DocumentShown(c.app)
    ensures DocumentShown(p.app) <==> !(step.Cycles? && c.app.documentFocused)
  {
  }

  lemma {:induction false} PressKeepsDocument(e: Env, c: Client, key: KeyCode, offer: Option<Key>)
    requires Sound(c.app) && DocumentShown(c.app)
    ensures DocumentShown(Press(e, c, key, offer).app) <==> !Undercuts(c.app, key)
  {
    var step := PressTakes(e, c, key, offer);
    StepKeepsDocument(e, c, Press(e, c, key, offer), step);
  }

  /** A focused document stays shown through every event but one: cycling the source kind while the focus
      behind the document is in Sources. There it is repaired at the end of the turn only. */
  lemma {:induction false} EventKeepsDocument(e: Env, c: Client, event: Event)
    requires Sound(c.app) && DocumentShown(c.app)
    ensures DocumentShown(Handle(e, c, event).app) <==> !(event.Pressed? && Undercuts(c.app, event.key))
  {
    match event {
      case Tick => RequestIsRequested(c);
      case Pressed(key, offer) =>
        PressKeepsDocument(e, c, key, offer);
        PressIsSound(e, c, key, offer);
        RequestIsRequested(Press(e, c, key, offer));
      case ContextArrived(snapshot) => RefreshHasEffect(e, c.app, NewContext(snapshot));
      case TargetArrived(ord, target, detail) => RefreshHasEffect(e, c.app, TargetRefresh(target, detail));
      case DataArrived(load, data) =>
        if data.Some? { RefreshHasEffect(e, FinishLoading(c.app, load.section), data.value); }
      case ActionFinished(result) =>
        if result.Some? { RefreshHasEffect(e, c.app.(pending := None), NewContext(result.value)); }
      case _ =>
    }
  }
}
