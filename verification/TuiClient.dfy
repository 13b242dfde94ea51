/** The service controller and the event loop, updated in place, proved against `ClientModel`. */
module TuiClient {
  import opened Common
  import opened Outline
  import opened TargetTasks
  import opened TuiApp
  import opened ClientModel
  import ClientFrames
  import Runs = ClientRuns
  import M = AppModel

  /** `wrapping_add(1)` on a 64-bit counter. */
  function Next(generation: nat): (r: nat)
    ensures forall n: nat | generation == Gen(n) :: r == Gen(n + 1)
  {
    (generation + 1) % TWO64
  }

  /** Events as they arrive: with generations that wrap around. */
  datatype Message =
    | Ticked
    | KeyPressed(key: KeyCode, offer: Option<Key>)
    | SnapshotLoaded(snapshot: Option<M.ContextSnapshot>)
    | TargetChanged(generation: nat, target: M.TargetRef, detail: Option<M.Detail>)
    | DataReceived(section: Section, contextId: string, generation: nat, data: Option<M.Refresh>)
    | SourceReceived(contextId: string, path: string, generation: nat, content: Option<string>)
    | ActionEnded(result: Option<M.ContextSnapshot>)

  function Sent(event: Event): Message {
    match event
    case Tick => Ticked
    case Pressed(key, offer) => KeyPressed(key, offer)
    case ContextArrived(snapshot) => SnapshotLoaded(Some(snapshot))
    case ContextFailed => SnapshotLoaded(None)
    case TargetArrived(ord, target, detail) => TargetChanged(Gen(ord), target, detail)
    case DataArrived(load, data) => DataReceived(load.section, load.context, Gen(load.ord), data)
    case SourceArrived(context, path, ord, content) => SourceReceived(context, path, Gen(ord), content)
    case ActionFinished(result) => ActionEnded(result)
  }

  /** What one turn of the loop sees: the heights of the drawn sections, and a message. */
  datatype Input = Input(viewports: seq<(Section, nat)>, message: Message)

  function InputsOf(turns: seq<Turn>): seq<Input> {
    if turns == [] then [] else [Input(turns[0].viewports, Sent(turns[0].event))] + InputsOf(turns[1..])
  }

  class ServiceController {
    const loadGenerations: array<nat>
    var targetGeneration: nat
    var spawned: nat                            // observer tasks started so far, which number them
    var targetTasks: map<M.TargetId, nat>       // the task handles, at most one per target id
    var sourceGeneration: nat
    var sourceTask: Option<(string, string, SourceKind)>
    ghost var observers: Observers              // tasks that run, with or without a handle
    ghost var model: Service                    // the same with counters that do not wrap around

    ghost predicate Valid()
      reads this, loadGenerations
    {
      && loadGenerations.Length == 9
      && (forall s :: loadGenerations[SectionIndex(s)] == Gen(LoadOrd(model, s)))
      && targetGeneration == Gen(model.targetOrd) && ObserversOk(observers, spawned, model.targetOrd, model.targets)
      && sourceGeneration == Gen(model.sourceOrd) && sourceTask == model.source
    }

    constructor ()
      ensures Valid() && fresh(loadGenerations) && model == Service(map[], 0, [], 0, None)
      ensures observers == map[] && targetTasks == map[]
    {
      loadGenerations := new nat[9](_ => 0);
      targetGeneration, spawned, targetTasks, sourceGeneration, sourceTask := 0, 0, map[], 0, None;
      observers, model := map[], Service(map[], 0, [], 0, None);
    }

    method Load(section: Section) returns (generation: nat)
      requires Valid()
      modifies `model, loadGenerations
      ensures Valid() && generation == Gen(LoadOrd(model, section))
      ensures model == old(model).(loadOrds := old(model).loadOrds[section := LoadOrd(old(model), section) + 1])
    {
      generation := Next(loadGenerations[SectionIndex(section)]);
      loadGenerations[SectionIndex(section)] := generation;
      model := model.(loadOrds := model.loadOrds[section := LoadOrd(model, section) + 1]);
      forall s | s != section ensures SectionIndex(s) != SectionIndex(section) {}
    }

    /** Starts an observer per target and keeps the handles by target id. */
    method Spawn(targets: seq<M.TargetRef>, ghost ord: nat)
      requires targetTasks == map[]
      modifies `targetTasks, `spawned, `observers
      ensures spawned == old(spawned) + |targets| && targetTasks == Handles(old(spawned), targets)
      ensures observers == Spawned(old(observers), old(spawned), ord, targets)
    {
      var first, i := spawned, 0;
      while i < |targets|
        invariant i <= |targets| && spawned == first + i
        invariant targetTasks == Handles(first, targets[..i])
        invariant observers == Spawned(old(observers), first, ord, targets[..i])
      {
        assert targets[..i + 1][..i] == targets[..i];
        observers := observers[spawned := Observer(ord, targets[i])];
        targetTasks := targetTasks[IdOf(targets[i]) := spawned];
        spawned, i := spawned + 1, i + 1;
      }
      assert targets[..|targets|] == targets;
    }

    /** Every handle is aborted and every target gets an observer. */
    method SetTargets(targets: seq<M.TargetRef>)
      requires Valid()
      modifies `model, `targetGeneration, `targetTasks, `spawned, `observers
      ensures Valid() && model == ClientModel.SetTargets(old(model), targets)
      ensures spawned == old(spawned) + |targets| && targetTasks == Handles(old(spawned), targets)
      ensures observers
        == Spawned(Aborted(old(observers), old(targetTasks)), old(spawned), old(model.targetOrd) + 1, targets)
    {
      SpawningIsOk(observers, targetTasks, spawned, model.targetOrd, targets);
      observers, targetTasks := Aborted(observers, targetTasks), map[];
      targetGeneration := Next(targetGeneration);
      Spawn(targets, model.targetOrd + 1);
      model := ClientModel.SetTargets(model, targets);
    }

    method SetSource(source: Option<(string, string, SourceKind)>)
      requires Valid()
      modifies `model, `sourceGeneration, `sourceTask
      ensures Valid() && model == ClientModel.SetSource(old(model), source)
    {
      sourceTask := None;
      sourceGeneration := Next(sourceGeneration);
      if source.Some? { sourceTask := source; }
      model := ClientModel.SetSource(model, source);
    }

    method SwitchContext()
      requires Valid()
      modifies this
      ensures Valid() && model == ClientModel.SwitchContext(old(model))
    {
      SetTargets([]);
      SetSource(None);
    }
  }

  class TuiClient {
    const app: App
    const service: ServiceController
    var observedTargets: seq<M.TargetRef>
    var selectedSource: Option<Selection>
    ghost var loads: set<Load>
    ghost var actions: nat
    ghost var latest: map<Section, Load>
    ghost var origins: map<Section, Load>

    ghost predicate Valid()
      reads this, app, service, service.loadGenerations
    {
      service.Valid() && M.Sound(app.Model())
    }

    ghost function Model(): Client
      reads this, app, service
    {
      Client(app.Model(), service.model, observedTargets, selectedSource, loads, actions, latest, origins)
    }

    constructor (env: M.Env, contexts: seq<M.ContextSummary>, index: nat, context: M.ContextSnapshot)
      requires index < |contexts|
      ensures Valid() && app.env == env && fresh(app) && fresh(service) && fresh(service.loadGenerations)
      ensures Model() == Start(M.Initial(contexts, index, context))
    {
      app := new App(env, contexts, index, context);
      service := new ServiceController();
      observedTargets, selectedSource := [], None;
      loads, actions, latest, origins := {}, 0, map[], map[];
      new;
      RequestActiveData();
    }

    method BeginLoad(section: Section)
      requires Valid()
      modifies this`loads, this`latest, app`loading, service`model, service.loadGenerations
      ensures Valid() && Model() == StartLoad(old(Model()), section)
    {
      var _ := app.BeginLoading(section);
      var generation := service.Load(section);
      ghost var load := ClientModel.Load(section, M.ContextId(app.Model()), LoadOrd(service.model, section),
        app.sourceKind);
      loads, latest := loads + {load}, latest[section := load];
    }

    method UncollapsedSections() returns (sections: seq<Section>)
      ensures sections == ActiveSections(app.Model())
    {
      sections := [];
      var rest := M.SectionsOf(app.tab);
      while rest != []
        invariant sections + Uncollapsed(app.Model(), rest) == Uncollapsed(app.Model(), M.SectionsOf(app.tab))
        decreases |rest|
      {
        if rest[0] !in app.collapsed {
          Assoc(sections, [rest[0]], Uncollapsed(app.Model(), rest[1..]));
          sections := sections + [rest[0]];
        }
        rest := rest[1..];
      }
      assert sections + [] == sections;
      if app.tab.Runtime? && Connections !in app.collapsed && Processes !in sections {
        sections := sections + [Processes];
      }
    }

    method RequestActiveData()
      requires Valid()
      modifies this`loads, this`latest, app`loading, service`model, service.loadGenerations
      ensures Valid() && Model() == RequestActive(old(Model()))
    {
      var sections := UncollapsedSections();
      while sections != []
        invariant Valid() && RequestLoads(Model(), sections) == RequestActive(old(Model()))
        decreases |sections|
      {
        if M.NeedsLoad(app.Model(), sections[0]) { BeginLoad(sections[0]); }
        sections := sections[1..];
      }
    }

    // ---- keys

    method PerformAction(offer: Option<Key>)
      requires Valid()
      modifies this`actions, app`pending
      ensures Valid() && Model() == Perform(old(Model()), offer)
    {
      if app.pending.None? && offer.Some? {
        app.BeginAction(offer.value);
        actions := actions + 1;
      }
    }

    method SwitchContext(delta: int)
      requires Valid()
      modifies app, service
      ensures Valid() && Model() == Switched(old(Model()), M.SelectContext(old(Model()).app, delta))
    {
      app.SelectContext(delta);
      service.SwitchContext();
    }

    method HandleEnter()
      requires Valid()
      modifies app, service
      ensures Valid() && Model() == PressEnter(app.env, old(Model()))
    {
      var id := M.SelectedContextId(app.env, app.Model());
      if id.Some? {
        var selected := app.SelectContextId(id.value);
        if selected {
          service.SwitchContext();
          return;
        }
      }
      app.OpenSelected();
    }

    method HandleSpace(offer: Option<Key>)
      requires Valid()
      modifies this`actions, app
      ensures Valid() && Model() == PressSpace(app.env, old(Model()), offer)
    {
      var key := M.SelectedKey(app.env, app.Model());
      if app.focus.Get(app.tab).section == Processes && key.Some? && (key.value.ProcessKey? || key.value.WindowKey?) {
        PerformAction(offer);
      } else {
        app.ToggleExpanded();
      }
    }

    method HandleChar(ch: char, offer: Option<Key>)
      requires Valid()
      modifies this`actions, app, service
      ensures service.Valid() && Model() == PressChar(app.env, old(Model()), ch, offer)
    {
      var section := app.focus.Get(app.tab).section;
      if ch == '1' { app.SetTab(M.Runtime); }
      else if ch == '2' { app.SetTab(M.Debug); }
      else if ch == 'k' { app.MoveSelection(-1); }
      else if ch == 'j' { app.MoveSelection(1); }
      else if ch == 'g' { app.SelectEdge(false); }
      else if ch == 'G' { app.SelectEdge(true); }
      else if ch == 'h' { app.NavigateLeft(); }
      else if ch == 'l' { app.NavigateRight(); }
      else if ch == ' ' { HandleSpace(offer); }
      else if ch == 'c' { PerformAction(offer); }
      else if (ch == 'a' || ch == 'f') && section == Targets { PerformAction(offer); }
      else if ch == 'd' && section == Connections { PerformAction(offer); }
      else if ch == 'm' && section == Sources { app.ToggleSourceKind(); }
      else if ch == 'b' && app.documentFocused { PerformAction(offer); }
      else if ch == '[' { SwitchContext(-1); }
      else if ch == ']' { SwitchContext(1); }
      else if ch == 'r' { app.RefreshActiveData(); }
    }

    /** `handle_key` up to its final request for data. */
    method Dispatch(key: KeyCode, offer: Option<Key>)
      requires Valid()
      modifies this`actions, app, service
      ensures service.Valid() && Model() == Press(app.env, old(Model()), key, offer)
    {
      match key {
        case Esc => app.LeaveDocument();
        case TabKey(_) => app.NextTab();
        case BackTab => app.NextTab();
        case Up => app.MoveSelection(-1);
        case Down => app.MoveSelection(1);
        case Home => app.SelectEdge(false);
        case End => app.SelectEdge(true);
        case Left => app.NavigateLeft();
        case Right => app.NavigateRight();
        case Enter => HandleEnter();
        case Delete => if app.focus.Get(app.tab).section == Connections { PerformAction(offer); }
        case Char(ch) => HandleChar(ch, offer);
        case Unmapped =>
      }
    }

    method HandleKey(key: KeyCode, offer: Option<Key>) returns (quit: bool)
      requires Valid()
      modifies this, app, service, service.loadGenerations
      ensures Valid() && quit == Quits(old(Model()), key)
      ensures !quit ==> M.Sound(Press(app.env, old(Model()), key, offer).app)
      ensures Model() == if quit then old(Model()) else RequestActive(Press(app.env, old(Model()), key, offer))
    {
      if (key == Esc && !app.documentFocused) || key == Char('q') { return true; }
      ClientFrames.PressIsSound(app.env, Model(), key, offer);
      Dispatch(key, offer);
      RequestActiveData();
      return false;
    }

    // ---- events from the service

    /** Hands data to the setter of its kind. */
    method Refresh(r: M.Refresh)
      requires M.Sound(app.Model())
      modifies app
      ensures app.Model() == M.Refreshed(app.env, old(app.Model()), r)
    {
      match r {
        case NewContexts(contexts) => app.SetContexts(contexts);
        case NewContext(snapshot) => app.ApplyContext(snapshot);
        case NewProcesses(processes) => app.SetProcesses(processes);
        case NewResources(resources) => app.SetResources(resources);
        case NewSources(sources) => app.SetSources(sources);
        case NewCaptures(captures) => app.SetCaptures(captures);
        case NewDetail(detail) => app.SetTargetDetail(detail);
        case LostDetail(id) => app.RemoveTargetDetail(id);
      }
    }

    /** An answer carries the generation of its load; `load` is the load itself. The client stays valid
        unless a new list of contexts does not reach its current one (`ClientFrames.RefreshIsSound`). */
    method HandleData(section: Section, contextId: string, generation: nat, data: Option<M.Refresh>, ghost load: Load)
      requires Valid() && load.section == section && load.context == contextId && generation == Gen(load.ord)
      modifies this`loads, this`origins, app
      ensures service.Valid() && Model() == DataLoaded(app.env, old(Model()), load, data)
    {
      loads := loads - {load};
      if contextId != app.contexts[app.contextIndex].id
        || generation != service.loadGenerations[SectionIndex(section)] {
        return;
      }
      app.FinishLoading(section);
      if data.Some? {
        if Adopted(app.Model(), data) { origins := origins[section := load]; }
        Refresh(data.value);
      }
    }

    method HandleTargetDetail(generation: nat, target: M.TargetRef, detail: Option<M.Detail>, ghost ord: nat)
      requires Valid() && generation == Gen(ord)
      modifies app
      ensures Valid() && Model() == TargetEvent(app.env, old(Model()), ord, target, detail)
    {
      if generation != service.targetGeneration { return; }
      ClientFrames.RefreshIsSound(app.env, app.Model(), TargetRefresh(target, detail));
      if detail.Some? {
        app.SetTargetDetail(detail.value);
      } else {
        app.RemoveTargetDetail((target.connectionId, target.targetId));
      }
    }

    method HandleSource(contextId: string, path: string, generation: nat, content: Option<string>, ghost ord: nat)
      requires Valid() && generation == Gen(ord)
      modifies app
      ensures Valid() && Model() == SourceEvent(app.env, old(Model()), contextId, path, ord, content)
    {
      if contextId != app.contexts[app.contextIndex].id || generation != service.sourceGeneration { return; }
      if M.SelectedSource(app.env, app.Model()) != Some(path) { return; }
      if content.Some? { app.SetSourceContent(content); }
    }

    method HandleActionFinished(result: Option<M.ContextSnapshot>)
      requires Valid()
      modifies this`actions, app
      ensures Valid() && Model() == ActionDone(app.env, old(Model()), result)
    {
      ClientFrames.FinishIsSound(app.env, app.Model(), result);
      app.FinishAction(result);
      actions := if actions == 0 then 0 else actions - 1;
    }

    // ---- the loop

    /** Drawing tells the application how high each section is. */
    method DrawSections(viewports: seq<(Section, nat)>)
      requires Valid()
      modifies app`focus, app`visible
      ensures Valid() && app.Model() == Draw(old(app.Model()), viewports)
    {
      var rest := viewports;
      while rest != []
        invariant Valid() && Draw(app.Model(), rest) == Draw(old(app.Model()), viewports)
        decreases |rest|
      {
        app.SetSectionViewport(rest[0].0, rest[0].1);
        rest := rest[1..];
      }
    }

    method SyncObservers()
      requires Valid()
      modifies this`observedTargets, this`selectedSource, app`content, app`documentFocused, service
      ensures Valid() && Model() == SyncSource(app.env, SyncTargets(old(Model())))
    {
      var nextTargets := M.ObservedTargets(app.Model());
      if nextTargets != observedTargets {
        observedTargets := nextTargets;
        service.SetTargets(nextTargets);
      }
      assert Model() == SyncTargets(old(Model()));
      var nextSource := NextSelection(app.env, app.Model());
      if nextSource != selectedSource {
        selectedSource := nextSource;
        app.SetSourceContent(None);
        service.SetSource(Asked(nextSource));
      }
    }

    /** Handles one message; `event` is the event it is the message of. */
    method HandleMessage(message: Message, ghost event: Event)
      requires Valid() && message == Sent(event) && (event.Pressed? ==> !Quits(Model(), event.key))
      modifies this, app, service, service.loadGenerations
      ensures service.Valid() && Model() == Handle(app.env, old(Model()), event)
    {
      match message {
        case Ticked => RequestActiveData();
        case KeyPressed(key, offer) =>
          var _ := HandleKey(key, offer);
        case SnapshotLoaded(snapshot) => if snapshot.Some? { app.ApplyContext(snapshot.value); }
        case TargetChanged(generation, target, detail) => HandleTargetDetail(generation, target, detail, event.ord);
        case DataReceived(section, contextId, generation, data) =>
          HandleData(section, contextId, generation, data, event.load);
        case SourceReceived(contextId, path, generation, content) =>
          HandleSource(contextId, path, generation, content, event.ord);
        case ActionEnded(result) => HandleActionFinished(result);
      }
    }

    /** One turn: draw, handle a message, bring the observers in line. */
    method RunTurn(viewports: seq<(Section, nat)>, message: Message, ghost event: Event)
      requires Valid() && message == Sent(event)
      requires var drawn := Drawn(Model(), Turn(viewports, event));
        && M.Sound(drawn.app) && (event.Pressed? ==> !Quits(drawn, event.key))
        && M.Sound(Handle(app.env, drawn, event).app)
      modifies this, app, service, service.loadGenerations
      ensures Valid() && Model() == TakeTurn(app.env, old(Model()), Turn(viewports, event))
    {
      DrawSections(viewports);
      assert Model() == Drawn(old(Model()), Turn(viewports, event));
      HandleMessage(message, event);
      SyncObservers();
    }

    /** The event loop on the messages of any possible run. */
    method Run(inputs: seq<Input>, ghost turns: seq<Turn>)
      requires Valid() && Runs.Possible(app.env, Model(), turns) && inputs == InputsOf(turns)
      modifies this, app, service, service.loadGenerations
      ensures Valid() && Model() == Runs.After(app.env, old(Model()), turns)
    {
      var rest := inputs;
      ghost var todo := turns;
      while rest != []
        invariant Valid() && Runs.Possible(app.env, Model(), todo) && rest == InputsOf(todo)
        invariant Runs.After(app.env, Model(), todo) == Runs.After(app.env, old(Model()), turns)
        decreases |rest|
      {
        ghost var event := todo[0].event;
        RunTurn(rest[0].viewports, rest[0].message, event);
        rest := rest[1..];
        todo := todo[1..];
      }
    }
  }
}
