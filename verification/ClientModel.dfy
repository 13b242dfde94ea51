/** The client's event loop as a step function: the application state, the service controller's
    generations, the messages still in flight, and the loop's own bookkeeping. */
module ClientModel {
  import opened Common
  import opened Outline
  import opened AppModel

  const TWO64: nat := 0x1_0000_0000_0000_0000

  /** Generations are 64-bit counters that wrap around; the n-th start of a task has this one. */
  function Gen(ord: nat): nat { ord % TWO64 }

  /** A data query on its way: the section, the context and source kind it was started for, and how
      many loads of the section had been started by then. */
  datatype Load = Load(section: Section, context: string, ord: nat, kind: SourceKind)

  datatype Selection = Selection(context: string, path: string, kind: SourceKind, token: seq<string>)

  datatype Service = Service(
    loadOrds: map<Section, nat>,
    targetOrd: nat,
    targets: seq<TargetRef>,            // targets with a running observer
    sourceOrd: nat,
    source: Option<(string, string, SourceKind)>)

  datatype Client = Client(
    app: App,
    service: Service,
    observed: seq<TargetRef>,
    selected: Option<Selection>,
    loads: set<Load>,                   // data queries in flight
    actions: nat,                       // lifecycle actions in flight
    latest: map<Section, Load>,         // history: the last load started per section
    origins: map<Section, Load>)        // history: the load that brought a section's data

  function LoadOrd(s: Service, section: Section): nat {
    if section in s.loadOrds then s.loadOrds[section] else 0
  }

  // ---- service controller

  function SetTargets(s: Service, targets: seq<TargetRef>): Service {
    s.(targetOrd := s.targetOrd + 1, targets := targets)
  }

  function SetSource(s: Service, source: Option<(string, string, SourceKind)>): Service {
    s.(sourceOrd := s.sourceOrd + 1, source := source)
  }

  function SwitchContext(s: Service): Service {
    SetSource(SetTargets(s, []), None)
  }

  // ---- starting loads

  function StartLoad(c: Client, s: Section): Client
    requires Sound(c.app)
  {
    var ord := LoadOrd(c.service, s) + 1;
    var load := Load(s, ContextId(c.app), ord, c.app.sourceKind);
    c.(app := BeginLoading(c.app, s),
       service := c.service.(loadOrds := c.service.loadOrds[s := ord]),
       loads := c.loads + {load}, latest := c.latest[s := load])
  }

  function RequestLoads(c: Client, sections: seq<Section>): (r: Client)
    requires Sound(c.app)
    ensures Sound(r.app)
    decreases |sections|
  {
    if sections == [] then c
    else RequestLoads(if NeedsLoad(c.app, sections[0]) then StartLoad(c, sections[0]) else c, sections[1..])
  }

  function Uncollapsed(a: App, sections: seq<Section>): seq<Section> {
    if sections == [] then []
    else (if sections[0] in a.collapsed then [] else [sections[0]]) + Uncollapsed(a, sections[1..])
  }

  function ActiveSections(a: App): seq<Section> {
    var open := Uncollapsed(a, SectionsOf(a.tab));
    open + if a.tab.Runtime? && Connections !in a.collapsed && Processes !in open then [Processes] else []
  }

  /** `request_active_data`. */
  function RequestActive(c: Client): (r: Client)
    requires Sound(c.app)
    ensures Sound(r.app)
  {
    RequestLoads(c, ActiveSections(c.app))
  }

  // ---- keys

  datatype KeyCode =
    | Esc | TabKey(shift: bool) | BackTab | Up | Down | Home | End | Left | Right | Enter | Delete
    | Char(c: char) | Unmapped

  /** The lifecycle action the selected row offers, if any, goes out unless one is pending. */
  function Perform(c: Client, offer: Option<Key>): Client {
    if c.app.pending.Some? || offer.None? then c
    else c.(app := BeginAction(c.app, offer.value), actions := c.actions + 1)
  }

  function Switched(c: Client, a: App): Client {
    c.(app := a, service := SwitchContext(c.service))
  }

  function PressEnter(e: Env, c: Client): Client {
    var id := SelectedContextId(e, c.app);
    var switched := if id.Some? then SelectContextId(c.app, id.value) else None;
    if switched.Some? then Switched(c, switched.value) else c.(app := OpenSelected(e, c.app))
  }

  function PressSpace(e: Env, c: Client, offer: Option<Key>): Client {
    var key := SelectedKey(e, c.app);
    if c.app.focus.Get(c.app.tab).section == Processes && key.Some? && (key.value.ProcessKey? || key.value.WindowKey?)
    then Perform(c, offer)
    else c.(app := ToggleExpanded(e, c.app))
  }

  function PressChar(e: Env, c: Client, ch: char, offer: Option<Key>): Client
    requires Sound(c.app)
  {
    var section := c.app.focus.Get(c.app.tab).section;
    if ch == '1' then c.(app := SetTab(e, c.app, Runtime))
    else if ch == '2' then c.(app := SetTab(e, c.app, Debug))
    else if ch == 'k' then c.(app := MoveSelection(e, c.app, -1))
    else if ch == 'j' then c.(app := MoveSelection(e, c.app, 1))
    else if ch == 'g' then c.(app := SelectEdge(e, c.app, false))
    else if ch == 'G' then c.(app := SelectEdge(e, c.app, true))
    else if ch == 'h' then c.(app := NavigateLeft(e, c.app))
    else if ch == 'l' then c.(app := NavigateRight(e, c.app))
    else if ch == ' ' then PressSpace(e, c, offer)
    else if ch == 'c' then Perform(c, offer)
    else if (ch == 'a' || ch == 'f') && section == Targets then Perform(c, offer)
    else if ch == 'd' && section == Connections then Perform(c, offer)
    else if ch == 'm' && section == Sources then c.(app := ToggleSourceKind(c.app))
    else if ch == 'b' && c.app.documentFocused then Perform(c, offer)
    else if ch == '[' then Switched(c, SelectContext(c.app, -1))
    else if ch == ']' then Switched(c, SelectContext(c.app, 1))
    else if ch == 'r' then c.(app := RefreshActiveData(c.app))
    else c
  }

  function Quits(c: Client, key: KeyCode): bool {
    (key == Esc && !c.app.documentFocused) || key == Char('q')
  }

  function Press(e: Env, c: Client, key: KeyCode, offer: Option<Key>): Client
    requires Sound(c.app)
  {
    match key
    case Esc => c.(app := LeaveDocument(c.app))
    case TabKey(_) => c.(app := NextTab(e, c.app))
    case BackTab => c.(app := NextTab(e, c.app))
    case Up => c.(app := MoveSelection(e, c.app, -1))
    case Down => c.(app := MoveSelection(e, c.app, 1))
    case Home => c.(app := SelectEdge(e, c.app, false))
    case End => c.(app := SelectEdge(e, c.app, true))
    case Left => c.(app := NavigateLeft(e, c.app))
    case Right => c.(app := NavigateRight(e, c.app))
    case Enter => PressEnter(e, c)
    case Delete => if c.app.focus.Get(c.app.tab).section == Connections then Perform(c, offer) else c
    case Char(ch) => PressChar(e, c, ch, offer)
    case Unmapped => c
  }

  // ---- events from the service

  /** A query answers with its section's data; a source query with a tree of the kind asked for.
      `None` is a query that failed or timed out. */
  predicate Answers(load: Load, data: Option<Refresh>) {
    match data
    case None => true
    case Some(NewContexts(_)) => load.section == Contexts
    case Some(NewProcesses(_)) => load.section == Processes
    case Some(NewResources(_)) => load.section == Connections
    case Some(NewSources(tree)) => load.section == Sources && tree.kind == load.kind
    case Some(NewCaptures(_)) => load.section == Captures
    case Some(_) => false
  }

  predicate Accepts(c: Client, load: Load)
    requires Sound(c.app)
  {
    load.context == ContextId(c.app) && Gen(load.ord) == Gen(LoadOrd(c.service, load.section))
  }

  /** The data was taken over, and not dropped for being of another source kind. */
  predicate Adopted(a: App, data: Option<Refresh>) {
    data.Some? && (data.value.NewSources? ==> data.value.sources.kind == a.sourceKind)
  }

  function DataLoaded(e: Env, c: Client, load: Load, data: Option<Refresh>): Client
    requires Sound(c.app)
  {
    var taken := c.(loads := c.loads - {load});
    if !Accepts(c, load) then taken
    else
      var done := FinishLoading(c.app, load.section);
      taken.(app := if data.Some? then Refreshed(e, done, data.value) else done,
             origins := if Adopted(done, data) then c.origins[load.section := load] else c.origins)
  }

  datatype Event =
    | Tick
    | Pressed(key: KeyCode, offer: Option<Key>)
    | ContextArrived(snapshot: ContextSnapshot)
    | ContextFailed
    | TargetArrived(ord: nat, target: TargetRef, detail: Option<Detail>)
    | DataArrived(load: Load, data: Option<Refresh>)
    | SourceArrived(context: string, path: string, ord: nat, content: Option<string>)
    | ActionFinished(result: Option<ContextSnapshot>)

  function TargetRefresh(target: TargetRef, detail: Option<Detail>): Refresh {
    if detail.Some? then NewDetail(detail.value) else LostDetail((target.connectionId, target.targetId))
  }

  function TargetEvent(e: Env, c: Client, ord: nat, target: TargetRef, detail: Option<Detail>): Client
    requires Sound(c.app)
  {
    if Gen(ord) != Gen(c.service.targetOrd) then c else c.(app := Refreshed(e, c.app, TargetRefresh(target, detail)))
  }

  function SourceEvent(e: Env, c: Client, context: string, path: string, ord: nat, content: Option<string>): Client
    requires Sound(c.app)
  {
    if context != ContextId(c.app) || Gen(ord) != Gen(c.service.sourceOrd) || SelectedSource(e, c.app) != Some(path)
      || content.None? then c
    else c.(app := SetSourceContent(c.app, content))
  }

  function ActionDone(e: Env, c: Client, result: Option<ContextSnapshot>): Client
    requires Sound(c.app)
  {
    c.(app := FinishAction(e, c.app, result), actions := if c.actions == 0 then 0 else c.actions - 1)
  }

  function Handle(e: Env, c: Client, event: Event): Client
    requires Sound(c.app)
  {
    match event
    case Tick => RequestActive(c)
    case Pressed(key, offer) =>
      var pressed := Press(e, c, key, offer);
      if Sound(pressed.app) then RequestActive(pressed) else pressed
    case ContextArrived(snapshot) => c.(app := Refreshed(e, c.app, NewContext(snapshot)))
    case ContextFailed => c
    case TargetArrived(ord, target, detail) => TargetEvent(e, c, ord, target, detail)
    case DataArrived(load, data) => DataLoaded(e, c, load, data)
    case SourceArrived(context, path, ord, content) => SourceEvent(e, c, context, path, ord, content)
    case ActionFinished(result) => ActionDone(e, c, result)
  }

  // ---- one turn of the loop

  function Draw(a: App, viewports: seq<(Section, nat)>): App
    decreases |viewports|
  {
    if viewports == [] then a else Draw(SetViewport(a, viewports[0].0, viewports[0].1), viewports[1..])
  }

  function SyncTargets(c: Client): Client
    requires Sound(c.app)
  {
    var next := ObservedTargets(c.app);
    if next == c.observed then c else c.(observed := next, service := SetTargets(c.service, next))
  }

  function NextSelection(e: Env, a: App): Option<Selection>
    requires Sound(a)
  {
    var path := SelectedSource(e, a);
    if path.None? then None
    else Some(Selection(ContextId(a), path.value, a.sourceKind, RevisionToken(a, path.value)))
  }

  /** What the service is asked for when the selection changes. */
  function Asked(selection: Option<Selection>): Option<(string, string, SourceKind)> {
    match selection
    case None => None
    case Some(s) => Some((s.context, s.path, s.kind))
  }

  function SyncSource(e: Env, c: Client): Client
    requires Sound(c.app)
  {
    var next := NextSelection(e, c.app);
    if next == c.selected then c
    else c.(selected := next, app := SetSourceContent(c.app, None), service := SetSource(c.service, Asked(next)))
  }

  datatype Turn = Turn(viewports: seq<(Section, nat)>, event: Event)

  /** The context that a new list must show for the current one to stay current. */
  predicate KeepsListed(a: App, r: Refresh)
    requires Sound(a)
  {
    r.NewContexts? ==> Lists(r.contexts, ContextId(a))
  }

  /** The event can happen now: its message is in flight or its observer was started, answers are about
      what was asked, a key does not quit, and a list of contexts shows the current one. */
  predicate Lawful(c: Client, event: Event)
    requires Sound(c.app)
  {
    match event
    case Pressed(key, _) => !Quits(c, key)
    case DataArrived(load, data) =>
      && load in c.loads && Answers(load, data)
      && (Accepts(c, load) && data.Some? ==> KeepsListed(c.app, data.value))
    case ActionFinished(_) => c.actions > 0
    case TargetArrived(ord, _, _) => 0 < ord <= c.service.targetOrd
    case SourceArrived(_, path, ord, content) => 0 < ord <= c.service.sourceOrd
      && (content.Some? ==> content.value == path)
    case _ => true
  }

  function Drawn(c: Client, t: Turn): Client { c.(app := Draw(c.app, t.viewports)) }

  /** Draw the screen, handle one event, then bring the observers in line with what is selected. */
  function TakeTurn(e: Env, c: Client, t: Turn): Client
    requires Sound(Drawn(c, t).app) && Sound(Handle(e, Drawn(c, t), t.event).app)
  {
    SyncSource(e, SyncTargets(Handle(e, Drawn(c, t), t.event)))
  }

  function Start(a: App): Client
    requires Sound(a)
  {
    RequestActive(Client(a, Service(map[], 0, [], 0, None), [], None, {}, 0, map[], map[]))
  }
}
