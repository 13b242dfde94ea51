/** A new list of contexts that does not show the current one: its old index is kept, so another context
    becomes current, or none does. */
module VanishedContext {
  import opened Common
  import opened Outline
  import opened AppModel
  import opened ClientModel
  import opened ClientFrames
  import opened ClientLoads
  import opened ClientData
  import opened ClientRuns

  ghost predicate ProtocolOk(c: Client) {
    Sound(c.app) && LoadsOk(c) && DataOwned(c) && DetailsBacked(c.app)
  }

  /** Taking a list of contexts keeps the protocol exactly when it shows the current context, or reaches
      the kept index while nothing of the current context is shown or loading. */
  lemma {:induction false} VanishedContextBreaks(e: Env, c: Client, load: Load, contexts: seq<ContextSummary>)
    requires ProtocolOk(c) && load in c.loads && load.section == Contexts && Accepts(c, load)
    ensures ProtocolOk(DataLoaded(e, c, load, Some(NewContexts(contexts)))) <==>
      || Lists(contexts, ContextId(c.app))
      || (c.app.contextIndex < |contexts|
          && c.app.loading <= {Contexts} && c.app.context.None? && c.app.resources.None? && c.app.captures == []
          && c.app.sources.None?)
  {
    var d := DataLoaded(e, c, load, Some(NewContexts(contexts)));
    if Lists(contexts, ContextId(c.app)) {
      DataIsAnswered(e, c, load, Some(NewContexts(contexts)));
      AnswerKeepsLoads(c, d, load, Some(NewContexts(contexts)));
      AnswerKeepsOwned(c, d, load, Some(NewContexts(contexts)));
      AnswerKeepsDetails(c, d, load, Some(NewContexts(contexts)));
    } else {
      RefreshIsSound(e, FinishLoading(c.app, Contexts), NewContexts(contexts));
      if c.app.contextIndex < |contexts| {
        VanishedFrame(e, c, d, load, contexts);
        VanishedLoads(c, d, load);
      }
    }
  }

  lemma {:induction false} VanishedFrame(e: Env, c: Client, d: Client, load: Load, contexts: seq<ContextSummary>)
    requires Sound(c.app) && load.section == Contexts && Accepts(c, load)
    requires c.app.contextIndex < |contexts| && !Lists(contexts, ContextId(c.app))
    requires d == DataLoaded(e, c, load, Some(NewContexts(contexts)))
    ensures Sound(d.app) && d.app.contexts == contexts && ContextId(d.app) != ContextId(c.app)
    ensures d.app == c.app.(contexts := d.app.contexts, queried := d.app.queried, loading := c.app.loading - {Contexts},
                            focus := d.app.focus, lastVisited := d.app.lastVisited)
    ensures d == c.(app := d.app, loads := c.loads - {load}, origins := c.origins[Contexts := load])
  {
    assert contexts[c.app.contextIndex] in contexts;
  }

  lemma NoContextNoDetails(a: App)
    requires Sound(a) && DetailsBacked(a) && a.context.None?
    ensures a.details == map[]
  {
  }

  lemma {:induction false} VanishedLoads(c: Client, d: Client, load: Load)
    requires ProtocolOk(c) && load.section == Contexts && Sound(d.app) && ContextId(d.app) != ContextId(c.app)
    requires d.app == c.app.(contexts := d.app.contexts, queried := d.app.queried,
                             loading := c.app.loading - {Contexts}, focus := d.app.focus,
                             lastVisited := d.app.lastVisited)
    requires d == c.(app := d.app, loads := c.loads - {load}, origins := c.origins[Contexts := load])
    ensures ProtocolOk(d) <==>
      (c.app.loading <= {Contexts} && c.app.context.None? && c.app.resources.None? && c.app.captures == []
       && c.app.sources.None?)
  {
    forall l | l in d.loads ensures Known(d, l) { assert Known(c, l); }
    forall s | s in d.app.loading ensures !Awaited(d, s) { assert Awaited(c, s); }
    if s: Section :| s in c.app.loading && s != Contexts {
      assert s in d.app.loading;
    } else {
      assert d.app.loading == {};
    }
    assert DataOwned(d) <==> c.app.resources.None? && c.app.captures == [] && c.app.sources.None?;
    forall k | k in d.app.details ensures !Backed(d.app, k) { assert Backed(c.app, k); }
    if c.app.context.None? { NoContextNoDetails(c.app); }
  }

  // ---- two runs

  lemma ShutSection(a: App, s: Section, rest: seq<Section>)
    requires s in a.collapsed
    ensures Uncollapsed(a, [s] + rest) == Uncollapsed(a, rest)
  {
    assert ([s] + rest)[1..] == rest;
  }

  /** Right after start-up only Contexts is open, so only it can be asked for. */
  lemma {:induction false} OnlyContextsOpen(c: Client)
    requires Sound(c.app) && c.app.tab.Runtime? && Contexts !in c.app.collapsed
    requires Processes in c.app.collapsed && Connections in c.app.collapsed && Targets in c.app.collapsed
    ensures RequestActive(c) == if NeedsLoad(c.app, Contexts) then StartLoad(c, Contexts) else c
  {
    assert Uncollapsed(c.app, []) == [];
    ShutSection(c.app, Targets, []);
    ShutSection(c.app, Connections, [Targets]);
    ShutSection(c.app, Processes, [Connections, Targets]);
    var others := [Processes, Connections, Targets];
    assert [Targets] + [] == [Targets] && [Connections] + [Targets] == [Connections, Targets];
    assert [Processes] + [Connections, Targets] == others && Uncollapsed(c.app, others) == [];
    assert SectionsOf(Runtime) == [Contexts] + others && ([Contexts] + others)[1..] == others;
    assert ActiveSections(c.app) == [Contexts];
    var next := if NeedsLoad(c.app, Contexts) then StartLoad(c, Contexts) else c;
    assert RequestLoads(c, [Contexts]) == RequestLoads(next, [Contexts][1..]);
  }

  const ASK := Turn([], Pressed(Char('r'), None))

  /** The client after start-up and one press of `r`: the contexts have been asked for. */
  function Asking(contexts: seq<ContextSummary>, index: nat, context: ContextSnapshot): Client
    requires index < |contexts|
  {
    var c := Client(Initial(contexts, index, context), Service(map[], 0, [], 0, None), [], None, {}, 0, map[], map[]);
    StartLoad(c.(app := RefreshActiveData(c.app)), Contexts)
  }

  lemma {:induction false} KeyAsks(e: Env, c: Client)
    requires Sound(c.app) && c.app.tab.Runtime? && Contexts !in c.app.collapsed && c.app.loading == {}
    requires Processes in c.app.collapsed && Connections in c.app.collapsed && Targets in c.app.collapsed
    ensures Handle(e, c, ASK.event) == StartLoad(c.(app := RefreshActiveData(c.app)), Contexts)
  {
    OnlyContextsOpen(c.(app := RefreshActiveData(c.app)));
  }

  lemma NothingToSync(e: Env, c: Client)
    requires Sound(c.app) && c.app.tab.Runtime? && c.observed == [] && c.selected.None?
    ensures SyncSource(e, SyncTargets(c)) == c
  {
  }

  ghost predicate AskedFromStart(e: Env, contexts: seq<ContextSummary>, index: nat, context: ContextSnapshot, c: Client)
    requires index < |contexts|
  {
    var c0 := Start(Initial(contexts, index, context));
    Possible(e, c0, [ASK]) && c == After(e, c0, [ASK])
  }

  lemma {:induction false} AskingIsReached(e: Env, contexts: seq<ContextSummary>, index: nat, context: ContextSnapshot)
    requires index < |contexts|
    ensures AskedFromStart(e, contexts, index, context, Asking(contexts, index, context))
  {
    var a := Initial(contexts, index, context);
    var c := Client(a, Service(map[], 0, [], 0, None), [], None, {}, 0, map[], map[]);
    OnlyContextsOpen(c);
    KeyAsks(e, c);
    NothingToSync(e, Asking(contexts, index, context));
    assert Start(a) == c && Drawn(c, ASK) == c;
    assert [ASK][1..] == [];
  }

  /** The query of the contexts that is on its way then. */
  function Query(contexts: seq<ContextSummary>, index: nat): Load
    requires index < |contexts|
  {
    Load(Contexts, contexts[index].id, 1, SourceMapped)
  }

  lemma {:induction false} QueryIsAwaited(contexts: seq<ContextSummary>, index: nat, context: ContextSnapshot)
    requires index < |contexts|
    ensures var c := Asking(contexts, index, context);
      Query(contexts, index) in c.loads && Accepts(c, Query(contexts, index)) && Sound(c.app)
  {
  }

  const A := ContextSummary("a", 0)
  const B := ContextSummary("b", 0)

  /** Contexts "a" and "b" are listed and "a" is current. The answer lists just "b": now "b" is current
      while the snapshot of "a" stays shown. */
  lemma {:induction false} OtherContextBecomesCurrent(e: Env)
    ensures var c := Asking([A, B], 0, ContextSnapshot("a", 0, 0, [], [], []));
      var d := DataLoaded(e, c, Query([A, B], 0), Some(NewContexts([B])));
      && AskedFromStart(e, [A, B], 0, ContextSnapshot("a", 0, 0, [], [], []), c)
      && Query([A, B], 0) in c.loads && Accepts(c, Query([A, B], 0))
      && Sound(d.app) && ContextId(d.app) == "b" && d.app.context.Some? && d.app.context.value.id == "a"
        && !ProtocolOk(d)
  {
    var snapshot := ContextSnapshot("a", 0, 0, [], [], []);
    AskingIsReached(e, [A, B], 0, snapshot);
    QueryIsAwaited([A, B], 0, snapshot);
    var c := Asking([A, B], 0, snapshot);
    var query := Query([A, B], 0);
    VanishedFrame(e, c, DataLoaded(e, c, query, Some(NewContexts([B]))), query, [B]);
  }

  /** Contexts "a" and "b" are listed and "b" is current. The answer lists just "a": the kept index is
      past its end, and the next use of the current context fails. */
  lemma {:induction false} IndexRunsOut(e: Env)
    ensures var c := Asking([A, B], 1, ContextSnapshot("b", 0, 0, [], [], []));
      var d := DataLoaded(e, c, Query([A, B], 1), Some(NewContexts([A])));
      && AskedFromStart(e, [A, B], 1, ContextSnapshot("b", 0, 0, [], [], []), c)
      && Query([A, B], 1) in c.loads && Accepts(c, Query([A, B], 1))
      && !Sound(d.app)
  {
    var snapshot := ContextSnapshot("b", 0, 0, [], [], []);
    AskingIsReached(e, [A, B], 1, snapshot);
    QueryIsAwaited([A, B], 1, snapshot);
    var c := Asking([A, B], 1, snapshot);
    RefreshIsSound(e, FinishLoading(c.app, Contexts), NewContexts([A]));
  }
}
