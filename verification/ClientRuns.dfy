/** What holds in every run of the client, whatever is typed and in whatever order answers arrive. */
module ClientRuns {
  import opened Common
  import opened Outline
  import opened AppModel
  import opened ClientModel
  import opened ClientFrames
  import opened ClientLoads
  import opened ClientData
  import opened ClientSync
  import opened ClientInvariant
  import opened Arrivals
  import opened Demand
  import opened SourceNavigation
  import Keys = KeyEffects
  import opened SourceCache
  import opened SourceFocus

  /** The turns can happen one after the other, each with a lawful event. */
  predicate Possible(e: Env, c: Client, turns: seq<Turn>)
    decreases |turns|
  {
    turns == []
    || (Sound(Drawn(c, turns[0]).app) && Lawful(Drawn(c, turns[0]), turns[0].event)
        && Sound(Handle(e, Drawn(c, turns[0]), turns[0].event).app)
        && Possible(e, TakeTurn(e, c, turns[0]), turns[1..]))
  }

  function After(e: Env, c: Client, turns: seq<Turn>): Client
    requires Possible(e, c, turns)
    decreases |turns|
  {
    if turns == [] then c else After(e, TakeTurn(e, c, turns[0]), turns[1..])
  }

  ghost predicate Good(e: Env, c: Client) { Inv(e, c) && Synced(e, c) }

  lemma {:induction false} TurnIsGood(e: Env, c: Client, t: Turn)
    requires OtherRows(e) && Good(e, c) && Sound(Drawn(c, t).app) && Lawful(Drawn(c, t), t.event)
    ensures Sound(Handle(e, Drawn(c, t), t.event).app) && Good(e, TakeTurn(e, c, t))
  {
    DrawKeepsInv(e, c, t);
    HandleKeepsInv(e, Drawn(c, t), t.event);
    SyncKeepsInv(e, Handle(e, Drawn(c, t), t.event));
    TurnSyncs(e, c, t);
  }

  lemma {:induction false} StartIsGood(e: Env, contexts: seq<ContextSummary>, index: nat, context: ContextSnapshot)
    requires index < |contexts| && context.id == contexts[index].id
    ensures Good(e, Start(Initial(contexts, index, context)))
  {
    StartInv(e, contexts, index, context);
    var a := Initial(contexts, index, context);
    RequestIsRequested(Client(a, Service(map[], 0, [], 0, None), [], None, {}, 0, map[], map[]));
  }

  /** Every run that starts well stays well: no turn of it indexes a missing context, and the
      invariant holds after each. */
  lemma {:induction false} RunsAreGood(e: Env, c: Client, turns: seq<Turn>)
    requires OtherRows(e) && Good(e, c) && Possible(e, c, turns)
    ensures Good(e, After(e, c, turns))
    decreases |turns|
  {
    if turns != [] {
      TurnIsGood(e, c, turns[0]);
      RunsAreGood(e, TakeTurn(e, c, turns[0]), turns[1..]);
    }
  }

  /** The client right after start-up. */
  ghost predicate Starting(c: Client) {
    exists contexts: seq<ContextSummary>, index: nat, context: ContextSnapshot ::
      index < |contexts| && context.id == contexts[index].id && c == Start(Initial(contexts, index, context))
  }

  /** The state is reached from start-up by lawful events. */
  ghost predicate Reachable(e: Env, c: Client) {
    exists c0: Client, turns: seq<Turn> :: Starting(c0) && Possible(e, c0, turns) && c == After(e, c0, turns)
  }

  lemma {:induction false} OneMoreTurn(e: Env, c: Client, turns: seq<Turn>, t: Turn)
    requires Possible(e, c, turns)
    requires var d := After(e, c, turns);
      && Sound(Drawn(d, t).app) && Lawful(Drawn(d, t), t.event) && Sound(Handle(e, Drawn(d, t), t.event).app)
    ensures Possible(e, c, turns + [t]) && After(e, c, turns + [t]) == TakeTurn(e, After(e, c, turns), t)
    decreases |turns|
  {
    if turns == [] {
      assert [] + [t] == [t] && [t][1..] == [];
    } else {
      assert (turns + [t])[1..] == turns[1..] + [t];
      OneMoreTurn(e, TakeTurn(e, c, turns[0]), turns[1..], t);
    }
  }

  lemma {:induction false} ReachedBy(e: Env, c0: Client, turns: seq<Turn>)
    requires Starting(c0) && Possible(e, c0, turns)
    ensures Reachable(e, After(e, c0, turns))
  {
  }

  /** A lawful turn leads from a reachable state to one. */
  lemma {:induction false} TurnIsReachable(e: Env, c: Client, t: Turn)
    requires Reachable(e, c)
    requires Sound(Drawn(c, t).app) && Lawful(Drawn(c, t), t.event) && Sound(Handle(e, Drawn(c, t), t.event).app)
    ensures Reachable(e, TakeTurn(e, c, t))
  {
    var c0: Client, turns: seq<Turn> :| Starting(c0) && Possible(e, c0, turns) && c == After(e, c0, turns);
    OneMoreTurn(e, c0, turns, t);
    ReachedBy(e, c0, turns + [t]);
  }

  /** In every reachable state: each loading section awaits its latest load; resources, captures and
      sources were queried for the current context, and the tree has the selected kind; every target
      detail is backed by the current snapshot; an action is pending exactly while one is in flight; the
      cached source rows are a fresh flattening and a focused one exists; and the observers are in line. */
  lemma {:induction false} ReachableStatesAreInOrder(e: Env, c: Client)
    requires OtherRows(e) && Reachable(e, c)
    ensures Sound(c.app) && LoadsOk(c) && DataOwned(c) && DetailsBacked(c.app) && ActionsOk(c)
    ensures SourcesFresh(e, c.app) && FocusOk(c.app) && Synced(e, c)
  {
    var c0: Client, turns: seq<Turn> :| Starting(c0) && Possible(e, c0, turns) && c == After(e, c0, turns);
    var contexts: seq<ContextSummary>, index: nat, context: ContextSnapshot :|
      index < |contexts| && context.id == contexts[index].id && c0 == Start(Initial(contexts, index, context));
    StartIsGood(e, contexts, index, context);
    RunsAreGood(e, c0, turns);
  }

  // ---- loading

  /** An answer to this load would be taken for section `s` now. */
  predicate Answering(c: Client, s: Section, l: Load)
    requires Sound(c.app)
  {
    l.section == s && Accepts(c, l)
  }

  /** Fewer than 2^64 loads of the section have been started since this one. */
  predicate Recent(c: Client, l: Load) { LoadOrd(c.service, l.section) - l.ord < TWO64 }

  lemma GenIsOrd(x: nat, y: nat)
    requires x <= y < x + TWO64 && Gen(x) == Gen(y)
    ensures x == y
  {
  }

  /** Exactly one load in flight answers for a loading section: the latest one, of the current
      context, and for Sources of the selected kind. */
  lemma {:induction false} LoadingAwaitsOneLoad(e: Env, c: Client, s: Section)
    requires OtherRows(e) && Reachable(e, c) && Sound(c.app) && s in c.app.loading
    requires forall l | l in c.loads && l.section == s :: Recent(c, l)
    ensures s in c.latest
    ensures forall l :: l in c.loads && Answering(c, s, l) <==> l == c.latest[s]
    ensures c.latest[s].context == ContextId(c.app) && (s == Sources ==> c.latest[s].kind == c.app.sourceKind)
  {
    ReachableStatesAreInOrder(e, c);
    assert Awaited(c, s);
    forall l | l in c.loads && Answering(c, s, l) ensures l == c.latest[s] {
      assert Known(c, l);
      GenIsOrd(l.ord, LoadOrd(c.service, s));
    }
  }

  /** With nothing in flight nothing is loading. */
  lemma {:induction false} NothingIsStuckLoading(e: Env, c: Client)
    requires OtherRows(e) && Reachable(e, c) && c.loads == {}
    ensures c.app.loading == {}
  {
    ReachableStatesAreInOrder(e, c);
    forall s ensures !Awaited(c, s) {}
  }

  /** A taken answer is of the current context and, while fewer than 2^64 newer loads have started,
      of the latest load started for its section. */
  lemma {:induction false} TakenAnswerIsLatest(e: Env, c: Client, load: Load)
    requires OtherRows(e) && Reachable(e, c) && Sound(c.app) && load in c.loads && Recent(c, load)
    ensures Accepts(c, load) <==>
      load.context == ContextId(c.app) && load.section in c.latest && load == c.latest[load.section]
        && load.ord == LoadOrd(c.service, load.section)
  {
    ReachableStatesAreInOrder(e, c);
    assert Known(c, load);
    if Accepts(c, load) { GenIsOrd(load.ord, LoadOrd(c.service, load.section)); }
  }

  lemma {:induction false} InFlightIsKnown(e: Env, c: Client, load: Load)
    requires OtherRows(e) && Reachable(e, c) && load in c.loads
    ensures Known(c, load)
  {
    ReachableStatesAreInOrder(e, c);
  }

  lemma AcceptsUpToWrapAround(c: Client, load: Load)
    requires Sound(c.app) && load.ord <= LoadOrd(c.service, load.section)
    ensures Accepts(c, load) <==>
      load.context == ContextId(c.app) && Gen(LoadOrd(c.service, load.section) - load.ord) == 0
  {
  }

  /** An answer is taken exactly when it is of the current context and a multiple of 2^64 newer loads of its
      section have started; without newer ones it is of the latest load. */
  lemma {:induction false} TakenUpToWrapAround(e: Env, c: Client, load: Load)
    requires OtherRows(e) && Reachable(e, c) && Sound(c.app) && load in c.loads
    ensures load.ord <= LoadOrd(c.service, load.section)
    ensures Accepts(c, load) <==>
      load.context == ContextId(c.app) && Gen(LoadOrd(c.service, load.section) - load.ord) == 0
    ensures load.ord == LoadOrd(c.service, load.section) ==>
      load.section in c.latest && load == c.latest[load.section]
  {
    InFlightIsKnown(e, c, load);
    AcceptsUpToWrapAround(c, load);
  }

  /** After a request nothing that is wanted is left without a query: what was wanted is loading, each by one
      load more, and nothing else has been started. */
  lemma {:induction false} RequestMeetsDemand(c: Client, s: Section)
    requires Sound(c.app)
    ensures var d := RequestActive(c);
      && !Wants(d.app, s)
      && (s in d.app.loading <==> s in c.app.loading || Wants(c.app, s))
      && (LoadOrd(d.service, s) > LoadOrd(c.service, s) <==> Wants(c.app, s))
  {
    RequestStarts(c, s);
    RequestIsRequested(c);
    WantsOnlyLess(c.app, RequestActive(c).app, s);
  }

  lemma WantsOnlyLess(a: App, b: App, s: Section)
    requires b == a.(loading := b.loading) && (s in b.loading <==> s in a.loading || Wants(a, s))
    ensures !Wants(b, s)
  {
    forall tree ensures Unexplored(b, tree) <==> Unexplored(a, tree) {
      assert forall other :: LookedInto(b, other) <==> LookedInto(a, other);
    }
  }

  /** A target has a running observer exactly when it is watched. */
  lemma {:induction false} ReachableWatches(e: Env, c: Client, t: TargetRef)
    requires OtherRows(e) && Reachable(e, c) && Sound(c.app)
    ensures t in c.service.targets <==> Keys.Watched(c.app, t)
  {
    ReachableStatesAreInOrder(e, c);
    Keys.WatchedExact(c.app, t);
  }

  lemma {:induction false} KindsInRuns(e: Env, c: Client, turns: seq<Turn>)
    requires Possible(e, c, turns) && c.app.sourceKind != Resolved
    ensures After(e, c, turns).app.sourceKind != Resolved
    decreases |turns|
  {
    if turns != [] {
      MovedDraw(c.app, turns[0].viewports);
      Keys.KindFollows(e, Drawn(c, turns[0]), turns[0].event);
      KindsInRuns(e, TakeTurn(e, c, turns[0]), turns[1..]);
    }
  }

  /** After a turn the text is asked for of what the event left selected, and of nothing else. */
  lemma {:induction false} TurnAsks(e: Env, c: Client, t: Turn)
    requires OtherRows(e) && Good(e, c) && Sound(Drawn(c, t).app) && Lawful(Drawn(c, t), t.event)
    ensures var d := Handle(e, Drawn(c, t), t.event);
      && Sound(d.app) && Keys.Shows(e, d.app, TakeTurn(e, c, t).selected)
      && TakeTurn(e, c, t).service.source
           == match TakeTurn(e, c, t).selected
              case None => None
              case Some(s) => Some((s.context, s.path, s.kind))
  {
    TurnIsGood(e, c, t);
    Keys.SelectionExact(e, Handle(e, Drawn(c, t), t.event).app);
  }

  lemma {:induction false} StartKind(c: Client)
    requires Starting(c)
    ensures c.app.sourceKind == SourceMapped
  {
    var contexts: seq<ContextSummary>, index: nat, context: ContextSnapshot :|
      index < |contexts| && context.id == contexts[index].id && c == Start(Initial(contexts, index, context));
    RequestIsRequested(
      Client(Initial(contexts, index, context), Service(map[], 0, [], 0, None), [], None, {}, 0, map[], map[]));
  }

  /** The kind of sources that is shown is never the resolved one; the key `m` in Sources turns it from
      source-mapped to formatted to loaded and around. */
  lemma {:induction false} KindsInTurn(e: Env, c: Client, event: Event)
    requires Reachable(e, c) && Sound(c.app)
    ensures var was, now := c.app.sourceKind, Handle(e, c, event).app.sourceKind;
      && was != Resolved
      && if event.Pressed? && event.key == Char('m') && c.app.focus.Get(c.app.tab).section == Sources
         then now == (if was == SourceMapped then Formatted else if was == Formatted then Loaded else SourceMapped)
         else now == was
  {
    var c0: Client, turns: seq<Turn> :| Starting(c0) && Possible(e, c0, turns) && c == After(e, c0, turns);
    StartKind(c0);
    KindsInRuns(e, c0, turns);
    Keys.KindFollows(e, c, event);
  }

  /** In every reachable state, Left then Right on a source row changes nothing but the memory of
      visited children. */
  lemma {:induction false} LeftThenRightAnytime(e: Env, c: Client)
    requires OtherRows(e) && Reachable(e, c)
    requires c.app.focus.Get(c.app.tab).section == Sources && c.app.focus.Get(c.app.tab).row.Some?
      && !c.app.documentFocused
    ensures var b := NavigateRight(e, NavigateLeft(e, c.app)); b == c.app.(lastVisited := b.lastVisited)
  {
    ReachableStatesAreInOrder(e, c);
    LeftThenRight(e, c.app, c.app.focus.Get(c.app.tab).row.value);
  }

  // ---- the snapshot's revision

  /** Unless the context is switched away, its snapshot stays and never gets older. */
  ghost predicate NotOlder(a: App, b: App)
    requires Sound(a) && Sound(b)
  {
    a.context.Some? && b.context.Some? ==>
      b.context.value.id == a.context.value.id && a.context.value.revision <= b.context.value.revision
  }

  lemma {:induction false} RefreshNotOlder(e: Env, a: App, r: Refresh)
    requires Sound(a) && KeepsListed(a, r) && DetailsBacked(a)
    ensures Sound(Refreshed(e, a, r)) && NotOlder(a, Refreshed(e, a, r))
  {
    RefreshHasEffect(e, a, r);
  }

  lemma {:induction false} KeyNotOlder(e: Env, c: Client, key: KeyCode, offer: Option<Key>)
    requires Sound(c.app)
    ensures var d := Handle(e, c, Pressed(key, offer)); Sound(d.app) && NotOlder(c.app, d.app)
  {
    var p := Press(e, c, key, offer);
    var step := PressTakes(e, c, key, offer);
    RequestIsRequested(p);
  }

  lemma {:induction false} HandleNotOlder(e: Env, c: Client, event: Event)
    requires Sound(c.app) && DetailsBacked(c.app) && Lawful(c, event)
    ensures var d := Handle(e, c, event); Sound(d.app) && NotOlder(c.app, d.app)
  {
    match event {
      case Tick => RequestIsRequested(c);
      case Pressed(key, offer) => KeyNotOlder(e, c, key, offer);
      case ContextArrived(snapshot) => RefreshNotOlder(e, c.app, NewContext(snapshot));
      case TargetArrived(ord, target, detail) => RefreshNotOlder(e, c.app, TargetRefresh(target, detail));
      case DataArrived(load, data) =>
        DetailsFrame(c.app, FinishLoading(c.app, load.section));
        if Accepts(c, load) && data.Some? { RefreshNotOlder(e, FinishLoading(c.app, load.section), data.value); }
      case ActionFinished(result) =>
        DetailsFrame(c.app, c.app.(pending := None));
        if result.Some? { RefreshNotOlder(e, c.app.(pending := None), NewContext(result.value)); }
      case _ =>
    }
  }

  lemma {:induction false} TurnNotOlder(e: Env, c: Client, t: Turn)
    requires OtherRows(e) && Good(e, c) && Sound(Drawn(c, t).app) && Lawful(Drawn(c, t), t.event)
    ensures Sound(Handle(e, Drawn(c, t), t.event).app) && Sound(TakeTurn(e, c, t).app)
      && NotOlder(c.app, TakeTurn(e, c, t).app)
  {
    TurnIsGood(e, c, t);
    MovedDraw(c.app, t.viewports);
    DetailsFrame(c.app, Drawn(c, t).app);
    HandleNotOlder(e, Drawn(c, t), t.event);
  }

  /** The context snapshot is there after every turn. */
  predicate StaysActive(e: Env, c: Client, turns: seq<Turn>)
    requires Possible(e, c, turns)
    decreases |turns|
  {
    c.app.context.Some? && (turns != [] ==> StaysActive(e, TakeTurn(e, c, turns[0]), turns[1..]))
  }

  /** Along a run in which no context switch drops the snapshot, its revision never decreases. */
  lemma {:induction false} RevisionNeverDecreases(e: Env, c: Client, turns: seq<Turn>)
    requires OtherRows(e) && Good(e, c) && Possible(e, c, turns) && StaysActive(e, c, turns)
    ensures var d := After(e, c, turns);
      && d.app.context.Some? && d.app.context.value.id == c.app.context.value.id
      && c.app.context.value.revision <= d.app.context.value.revision
    decreases |turns|
  {
    if turns != [] {
      TurnIsGood(e, c, turns[0]);
      TurnNotOlder(e, c, turns[0]);
      RevisionNeverDecreases(e, TakeTurn(e, c, turns[0]), turns[1..]);
    }
  }

  // ---- stale and foreign messages

  /** A message of an observer from before the last change of targets or source changes nothing. */
  lemma {:induction false} StaleObserversAreIgnored(
      e: Env, c: Client, ord: nat, target: TargetRef, detail: Option<Detail>, context: string, path: string,
      content: Option<string>)
    requires Sound(c.app)
    ensures ord < c.service.targetOrd < ord + TWO64 ==> Handle(e, c, TargetArrived(ord, target, detail)) == c
    ensures ord < c.service.sourceOrd < ord + TWO64 ==> Handle(e, c, SourceArrived(context, path, ord, content)) == c
  {
    if ord < c.service.targetOrd < ord + TWO64 && Gen(ord) == Gen(c.service.targetOrd) {
      GenIsOrd(ord, c.service.targetOrd);
    }
    if ord < c.service.sourceOrd < ord + TWO64 && Gen(ord) == Gen(c.service.sourceOrd) {
      GenIsOrd(ord, c.service.sourceOrd);
    }
  }

  /** The action is no longer pending. Its snapshot has been taken over if it is of the current context and
      not older than the one shown; otherwise nothing else has changed. */
  ghost predicate Finished(c: Client, d: Client, snapshot: ContextSnapshot)
    requires Sound(c.app)
  {
    && d == c.(app := d.app, actions := 0) && d.app.pending.None?
    && d.app.context == (if Fresh(c.app, snapshot) then Some(snapshot) else c.app.context)
    && (!Fresh(c.app, snapshot) ==> d.app == c.app.(pending := None))
  }

  lemma {:induction false} FinishChanges(e: Env, c: Client, snapshot: ContextSnapshot)
    requires Sound(c.app) && c.actions == 1
    ensures Finished(c, Handle(e, c, ActionFinished(Some(snapshot))), snapshot)
  {
    ActionArrives(e, c, snapshot);
  }

  /** An action that finishes in a reachable state was the only one in flight, and the next may start. */
  lemma {:induction false} FinishedAction(e: Env, c: Client, snapshot: ContextSnapshot)
    requires OtherRows(e) && Reachable(e, c) && Sound(c.app) && c.actions > 0
    ensures c.actions == 1 && Finished(c, Handle(e, c, ActionFinished(Some(snapshot))), snapshot)
  {
    ReachableStatesAreInOrder(e, c);
    FinishChanges(e, c, snapshot);
  }
}
