/** Whose data the client shows: loaded data, target details, and lifecycle actions. */
module ClientData {
  import opened Common
  import opened Outline
  import opened AppModel
  import opened ClientModel
  import opened ClientFrames

  // ---- loaded data belongs to the current context

  ghost predicate OwnedBy(c: Client, s: Section)
    requires Sound(c.app)
  {
    s in c.origins && c.origins[s].section == s && c.origins[s].context == ContextId(c.app)
  }

  /** What is shown of resources, captures and sources was queried for the current context, and the
      sources with the selected kind. */
  ghost predicate DataOwned(c: Client)
    requires Sound(c.app)
  {
    && (c.app.resources.Some? ==> OwnedBy(c, Connections))
    && (c.app.captures != [] ==> OwnedBy(c, Captures))
    && (c.app.sources.Some? ==>
          OwnedBy(c, Sources) && c.origins[Sources].kind == c.app.sourceKind
            && c.app.sources.value.kind == c.app.sourceKind)
  }

  lemma {:induction false} KeyKeepsOwned(e: Env, c: Client, p: Client, step: KeyStep)
    requires Sound(c.app) && DataOwned(c) && Took(e, c, p, step) && Sound(p.app)
    ensures DataOwned(p)
  {
  }

  lemma {:induction false} RequestKeepsOwned(c: Client, d: Client)
    requires Sound(c.app) && DataOwned(c) && Requested(c, d)
    ensures Sound(d.app) && DataOwned(d)
  {
  }

  lemma {:induction false} RefreshKeepsOwned(c: Client, d: Client, r: Refresh)
    requires Sound(c.app) && DataOwned(c) && RefreshEffect(c.app, d.app, r) && d.origins == c.origins
    requires KeepsListed(c.app, r)
    requires !r.NewResources? && !r.NewCaptures? && !r.NewSources?
    ensures DataOwned(d)
  {
  }

  /** An accepted answer becomes the origin of the data it brings. */
  lemma {:induction false} AnswerKeepsOwned(c: Client, d: Client, load: Load, data: Option<Refresh>)
    requires Sound(c.app) && DataOwned(c) && Answers(load, data) && Answered(c, d, load, data)
    ensures Sound(d.app) && DataOwned(d)
  {
  }

  // ---- target details

  ghost predicate Backed(a: App, k: TargetId)
    requires Sound(a) && k in a.details
  {
    var detail := a.details[k];
    && a.context.Some? && Backs(a.context.value.forest, k, detail.generation)
    && detail.contextId == ContextId(a) && (detail.connectionId, detail.targetId) == k
  }

  /** Every detail is about a debugger-attached target of the current context's snapshot, in the same
      connection generation. */
  ghost predicate DetailsBacked(a: App)
    requires Sound(a)
  {
    (a.context.Some? ==> a.context.value.id == ContextId(a)) && forall k | k in a.details :: Backed(a, k)
  }

  lemma {:induction false} FoundBacks(forest: seq<TargetNode>, id: TargetId)
    requires FindTarget(forest, id).Some? && FindTarget(forest, id).value.attachment == Debugger
    ensures Backs(forest, id, FindTarget(forest, id).value.generation)
  {
    if !(forest[0].connectionId == id.0 && forest[0].targetId == id.1) { FoundBacks(forest[1..], id); }
  }

  lemma {:induction false} RefreshKeepsDetails(a: App, b: App, r: Refresh)
    requires Sound(a) && DetailsBacked(a) && KeepsListed(a, r) && RefreshEffect(a, b, r)
    ensures DetailsBacked(b)
  {
    if r.NewDetail? && Wanted(a, r.detail) {
      FoundBacks(a.context.value.forest, (r.detail.connectionId, r.detail.targetId));
    }
    forall k | k in b.details ensures Backed(b, k) {
      if k in a.details { assert Backed(a, k); }
    }
  }

  lemma {:induction false} DetailsFrame(a: App, b: App)
    requires Sound(a) && DetailsBacked(a) && Sound(b)
    requires b.details == map[] || b.details == a.details
    requires (b.context == a.context && ContextId(b) == ContextId(a)) || (b.context.None? && b.details == map[])
    ensures DetailsBacked(b)
  {
    forall k | k in b.details ensures Backed(b, k) { assert Backed(a, k); }
  }

  lemma {:induction false} KeyKeepsDetails(e: Env, c: Client, p: Client, step: KeyStep)
    requires Sound(c.app) && DetailsBacked(c.app) && Took(e, c, p, step) && Sound(p.app)
    ensures DetailsBacked(p.app)
  {
    DetailsFrame(c.app, p.app);
  }

  lemma {:induction false} AnswerKeepsDetails(c: Client, d: Client, load: Load, data: Option<Refresh>)
    requires Sound(c.app) && DetailsBacked(c.app) && Answered(c, d, load, data)
    ensures Sound(d.app) && DetailsBacked(d.app)
  {
    var done := FinishLoading(c.app, load.section);
    DetailsFrame(c.app, done);
    if Accepts(c, load) && data.Some? { RefreshKeepsDetails(done, d.app, data.value); }
  }

  // ---- lifecycle actions

  /** An action is pending exactly while one is in flight. */
  predicate ActionsOk(c: Client) {
    c.actions == if c.app.pending.Some? then 1 else 0
  }
}
