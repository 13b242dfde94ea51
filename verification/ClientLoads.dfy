/** Data queries: what is in flight for a section that is loading, and which answers are taken. */
module ClientLoads {
  import opened Common
  import opened Outline
  import opened AppModel
  import opened ClientModel
  import opened ClientFrames

  /** The load asks what the client wants to know now, and nothing newer has been started. */
  predicate Current(c: Client, l: Load)
    requires Sound(c.app)
  {
    && l.context == ContextId(c.app) && l.ord == LoadOrd(c.service, l.section)
    && (l.section == Sources ==> l.kind == c.app.sourceKind)
  }

  ghost predicate Known(c: Client, l: Load) {
    && Loadable(l.section) && l.section in c.latest && 0 < l.ord <= LoadOrd(c.service, l.section)
    && (l.ord == LoadOrd(c.service, l.section) ==> l == c.latest[l.section])
  }

  ghost predicate Awaited(c: Client, s: Section)
    requires Sound(c.app)
  {
    && Loadable(s) && s in c.latest && c.latest[s].section == s
    && c.latest[s] in c.loads && Current(c, c.latest[s])
  }

  /** Every load in flight is known, and every loading section awaits its latest load. */
  ghost predicate LoadsOk(c: Client)
    requires Sound(c.app)
  {
    (forall l | l in c.loads :: Known(c, l)) && (forall s | s in c.app.loading :: Awaited(c, s))
  }

  // ---- every input keeps it

  lemma {:induction false} LoadsFrame(c: Client, d: Client)
    requires Sound(c.app) && Sound(d.app) && LoadsOk(c)
    requires d.loads == c.loads && d.latest == c.latest && d.service.loadOrds == c.service.loadOrds
    requires d.app.loading <= c.app.loading
    requires d.app.loading == {} || ContextId(d.app) == ContextId(c.app)
    requires Sources in d.app.loading ==> d.app.sourceKind == c.app.sourceKind
    ensures LoadsOk(d)
  {
    forall l | l in d.loads ensures Known(d, l) { assert Known(c, l); }
    forall s | s in d.app.loading ensures Awaited(d, s) { assert Awaited(c, s); }
  }

  lemma {:induction false} StartLoadKeeps(c: Client, s: Section)
    requires Sound(c.app) && LoadsOk(c) && NeedsLoad(c.app, s)
    ensures LoadsOk(StartLoad(c, s))
  {
    var d := StartLoad(c, s);
    forall l | l in d.loads ensures Known(d, l) {
      if l in c.loads { assert Known(c, l); }
    }
    forall x | x in d.app.loading ensures Awaited(d, x) {
      if x != s { assert Awaited(c, x); }
    }
  }

  lemma {:induction false} RequestKeeps(c: Client, sections: seq<Section>)
    requires Sound(c.app) && LoadsOk(c)
    ensures LoadsOk(RequestLoads(c, sections))
    decreases |sections|
  {
    if sections != [] {
      if NeedsLoad(c.app, sections[0]) { StartLoadKeeps(c, sections[0]); }
      RequestKeeps(if NeedsLoad(c.app, sections[0]) then StartLoad(c, sections[0]) else c, sections[1..]);
    }
  }

  /** An answer that is not taken was not awaited by anybody. */
  lemma {:induction false} AnswerKeeps(c: Client, d: Client, load: Load)
    requires Sound(c.app) && Sound(d.app) && LoadsOk(c) && load in c.loads
    requires d.loads == c.loads - {load} && d.latest == c.latest && d.service.loadOrds == c.service.loadOrds
    requires d.app.loading == c.app.loading - (if Accepts(c, load) then {load.section} else {})
    requires ContextId(d.app) == ContextId(c.app) && d.app.sourceKind == c.app.sourceKind
    ensures LoadsOk(d)
  {
    forall l | l in d.loads ensures Known(d, l) { assert Known(c, l); }
    forall s | s in d.app.loading ensures Awaited(d, s) { assert Awaited(c, s); }
  }

  lemma {:induction false} KeyKeepsLoads(e: Env, c: Client, p: Client, step: KeyStep)
    requires Sound(c.app) && LoadsOk(c) && Took(e, c, p, step) && Sound(p.app)
    ensures LoadsOk(p)
  {
    LoadsFrame(c, p);
  }

  lemma {:induction false} AnswerKeepsLoads(c: Client, d: Client, load: Load, data: Option<Refresh>)
    requires Sound(c.app) && LoadsOk(c) && load in c.loads && Answered(c, d, load, data)
    ensures Sound(d.app) && LoadsOk(d)
  {
    AnswerKeeps(c, d, load);
  }
}
