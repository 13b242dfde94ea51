/** What the client makes of what the service sends, told by ids, revisions and members alone. */
module Arrivals {
  import opened Common
  import opened Outline
  import opened AppModel
  import opened ClientModel
  import opened FocusRestore
  import opened SourceTrie
  import opened SourceMetrics
  import opened SourceOutline
  import ClientFrames
  import Proc = ProcessOutline

  // ---- which snapshots and details are taken over

  /** The snapshot is of the current context, and none or no newer one is shown. */
  predicate Fresh(a: App, s: ContextSnapshot)
    requires Sound(a)
  {
    s.id == a.contexts[a.contextIndex].id && (a.context.None? || a.context.value.revision <= s.revision)
  }

  /** A node of the forest shows the target attached to the debugger in this generation. */
  ghost predicate Attached(forest: seq<TargetNode>, id: TargetId, generation: nat) {
    exists n | n in forest ::
      n.connectionId == id.0 && n.targetId == id.1 && n.generation == generation && n.attachment == Debugger
  }

  predicate IsNodeOf(n: TargetNode, id: TargetId) {
    n.connectionId == id.0 && n.targetId == id.1
  }

  ghost predicate IsFirstNode(forest: seq<TargetNode>, id: TargetId, i: nat) {
    i < |forest| && IsNodeOf(forest[i], id) && forall j | 0 <= j < i :: !IsNodeOf(forest[j], id)
  }

  /** The first node of the target shows it attached to the debugger in this generation. */
  ghost predicate FirstAttached(forest: seq<TargetNode>, id: TargetId, generation: nat) {
    exists i: nat ::
      IsFirstNode(forest, id, i) && forest[i].generation == generation && forest[i].attachment == Debugger
  }

  /** The detail is of the current context, of a target shown attached in the detail's generation. */
  ghost predicate Expected(a: App, d: Detail)
    requires Sound(a)
  {
    && d.contextId == a.contexts[a.contextIndex].id
    && a.context.Some? && FirstAttached(a.context.value.forest, (d.connectionId, d.targetId), d.generation)
  }

  // ---- what taking over changes

  /** Rows that open by themselves: process trees, the target groups of connections, applied breakpoints. */
  ghost predicate OpensByDefault(processes: seq<Proc.ProcessTree>, context: Option<ContextSnapshot>, k: Key) {
    match k
    case ProcessTreeKey(root) => exists t | t in processes :: t.rootPid == root
    case TargetGroupKey(group) => context.Some? && group in context.value.connections
    case BreakpointKey(id) =>
      context.Some? && exists b | b in context.value.breakpoints :: b.id == id && b.applications != []
    case _ => false
  }

  ghost predicate DefaultsOpened(a: App, b: App) {
    forall k :: k in b.expanded <==> k in a.expanded || OpensByDefault(b.processes, b.context, k)
  }

  /** The first context with this id. */
  ghost predicate FirstOf(contexts: seq<ContextSummary>, id: string, i: nat) {
    i < |contexts| && contexts[i].id == id && forall j | 0 <= j < i :: contexts[j].id != id
  }

  /** The entry of the snapshot's context shows its revision, the others stay. */
  ghost predicate SummaryFollows(was: seq<ContextSummary>, now: seq<ContextSummary>, s: ContextSnapshot) {
    && |now| == |was|
    && forall i: nat | i < |was| ::
      now[i] == if FirstOf(was, s.id, i) then ContextSummary(s.id, s.revision) else was[i]
  }

  /** The details of targets that the snapshot shows attached in the same generation stay. */
  ghost predicate DetailsFollow(a: App, b: App, s: ContextSnapshot) {
    && (forall k :: k in b.details <==> k in a.details && Attached(s.forest, k, a.details[k].generation))
    && (forall k | k in b.details :: b.details[k] == a.details[k])
  }

  /** The current context is looked up in the new list; its index stays when it is not there. */
  ghost predicate IndexFollows(a: App, index: nat, contexts: seq<ContextSummary>)
    requires Sound(a)
  {
    var id := a.contexts[a.contextIndex].id;
    if exists c | c in contexts :: c.id == id then FirstOf(contexts, id, index) else index == a.contextIndex
  }

  /** A folder on the way to a source of the tree. */
  ghost predicate IsFolder(place: Placer, tree: SourceTree, k: Key) {
    k.FolderKey? && k.kind == tree.kind && k.path != [] && Inhabited(place, tree.sources, k.path)
  }

  /** The folders of the tree open when its kind arrives for the first time. */
  ghost predicate FoldersOpened(place: Placer, a: App, b: App, tree: SourceTree) {
    forall k :: k in b.expanded
      <==> k in a.expanded || (tree.kind !in a.initializedKinds && IsFolder(place, tree, k))
  }

  /** What a refresh makes of `a`, next to restoring the focus. */
  ghost predicate Brings(e: Env, a: App, b: App, r: Refresh)
    requires Sound(a)
  {
    match r
    case NewContexts(contexts) =>
      && b == a.(contexts := contexts, contextIndex := b.contextIndex, queried := a.queried + {Contexts},
                 focus := b.focus, lastVisited := b.lastVisited)
      && IndexFollows(a, b.contextIndex, contexts)
    case NewContext(s) =>
      if !Fresh(a, s) then b == a
      else
        && b == a.(context := Some(s), contexts := b.contexts, details := b.details, expanded := b.expanded,
                   focus := b.focus, lastVisited := b.lastVisited)
        && SummaryFollows(a.contexts, b.contexts, s) && DetailsFollow(a, b, s) && DefaultsOpened(a, b)
    case NewProcesses(processes) =>
      && b == a.(processes := processes, queried := a.queried + {Processes} - {Connections}, expanded := b.expanded,
                 focus := b.focus, lastVisited := b.lastVisited)
      && DefaultsOpened(a, b)
    case NewResources(resources) =>
      b == a.(resources := Some(resources), queried := a.queried + {Connections}, focus := b.focus,
              lastVisited := b.lastVisited)
    case NewSources(tree) =>
      if tree.kind != a.sourceKind then b == a
      else if a.sources == Some(tree) then b == a.(queried := a.queried + {Sources})
      else
        && b == a.(sources := Some(tree), hierarchy := Some(FromSnapshot(e.place, tree.sources)),
                   sourceRows := SnapshotRows(e.place, tree.sources, b.expanded, tree.kind),
                   initializedKinds := a.initializedKinds + {tree.kind}, queried := a.queried + {Sources},
                   expanded := b.expanded, focus := b.focus, lastVisited := b.lastVisited)
        && FoldersOpened(e.place, a, b, tree)
    case NewCaptures(captures) =>
      b == a.(captures := captures, queried := a.queried + {Captures}, focus := b.focus, lastVisited := b.lastVisited)
    case NewDetail(d) =>
      if !Expected(a, d) then b == a
      else b == a.(details := a.details[(d.connectionId, d.targetId) := d], focus := b.focus,
                   lastVisited := b.lastVisited)
    case LostDetail(id) =>
      b == a.(details := a.details - {id}, focus := b.focus, lastVisited := b.lastVisited)
  }

  // ---- the functions of the model say the same

  lemma {:induction false} TreeKeysExact(trees: seq<Proc.ProcessTree>, k: Key)
    ensures k in TreeKeys(trees) <==> k.ProcessTreeKey? && exists t | t in trees :: t.rootPid == k.rootPid
  {
    if trees != [] {
      assert trees == [trees[0]] + trees[1..];
      TreeKeysExact(trees[1..], k);
    }
  }

  lemma {:induction false} GroupKeysExact(connections: seq<string>, k: Key)
    ensures k in GroupKeys(connections) <==> k.TargetGroupKey? && k.group in connections
  {
    if connections != [] {
      assert connections == [connections[0]] + connections[1..];
      GroupKeysExact(connections[1..], k);
    }
  }

  lemma {:induction false} BreakpointKeysExact(breakpoints: seq<Breakpoint>, k: Key)
    ensures k in BreakpointKeys(breakpoints) <==>
      k.BreakpointKey? && exists b | b in breakpoints :: b.id == k.breakpointId && b.applications != []
  {
    if breakpoints != [] {
      assert breakpoints == [breakpoints[0]] + breakpoints[1..];
      BreakpointKeysExact(breakpoints[1..], k);
    }
  }

  lemma {:induction false} DefaultsExact(a: App, k: Key)
    ensures k in DefaultKeys(a) <==> OpensByDefault(a.processes, a.context, k)
  {
    TreeKeysExact(a.processes, k);
    if a.context.Some? {
      GroupKeysExact(a.context.value.connections, k);
      BreakpointKeysExact(a.context.value.breakpoints, k);
    }
  }

  lemma {:induction false} BacksExact(forest: seq<TargetNode>, id: TargetId, generation: nat)
    ensures Backs(forest, id, generation) <==> Attached(forest, id, generation)
  {
    if forest != [] {
      assert forest == [forest[0]] + forest[1..];
      BacksExact(forest[1..], id, generation);
    }
  }

  lemma {:induction false} FindIsFirst(forest: seq<TargetNode>, id: TargetId)
    ensures var found := FindTarget(forest, id);
      if found.None? then forall n | n in forest :: !IsNodeOf(n, id)
      else exists i: nat :: IsFirstNode(forest, id, i) && forest[i] == found.value
  {
    if forest != [] {
      assert forest == [forest[0]] + forest[1..];
      if IsNodeOf(forest[0], id) {
        assert IsFirstNode(forest, id, 0);
      } else {
        FindIsFirst(forest[1..], id);
        if FindTarget(forest[1..], id).Some? {
          var i: nat :| IsFirstNode(forest[1..], id, i) && forest[1..][i] == FindTarget(forest[1..], id).value;
          FirstNodeInRest(forest, id, i);
          assert forest[i + 1] == forest[1..][i];
        }
      }
    }
  }

  lemma {:induction false} FirstNodeInRest(forest: seq<TargetNode>, id: TargetId, i: nat)
    requires forest != [] && !IsNodeOf(forest[0], id) && IsFirstNode(forest[1..], id, i)
    ensures IsFirstNode(forest, id, i + 1)
  {
    forall j | 0 <= j < i + 1 ensures !IsNodeOf(forest[j], id) {
      if j > 0 { assert forest[j] == forest[1..][j - 1]; }
    }
  }

  lemma FirstIsUnique(forest: seq<TargetNode>, id: TargetId, i: nat, j: nat)
    requires IsFirstNode(forest, id, i) && IsFirstNode(forest, id, j)
    ensures i == j
  {
  }

  lemma {:induction false} WantedExact(a: App, d: Detail)
    requires Sound(a)
    ensures Wanted(a, d) <==> Expected(a, d)
  {
    if a.context.Some? {
      var forest, id := a.context.value.forest, (d.connectionId, d.targetId);
      FindIsFirst(forest, id);
      if FindTarget(forest, id).Some? {
        var i: nat :| IsFirstNode(forest, id, i) && forest[i] == FindTarget(forest, id).value;
        forall j: nat | IsFirstNode(forest, id, j) ensures j == i { FirstIsUnique(forest, id, i, j); }
      }
    }
  }

  lemma {:induction false} SummarizedExact(contexts: seq<ContextSummary>, s: ContextSnapshot, i: nat)
    requires i < |contexts|
    ensures Summarized(contexts, s.id, s.revision)[i]
      == if FirstOf(contexts, s.id, i) then ContextSummary(s.id, s.revision) else contexts[i]
  {
    if contexts[0].id != s.id && i > 0 {
      SummarizedExact(contexts[1..], s, i - 1);
      FirstInRest(contexts, s.id, i);
    }
  }

  lemma {:induction false} FirstInRest(contexts: seq<ContextSummary>, id: string, i: nat)
    requires 0 < i < |contexts| && contexts[0].id != id
    ensures FirstOf(contexts, id, i) <==> FirstOf(contexts[1..], id, i - 1)
  {
    if FirstOf(contexts[1..], id, i - 1) {
      forall j | 0 <= j < i ensures contexts[j].id != id {
        if j > 0 { assert contexts[j] == contexts[1..][j - 1]; }
      }
    }
  }

  lemma {:induction false} PositionIsFirst(contexts: seq<ContextSummary>, id: string, from: nat)
    requires from <= |contexts| && forall j | 0 <= j < from :: contexts[j].id != id
    ensures var p := PositionFrom(contexts, id, from);
      if p.Some? then FirstOf(contexts, id, p.value) else forall c | c in contexts :: c.id != id
    decreases |contexts| - from
  {
    if from < |contexts| && contexts[from].id != id { PositionIsFirst(contexts, id, from + 1); }
  }

  // ---- refreshes

  lemma {:induction false} ContextBrings(e: Env, a: App, s: ContextSnapshot)
    requires Sound(a)
    ensures Brings(e, a, Refreshed(e, a, NewContext(s)), NewContext(s))
  {
    var b := Refreshed(e, a, NewContext(s));
    if Fresh(a, s) {
      var data := WithContext(a, s);
      RestoredFrame(e, data, Paths(e, a));
      forall i: nat | i < |a.contexts|
        ensures b.contexts[i]
          == if FirstOf(a.contexts, s.id, i) then ContextSummary(s.id, s.revision) else a.contexts[i] {
        SummarizedExact(a.contexts, s, i);
      }
      forall k ensures k in b.details <==> k in a.details && Attached(s.forest, k, a.details[k].generation) {
        if k in a.details { BacksExact(s.forest, k, a.details[k].generation); }
      }
      forall k ensures k in b.expanded <==> k in a.expanded || OpensByDefault(b.processes, b.context, k) {
        DefaultsExact(a.(context := Some(s)), k);
      }
    }
  }

  lemma {:induction false} ContextsBring(e: Env, a: App, contexts: seq<ContextSummary>)
    requires Sound(a)
    ensures Brings(e, a, Refreshed(e, a, NewContexts(contexts)), NewContexts(contexts))
  {
    RestoredFrame(e, WithContexts(a, contexts), Paths(e, a));
    PositionIsFirst(contexts, ContextId(a), 0);
  }

  lemma {:induction false} ProcessesBring(e: Env, a: App, processes: seq<Proc.ProcessTree>)
    requires Sound(a)
    ensures Brings(e, a, Refreshed(e, a, NewProcesses(processes)), NewProcesses(processes))
  {
    var b := Refreshed(e, a, NewProcesses(processes));
    RestoredFrame(e, WithProcesses(a, processes), Paths(e, a));
    forall k ensures k in b.expanded <==> k in a.expanded || OpensByDefault(b.processes, b.context, k) {
      DefaultsExact(a.(processes := processes), k);
    }
  }

  lemma {:induction false} SourcesBring(e: Env, a: App, tree: SourceTree)
    requires Sound(a)
    ensures Brings(e, a, Refreshed(e, a, NewSources(tree)), NewSources(tree))
  {
    if tree.kind == a.sourceKind && a.sources != Some(tree) {
      var b := Refreshed(e, a, NewSources(tree));
      RestoredFrame(e, WithSources(e, a, tree), Paths(e, a));
      CollectExact(tree.kind, FromSnapshot(e.place, tree.sources), []);
      forall k
        ensures k in b.expanded
          <==> k in a.expanded || (tree.kind !in a.initializedKinds && IsFolder(e.place, tree, k)) {
        SnapshotNodes(e.place, tree.sources, tree.kind, k);
      }
    }
  }

  /** Every refresh brings what it should and leaves the rest. */
  lemma {:induction false} RefreshBrings(e: Env, a: App, r: Refresh)
    requires Sound(a)
    ensures Brings(e, a, Refreshed(e, a, r), r)
  {
    match r
    case NewContexts(contexts) => ContextsBring(e, a, contexts);
    case NewContext(s) => ContextBrings(e, a, s);
    case NewProcesses(processes) => ProcessesBring(e, a, processes);
    case NewSources(tree) => SourcesBring(e, a, tree);
    case NewDetail(d) =>
      WantedExact(a, d);
      RestoredFrame(e, WithDetail(a, d), Paths(e, a));
    case _ => RestoredFrame(e, Installed(e, a, r), Paths(e, a));
  }

  // ---- events

  /** A snapshot that arrives is shown afterwards if and only if it is fresh or was shown before; it then
      brings its contexts' summary, its targets and its default rows, and nothing else changes otherwise. */
  lemma {:induction false} SnapshotArrives(e: Env, c: Client, s: ContextSnapshot)
    requires Sound(c.app)
    ensures var d := Handle(e, c, ContextArrived(s));
      && d == c.(app := d.app) && Brings(e, c.app, d.app, NewContext(s))
      && (d.app.context == Some(s) <==> c.app.context == Some(s) || Fresh(c.app, s))
      && (d.app.context != Some(s) ==> d == c)
  {
    RefreshBrings(e, c.app, NewContext(s));
  }

  /** The same for the snapshot of a finished action, which is no longer pending in any case. */
  lemma {:induction false} ActionArrives(e: Env, c: Client, s: ContextSnapshot)
    requires Sound(c.app)
    ensures var d, done := Handle(e, c, ActionFinished(Some(s))), c.app.(pending := None);
      && d == c.(app := d.app, actions := if c.actions == 0 then 0 else c.actions - 1)
      && Brings(e, done, d.app, NewContext(s))
      && (d.app.context == Some(s) <==> c.app.context == Some(s) || Fresh(c.app, s))
      && (d.app.context != Some(s) ==> d.app == done)
  {
    RefreshBrings(e, c.app.(pending := None), NewContext(s));
  }

  /** A target's message of the running observers stores its detail if and only if the detail is expected, or
      takes the stored one away when it brings none; any other message changes nothing. */
  lemma {:induction false} DetailArrives(e: Env, c: Client, ord: nat, target: TargetRef, detail: Option<Detail>)
    requires Sound(c.app)
    ensures var d := Handle(e, c, TargetArrived(ord, target, detail));
      if ord % 0x1_0000_0000_0000_0000 != c.service.targetOrd % 0x1_0000_0000_0000_0000 then d == c
      else d == c.(app := d.app) && DetailTaken(c.app, d.app, target, detail)
  {
    var d := Handle(e, c, TargetArrived(ord, target, detail));
    if Gen(ord) == Gen(c.service.targetOrd) {
      RefreshBrings(e, c.app, TargetRefresh(target, detail));
      BroughtDetail(e, c.app, d.app, target, detail);
    }
  }

  ghost predicate DetailTaken(a: App, b: App, target: TargetRef, detail: Option<Detail>)
    requires Sound(a)
  {
    && b == a.(details := b.details, focus := b.focus, lastVisited := b.lastVisited)
    && match detail
       case None => b.details == a.details - {(target.connectionId, target.targetId)}
       case Some(d) =>
         b.details == if Expected(a, d) then a.details[(d.connectionId, d.targetId) := d] else a.details
  }

  lemma {:induction false} BroughtDetail(e: Env, a: App, b: App, target: TargetRef, detail: Option<Detail>)
    requires Sound(a) && Brings(e, a, b, TargetRefresh(target, detail))
    ensures DetailTaken(a, b, target, detail)
  {
  }

  /** An answer of the current context whose number is that of the section's last load, as far as 64 bits tell,
      ends the loading of the section and brings its data; any other is only taken off the wire. */
  lemma {:induction false} AnswerArrives(e: Env, c: Client, load: Load, data: Option<Refresh>)
    requires Sound(c.app)
    ensures var d, done := Handle(e, c, DataArrived(load, data)), c.app.(loading := c.app.loading - {load.section});
      if load.context == c.app.contexts[c.app.contextIndex].id
         && load.ord % 0x1_0000_0000_0000_0000 == LoadOrd(c.service, load.section) % 0x1_0000_0000_0000_0000
      then
        && d == c.(loads := c.loads - {load}, app := d.app, origins := d.origins)
        && if data.None? then d.app == done else Brings(e, done, d.app, data.value)
      else d == c.(loads := c.loads - {load})
  {
    if data.Some? { RefreshBrings(e, FinishLoading(c.app, load.section), data.value); }
  }

  /** The text of a source is shown if and only if it was asked for last, for the current context and for what is
      still selected. */
  lemma {:induction false} ContentArrives(
      e: Env, c: Client, context: string, path: string, ord: nat, content: Option<string>)
    requires Sound(c.app)
    ensures var selection := NextSelection(e, c.app);
      Handle(e, c, SourceArrived(context, path, ord, content))
        == if context == c.app.contexts[c.app.contextIndex].id
              && ord % 0x1_0000_0000_0000_0000 == c.service.sourceOrd % 0x1_0000_0000_0000_0000
              && selection.Some? && selection.value.path == path && content.Some?
           then c.(app := c.app.(content := content)) else c
  {
  }

  // ---- after a switch

  /** Another context is current, and nothing of it is shown. */
  predicate Turned(a: App, b: App, forward: bool)
    requires Sound(a)
  {
    var n, i := |a.contexts|, a.contextIndex;
    && b.contexts == a.contexts && b.context.None?
    && b.contextIndex == if forward then (if i + 1 == n then 0 else i + 1) else if i == 0 then n - 1 else i - 1
  }

  lemma {:induction false} SelectTurns(a: App, forward: bool)
    requires Sound(a)
    ensures Turned(a, SelectContext(a, if forward then 1 else -1), forward)
  {
    var n, i := |a.contexts|, a.contextIndex;
    assert (i + 1) % n == if i + 1 == n then 0 else i + 1;
    assert (i - 1) % n == if i == 0 then n - 1 else i - 1;
  }

  /** The keys `[` and `]` turn to the context before or after the current one, around the ends. */
  lemma {:induction false} SwitchKeyTurns(e: Env, c: Client, forward: bool, offer: Option<Key>)
    requires Sound(c.app)
    ensures var d := Handle(e, c, Pressed(Char(if forward then ']' else '['), offer));
      Sound(d.app) && Turned(c.app, d.app, forward)
  {
    var p := Press(e, c, Char(if forward then ']' else '['), offer);
    assert p.app == SelectContext(c.app, if forward then 1 else -1);
    SelectTurns(c.app, forward);
    ClientFrames.RequestIsRequested(p);
  }

  /** The first snapshot of the current context is taken over, whatever its revision. */
  lemma {:induction false} FirstSnapshotIsTaken(e: Env, c: Client, s: ContextSnapshot)
    requires Sound(c.app) && c.app.context.None? && s.id == c.app.contexts[c.app.contextIndex].id
    ensures Handle(e, c, ContextArrived(s)).app.context == Some(s)
  {
    SnapshotArrives(e, c, s);
  }
}
