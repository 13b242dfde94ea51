/** Automatic debug sessions for root targets. Each method is what the program does between two
    `await`s, so a run is any sequence of calls. */
module SessionReconciler {
  import opened Common
  import opened Subsequences

  /** A target; its key is the text of all four parts, separated by NUL characters. */
  datatype Target = Target(contextId: string, connectionId: string, generation: nat, targetId: string)

  datatype Node = Node(connectionId: string, generation: nat, targetId: string, parent: Option<string>)

  datatype Session = Session(id: string, dbgjs: bool, configured: Option<Target>, parented: bool)

  function Reference(contextId: string, node: Node): Target {
    Target(contextId, node.connectionId, node.generation, node.targetId)
  }

  function Roots(forest: seq<Node>): (r: seq<Node>)
    ensures forall n :: n in r <==> n in forest && n.parent.None?
  {
    if forest == [] then [] else (if forest[0].parent.None? then [forest[0]] else []) + Roots(forest[1..])
  }

  /** The roots stand in the order of the forest. */
  lemma {:induction false} RootsInOrder(forest: seq<Node>)
    ensures Among(Roots(forest), forest)
  {
    if forest != [] {
      RootsInOrder(forest[1..]);
      AmongStep(if forest[0].parent.None? then [forest[0]] else [], Roots(forest[1..]), forest);
    }
  }

  function References(contextId: string, nodes: seq<Node>): set<Target> {
    set n | n in nodes :: Reference(contextId, n)
  }

  // ---- what happened so far

  /** A start, what became of it, a manual stop, and what a reconciliation saw when it began. */
  datatype Note =
    | AutoStart(target: Target)
    | Bound(target: Target)
    | Declined(target: Target)
    | Failed(target: Target)
    | Stopped(target: Target)
    | Saw(roots: set<Target>, active: set<Target>)

  predicate Settles(note: Note, t: Target) {
    (note.Bound? || note.Declined? || note.Failed?) && note.target == t
  }

  ghost predicate Releases(note: Note, t: Target) { note.Saw? && t !in note.roots }

  /** Targets started and not settled since. */
  ghost function Pending(h: seq<Note>): set<Target> {
    if h == [] then {}
    else
      var last, before := h[|h| - 1], Pending(h[..|h| - 1]);
      if last.AutoStart? then before + {last.target}
      else if last.Bound? || last.Declined? || last.Failed? then before - {last.target}
      else before
  }

  /** Targets stopped by the user and seen as a root ever since. */
  ghost function Suppressed(h: seq<Note>): set<Target> {
    if h == [] then {}
    else
      var last, before := h[|h| - 1], Suppressed(h[..|h| - 1]);
      if last.Stopped? then before + {last.target} else if last.Saw? then before * last.roots else before
  }

  /** What the running reconciliation saw. */
  ghost function LastSeen(h: seq<Note>): Option<Note> {
    if h == [] then None else if h[|h| - 1].Saw? then Some(h[|h| - 1]) else LastSeen(h[..|h| - 1])
  }

  /** `t` is a root that the reconciliation saw, and was not active then. */
  ghost predicate Chosen(seen: Option<Note>, t: Target) {
    seen.Some? && seen.value.Saw? && t in seen.value.roots && t !in seen.value.active
  }

  /** Every start was of a chosen target, neither pending nor suppressed. */
  ghost predicate Proper(h: seq<Note>) {
    h != [] ==>
      var last, before := h[|h| - 1], h[..|h| - 1];
      Proper(before)
      && (last.AutoStart? ==>
            last.target !in Pending(before) && last.target !in Suppressed(before)
              && Chosen(LastSeen(before), last.target))
  }

  lemma Appended(h: seq<Note>, note: Note)
    ensures Pending(h + [note])
      == if note.AutoStart? then Pending(h) + {note.target}
         else if note.Bound? || note.Declined? || note.Failed? then Pending(h) - {note.target}
         else Pending(h)
    ensures Suppressed(h + [note])
      == if note.Stopped? then Suppressed(h) + {note.target}
         else if note.Saw? then Suppressed(h) * note.roots
         else Suppressed(h)
    ensures LastSeen(h + [note]) == if note.Saw? then Some(note) else LastSeen(h)
    ensures Proper(h + [note]) <==>
      Proper(h) && (note.AutoStart? ==>
        note.target !in Pending(h) && note.target !in Suppressed(h) && Chosen(LastSeen(h), note.target))
  {
    assert (h + [note])[..|h|] == h;
  }

  // ---- consequences

  lemma {:induction false} StaysPending(h: seq<Note>, i: nat, t: Target)
    requires i < |h| && h[i] == AutoStart(t)
    requires forall m | i < m < |h| :: !Settles(h[m], t)
    ensures t in Pending(h)
  {
    if i < |h| - 1 { StaysPending(h[..|h| - 1], i, t); }
  }

  lemma {:induction false} StaysSuppressed(h: seq<Note>, i: nat, t: Target)
    requires i < |h| && h[i] == Stopped(t)
    requires forall m | i < m < |h| :: !Releases(h[m], t)
    ensures t in Suppressed(h)
  {
    if i < |h| - 1 {
      StaysSuppressed(h[..|h| - 1], i, t);
      assert !Releases(h[|h| - 1], t);
    }
  }

  lemma {:induction false} ProperPrefix(h: seq<Note>, n: nat)
    requires Proper(h) && n <= |h|
    ensures Proper(h[..n])
  {
    if n < |h| {
      assert h[..|h| - 1][..n] == h[..n];
      ProperPrefix(h[..|h| - 1], n);
    } else {
      assert h[..n] == h;
    }
  }

  /** Between two automatic starts of a target it was bound, declined, or failed to start. */
  lemma {:induction false} StartsAreSeparated(h: seq<Note>, i: nat, j: nat)
    requires Proper(h) && i < j < |h| && h[i].AutoStart? && h[j] == h[i]
    ensures exists m :: i < m < j && Settles(h[m], h[i].target)
  {
    ProperPrefix(h, j + 1);
    assert h[..j + 1][..j] == h[..j];
    if forall m | i < m < j :: !Settles(h[m], h[i].target) {
      StaysPending(h[..j], i, h[i].target);
      assert false;
    }
  }

  /** A target stopped by the user starts automatically only after a reconciliation saw it gone. */
  lemma {:induction false} StoppedStaysStopped(h: seq<Note>, i: nat, j: nat)
    requires Proper(h) && i < j < |h| && h[i].Stopped? && h[j] == AutoStart(h[i].target)
    ensures exists m :: i < m < j && Releases(h[m], h[i].target)
  {
    ProperPrefix(h, j + 1);
    assert h[..j + 1][..j] == h[..j];
    if forall m | i < m < j :: !Releases(h[m], h[i].target) {
      StaysSuppressed(h[..j], i, h[i].target);
      assert false;
    }
  }

  lemma {:induction false} LastSeenIsNote(h: seq<Note>) returns (m: nat)
    requires LastSeen(h).Some?
    ensures m < |h| && h[m].Saw? && LastSeen(h) == Some(h[m]) && forall n | m < n < |h| :: !h[n].Saw?
  {
    if h[|h| - 1].Saw? { m := |h| - 1; } else { m := LastSeenIsNote(h[..|h| - 1]); }
  }

  /** Every automatically started target was a root in the snapshot that the running reconciliation
      saw, and had no session then. */
  lemma {:induction false} StartsAreOfSeenRoots(h: seq<Note>, j: nat) returns (m: nat)
    requires Proper(h) && j < |h| && h[j].AutoStart?
    ensures m < j && h[m].Saw? && (forall n | m < n < j :: !h[n].Saw?)
    ensures h[j].target in h[m].roots && h[j].target !in h[m].active
  {
    ProperPrefix(h, j + 1);
    assert h[..j + 1][..j] == h[..j];
    m := LastSeenIsNote(h[..j]);
  }

  // ---- the reconciler

  /** A reconciliation waits for the session of `roots[index]`, whose target is `key`, to start. */
  datatype Phase = Idle | Awaiting(roots: seq<Node>, index: nat, active: set<Target>, key: Target)

  /** The history ends in a reconciliation that saw these roots and these active targets. */
  ghost predicate SeenFor(h: seq<Note>, contextId: string, roots: seq<Node>, active: set<Target>) {
    LastSeen(h) == Some(Saw(References(contextId, roots), active))
  }

  predicate Startable(t: Target, active: set<Target>, pending: set<Target>, suppressed: set<Target>): (free: bool)
    ensures free <==> t !in active + pending + suppressed
  {
    t !in active && t !in pending && t !in suppressed
  }

  /** From `start` on, the first root that is not active, pending or suppressed has been started, if
      there is one; nothing else has happened. */
  ghost predicate Started(
      before: seq<Note>, after: seq<Note>, pendingBefore: set<Target>, pendingAfter: set<Target>,
      suppressed: set<Target>,
      contextId: string, roots: seq<Node>, start: nat, active: set<Target>, phase: Phase) {
    match phase
    case Idle =>
      && after == before && pendingAfter == pendingBefore
      && forall i | start <= i < |roots| ::
          !Startable(Reference(contextId, roots[i]), active, pendingBefore, suppressed)
    case Awaiting(rest, index, same, key) =>
      && rest == roots && same == active && start <= index < |roots| && key == Reference(contextId, roots[index])
      && after == before + [AutoStart(key)] && pendingAfter == pendingBefore + {key}
      && Startable(key, active, pendingBefore, suppressed)
      && forall i | start <= i < index :: !Startable(Reference(contextId, roots[i]), active, pendingBefore, suppressed)
  }

  /** The workspace's context never changes; its latest target forest does. */
  class WorkspaceContext {
    const contextId: string
    var forest: Option<seq<Node>>

    constructor (contextId: string) {
      this.contextId, forest := contextId, None;
    }
  }

  class Reconciler {
    const controller: WorkspaceContext
    var bindings: map<string, Target>
    var confirmed: set<string>
    var sessions: map<string, Session>
    var unbound: set<string>
    var expected: set<string>
    var suppressedRoots: set<Target>
    var pendingRoots: set<Target>
    var queued: nat                     // reconciliations chained behind the running one
    var phase: Phase
    var disposed: bool
    ghost var history: seq<Note>

    /** The sets are what the history says they are. */
    ghost predicate Valid()
      reads this
    {
      && pendingRoots == Pending(history) && suppressedRoots == Suppressed(history) && Proper(history)
      && confirmed <= bindings.Keys
      && (phase.Awaiting? ==>
            phase.index < |phase.roots| && SeenFor(history, controller.contextId, phase.roots, phase.active))
    }

    /** A session that is active at start-up is known, but not bound. */
    constructor (controller: WorkspaceContext, running: Option<Session>)
      ensures Valid() && this.controller == controller && history == [] && queued == 1 && bindings == map[]
      ensures sessions == if running.Some? then map[running.value.id := running.value] else map[]
    {
      this.controller := controller;
      bindings, confirmed, unbound, expected := map[], {}, {}, {};
      sessions := if running.Some? then map[running.value.id := running.value] else map[];
      suppressedRoots, pendingRoots, queued, phase, disposed, history := {}, {}, 1, Idle, false, [];
    }

    method ScheduleReconcile()
      modifies `queued
      ensures queued == old(queued) + 1
    {
      queued := queued + 1;
    }

    /** `onDidStartDebugSession`. */
    method SessionStarted(session: Session)
      requires Valid()
      modifies `sessions, `bindings
      ensures Valid()
      ensures sessions == old(sessions)[session.id := session]
      ensures bindings == if session.dbgjs && session.configured.Some?
        then old(bindings)[session.id := session.configured.value] else old(bindings)
    {
      sessions := sessions[session.id := session];
      if session.dbgjs && session.configured.Some? {
        bindings := bindings[session.id := session.configured.value];
      }
    }

    method RegisterAdapter(sessionId: string)
      requires Valid()
      modifies `unbound
      ensures Valid() && unbound == if sessionId in bindings then old(unbound) else old(unbound) + {sessionId}
    {
      if sessionId !in bindings { unbound := unbound + {sessionId}; }
    }

    method TargetEnded(sessionId: string)
      requires Valid()
      modifies `expected
      ensures Valid() && expected == old(expected) + {sessionId}
    {
      expected := expected + {sessionId};
    }

    /** The target is no longer being started. */
    method Settle(target: Target, ghost note: Note)
      requires Valid() && Settles(note, target)
      modifies `pendingRoots, `history
      ensures Valid() && pendingRoots == old(pendingRoots) - {target} && history == old(history) + [note]
    {
      pendingRoots := pendingRoots - {target};
      Appended(history, note);
      history := history + [note];
    }

    method BindSession(sessionId: string, target: Target)
      requires Valid()
      modifies `unbound, `bindings, `confirmed, `pendingRoots, `history, `queued
      ensures Valid() && history == old(history) + [Bound(target)] && pendingRoots == old(pendingRoots) - {target}
      ensures bindings == old(bindings)[sessionId := target] && confirmed == old(confirmed) + {sessionId}
      ensures unbound == old(unbound) - {sessionId} && queued == old(queued) + 1
    {
      unbound := unbound - {sessionId};
      bindings := bindings[sessionId := target];
      confirmed := confirmed + {sessionId};
      Settle(target, Bound(target));
      ScheduleReconcile();
    }

    predicate IsCurrentRoot(target: Target)
      reads this, controller
    {
      controller.forest.Some? && target in References(controller.contextId, Roots(controller.forest.value))
    }

    /** `onDidTerminateDebugSession`. */
    method SessionEnded(session: Session)
      requires Valid()
      modifies this
      ensures Valid() && sessions == old(sessions) - {session.id} && pendingRoots == old(pendingRoots)
      ensures !session.dbgjs ==>
        history == old(history) && suppressedRoots == old(suppressedRoots) && bindings == old(bindings)
      ensures session.dbgjs ==> bindings == old(bindings) - {session.id}
      ensures session.dbgjs ==>
        history == old(history) + (if old(StoppedByUser(session)) then [Stopped(old(bindings)[session.id])] else [])
    {
      sessions := sessions - {session.id};
      if session.dbgjs { SessionTerminated(session); }
    }

    /** The session was bound, also by the adapter, has no parent and did not end with its target, which is still
        one without a parent in the forest. */
    predicate StoppedByUser(session: Session): (stopped: bool)
      reads this, controller
      ensures stopped <==>
        && session.id in bindings && session.id in confirmed && !session.parented && session.id !in expected
        && controller.forest.Some? && exists n | n in controller.forest.value ::
          n.parent.None? && Reference(controller.contextId, n) == bindings[session.id]
    {
      var id := session.id;
      id in bindings && id in confirmed && !session.parented && id !in expected && IsCurrentRoot(bindings[id])
    }

    /** A session of a current root that was bound, has no parent session, and did not end with its
        target was stopped by the user. */
    method SessionTerminated(session: Session)
      requires Valid()
      modifies `bindings, `confirmed, `unbound, `expected, `suppressedRoots, `history, `queued
      ensures Valid() && queued == old(queued) + 1
      ensures bindings == old(bindings) - {session.id} && confirmed == old(confirmed) - {session.id}
      ensures unbound == old(unbound) - {session.id} && expected == old(expected) - {session.id}
      ensures var stopped := old(StoppedByUser(session));
        && history == old(history) + (if stopped then [Stopped(old(bindings)[session.id])] else [])
        && suppressedRoots == old(suppressedRoots) + (if stopped then {old(bindings)[session.id]} else {})
    {
      var id := session.id;
      var target := if id in bindings then Some(bindings[id]) else None;
      var wasConfirmed, wasExpected := id in confirmed, id in expected;
      bindings, confirmed := bindings - {id}, confirmed - {id};
      unbound, expected := unbound - {id}, expected - {id};
      if target.Some? && wasConfirmed && !session.parented && !wasExpected && IsCurrentRoot(target.value) {
        suppressedRoots := suppressedRoots + {target.value};
        Appended(history, Stopped(target.value));
        history := history + [Stopped(target.value)];
      }
      ScheduleReconcile();
    }

    /** The targets that some session is bound to or configured for. */
    function Active(): (r: set<Target>)
      reads this
      ensures forall t :: t in r <==>
        || (exists id :: id in bindings && bindings[id] == t)
        || (exists id :: id in sessions && sessions[id].dbgjs && sessions[id].configured == Some(t))
    {
      (set id | id in bindings :: bindings[id])
      + (set id | id in sessions && sessions[id].dbgjs && sessions[id].configured.Some? ::
           sessions[id].configured.value)
    }

    /** Stops of targets that are no longer roots are forgotten. */
    method Prune(roots: set<Target>, ghost active: set<Target>)
      requires Valid() && phase.Idle?
      modifies `suppressedRoots, `history
      ensures Valid() && suppressedRoots == old(suppressedRoots) * roots
      ensures history == old(history) + [Saw(roots, active)]
      ensures LastSeen(history) == Some(Saw(roots, active))
    {
      suppressedRoots := suppressedRoots * roots;
      Appended(history, Saw(roots, active));
      history := history + [Saw(roots, active)];
    }

    /** The next queued reconciliation runs up to its first start, unless there is nothing to reconcile
        or some session is not bound yet. */
    method RunReconcile()
      requires Valid() && phase.Idle? && queued > 0
      modifies `queued, `suppressedRoots, `pendingRoots, `history, `phase
      ensures Valid() && queued == old(queued) - 1
      ensures if disposed || unbound != {} || controller.forest.None?
        then history == old(history) && phase.Idle?
        else var roots := Roots(controller.forest.value);
          && suppressedRoots == old(suppressedRoots) * References(controller.contextId, roots)
          && Started(old(history) + [Saw(References(controller.contextId, roots), Active())],
                     history, old(pendingRoots), pendingRoots, suppressedRoots, controller.contextId, roots, 0,
                     Active(), phase)
    {
      queued := queued - 1;
      if disposed || unbound != {} || controller.forest.None? { return; }
      var roots := Roots(controller.forest.value);
      var rootKeys := References(controller.contextId, roots);
      var active := Active();
      Prune(rootKeys, active);
      StartFrom(roots, 0, active);
    }

    /** The loop over the roots, from `start` to the next root to be started. */
    method StartFrom(roots: seq<Node>, start: nat, active: set<Target>)
      requires Valid() && phase.Idle? && start <= |roots| && SeenFor(history, controller.contextId, roots, active)
      modifies `pendingRoots, `history, `phase
      ensures Valid()
      ensures Started(old(history), history, old(pendingRoots), pendingRoots, suppressedRoots, controller.contextId,
                      roots, start, active, phase)
    {
      var index := start;
      while index < |roots|
        invariant start <= index <= |roots|
        invariant forall i | start <= i < index ::
          !Startable(Reference(controller.contextId, roots[i]), active, pendingRoots, suppressedRoots)
      {
        var key := Reference(controller.contextId, roots[index]);
        if key !in active && key !in pendingRoots && key !in suppressedRoots {
          Start(roots, index, active, key);
          return;
        }
        index := index + 1;
      }
    }

    method Start(roots: seq<Node>, index: nat, active: set<Target>, key: Target)
      requires Valid() && phase.Idle? && index < |roots| && SeenFor(history, controller.contextId, roots, active)
      requires key == Reference(controller.contextId, roots[index])
      requires Startable(key, active, pendingRoots, suppressedRoots)
      modifies `pendingRoots, `history, `phase
      ensures Valid() && pendingRoots == old(pendingRoots) + {key} && history == old(history) + [AutoStart(key)]
      ensures phase == Awaiting(roots, index, active, key)
    {
      assert key in References(controller.contextId, roots);
      pendingRoots := pendingRoots + {key};
      Appended(history, AutoStart(key));
      history := history + [AutoStart(key)];
      phase := Awaiting(roots, index, active, key);
    }

    /** The awaited start succeeded or was declined; the loop goes on with the next root. */
    method StartResolved(started: bool)
      requires Valid() && phase.Awaiting?
      modifies `pendingRoots, `history, `phase
      ensures Valid()
      ensures var was := old(phase);
        var settled := if started then old(history) else old(history) + [Declined(was.key)];
        var pending := if started then old(pendingRoots) else old(pendingRoots) - {was.key};
        Started(settled, history, pending, pendingRoots, suppressedRoots, controller.contextId,
                was.roots, was.index + 1, was.active, phase)
    {
      var Awaiting(roots, index, active, key) := phase;
      phase := Idle;
      if !started { Settle(key, Declined(key)); }
      StartFrom(roots, index + 1, active);
    }

    /** The awaited start threw; the reconciliation ends there. */
    method StartRejected()
      requires Valid() && phase.Awaiting?
      modifies `pendingRoots, `history, `phase
      ensures Valid() && phase.Idle? && history == old(history) + [Failed(old(phase).key)]
      ensures pendingRoots == old(pendingRoots) - {old(phase).key}
    {
      var key := phase.key;
      phase := Idle;
      Settle(key, Failed(key));
    }

    method SnapshotChanged(forest: Option<seq<Node>>)
      requires Valid()
      modifies `queued, controller
      ensures Valid() && controller.forest == forest
      ensures queued == if disposed then old(queued) else old(queued) + 1
    {
      controller.forest := forest;
      if !disposed { ScheduleReconcile(); }
    }

    method Dispose()
      requires Valid()
      modifies `disposed
      ensures Valid() && disposed
    {
      disposed := true;
    }
  }
}
