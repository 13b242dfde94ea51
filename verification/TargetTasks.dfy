/** The tasks that observe targets. A task is aborted through its handle, and handles are kept by
    target id. */
module TargetTasks {
  import opened AppModel

  function IdOf(t: TargetRef): TargetId { (t.connectionId, t.targetId) }

  /** A running observer: how often targets had been set when it was started, and its target. Tasks are
      numbered in the order in which they are started. */
  datatype Observer = Observer(ord: nat, target: TargetRef)

  type Observers = map<nat, Observer>

  /** One new observer per target, numbered from `first` on. */
  function Spawned(running: Observers, first: nat, ord: nat, targets: seq<TargetRef>): Observers {
    if targets == [] then running
    else
      var last := |targets| - 1;
      Spawned(running, first, ord, targets[..last])[first + last := Observer(ord, targets[last])]
  }

  /** The handles after that: a target id that occurs twice keeps its last one. */
  function Handles(first: nat, targets: seq<TargetRef>): map<TargetId, nat> {
    if targets == [] then map[]
    else
      var last := |targets| - 1;
      Handles(first, targets[..last])[IdOf(targets[last]) := first + last]
  }

  /** What is left running when all handles are aborted. */
  function Aborted(running: Observers, handles: map<TargetId, nat>): Observers {
    map n | n in running && n !in handles.Values :: running[n]
  }

  predicate Older(running: Observers, bound: nat, ord: nat) {
    forall n | n in running :: n < bound && running[n].ord <= ord
  }

  predicate Runs(running: Observers, n: nat, observer: Observer) { n in running && running[n] == observer }

  /** The observers numbered from `first` on are those of the targets. */
  predicate LastAre(running: Observers, first: nat, ord: nat, targets: seq<TargetRef>) {
    forall i | 0 <= i < |targets| :: Runs(running, first + i, Observer(ord, targets[i]))
  }

  predicate OthersAreOlder(running: Observers, first: nat, ord: nat) {
    forall n | n in running && n < first :: running[n].ord < ord
  }

  /** The observers started last are those of the targets set last; all others are from before. */
  predicate ObserversOk(running: Observers, spawned: nat, ord: nat, targets: seq<TargetRef>) {
    && |targets| <= spawned && Older(running, spawned, ord)
    && LastAre(running, spawned - |targets|, ord, targets) && OthersAreOlder(running, spawned - |targets|, ord)
  }

  lemma {:induction false} SpawnedAt(running: Observers, first: nat, ord: nat, targets: seq<TargetRef>, n: nat)
    ensures var after := Spawned(running, first, ord, targets);
      if first <= n < first + |targets| then n in after && after[n] == Observer(ord, targets[n - first])
      else (n in after <==> n in running) && (n in running ==> after[n] == running[n])
    decreases |targets|
  {
    if targets != [] { SpawnedAt(running, first, ord, targets[..|targets| - 1], n); }
  }

  lemma {:induction false} SpawnedLast(running: Observers, first: nat, ord: nat, targets: seq<TargetRef>)
    ensures LastAre(Spawned(running, first, ord, targets), first, ord, targets)
  {
    var after := Spawned(running, first, ord, targets);
    forall i | 0 <= i < |targets| ensures Runs(after, first + i, Observer(ord, targets[i])) {
      SpawnedAt(running, first, ord, targets, first + i);
    }
  }

  /** Setting targets aborts what has a handle; whatever is left over is of an older generation. */
  lemma {:induction false} SpawningIsOk(running: Observers, handles: map<TargetId, nat>, first: nat, ord: nat,
                                        targets: seq<TargetRef>)
    requires Older(running, first, ord)
    ensures ObserversOk(Spawned(Aborted(running, handles), first, ord + 1, targets), first + |targets|, ord + 1,
      targets)
  {
    var left := Aborted(running, handles);
    var after := Spawned(left, first, ord + 1, targets);
    forall n | n in after
      ensures n < first + |targets| && after[n].ord <= ord + 1 && (n < first ==> after[n].ord < ord + 1) {
      SpawnedAt(left, first, ord + 1, targets, n);
    }
    SpawnedLast(left, first, ord + 1, targets);
  }

  // ---- observers that nothing can abort

  predicate IdsDiffer(targets: seq<TargetRef>) {
    forall i, j | 0 <= i < j < |targets| :: IdOf(targets[i]) != IdOf(targets[j])
  }

  /** The handle of an id is that of its last target. */
  lemma {:induction false} HandleOf(first: nat, targets: seq<TargetRef>, i: nat)
    requires i < |targets|
    ensures var handles := Handles(first, targets); var id := IdOf(targets[i]);
      && id in handles && first + i <= handles[id] < first + |targets|
      && (handles[id] == first + i <==> forall j | i < j < |targets| :: IdOf(targets[j]) != id)
    decreases |targets|
  {
    var last := |targets| - 1;
    if i < last {
      HandleOf(first, targets[..last], i);
      var id := IdOf(targets[i]);
      assert forall j | i < j < last :: targets[..last][j] == targets[j];
      if IdOf(targets[last]) == id { assert i < last < |targets|; }
    }
  }

  lemma {:induction false} HandleIsOfTarget(first: nat, targets: seq<TargetRef>, id: TargetId)
    requires id in Handles(first, targets)
    ensures var n := Handles(first, targets)[id]; first <= n < first + |targets| && IdOf(targets[n - first]) == id
    decreases |targets|
  {
    var last := |targets| - 1;
    if IdOf(targets[last]) != id { HandleIsOfTarget(first, targets[..last], id); }
  }

  /** The observer of the i-th target can be aborted exactly when no later target has the same id;
      otherwise it runs until the program ends. */
  lemma {:induction false} HeldIffLast(first: nat, targets: seq<TargetRef>, i: nat)
    requires i < |targets|
    ensures first + i in Handles(first, targets).Values
      <==> forall j | i < j < |targets| :: IdOf(targets[j]) != IdOf(targets[i])
  {
    HandleOf(first, targets, i);
    var handles := Handles(first, targets);
    if first + i in handles.Values {
      var id :| id in handles && handles[id] == first + i;
      HandleIsOfTarget(first, targets, id);
    }
  }

  predicate AllBefore(running: Observers, bound: nat) { forall n | n in running :: n < bound }

  /** After all handles are aborted nothing of the last targets runs exactly when their ids differ. */
  lemma {:induction false} AllAbortedIffIdsDiffer(running: Observers, first: nat, ord: nat, targets: seq<TargetRef>)
    requires AllBefore(running, first)
    ensures AllBefore(Aborted(Spawned(running, first, ord, targets), Handles(first, targets)), first)
      <==> IdsDiffer(targets)
  {
    var after, handles := Spawned(running, first, ord, targets), Handles(first, targets);
    var left := Aborted(after, handles);
    if !IdsDiffer(targets) {
      var i, j :| 0 <= i < j < |targets| && IdOf(targets[i]) == IdOf(targets[j]);
      SpawnedAt(running, first, ord, targets, first + i);
      HeldIffLast(first, targets, i);
      assert first + i in left;
    } else {
      forall n | n in left ensures n < first {
        SpawnedAt(running, first, ord, targets, n);
        if n >= first { HeldIffLast(first, targets, n - first); }
      }
    }
  }

  // ---- setting targets again and again

  datatype Control = Control(observers: Observers, handles: map<TargetId, nat>, spawned: nat)

  /** The controller after the targets have been set to each of these in turn. */
  function Controlled(history: seq<seq<TargetRef>>): Control {
    if history == [] then Control(map[], map[], 0)
    else
      var last := history[|history| - 1];
      var s := Controlled(history[..|history| - 1]);
      Control(Spawned(Aborted(s.observers, s.handles), s.spawned, |history|, last), Handles(s.spawned, last),
              s.spawned + |last|)
  }

  ghost predicate AllDiffer(history: seq<seq<TargetRef>>) {
    forall targets | targets in history :: IdsDiffer(targets)
  }

  lemma {:induction false} NoneLeft(first: nat, ord: nat, targets: seq<TargetRef>)
    requires IdsDiffer(targets)
    ensures Aborted(Spawned(map[], first, ord, targets), Handles(first, targets)) == map[]
  {
    var left := Aborted(Spawned(map[], first, ord, targets), Handles(first, targets));
    AllAbortedIffIdsDiffer(map[], first, ord, targets);
    forall n | n in left ensures false { SpawnedAt(map[], first, ord, targets, n); }
  }

  /** When the ids of each list differ, the observers that run are those of the last list. */
  lemma {:induction false} OnlyLastRun(history: seq<seq<TargetRef>>)
    requires history != [] && AllDiffer(history)
    ensures var s, last := Controlled(history), history[|history| - 1];
      && |last| <= s.spawned
      && s.observers == Spawned(map[], s.spawned - |last|, |history|, last)
      && s.handles == Handles(s.spawned - |last|, last)
  {
    var front := history[..|history| - 1];
    if front != [] {
      var last := front[|front| - 1];
      OnlyLastRun(front);
      assert last in history;
      NoneLeft(Controlled(front).spawned - |last|, |front|, last);
    }
  }
}
