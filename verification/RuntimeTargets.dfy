/** The runtime targets below a process: a depth-first walk of their parent relation. */
module RuntimeTargets {
  import opened Common
  import opened Outline
  import opened NodeWalk
  import opened NodeReach
  import opened Sorting

  datatype RuntimeTarget = RuntimeTarget(id: string, parent: Option<string>, process: Option<nat>)

  function OfProcess(targets: seq<RuntimeTarget>, pid: nat): (r: seq<RuntimeTarget>)
    ensures forall t :: t in r <==> t in targets && t.process == Some(pid)
  {
    if targets == [] then []
    else (if targets[0].process == Some(pid) then [targets[0]] else []) + OfProcess(targets[1..], pid)
  }

  function Ids(targets: seq<RuntimeTarget>): (r: set<string>)
    ensures forall x :: x in r <==> exists t | t in targets :: t.id == x
  {
    set t | t in targets :: t.id
  }

  /** The ids of targets without a parent in `among`. */
  function RootIds(targets: seq<RuntimeTarget>, among: set<string>): (r: seq<string>)
    ensures forall x :: x in r <==>
      exists t | t in targets :: t.id == x && (t.parent.None? || t.parent.value !in among)
  {
    if targets == [] then []
    else
      (if targets[0].parent.None? || targets[0].parent.value !in among then [targets[0].id] else [])
      + RootIds(targets[1..], among)
  }

  function ChildIds(targets: seq<RuntimeTarget>, id: string): (r: seq<string>)
    ensures forall x :: x in r <==> RuntimeChild(targets, id, x)
  {
    if targets == [] then []
    else (if targets[0].parent == Some(id) then [targets[0].id] else []) + ChildIds(targets[1..], id)
  }

  ghost predicate RuntimeChild(targets: seq<RuntimeTarget>, id: string, x: string) {
    exists t | t in targets :: t.id == x && t.parent == Some(id)
  }

  function Roots(targets: seq<RuntimeTarget>): (r: seq<string>)
    ensures forall x | x in r :: x in Ids(targets)
  {
    SortIds(RootIds(targets, Ids(targets)))
  }

  function ForestOf(rootPid: nat, targets: seq<RuntimeTarget>): (f: Forest)
    ensures Fits(f)
  {
    Forest(RuntimeNode(rootPid), Ids(targets), id => SortIds(ChildIds(targets, id)))
  }

  /** The rows of the targets of one process. Nothing is shown when each has a parent among them. */
  function TargetRows(rootPid: nat, targets: seq<RuntimeTarget>, pid: nat, expanded: set<Key>, depth: nat): seq<Row> {
    var own := OfProcess(targets, pid);
    VisitAll(ForestOf(rootPid, own), expanded, Roots(own), depth, {}).rows
  }

  method AppendProcessTargetRows(
      rootPid: nat, targets: seq<RuntimeTarget>, pid: nat, expanded: set<Key>, depth: nat) returns (rows: seq<Row>)
    ensures rows == TargetRows(rootPid, targets, pid, expanded, depth)
  {
    var own := OfProcess(targets, pid);
    var writer := new NodeWriter();
    writer.AppendAll(ForestOf(rootPid, own), expanded, Roots(own), depth);
    rows := writer.rows;
  }

  /** Each target below a process has one row exactly when a chain of expanded targets of the process
      leads to it from one without a parent there. */
  lemma {:induction false} TargetsAreReachable(
      rootPid: nat, targets: seq<RuntimeTarget>, pid: nat, expanded: set<Key>, depth: nat)
    ensures var own := OfProcess(targets, pid);
      ListsReachable(ForestOf(rootPid, own), expanded, Roots(own), TargetRows(rootPid, targets, pid, expanded, depth))
  {
    var own := OfProcess(targets, pid);
    WalkIsReachable(ForestOf(rootPid, own), expanded, Roots(own), depth);
  }
}
