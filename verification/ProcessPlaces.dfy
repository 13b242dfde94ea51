/** The walk of a process tree puts every row where it belongs. */
module ProcessPlaces {
  import opened Common
  import opened Outline
  import opened ProcessOutline
  import opened ProcessItems
  import opened ProcessSiblings
  import opened Siblings
  import opened Subsequences
  import Targets = RuntimeTargets
  import NodeSiblings

  lemma {:induction false} TopKey(rows: seq<Row>, depth: nat, keys: seq<Key>, i: nat) returns (m: nat)
    requires Heads(rows, depth, keys) && i < |rows| && rows[i].depth == depth
    ensures m < |keys| && keys[m] == rows[i].key
  {
    TopAt(rows, depth, i);
    m := AmongAt(Tops(rows, depth), keys, |Tops(rows[..i], depth)|);
  }

  lemma {:induction false} TwoTopKeys(rows: seq<Row>, depth: nat, keys: seq<Key>, i: nat, j: nat)
      returns (m: nat, n: nat)
    requires Heads(rows, depth, keys) && i < j < |rows| && rows[i].depth == depth && rows[j].depth == depth
    ensures m < n < |keys| && keys[m] == rows[i].key && keys[n] == rows[j].key
  {
    var k, l := TwoTops(rows, depth, i, j);
    m, n := TwoAmong(Tops(rows, depth), keys, k, l);
  }

  // ---- the block of a process

  lemma {:induction false} ProcessRowFits(t: ProcessTree, expanded: set<Key>, p: Process, depth: nat)
    requires p in t.processes
    ensures IsRowOf(t, expanded, ProcessRow(t, expanded, p, depth), p)
  {
    var children, own := Children(t, p.pid), Targets.OfProcess(t.targets, p.pid);
    if children != [] {
      ChildMembers(t, p.pid, children[0]);
      assert ChildOf(t, p.pid, children[0]);
    }
    if c :| ChildOf(t, p.pid, c) { ChildMembers(t, p.pid, c); }
    if own != [] { assert own[0] in own; }
    if g :| g in t.targets && g.process == Some(p.pid) { assert g in own; }
  }

  ghost function OwnItems(t: ProcessTree, p: Process, active: Option<nat>): seq<Key> {
    ItemKeys(t, ItemsOf(t, p.pid, active))
  }

  lemma {:induction false} ChildKey(
      t: ProcessTree, p: Process, depth: nat, active: Option<nat>, children: seq<Row>, n: nat)
    requires Heads(children, depth, OwnItems(t, p, active)) && n < |children| && children[n].depth == depth
    ensures IsChildKey(children[n].key) && StandsFor(t, p.pid, children[n].key)
  {
    var m := TopKey(children, depth, OwnItems(t, p, active), n);
    ItemStandsFor(t, p.pid, active, m);
  }

  lemma {:induction false} ChildOrder(
      t: ProcessTree, p: Process, depth: nat, active: Option<nat>, children: seq<Row>, m: nat, n: nat)
    requires Heads(children, depth, OwnItems(t, p, active)) && m < n < |children|
    requires children[m].depth == depth && children[n].depth == depth
    ensures Ordered(t, p.pid, children[m].key, children[n].key)
  {
    var k, l := TwoTopKeys(children, depth, OwnItems(t, p, active), m, n);
    ItemsInOrder(t, p.pid, active, k, l);
  }

  lemma {:induction false} PartHangs(
      t: ProcessTree, p: Process, depth: nat, active: Option<nat>, children: seq<Row>, targets: seq<Row>, n: nat)
    requires Heads(children, depth, OwnItems(t, p, active)) && AreTargets(t, targets, depth)
    requires var rows := Parts(p, depth, children, targets); n < |rows| && rows[n].depth == depth
    ensures MayHang(t, ProcessKey(t.rootPid, p.pid), Parts(p, depth, children, targets)[n].key)
  {
    var s := |p.sessions|;
    InThree(Sessions(p, depth), children, targets, n);
    if s <= n < s + |children| { ChildKey(t, p, depth, active, children, n - s); }
  }

  lemma {:induction false} PartRank(
      t: ProcessTree, p: Process, depth: nat, active: Option<nat>, children: seq<Row>, targets: seq<Row>, n: nat)
    requires Heads(children, depth, OwnItems(t, p, active)) && AreTargets(t, targets, depth)
    requires var rows := Parts(p, depth, children, targets); n < |rows| && rows[n].depth == depth
    ensures var k, s := Parts(p, depth, children, targets)[n].key, |p.sessions|;
      && Rank(k) == (if n < s then 0 else if n < s + |children| then 1 else 2)
      && (IsChildKey(k) <==> s <= n < s + |children|)
  {
    var s := |p.sessions|;
    InThree(Sessions(p, depth), children, targets, n);
    if s <= n < s + |children| { ChildKey(t, p, depth, active, children, n - s); }
  }

  lemma {:induction false} PartOrder(
      t: ProcessTree, p: Process, depth: nat, active: Option<nat>, children: seq<Row>, targets: seq<Row>,
      m: nat, n: nat)
    requires Heads(children, depth, OwnItems(t, p, active)) && AreTargets(t, targets, depth)
    requires var rows := Parts(p, depth, children, targets);
      m < n < |rows| && rows[m].depth == depth && rows[n].depth == depth
    ensures var rows := Parts(p, depth, children, targets);
      InOrder(t, ProcessKey(t.rootPid, p.pid), rows[m].key, rows[n].key)
  {
    var s := |p.sessions|;
    PartRank(t, p, depth, active, children, targets, m);
    PartRank(t, p, depth, active, children, targets, n);
    if s <= m && n < s + |children| {
      InThree(Sessions(p, depth), children, targets, m);
      InThree(Sessions(p, depth), children, targets, n);
      ChildOrder(t, p, depth, active, children, m - s, n - s);
    }
  }

  lemma {:induction false} EndsAtEnd(row: Row, below: seq<Row>)
    requires AtLeast(below, row.depth + 1)
    ensures Ends([row] + below, 0, |below| + 1)
  {
    if below != [] {
      forall n | 0 < n <= |below| ensures ([row] + below)[n].depth > row.depth {
        AtLeastAt(below, row.depth + 1, n - 1);
      }
    }
  }

  lemma {:induction false} PartsHold(
      t: ProcessTree, expanded: set<Key>, p: Process, depth: nat, active: Option<nat>, children: seq<Row>,
      targets: seq<Row>)
    requires Heads(children, depth, OwnItems(t, p, active)) && targets == TargetRows(t, expanded, p.pid, depth)
    ensures Holds(t, expanded, p, depth, Parts(p, depth, children, targets))
  {
    forall n | 0 <= n < |children| && children[n].depth == depth ensures IsChildKey(children[n].key) {
      ChildKey(t, p, depth, active, children, n);
    }
    Assoc(Sessions(p, depth), children, targets);
  }

  lemma {:induction false} HeadShows(
      t: ProcessTree, expanded: set<Key>, p: Process, row: Row, block: seq<Row>, rows: seq<Row>)
    requires IsRowOf(t, expanded, row, p) && Opens(t, expanded, row, p, block) && AtLeast(block, row.depth + 1)
    requires rows == [row] + block
    ensures ShowsProcess(t, expanded, rows, 0, p, |rows|)
  {
    EndsAtEnd(row, block);
    assert rows[0] == row && rows[1..|rows|] == block;
  }

  lemma {:induction false} HeadHangs(
      t: ProcessTree, p: Process, row: Row, depth: nat, active: Option<nat>, children: seq<Row>, targets: seq<Row>,
      i: nat)
    requires row.key == ProcessKey(t.rootPid, p.pid) && row.depth == depth
    requires Heads(children, depth + 1, OwnItems(t, p, active)) && AreTargets(t, targets, depth + 1)
    requires Hangs([row] + Parts(p, depth + 1, children, targets), 0, i)
    ensures MayHang(t, row.key, ([row] + Parts(p, depth + 1, children, targets))[i].key)
  {
    PartsDeep(t, p, depth + 1, children, targets);
    HangsFromHead(row, Parts(p, depth + 1, children, targets), i);
    PartHangs(t, p, depth + 1, active, children, targets, i - 1);
  }

  lemma {:induction false} HeadOrder(
      t: ProcessTree, p: Process, row: Row, depth: nat, active: Option<nat>, children: seq<Row>, targets: seq<Row>,
      i: nat, j: nat)
    requires row.key == ProcessKey(t.rootPid, p.pid) && row.depth == depth
    requires Heads(children, depth + 1, OwnItems(t, p, active)) && AreTargets(t, targets, depth + 1)
    requires var rows := [row] + Parts(p, depth + 1, children, targets); Hangs(rows, 0, i) && Hangs(rows, 0, j) && i < j
    ensures var rows := [row] + Parts(p, depth + 1, children, targets); InOrder(t, row.key, rows[i].key, rows[j].key)
  {
    PartsDeep(t, p, depth + 1, children, targets);
    HangsFromHead(row, Parts(p, depth + 1, children, targets), i);
    HangsFromHead(row, Parts(p, depth + 1, children, targets), j);
    PartOrder(t, p, depth + 1, active, children, targets, i - 1, j - 1);
  }

  lemma {:induction false} HeadFits(
      t: ProcessTree, expanded: set<Key>, p: Process, row: Row, depth: nat, active: Option<nat>, children: seq<Row>,
      targets: seq<Row>, rows: seq<Row>)
    requires IsRowOf(t, expanded, row, p) && row.expanded && row.depth == depth
    requires Heads(children, depth + 1, OwnItems(t, p, active))
    requires targets == TargetRows(t, expanded, p.pid, depth + 1) && AreTargets(t, targets, depth + 1)
    requires rows == [row] + Parts(p, depth + 1, children, targets)
    ensures ShowsProcess(t, expanded, rows, 0, p, |rows|)
  {
    PartsDeep(t, p, depth + 1, children, targets);
    PartsHold(t, expanded, p, depth + 1, active, children, targets);
    HeadShows(t, expanded, p, row, Parts(p, depth + 1, children, targets), rows);
  }

  lemma {:induction false} HeadPlaced(
      t: ProcessTree, expanded: set<Key>, p: Process, row: Row, depth: nat, active: Option<nat>, children: seq<Row>,
      targets: seq<Row>, rows: seq<Row>, i: nat, j: nat)
    requires IsRowOf(t, expanded, row, p) && row.expanded && row.depth == depth
    requires Heads(children, depth + 1, OwnItems(t, p, active))
    requires targets == TargetRows(t, expanded, p.pid, depth + 1)
    requires rows == [row] + Parts(p, depth + 1, children, targets)
    ensures Placed(t, expanded, rows, 0, i, j)
  {
    TargetsAre(t, expanded, p.pid, depth + 1);
    HeadFits(t, expanded, p, row, depth, active, children, targets, rows);
    if Hangs(rows, 0, i) {
      HeadHangs(t, p, row, depth, active, children, targets, i);
      if Hangs(rows, 0, j) && i < j { HeadOrder(t, p, row, depth, active, children, targets, i, j); }
    }
  }

  // ---- rows below a window and a tree

  lemma {:induction false} SnapshotOrder(
      t: ProcessTree, s: seq<Process>, rows: seq<Row>, depth: nat, i: nat, j: nat)
    requires Among(s, t.processes) && Heads(rows, depth, ProcessKeys(t, s)) && i < j < |rows|
    requires rows[i].depth == depth && rows[j].depth == depth
    ensures rows[i].key.ProcessKey? && rows[j].key.ProcessKey? && Listed(t, rows[i].key.pid, rows[j].key.pid)
  {
    var k, l := TwoTopKeys(rows, depth, ProcessKeys(t, s), i, j);
    var m, n := TwoAmong(s, t.processes, k, l);
  }

  lemma {:induction false} WindowHeadPlaced(
      t: ProcessTree, expanded: set<Key>, pid: nat, w: nat, row: Row, depth: nat, below: seq<Row>, i: nat, j: nat)
    requires row.key == WindowKey(t.rootPid, w) && row.depth == depth
    requires row.expandable && (row.expanded <==> row.key in expanded)
    requires Heads(below, depth + 1, ProcessKeys(t, Members(t, pid, w)))
    ensures Placed(t, expanded, [row] + below, 0, i, j)
  {
    var rows, members := [row] + below, Members(t, pid, w);
    if Hangs(rows, 0, i) {
      HangsFromHead(row, below, i);
      var m := TopKey(below, depth + 1, ProcessKeys(t, members), i - 1);
      WindowMembers(t, pid, w, members[m]);
    }
    if Hangs(rows, 0, i) && Hangs(rows, 0, j) && i < j {
      HangsFromHead(row, below, j);
      MembersAmong(t, pid, w);
      SnapshotOrder(t, members, below, depth + 1, i - 1, j - 1);
    }
  }

  lemma {:induction false} TreeHeadPlaced(
      t: ProcessTree, expanded: set<Key>, row: Row, below: seq<Row>, i: nat, j: nat)
    requires row == Row(ProcessTreeKey(t.rootPid), 0, t.processes != [], ProcessTreeKey(t.rootPid) in expanded)
    requires Heads(below, 1, ProcessKeys(t, Roots(t)))
    ensures Placed(t, expanded, [row] + below, 0, i, j)
  {
    var rows, roots := [row] + below, Roots(t);
    if Hangs(rows, 0, i) {
      HangsFromHead(row, below, i);
      var m := TopKey(below, 1, ProcessKeys(t, roots), i - 1);
      RootMembers(t, t.processes, roots[m]);
      assert Orphan(t, roots[m]);
    }
    if Hangs(rows, 0, i) && Hangs(rows, 0, j) && i < j {
      HangsFromHead(row, below, j);
      RootsAmong(t, t.processes);
      SnapshotOrder(t, roots, below, 1, i - 1, j - 1);
    }
  }

  // ---- which part of the walk a row comes from

  datatype Origin =
    | OfProcess(process: Process, depth: nat, active: Option<nat>, visited: set<nat>)
    | OfWindow(pid: nat, windowId: nat, depth: nat, active: Option<nat>, visited: set<nat>)
    | OfSession(session: Row, nth: nat)
    | OfTarget

  /** The part of the walk that a row heads, and the rows that come from it. */
  datatype Part = Part(origin: Origin, block: seq<Row>)

  ghost predicate Made(t: ProcessTree, expanded: set<Key>, part: Part) {
    match part.origin
    case OfProcess(p, depth, active, visited) =>
      && p in t.processes && visited <= Pids(t.processes) && p.pid !in visited
      && part.block == Visit(t, expanded, p, depth, active, visited).rows
    case OfWindow(pid, w, depth, active, visited) =>
      && visited <= Pids(t.processes) && Members(t, pid, w) != []
      && part.block == VisitItem(t, expanded, pid, Window(w, Members(t, pid, w)), depth, active, visited).rows
    case OfSession(row, _) => part.block == [row]
    case OfTarget =>
      |part.block| == 1 && part.block[0].key.ProcessTargetKey? && part.block[0].key.rootPid == t.rootPid
  }

  /** `block` stands at row `h` and what follows it is not deeper than its first row. */
  ghost predicate Stands(rows: seq<Row>, h: nat, block: seq<Row>) {
    && block != [] && h + |block| <= |rows| && rows[h..h + |block|] == block
    && (h + |block| < |rows| ==> rows[h + |block|].depth <= block[0].depth)
  }

  /** The row is the given session of the process that heads the rows before it. */
  ghost predicate AtProcess(t: ProcessTree, rows: seq<Row>, h: nat, session: Row, n: nat) {
    exists p | p in t.processes ::
      && n < |p.sessions| && n < h < |rows|
      && rows[h - n - 1].key == ProcessKey(t.rootPid, p.pid) && rows[h - n - 1].expanded
      && session == Row(AgentSessionKey(p.pid, p.sessions[n]), rows[h - n - 1].depth + 1, false, false)
  }

  ghost predicate HeadedBy(t: ProcessTree, rows: seq<Row>, h: nat, part: Part) {
    match part.origin
    case OfTarget => h < |rows| && part.block == [rows[h]]
    case OfSession(row, n) => Stands(rows, h, part.block) && AtProcess(t, rows, h, row, n)
    case _ => Stands(rows, h, part.block)
  }

  lemma {:induction false} HeadedBefore(t: ProcessTree, a: seq<Row>, b: seq<Row>, depth: nat, h: nat, part: Part)
    requires HeadedBy(t, a, h, part) && AtLeast(a, depth) && (b != [] ==> b[0].depth == depth)
    ensures HeadedBy(t, a + b, h, part)
  {
    AtLeastAt(a, depth, h);
    var block := part.block;
    assert (a + b)[h..h + |block|] == a[h..h + |block|];
    assert a[h..h + |block|][0] == a[h];
  }

  lemma {:induction false} HeadedBehind(t: ProcessTree, a: seq<Row>, b: seq<Row>, h: nat, part: Part)
    requires HeadedBy(t, b, h, part)
    ensures HeadedBy(t, a + b, |a| + h, part)
  {
    assert (a + b)[|a| + h..|a| + h + |part.block|] == b[h..h + |part.block|];
  }

  /** The part comes from the walk and heads row `h`. */
  ghost predicate Found(t: ProcessTree, expanded: set<Key>, rows: seq<Row>, h: nat, part: Part) {
    Made(t, expanded, part) && HeadedBy(t, rows, h, part)
  }

  lemma {:induction false} FoundBefore(
      t: ProcessTree, expanded: set<Key>, a: seq<Row>, b: seq<Row>, depth: nat, h: nat, part: Part)
    requires Found(t, expanded, a, h, part) && AtLeast(a, depth) && (b != [] ==> b[0].depth == depth)
    ensures Found(t, expanded, a + b, h, part)
  {
    HeadedBefore(t, a, b, depth, h, part);
  }

  lemma {:induction false} FoundBehind(
      t: ProcessTree, expanded: set<Key>, a: seq<Row>, b: seq<Row>, k: nat, h: nat, part: Part)
    requires h == |a| + k && Found(t, expanded, b, k, part)
    ensures Found(t, expanded, a + b, h, part)
  {
    HeadedBehind(t, a, b, k, part);
  }

  lemma {:induction false} SessionAt(
      t: ProcessTree, expanded: set<Key>, p: Process, row: Row, depth: nat, children: seq<Row>, targets: seq<Row>,
      n: nat)
      returns (part: Part)
    requires IsRowOf(t, expanded, row, p) && row.expanded && row.depth == depth && n < |p.sessions|
    requires children != [] ==> children[0].depth == depth + 1
    requires AreTargets(t, targets, depth + 1)
    ensures Found(t, expanded, [row] + Parts(p, depth + 1, children, targets), n + 1, part)
  {
    var block := Parts(p, depth + 1, children, targets);
    InThree(Sessions(p, depth + 1), children, targets, n);
    if n + 1 < |block| { InThree(Sessions(p, depth + 1), children, targets, n + 1); }
    assert ([row] + block)[n + 1..n + 2] == [block[n]];
    part := Part(OfSession(block[n], n), [block[n]]);
  }

  lemma {:induction false} BelowSessions(
      t: ProcessTree, expanded: set<Key>, p: Process, row: Row, depth: nat, children: seq<Row>, targets: seq<Row>,
      k: nat, h: nat, part: Part)
    requires AtLeast(children, depth) && AreTargets(t, targets, depth)
    requires h == 1 + |p.sessions| + k && Found(t, expanded, children, k, part)
    ensures Found(t, expanded, [row] + Parts(p, depth, children, targets), h, part)
  {
    FoundBefore(t, expanded, children, targets, depth, k, part);
    FoundBehind(t, expanded, [row] + Sessions(p, depth), children + targets, k, h, part);
    Assoc([row], Sessions(p, depth), children + targets);
  }

  lemma {:induction false} TargetAt(
      t: ProcessTree, expanded: set<Key>, p: Process, row: Row, depth: nat, children: seq<Row>, targets: seq<Row>,
      h: nat)
      returns (part: Part)
    requires AreTargets(t, targets, depth)
    requires var rows := [row] + Parts(p, depth, children, targets); 1 + |p.sessions| + |children| <= h < |rows|
    ensures Found(t, expanded, [row] + Parts(p, depth, children, targets), h, part)
  {
    InThree(Sessions(p, depth), children, targets, h - 1);
    part := Part(OfTarget, [([row] + Parts(p, depth, children, targets))[h]]);
  }

  lemma {:induction false} HeadPart(
      t: ProcessTree, expanded: set<Key>, p: Process, depth: nat, active: Option<nat>, visited: set<nat>,
      rows: seq<Row>)
      returns (part: Part)
    requires p in t.processes && visited <= Pids(t.processes)
    requires rows == Visit(t, expanded, p, depth, active, visited).rows && rows != []
    ensures Found(t, expanded, rows, 0, part)
  {
    part := Part(OfProcess(p, depth, active, visited), rows);
    assert rows[0..|rows|] == rows;
  }

  lemma {:induction false} VisitPart(
      t: ProcessTree, expanded: set<Key>, p: Process, depth: nat, active: Option<nat>, visited: set<nat>,
      rows: seq<Row>, h: nat)
      returns (part: Part)
    requires p in t.processes && visited <= Pids(t.processes)
    requires rows == Visit(t, expanded, p, depth, active, visited).rows && h < |rows|
    ensures Found(t, expanded, rows, h, part)
    decreases Pids(t.processes) - visited, 0, 0
  {
    if h == 0 {
      part := HeadPart(t, expanded, p, depth, active, visited, rows);
    } else {
      var own, items := visited + {p.pid}, ItemsOf(t, p.pid, active);
      var children := VisitItems(t, expanded, p.pid, items, depth + 1, active, own).rows;
      VisitIsBlock(t, expanded, p, depth, active, visited, children);
      if |p.sessions| < h <= |p.sessions| + |children| {
        var k: nat := h - 1 - |p.sessions|;
        part := BelowPart(t, expanded, p, depth + 1, active, own, children, k);
        ChildPart(
          t, expanded, p, ProcessRow(t, expanded, p, depth), depth + 1, children, k, h, part);
      } else {
        VisitItemsHeads(t, expanded, p.pid, items, depth + 1, active, own);
        part := OwnPart(t, expanded, p, depth, active, children, rows, h);
      }
    }
  }

  lemma {:induction false} BelowPart(
      t: ProcessTree, expanded: set<Key>, p: Process, depth: nat, active: Option<nat>, visited: set<nat>,
      children: seq<Row>, h: nat)
      returns (part: Part)
    requires visited <= Pids(t.processes) && h < |children|
    requires children == VisitItems(t, expanded, p.pid, ItemsOf(t, p.pid, active), depth, active, visited).rows
    ensures Found(t, expanded, children, h, part) && AtLeast(children, depth)
    decreases Pids(t.processes) - visited, 4, 0
  {
    ItemsOfComplete(t, p.pid, active);
    part := VisitItemsPart(t, expanded, p.pid, ItemsOf(t, p.pid, active), depth, active, visited, children, h);
    VisitItemsDeep(t, expanded, p.pid, ItemsOf(t, p.pid, active), depth, active, visited);
  }

  lemma {:induction false} ChildPart(
      t: ProcessTree, expanded: set<Key>, p: Process, row: Row, depth: nat, children: seq<Row>, k: nat, h: nat,
      part: Part)
    requires AtLeast(children, depth) && h == 1 + |p.sessions| + k && Found(t, expanded, children, k, part)
    ensures Found(
      t, expanded, [row] + Parts(p, depth, children, TargetRows(t, expanded, p.pid, depth)), h, part)
  {
    TargetsAre(t, expanded, p.pid, depth);
    BelowSessions(
      t, expanded, p, row, depth, children, TargetRows(t, expanded, p.pid, depth), k, h, part);
  }

  lemma {:induction false} OwnPart(
      t: ProcessTree, expanded: set<Key>, p: Process, depth: nat, active: Option<nat>, children: seq<Row>,
      rows: seq<Row>, h: nat)
      returns (part: Part)
    requires p in t.processes && ProcessKey(t.rootPid, p.pid) in expanded
    requires Heads(children, depth + 1, OwnItems(t, p, active))
    requires rows == [ProcessRow(t, expanded, p, depth)]
      + Parts(p, depth + 1, children, TargetRows(t, expanded, p.pid, depth + 1))
    requires 0 < h < |rows| && (h <= |p.sessions| || h > |p.sessions| + |children|)
    ensures Found(t, expanded, rows, h, part)
  {
    var row, targets := ProcessRow(t, expanded, p, depth), TargetRows(t, expanded, p.pid, depth + 1);
    TargetsAre(t, expanded, p.pid, depth + 1);
    if h <= |p.sessions| {
      ProcessRowFits(t, expanded, p, depth);
      part := SessionAt(t, expanded, p, row, depth, children, targets, h - 1);
    } else {
      part := TargetAt(t, expanded, p, row, depth + 1, children, targets, h);
    }
  }

  lemma {:induction false} VisitAllPart(
      t: ProcessTree, expanded: set<Key>, todo: seq<Process>, depth: nat, active: Option<nat>, visited: set<nat>,
      rows: seq<Row>, h: nat)
      returns (part: Part)
    requires AllIn(t, todo) && visited <= Pids(t.processes)
    requires rows == VisitAll(t, expanded, todo, depth, active, visited).rows && h < |rows|
    ensures Found(t, expanded, rows, h, part)
    decreases Pids(t.processes) - visited, 1, |todo|
  {
    var first := Visit(t, expanded, todo[0], depth, active, visited);
    var rest := VisitAll(t, expanded, todo[1..], depth, active, first.visited);
    var n := |first.rows|;
    if h < n {
      part := VisitPart(t, expanded, todo[0], depth, active, visited, first.rows, h);
      VisitDeep(t, expanded, todo[0], depth, active, visited);
      VisitAllHeads(t, expanded, todo[1..], depth, active, first.visited);
      FoundBefore(t, expanded, first.rows, rest.rows, depth, h, part);
    } else {
      var k: nat := h - n;
      part := VisitAllPart(t, expanded, todo[1..], depth, active, first.visited, rest.rows, k);
      FoundBehind(t, expanded, first.rows, rest.rows, k, h, part);
    }
  }

  lemma {:induction false} VisitItemPart(
      t: ProcessTree, expanded: set<Key>, pid: nat, item: Item, depth: nat, active: Option<nat>, visited: set<nat>,
      rows: seq<Row>, h: nat)
      returns (part: Part)
    requires Fits(t, pid, item) && Complete(t, pid, item) && visited <= Pids(t.processes)
    requires rows == VisitItem(t, expanded, pid, item, depth, active, visited).rows && h < |rows|
    ensures Found(t, expanded, rows, h, part)
    decreases Pids(t.processes) - visited, 2, 0
  {
    match item
    case Single(p) => part := VisitPart(t, expanded, p, depth, active, visited, rows, h);
    case Window(w, members) =>
      if h == 0 {
        part := Part(OfWindow(pid, w, depth, active, visited), rows);
        assert rows[0..|rows|] == rows;
          } else {
        var row := WindowRow(t, expanded, w, members, depth);
        var below := VisitAll(t, expanded, members, depth + 1, Some(w), visited).rows;
        var k: nat := h - 1;
        part := VisitAllPart(t, expanded, members, depth + 1, Some(w), visited, below, k);
        FoundBehind(t, expanded, [row], below, k, h, part);
      }
  }

  lemma {:induction false} VisitItemsPart(
      t: ProcessTree, expanded: set<Key>, pid: nat, items: seq<Item>, depth: nat, active: Option<nat>,
      visited: set<nat>, rows: seq<Row>, h: nat)
      returns (part: Part)
    requires AllFit(t, pid, items) && AllComplete(t, pid, items) && visited <= Pids(t.processes)
    requires rows == VisitItems(t, expanded, pid, items, depth, active, visited).rows && h < |rows|
    ensures Found(t, expanded, rows, h, part)
    decreases Pids(t.processes) - visited, 3, |items|
  {
    var first := VisitItem(t, expanded, pid, items[0], depth, active, visited);
    var rest := VisitItems(t, expanded, pid, items[1..], depth, active, first.visited);
    var n := |first.rows|;
    if h < n {
      part := VisitItemPart(t, expanded, pid, items[0], depth, active, visited, first.rows, h);
      VisitItemDeep(t, expanded, pid, items[0], depth, active, visited);
      VisitItemsHeads(t, expanded, pid, items[1..], depth, active, first.visited);
      FoundBefore(t, expanded, first.rows, rest.rows, depth, h, part);
    } else {
      var k: nat := h - n;
      part := VisitItemsPart(t, expanded, pid, items[1..], depth, active, first.visited, rest.rows, k);
      FoundBehind(t, expanded, first.rows, rest.rows, k, h, part);
    }
  }

  lemma {:induction false} VisitRootsPart(
      t: ProcessTree, expanded: set<Key>, roots: seq<Process>, visited: set<nat>, rows: seq<Row>, h: nat)
      returns (part: Part)
    requires AllIn(t, roots) && visited <= Pids(t.processes)
    requires rows == VisitRoots(t, expanded, roots, visited).rows && h < |rows|
    ensures Found(t, expanded, rows, h, part)
    decreases |roots|
  {
    var first := Visit(t, expanded, roots[0], 1, roots[0].window, visited);
    var rest := VisitRoots(t, expanded, roots[1..], first.visited);
    var n := |first.rows|;
    if h < n {
      part := VisitPart(t, expanded, roots[0], 1, roots[0].window, visited, first.rows, h);
      VisitDeep(t, expanded, roots[0], 1, roots[0].window, visited);
      VisitRootsHeads(t, expanded, roots[1..], first.visited);
      FoundBefore(t, expanded, first.rows, rest.rows, 1, h, part);
    } else {
      var k: nat := h - n;
      part := VisitRootsPart(t, expanded, roots[1..], first.visited, rest.rows, k);
      FoundBehind(t, expanded, first.rows, rest.rows, k, h, part);
    }
  }

  // ---- every part puts its rows where they belong

  lemma {:induction false} PlacedWithin(
      t: ProcessTree, expanded: set<Key>, rows: seq<Row>, h: nat, block: seq<Row>, k: nat, l: nat, i: nat, j: nat)
    requires Stands(rows, h, block) && k > 0 && l > 0 && i == h + k && j == h + l
    requires Placed(t, expanded, block, 0, k, l)
    ensures Placed(t, expanded, rows, h, i, j)
  {
    var before, after := rows[..h], rows[h + |block|..];
    var upTo := before + block;
    assert rows == upTo + after;
    PlacedBehind(t, expanded, before, block, h, i, j);
    FitsBefore(t, expanded, upTo, after, h);
    HangsInFront(upTo, after, h, i);
    HangsInFront(upTo, after, h, j);
  }

  lemma {:induction false} ProcessBlockPlaced(
      t: ProcessTree, expanded: set<Key>, p: Process, depth: nat, active: Option<nat>, visited: set<nat>,
      block: seq<Row>, i: nat, j: nat)
    requires p in t.processes && visited <= Pids(t.processes) && p.pid !in visited
    requires block == Visit(t, expanded, p, depth, active, visited).rows && i > 0 && j > 0
    ensures Placed(t, expanded, block, 0, i, j)
  {
    var row := ProcessRow(t, expanded, p, depth);
    ProcessRowFits(t, expanded, p, depth);
    if row.expanded {
      var items, own := ItemsOf(t, p.pid, active), visited + {p.pid};
      var children := VisitItems(t, expanded, p.pid, items, depth + 1, active, own).rows;
      VisitIsBlock(t, expanded, p, depth, active, visited, children);
      VisitItemsHeads(t, expanded, p.pid, items, depth + 1, active, own);
      HeadPlaced(
        t, expanded, p, row, depth, active, children, TargetRows(t, expanded, p.pid, depth + 1), block, i, j);
    } else {
      OneRowPlaced(t, expanded, row, p, i, j);
    }
  }

  lemma {:induction false} OneRowPlaced(t: ProcessTree, expanded: set<Key>, row: Row, p: Process, i: nat, j: nat)
    requires IsRowOf(t, expanded, row, p) && !row.expanded && i > 0 && j > 0
    ensures Placed(t, expanded, [row], 0, i, j)
  {
    assert [row][1..1] == [];
    assert ShowsProcess(t, expanded, [row], 0, p, 1);
  }

  lemma {:induction false} WindowBlockPlaced(
      t: ProcessTree, expanded: set<Key>, pid: nat, w: nat, depth: nat, active: Option<nat>, visited: set<nat>,
      block: seq<Row>, i: nat, j: nat)
    requires visited <= Pids(t.processes) && Members(t, pid, w) != [] && i > 0 && j > 0
    requires block == VisitItem(t, expanded, pid, Window(w, Members(t, pid, w)), depth, active, visited).rows
    ensures Placed(t, expanded, block, 0, i, j)
  {
    var members := Members(t, pid, w);
    var row := WindowRow(t, expanded, w, members, depth);
    if row.expanded {
      VisitAllHeads(t, expanded, members, depth + 1, Some(w), visited);
      WindowHeadPlaced(t, expanded, pid, w, row, depth,
        VisitAll(t, expanded, members, depth + 1, Some(w), visited).rows, i, j);
    } else {
      assert block == [row] + [];
      WindowHeadPlaced(t, expanded, pid, w, row, depth, [], i, j);
    }
  }

  lemma {:induction false} SessionPlaced(
      t: ProcessTree, expanded: set<Key>, rows: seq<Row>, h: nat, row: Row, n: nat, i: nat, j: nat)
    requires Stands(rows, h, [row]) && AtProcess(t, rows, h, row, n) && h < i && h < j
    ensures Placed(t, expanded, rows, h, i, j)
  {
    assert rows[h] == rows[h..h + 1][0];
    var p :| p in t.processes && n < |p.sessions|
      && rows[h - n - 1].key == ProcessKey(t.rootPid, p.pid) && rows[h - n - 1].expanded
      && row == Row(AgentSessionKey(p.pid, p.sessions[n]), rows[h - n - 1].depth + 1, false, false);
    assert ShowsSession(t, rows, h - n - 1, p, h);
  }

  lemma {:induction false} PartPlaced(
      t: ProcessTree, expanded: set<Key>, rows: seq<Row>, h: nat, part: Part, i: nat, j: nat)
    requires Made(t, expanded, part) && HeadedBy(t, rows, h, part) && h < i && h < j
    ensures Placed(t, expanded, rows, h, i, j)
  {
    var k: nat, l: nat := i - h, j - h;
    match part.origin
    case OfProcess(p, depth, active, visited) =>
      ProcessBlockPlaced(t, expanded, p, depth, active, visited, part.block, k, l);
      PlacedWithin(t, expanded, rows, h, part.block, k, l, i, j);
    case OfWindow(pid, w, depth, active, visited) =>
      WindowBlockPlaced(t, expanded, pid, w, depth, active, visited, part.block, k, l);
      PlacedWithin(t, expanded, rows, h, part.block, k, l, i, j);
    case OfSession(row, n) =>
      SessionPlaced(t, expanded, rows, h, row, n, i, j);
    case OfTarget =>
      assert part.block[0] == rows[h];
  }

  lemma {:induction false} RootsPlaced(t: ProcessTree, expanded: set<Key>, rows: seq<Row>, h: nat, i: nat, j: nat)
    requires rows == VisitRoots(t, expanded, Roots(t), {}).rows && h < |rows| && h < i && h < j
    ensures Placed(t, expanded, rows, h, i, j)
  {
    var part := VisitRootsPart(t, expanded, Roots(t), {}, rows, h);
    PartPlaced(t, expanded, rows, h, part, i, j);
  }

  lemma {:induction false} PlacedShift(
      t: ProcessTree, expanded: set<Key>, a: seq<Row>, b: seq<Row>, g: nat, k: nat, l: nat, h: nat, i: nat, j: nat)
    requires h == |a| + g && i == |a| + k && j == |a| + l && g < k && g < l && Placed(t, expanded, b, g, k, l)
    ensures Placed(t, expanded, a + b, h, i, j)
  {
    PlacedBehind(t, expanded, a, b, h, i, j);
  }

  lemma {:induction false} TreePlaced(t: ProcessTree, expanded: set<Key>, h: nat, i: nat, j: nat)
    requires h < i && h < j
    ensures Placed(t, expanded, TreeRows(t, expanded), h, i, j)
  {
    var key := ProcessTreeKey(t.rootPid);
    var row := Row(key, 0, t.processes != [], key in expanded);
    var below := if key in expanded then VisitRoots(t, expanded, Roots(t), {}).rows else [];
    assert TreeRows(t, expanded) == [row] + below;
    if h == 0 {
      if key in expanded { VisitRootsHeads(t, expanded, Roots(t), {}); }
      TreeHeadPlaced(t, expanded, row, below, i, j);
    } else if h <= |below| {
      var g: nat, k: nat, l: nat := h - 1, i - 1, j - 1;
      RootsPlaced(t, expanded, below, g, k, l);
      PlacedShift(t, expanded, [row], below, g, k, l, h, i, j);
    }
  }

  // ---- every row hangs from one

  lemma {:induction false} TargetRooted(t: ProcessTree, expanded: set<Key>, pid: nat, depth: nat, n: nat)
    ensures Rooted(TargetRows(t, expanded, pid, depth), depth, n)
  {
    var own := Targets.OfProcess(t.targets, pid);
    NodeSiblings.VisitAllRooted(Targets.ForestOf(t.rootPid, own), expanded, Targets.Roots(own), depth, {}, n);
  }

  lemma {:induction false} RootedJoin(a: seq<Row>, b: seq<Row>, depth: nat, n: nat, m: nat)
    requires AtLeast(a, depth) && (b != [] ==> b[0].depth == depth)
    requires if n < |a| then Rooted(a, depth, n) else m == n - |a| && Rooted(b, depth, m)
    ensures Rooted(a + b, depth, n)
  {
    if n < |a| { RootedBefore(a, b, depth, n); } else { RootedBehind(a, b, depth, n); }
  }

  lemma {:induction false} PartsRooted(
      t: ProcessTree, expanded: set<Key>, p: Process, depth: nat, children: seq<Row>, n: nat, m: nat)
    requires AtLeast(children, depth) && (children != [] ==> children[0].depth == depth)
    requires n >= |p.sessions| ==> m == n - |p.sessions| && Rooted(children, depth, m)
    ensures Rooted(Parts(p, depth, children, TargetRows(t, expanded, p.pid, depth)), depth, n)
  {
    var sessions, targets := Sessions(p, depth), TargetRows(t, expanded, p.pid, depth);
    TargetsAre(t, expanded, p.pid, depth);
    SessionsAre(p, p.sessions, depth);
    assert p.(sessions := p.sessions) == p;
    if n >= |sessions| {
      var l := if m >= |children| then m - |children| else 0;
      TargetRooted(t, expanded, p.pid, depth, l);
      RootedJoin(children, targets, depth, m, l);
    }
    RootedJoin(sessions, children + targets, depth, n, m);
  }

  lemma {:induction false} RowRooted(row: Row, depth: nat, below: seq<Row>, n: nat, m: nat)
    requires row.depth == depth && AtLeast(below, depth + 1) && n == m + 1 && Rooted(below, depth + 1, m)
    ensures Rooted([row] + below, depth, n)
  {
    RootedBelow(row, below, n);
  }

  lemma {:induction false} BlockRooted(
      t: ProcessTree, expanded: set<Key>, p: Process, row: Row, depth: nat, active: Option<nat>, children: seq<Row>,
      n: nat, m: nat)
    requires row.depth == depth && Heads(children, depth + 1, OwnItems(t, p, active)) && n > 0
    requires n > |p.sessions| ==> m == n - 1 - |p.sessions| && Rooted(children, depth + 1, m)
    ensures Rooted(
      [row] + Parts(p, depth + 1, children, TargetRows(t, expanded, p.pid, depth + 1)), depth, n)
  {
    var targets := TargetRows(t, expanded, p.pid, depth + 1);
    var l: nat := n - 1;
    PartsRooted(t, expanded, p, depth + 1, children, l, m);
    TargetsAre(t, expanded, p.pid, depth + 1);
    PartsDeep(t, p, depth + 1, children, targets);
    RowRooted(row, depth, Parts(p, depth + 1, children, targets), n, l);
  }

  lemma {:induction false} VisitRooted(
      t: ProcessTree, expanded: set<Key>, p: Process, depth: nat, active: Option<nat>, visited: set<nat>, n: nat)
    requires p in t.processes && visited <= Pids(t.processes)
    ensures Rooted(Visit(t, expanded, p, depth, active, visited).rows, depth, n)
    decreases Pids(t.processes) - visited, 0, 0
  {
    if p.pid !in visited && ProcessKey(t.rootPid, p.pid) in expanded && n > 0 {
      var items, own := ItemsOf(t, p.pid, active), visited + {p.pid};
      var children := VisitItems(t, expanded, p.pid, items, depth + 1, active, own).rows;
      var m := if n > |p.sessions| then n - 1 - |p.sessions| else 0;
      VisitItemsRooted(t, expanded, p.pid, items, depth + 1, active, own, m);
      VisitItemsHeads(t, expanded, p.pid, items, depth + 1, active, own);
      VisitIsBlock(t, expanded, p, depth, active, visited, children);
      BlockRooted(t, expanded, p, ProcessRow(t, expanded, p, depth), depth, active, children, n, m);
    }
  }

  lemma {:induction false} VisitAllRooted(
      t: ProcessTree, expanded: set<Key>, todo: seq<Process>, depth: nat, active: Option<nat>, visited: set<nat>,
      n: nat)
    requires AllIn(t, todo) && visited <= Pids(t.processes)
    ensures Rooted(VisitAll(t, expanded, todo, depth, active, visited).rows, depth, n)
    decreases Pids(t.processes) - visited, 1, |todo|
  {
    if todo != [] {
      var first := Visit(t, expanded, todo[0], depth, active, visited);
      var rest := VisitAll(t, expanded, todo[1..], depth, active, first.visited);
      var m := if n < |first.rows| then 0 else n - |first.rows|;
      if n < |first.rows| {
        VisitRooted(t, expanded, todo[0], depth, active, visited, n);
      } else {
        VisitAllRooted(t, expanded, todo[1..], depth, active, first.visited, m);
      }
      VisitDeep(t, expanded, todo[0], depth, active, visited);
      VisitAllHeads(t, expanded, todo[1..], depth, active, first.visited);
      RootedJoin(first.rows, rest.rows, depth, n, m);
    }
  }

  lemma {:induction false} VisitItemRooted(
      t: ProcessTree, expanded: set<Key>, pid: nat, item: Item, depth: nat, active: Option<nat>, visited: set<nat>,
      n: nat)
    requires Fits(t, pid, item) && visited <= Pids(t.processes)
    ensures Rooted(VisitItem(t, expanded, pid, item, depth, active, visited).rows, depth, n)
    decreases Pids(t.processes) - visited, 2, 0
  {
    match item
    case Single(p) => VisitRooted(t, expanded, p, depth, active, visited, n);
    case Window(w, members) =>
      var row := WindowRow(t, expanded, w, members, depth);
      if row.expanded && n > 0 {
        VisitAllDeep(t, expanded, members, depth + 1, Some(w), visited);
        var m: nat := n - 1;
        VisitAllRooted(t, expanded, members, depth + 1, Some(w), visited, m);
        RowRooted(row, depth, VisitAll(t, expanded, members, depth + 1, Some(w), visited).rows, n, m);
      }
  }

  lemma {:induction false} VisitItemsRooted(
      t: ProcessTree, expanded: set<Key>, pid: nat, items: seq<Item>, depth: nat, active: Option<nat>,
      visited: set<nat>, n: nat)
    requires AllFit(t, pid, items) && visited <= Pids(t.processes)
    ensures Rooted(VisitItems(t, expanded, pid, items, depth, active, visited).rows, depth, n)
    decreases Pids(t.processes) - visited, 3, |items|
  {
    if items != [] {
      var first := VisitItem(t, expanded, pid, items[0], depth, active, visited);
      var rest := VisitItems(t, expanded, pid, items[1..], depth, active, first.visited);
      var m := if n < |first.rows| then 0 else n - |first.rows|;
      if n < |first.rows| {
        VisitItemRooted(t, expanded, pid, items[0], depth, active, visited, n);
      } else {
        VisitItemsRooted(t, expanded, pid, items[1..], depth, active, first.visited, m);
      }
      VisitItemDeep(t, expanded, pid, items[0], depth, active, visited);
      VisitItemsHeads(t, expanded, pid, items[1..], depth, active, first.visited);
      RootedJoin(first.rows, rest.rows, depth, n, m);
    }
  }

  lemma {:induction false} VisitRootsRooted(
      t: ProcessTree, expanded: set<Key>, roots: seq<Process>, visited: set<nat>, n: nat)
    requires AllIn(t, roots) && visited <= Pids(t.processes)
    ensures Rooted(VisitRoots(t, expanded, roots, visited).rows, 1, n)
    decreases |roots|
  {
    if roots != [] {
      var first := Visit(t, expanded, roots[0], 1, roots[0].window, visited);
      var rest := VisitRoots(t, expanded, roots[1..], first.visited);
      var m := if n < |first.rows| then 0 else n - |first.rows|;
      if n < |first.rows| {
        VisitRooted(t, expanded, roots[0], 1, roots[0].window, visited, n);
      } else {
        VisitRootsRooted(t, expanded, roots[1..], first.visited, m);
      }
      VisitDeep(t, expanded, roots[0], 1, roots[0].window, visited);
      VisitRootsHeads(t, expanded, roots[1..], first.visited);
      RootedJoin(first.rows, rest.rows, 1, n, m);
    }
  }

  lemma {:induction false} TopRooted(row: Row, below: seq<Row>, n: nat, m: nat)
    requires row.depth == 0 && AtLeast(below, 1) && n == m + 1 && Rooted(below, 1, m)
    ensures Rooted([row] + below, 0, n)
  {
    RootedBelow(row, below, n);
  }

  lemma {:induction false} TreeRooted(t: ProcessTree, expanded: set<Key>, n: nat)
    ensures Rooted(TreeRows(t, expanded), 0, n)
  {
    var key := ProcessTreeKey(t.rootPid);
    if key in expanded && n > 0 {
      VisitRootsHeads(t, expanded, Roots(t), {});
      var m: nat := n - 1;
      var below := VisitRoots(t, expanded, Roots(t), {}).rows;
      VisitRootsRooted(t, expanded, Roots(t), {}, m);
      TopRooted(Row(key, 0, t.processes != [], true), below, n, m);
    }
  }
}
