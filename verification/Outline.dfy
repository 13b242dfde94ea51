/** The flat, depth-annotated rows of the sidebar, and the path of node ids that identifies a row. */
module Outline {
  import opened Common

  datatype Section =
    | Contexts | Processes | Connections | Targets
    | Attention | Sources | Breakpoints | Captures | CallStacks

  function SectionIndex(section: Section): (i: nat)
    ensures i < 9
  {
    match section
    case Contexts => 0
    case Processes => 1
    case Connections => 2
    case Targets => 3
    case Sources => 4
    case Breakpoints => 5
    case Captures => 6
    case CallStacks => 7
    case Attention => 8
  }

  datatype SourceKind = Loaded | SourceMapped | Formatted | Resolved

  /** Row keys. The program formats these as strings; see `KeyText` for the text of each. */
  datatype Key =
    | SectionKey(section: Section)
    | ContextKey(contextId: string)
    | ProcessTreeKey(rootPid: nat)
    | ProcessKey(rootPid: nat, pid: nat)
    | WindowKey(rootPid: nat, windowId: nat)
    | AgentSessionKey(pid: nat, sessionId: string)
    | ResourceKey(resourceId: string)
    | ProcessTargetKey(rootPid: nat, targetId: string)
    | TargetGroupKey(group: string)
    | BreakpointKey(breakpointId: string)
    | FolderKey(kind: SourceKind, path: seq<string>)
    | SourceKey(uri: string)
    | OtherKey(tag: string, rest: string)

  datatype Row = Row(key: Key, depth: nat, expandable: bool, expanded: bool)

  /** The keys met when climbing from just above row `n` to ever smaller depths, outermost first. */
  function Climb(rows: seq<Row>, n: nat, depth: nat): (path: seq<Key>)
    requires n <= |rows|
    ensures |path| <= depth
  {
    if n == 0 || depth == 0 then []
    else if rows[n - 1].depth < depth then Climb(rows, n - 1, rows[n - 1].depth) + [rows[n - 1].key]
    else Climb(rows, n - 1, depth)
  }

  function NodePath(rows: seq<Row>, index: nat): seq<Key> {
    if index >= |rows| then [] else Climb(rows, index, rows[index].depth) + [rows[index].key]
  }

  /** The loop of `row_node_id_path`, which collects the path innermost first and reverses it. */
  method RowNodeIdPath(rows: seq<Row>, index: nat) returns (path: seq<Key>)
    ensures path == NodePath(rows, index)
  {
    if index >= |rows| { return []; }
    path := [rows[index].key];
    var childDepth := rows[index].depth;
    var n: nat := index;
    while n > 0
      invariant n <= index
      invariant Climb(rows, n, childDepth) + path == NodePath(rows, index)
    {
      n := n - 1;
      if rows[n].depth < childDepth {
        assert Climb(rows, n + 1, childDepth) == Climb(rows, n, rows[n].depth) + [rows[n].key];
        assert Climb(rows, n, rows[n].depth) + ([rows[n].key] + path) == Climb(rows, n + 1, childDepth) + path;
        path := [rows[n].key] + path;
        childDepth := rows[n].depth;
      }
      if childDepth == 0 { break; }
    }
  }

  lemma {:induction false} ClimbLocal(a: seq<Row>, b: seq<Row>, n: nat, depth: nat)
    requires n <= |a| && n <= |b| && a[..n] == b[..n]
    ensures Climb(a, n, depth) == Climb(b, n, depth)
  {
    if n > 0 && depth > 0 {
      assert a[n - 1] == a[..n][n - 1] && b[n - 1] == b[..n][n - 1];
      assert a[..n - 1] == a[..n][..n - 1] && b[..n - 1] == b[..n][..n - 1];
      ClimbLocal(a, b, n - 1, if a[n - 1].depth < depth then a[n - 1].depth else depth);
    }
  }

  lemma {:induction false} NodePathLocal(a: seq<Row>, b: seq<Row>, index: nat)
    requires index < |a| && index < |b| && a[..index] == b[..index]
    requires a[index].key == b[index].key && a[index].depth == b[index].depth
    ensures NodePath(a, index) == NodePath(b, index)
  {
    ClimbLocal(a, b, index, a[index].depth);
  }

  ghost predicate AtLeast(rows: seq<Row>, depth: nat) {
    rows != [] ==> rows[|rows| - 1].depth >= depth && AtLeast(rows[..|rows| - 1], depth)
  }

  lemma {:induction false} AtLeastJoin(a: seq<Row>, b: seq<Row>, depth: nat)
    requires AtLeast(a, depth) && AtLeast(b, depth)
    ensures AtLeast(a + b, depth)
    decreases |b|
  {
    if b == [] {
      assert a + b == a;
    } else {
      assert (a + b)[..|a + b| - 1] == a + b[..|b| - 1];
      AtLeastJoin(a, b[..|b| - 1], depth);
    }
  }

  lemma {:induction false} AtLeastOne(row: Row, depth: nat)
    requires row.depth >= depth
    ensures AtLeast([row], depth)
  {
    assert [row][..0] == [];
  }

  lemma {:induction false} AtLeastLess(rows: seq<Row>, depth: nat, less: nat)
    requires AtLeast(rows, depth) && less <= depth
    ensures AtLeast(rows, less)
    decreases |rows|
  {
    if rows != [] { AtLeastLess(rows[..|rows| - 1], depth, less); }
  }

  lemma {:induction false} AtLeastUnder(row: Row, below: seq<Row>)
    requires AtLeast(below, row.depth + 1)
    ensures AtLeast([row] + below, row.depth)
  {
    AtLeastOne(row, row.depth);
    AtLeastLess(below, row.depth + 1, row.depth);
    AtLeastJoin([row], below, row.depth);
  }

  /** Rows at least as deep as `depth` are climbed over. */
  lemma {:induction false} ClimbOver(before: seq<Row>, block: seq<Row>, depth: nat)
    requires AtLeast(block, depth)
    ensures Climb(before + block, |before + block|, depth) == Climb(before, |before|, depth)
    decreases |block|
  {
    if block == [] {
      assert before + block == before;
    } else {
      var front := block[..|block| - 1];
      assert before + block == (before + front) + [block[|block| - 1]];
      ClimbLocal(before + block, before + front, |before + front|, depth);
      ClimbOver(before, front, depth);
    }
  }

  /** A row placed right under the open row of the level above. */
  lemma {:induction false} ClimbStep(before: seq<Row>, row: Row)
    ensures NodePath(before + [row], |before|) == Climb(before, |before|, row.depth) + [row.key]
    ensures Climb(before + [row], |before| + 1, row.depth + 1) == Climb(before, |before|, row.depth) + [row.key]
  {
    assert (before + [row])[..|before|] == before[..|before|];
    ClimbLocal(before + [row], before, |before|, row.depth);
  }

  ghost function RowKeys(rows: seq<Row>): seq<Key> {
    seq(|rows|, i requires 0 <= i < |rows| => rows[i].key)
  }

  lemma {:induction false} RowKeysConcat(a: seq<Row>, b: seq<Row>)
    ensures RowKeys(a + b) == RowKeys(a) + RowKeys(b)
  {
  }

  lemma {:induction false} RowKeysJoin(a: seq<Row>, b: seq<Row>)
    requires Distinct(RowKeys(a)) && Distinct(RowKeys(b))
    requires forall k | k in RowKeys(a) :: k !in RowKeys(b)
    ensures Distinct(RowKeys(a + b))
    ensures forall k :: k in RowKeys(a + b) <==> k in RowKeys(a) || k in RowKeys(b)
  {
    RowKeysConcat(a, b);
    DistinctConcat(RowKeys(a), RowKeys(b));
  }
}
