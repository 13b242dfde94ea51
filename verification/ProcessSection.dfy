/** The whole Processes section: the trees one after the other, and every row where it belongs. */
module ProcessSection {
  import opened Common
  import opened Outline
  import opened ProcessOutline
  import opened ProcessPlaces
  import opened ProcessReach
  import opened ProcessSiblings
  import opened ProcessWindows
  import opened Siblings
  import Paths = ProcessPaths

  /** The number of rows of the first `k` trees. */
  function Offset(trees: seq<ProcessTree>, expanded: set<Key>, k: nat): nat
    requires k <= |trees|
  {
    if k == 0 then 0 else |TreeRows(trees[0], expanded)| + Offset(trees[1..], expanded, k - 1)
  }

  lemma {:induction false} OffsetStep(trees: seq<ProcessTree>, expanded: set<Key>, k: nat)
    requires k < |trees|
    ensures Offset(trees, expanded, k + 1) == Offset(trees, expanded, k) + |TreeRows(trees[k], expanded)|
    ensures Offset(trees, expanded, k + 1) <= |ProcessRows(trees, expanded)|
    ensures ProcessRows(trees, expanded)[Offset(trees, expanded, k)..Offset(trees, expanded, k + 1)]
      == TreeRows(trees[k], expanded)
  {
    var first, rest := TreeRows(trees[0], expanded), ProcessRows(trees[1..], expanded);
    if k == 0 {
      assert Offset(trees[1..], expanded, 0) == 0;
      assert (first + rest)[0..|first|] == first;
    } else {
      var l: nat := k - 1;
      OffsetStep(trees[1..], expanded, l);
      SliceBehind(first, rest, Offset(trees[1..], expanded, l), Offset(trees[1..], expanded, k),
        Offset(trees, expanded, k), Offset(trees, expanded, k + 1));
    }
  }

  lemma {:induction false} SliceBehind(first: seq<Row>, rest: seq<Row>, a: nat, b: nat, c: nat, d: nat)
    requires a <= b <= |rest| && c == |first| + a && d == |first| + b
    ensures (first + rest)[c..d] == rest[a..b]
  {
  }

  lemma {:induction false} OffsetEnd(trees: seq<ProcessTree>, expanded: set<Key>)
    ensures Offset(trees, expanded, |trees|) == |ProcessRows(trees, expanded)|
  {
    if trees != [] { OffsetEnd(trees[1..], expanded); }
  }

  /** The rows of the trees follow each other without a gap, start with the first and end with the last; each
      begins with the row of its tree, which alone is at the top. */
  lemma {:induction false} TreesInOrder(trees: seq<ProcessTree>, expanded: set<Key>, k: nat)
    requires k < |trees|
    ensures var rows, a, b :=
        ProcessRows(trees, expanded), Offset(trees, expanded, k), Offset(trees, expanded, k + 1);
      && Offset(trees, expanded, 0) == 0 && Offset(trees, expanded, |trees|) == |rows|
      && a < b <= |rows| && rows[a..b] == TreeRows(trees[k], expanded)
      && rows[a] == Row(ProcessTreeKey(trees[k].rootPid), 0, trees[k].processes != [],
                        ProcessTreeKey(trees[k].rootPid) in expanded)
      && forall n | a < n < b :: rows[n].depth > 0
  {
    var rows, a, b := ProcessRows(trees, expanded), Offset(trees, expanded, k), Offset(trees, expanded, k + 1);
    OffsetStep(trees, expanded, k);
    OffsetEnd(trees, expanded);
    TreeInside(trees[k], expanded, rows, a, b);
  }

  lemma {:induction false} TreeInside(t: ProcessTree, expanded: set<Key>, rows: seq<Row>, a: nat, b: nat)
    requires a < b <= |rows| && rows[a..b] == TreeRows(t, expanded)
    ensures rows[a] == Row(ProcessTreeKey(t.rootPid), 0, t.processes != [], ProcessTreeKey(t.rootPid) in expanded)
    ensures forall n | a < n < b :: rows[n].depth > 0
  {
    assert rows[a] == rows[a..b][0];
    forall n | a < n < b ensures rows[n].depth > 0 {
      var m: nat := n - a;
      assert rows[n] == rows[a..b][m];
      BelowTop(t, expanded, m);
    }
  }

  lemma {:induction false} BelowTop(t: ProcessTree, expanded: set<Key>, n: nat)
    requires 0 < n < |TreeRows(t, expanded)|
    ensures TreeRows(t, expanded)[n].depth > 0
  {
    VisitRootsHeads(t, expanded, Roots(t), {});
    AtLeastAt(VisitRoots(t, expanded, Roots(t), {}).rows, 1, n - 1);
  }

  lemma {:induction false} StartsAtTop(trees: seq<ProcessTree>, expanded: set<Key>)
    ensures var rows := ProcessRows(trees, expanded); rows != [] ==> rows[0].depth == 0
  {
  }

  lemma {:induction false} AnyAtLeastTop(rows: seq<Row>)
    ensures AtLeast(rows, 0)
    decreases |rows|
  {
    if rows != [] { AnyAtLeastTop(rows[..|rows| - 1]); }
  }

  /** Each row of tree `k` is what it should be, and so is what hangs from it and the order it hangs in. */
  lemma {:induction false} RowsPlaced(
      trees: seq<ProcessTree>, expanded: set<Key>, k: nat, h: nat, i: nat, j: nat)
    requires k < |trees| && Offset(trees, expanded, k) <= h < Offset(trees, expanded, k + 1) && h < i && h < j
    ensures Placed(trees[k], expanded, ProcessRows(trees, expanded), h, i, j)
  {
    var first, rest := TreeRows(trees[0], expanded), ProcessRows(trees[1..], expanded);
    StartsAtTop(trees[1..], expanded);
    if k == 0 {
      assert Offset(trees, expanded, 1) == |first| + Offset(trees[1..], expanded, 0);
      TreePlaced(trees[0], expanded, h, i, j);
      AnyAtLeastTop(first);
      PlacedBefore(trees[0], expanded, first, rest, 0, h, i, j);
    } else {
      var n, m: nat := |first|, k - 1;
      var a: nat, b: nat, c: nat := h - n, i - n, j - n;
      RowsPlaced(trees[1..], expanded, m, a, b, c);
      PlacedShift(trees[k], expanded, first, rest, a, b, c, h, i, j);
    }
  }

  /** Only the rows of trees stand at the top, every other row hangs from one. */
  lemma {:induction false} RowsRooted(trees: seq<ProcessTree>, expanded: set<Key>, n: nat)
    ensures Rooted(ProcessRows(trees, expanded), 0, n)
  {
    if trees != [] {
      var first, rest := TreeRows(trees[0], expanded), ProcessRows(trees[1..], expanded);
      var m := if n < |first| then 0 else n - |first|;
      if n < |first| { TreeRooted(trees[0], expanded, n); } else { RowsRooted(trees[1..], expanded, m); }
      StartsAtTop(trees[1..], expanded);
      AnyAtLeastTop(first);
      RootedJoin(first, rest, 0, n, m);
    }
  }

  // ---- which processes the section shows

  lemma {:induction false} ShownIffRow(rows: seq<Row>, x: nat)
    ensures x in ShownPids(rows) <==> exists n :: 0 <= n < |rows| && rows[n].key.ProcessKey? && rows[n].key.pid == x
  {
    if rows != [] {
      ShownIffRow(rows[1..], x);
      if n :| 0 <= n < |rows| && rows[n].key.ProcessKey? && rows[n].key.pid == x {
        if n > 0 { assert rows[1..][n - 1] == rows[n]; }
      }
      if n :| 0 <= n < |rows[1..]| && rows[1..][n].key.ProcessKey? && rows[1..][n].key.pid == x {
        assert rows[n + 1] == rows[1..][n];
      }
    }
  }

  /** Two rows of one process would list it twice. */
  lemma {:induction false} ShownTwice(rows: seq<Row>, i: nat, j: nat)
    requires Distinct(ShownPids(rows)) && i < j < |rows| && rows[i].key.ProcessKey? && rows[j].key.ProcessKey?
    ensures rows[i].key.pid != rows[j].key.pid
  {
    var a, b := rows[..j], rows[j..];
    assert rows == a + b;
    ShownConcat(a, b);
    ShownIffRow(a, rows[i].key.pid);
    ShownIffRow(b, rows[j].key.pid);
    assert a[i] == rows[i] && b[0] == rows[j];
    DistinctApart(ShownPids(a), ShownPids(b), rows[i].key.pid, rows[j].key.pid);
  }

  lemma {:induction false} TreeKeys(t: ProcessTree, expanded: set<Key>, k: Key)
    requires k.ProcessKey?
    ensures k in RowKeys(TreeRows(t, expanded))
      <==> k.rootPid == t.rootPid && k.pid in ShownPids(TreeRows(t, expanded))
  {
    var rows := TreeRows(t, expanded);
    forall n | 0 <= n < |rows| && rows[n].key.ProcessKey? ensures rows[n].key.rootPid == t.rootPid {
      TreePlaced(t, expanded, n, n + 1, n + 1);
    }
    ShownIffRow(rows, k.pid);
    assert forall n | 0 <= n < |rows| :: RowKeys(rows)[n] == rows[n].key;
  }

  /** The process is entered in an expanded tree with this root. */
  ghost predicate EnteredIn(t: ProcessTree, expanded: set<Key>, root: nat, x: nat) {
    t.rootPid == root && ProcessTreeKey(root) in expanded && Entered(t, expanded, x)
  }

  lemma {:induction false} TreeShows(t: ProcessTree, expanded: set<Key>, root: nat, x: nat)
    ensures ProcessKey(root, x) in RowKeys(TreeRows(t, expanded)) ==> EnteredIn(t, expanded, root, x)
    ensures PidsDiffer(t) ==>
      (ProcessKey(root, x) in RowKeys(TreeRows(t, expanded)) <==> EnteredIn(t, expanded, root, x))
  {
    TreeKeys(t, expanded, ProcessKey(root, x));
    if ProcessTreeKey(t.rootPid) in expanded {
      ShownExactly(t, expanded, x);
    } else {
      assert TreeRows(t, expanded)[1..] == [];
    }
  }

  /** The section shows a process below a root only if it is entered in some tree with that root, and always
      then when process ids differ in each tree. */
  lemma {:induction false} SectionShows(trees: seq<ProcessTree>, expanded: set<Key>, root: nat, x: nat)
    ensures var keys := RowKeys(ProcessRows(trees, expanded));
      && (ProcessKey(root, x) in keys ==> exists t | t in trees :: EnteredIn(t, expanded, root, x))
      && ((forall t | t in trees :: PidsDiffer(t))
          ==> (ProcessKey(root, x) in keys <==> exists t | t in trees :: EnteredIn(t, expanded, root, x)))
  {
    if trees != [] {
      var first, rest := TreeRows(trees[0], expanded), ProcessRows(trees[1..], expanded);
      assert trees == [trees[0]] + trees[1..];
      RowKeysConcat(first, rest);
      TreeShows(trees[0], expanded, root, x);
      SectionShows(trees[1..], expanded, root, x);
    }
  }

  ghost predicate RootsDiffer(trees: seq<ProcessTree>) {
    forall i, j | 0 <= i < j < |trees| :: trees[i].rootPid != trees[j].rootPid
  }

  /** These are not two rows of one process. */
  predicate Differ(a: Row, b: Row) {
    a.key.ProcessKey? ==> a.key != b.key
  }

  lemma {:induction false} TreeDistinct(t: ProcessTree, expanded: set<Key>, i: nat, j: nat)
    requires i < j < |TreeRows(t, expanded)|
    ensures Differ(TreeRows(t, expanded)[i], TreeRows(t, expanded)[j])
  {
    var rows := TreeRows(t, expanded);
    if ProcessTreeKey(t.rootPid) in expanded && rows[i].key.ProcessKey? && rows[j].key.ProcessKey? {
      Paths.ShownProcesses(t, expanded);
      ShownTwice(rows, i, j);
    }
  }

  lemma {:induction false} LaterRoot(trees: seq<ProcessTree>, expanded: set<Key>, rows: seq<Row>, j: nat)
      returns (k: nat)
    requires rows == ProcessRows(trees, expanded) && j < |rows| && rows[j].key.ProcessKey?
    ensures k < |trees| && trees[k].rootPid == rows[j].key.rootPid
  {
    assert RowKeys(rows)[j] == rows[j].key;
    SectionShows(trees, expanded, rows[j].key.rootPid, rows[j].key.pid);
    var t :| t in trees && t.rootPid == rows[j].key.rootPid;
    k :| 0 <= k < |trees| && trees[k] == t;
  }

  /** A row of the first tree and one of a later tree. */
  lemma {:induction false} TreesApart(
      trees: seq<ProcessTree>, expanded: set<Key>, first: seq<Row>, rest: seq<Row>, i: nat, j: nat)
    requires trees != [] && RootsDiffer(trees) && i < |first| && j < |rest|
    requires first == TreeRows(trees[0], expanded) && rest == ProcessRows(trees[1..], expanded)
    ensures Differ(first[i], rest[j])
  {
    if first[i].key.ProcessKey? && rest[j].key.ProcessKey? {
      assert RowKeys(first)[i] == first[i].key;
      TreeKeys(trees[0], expanded, first[i].key);
      var k := LaterRoot(trees[1..], expanded, rest, j);
      assert trees[k + 1] == trees[1..][k];
    }
  }

  /** When the roots differ, no process has two rows in the section. */
  lemma {:induction false} SectionDistinct(
      trees: seq<ProcessTree>, expanded: set<Key>, rows: seq<Row>, i: nat, j: nat)
    requires RootsDiffer(trees) && rows == ProcessRows(trees, expanded) && i < j < |rows|
    ensures Differ(rows[i], rows[j])
    decreases trees
  {
    var first, rest := TreeRows(trees[0], expanded), ProcessRows(trees[1..], expanded);
    var n := |first|;
    assert rows == first + rest;
    if j < n {
      assert rows[i] == first[i] && rows[j] == first[j];
      TreeDistinct(trees[0], expanded, i, j);
    } else {
      var k, l := if i < n then 0 else i - n, j - n;
      assert rows[j] == rest[l];
      if i < n {
        assert rows[i] == first[i];
        TreesApart(trees, expanded, first, rest, i, l);
      } else {
        assert rows[i] == rest[k];
        SectionDistinct(trees[1..], expanded, rest, k, l);
      }
    }
  }
}
