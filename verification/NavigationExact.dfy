/** Where the keys for left, right and space lead: told by the rows, their paths, and what is remembered. */
module NavigationExact {
  import opened Common
  import opened Outline
  import opened AppModel

  // ---- the memory of visited children

  /** The last edge of the path that leaves this node. */
  ghost predicate LastEdge(path: seq<Key>, k: Key, i: nat) {
    i + 1 < |path| && path[i] == k && forall j | i < j < |path| - 1 :: path[j] != k
  }

  ghost predicate Leaves(path: seq<Key>, k: Key) {
    exists i :: LastEdge(path, k, i)
  }

  /** Every node on the way remembers where the way went on; the others remember what they did. */
  ghost predicate Wrote(was: map<Key, Key>, now: map<Key, Key>, path: seq<Key>) {
    && (forall k :: k in now <==> k in was || Leaves(path, k))
    && (forall k, i | LastEdge(path, k, i) && k in now :: now[k] == path[i + 1])
    && (forall k | k in was && k in now && !Leaves(path, k) :: now[k] == was[k])
  }

  lemma {:induction false} EdgeInRest(path: seq<Key>, k: Key, i: nat)
    requires path != []
    ensures LastEdge(path, k, i + 1) <==> LastEdge(path[1..], k, i)
  {
    if LastEdge(path[1..], k, i) {
      forall j | i + 1 < j < |path| - 1 ensures path[j] != k { assert path[j] == path[1..][j - 1]; }
    }
    if LastEdge(path, k, i + 1) {
      forall j | i < j < |path[1..]| - 1 ensures path[1..][j] != k { assert path[1..][j] == path[j + 1]; }
    }
  }

  lemma {:induction false} FirstEdge(path: seq<Key>, k: Key)
    requires |path| >= 2
    ensures LastEdge(path, k, 0) <==> path[0] == k && !Leaves(path[1..], k)
    ensures Leaves(path, k) <==> path[0] == k || Leaves(path[1..], k)
  {
    forall i: nat ensures LastEdge(path, k, i + 1) <==> LastEdge(path[1..], k, i) { EdgeInRest(path, k, i); }
    if path[0] == k && !LastEdge(path, k, 0) {
      var j :| 0 < j < |path| - 1 && path[j] == k;
      var i := LaterEdge(path, k, j);
    }
    if i: nat :| LastEdge(path, k, i) {
      if i > 0 { assert LastEdge(path[1..], k, i - 1); }
    }
    if i: nat :| LastEdge(path[1..], k, i) { assert LastEdge(path, k, i + 1); }
  }

  /** Some edge from `k` is the last one. */
  lemma {:induction false} LaterEdge(path: seq<Key>, k: Key, j: nat) returns (i: nat)
    requires j + 1 < |path| && path[j] == k
    ensures i >= j && LastEdge(path, k, i)
    decreases |path| - j
  {
    if m :| j < m < |path| - 1 && path[m] == k {
      i := LaterEdge(path, k, m);
    } else {
      i := j;
    }
  }

  lemma {:induction false} LinkedWrites(m: map<Key, Key>, path: seq<Key>)
    ensures Wrote(m, Linked(m, path), path)
    decreases |path|
  {
    if |path| >= 2 {
      var next := m[path[0] := path[1]];
      LinkedWrites(next, path[1..]);
      forall k ensures (LastEdge(path, k, 0) <==> path[0] == k && !Leaves(path[1..], k))
        && (Leaves(path, k) <==> path[0] == k || Leaves(path[1..], k)) {
        FirstEdge(path, k);
      }
      forall k, i: nat | LastEdge(path, k, i) && k in Linked(m, path) ensures Linked(m, path)[k] == path[i + 1] {
        if i > 0 {
          EdgeInRest(path, k, i - 1);
          assert path[1..][i] == path[i + 1];
        }
      }
    }
  }

  /** The way to the focus of the shown tab. */
  function WayTo(e: Env, a: App): seq<Key> {
    var f := a.focus.Get(a.tab);
    if f.row.None? then [] else [SectionKey(f.section)] + NodePath(Rows(e, a, f.section), f.row.value)
  }

  lemma {:induction false} RememberedWrites(e: Env, a: App)
    ensures var b := Remembered(e, a, a.tab);
      b == a.(lastVisited := b.lastVisited) && Wrote(a.lastVisited, b.lastVisited, WayTo(e, a))
  {
    LinkedWrites(a.lastVisited, WayTo(e, a));
  }

  // ---- left

  /** The first row with this key, if there is one. */
  ghost predicate FirstRow(rows: seq<Row>, key: Key, r: Option<nat>) {
    match r
    case Some(i) => i < |rows| && rows[i].key == key && forall j | 0 <= j < i :: rows[j].key != key
    case None => forall j | 0 <= j < |rows| :: rows[j].key != key
  }

  lemma {:induction false} FirstWithKeyExact(rows: seq<Row>, key: Key, from: nat)
    requires from <= |rows| && forall j | 0 <= j < from :: rows[j].key != key
    ensures FirstRow(rows, key, FirstWithKey(rows, key, from))
    decreases |rows| - from
  {
    if from < |rows| && rows[from].key != key { FirstWithKeyExact(rows, key, from + 1); }
  }

  ghost predicate RebuiltRows(a: App, b: App, s: Section) {
    b.sourceRows == if s == Sources then Rebuilt(b).sourceRows else a.sourceRows
  }

  /** From row `i` of `s`, the node above it closes and gets the focus, or the section itself; it remembers the
      row that was left. */
  ghost predicate WentOut(e: Env, a: App, b: App, s: Section, i: nat)
    requires i < |Rows(e, a, s)|
  {
    var rows := Rows(e, a, s);
    var path := NodePath(rows, i);
    var parent := if |path| < 2 then SectionKey(s) else path[|path| - 2];
    var row := b.focus.Get(a.tab).row;
    && b == a.(expanded := b.expanded, collapsed := b.collapsed, sourceRows := b.sourceRows,
               focus := a.focus.Set(a.tab, Focus(s, row)), lastVisited := b.lastVisited)
    && (if |path| < 2 then b.collapsed == a.collapsed + {s} && b.expanded == a.expanded && row.None?
        else b.collapsed == a.collapsed && b.expanded == a.expanded - {parent} && FirstRow(rows, parent, row))
    && RebuiltRows(a, b, s)
    && Wrote(a.lastVisited[parent := rows[i].key], b.lastVisited, WayTo(e, b))
  }

  lemma {:induction false} LeftExact(e: Env, a: App)
    ensures var b, f := NavigateLeft(e, a), a.focus.Get(a.tab);
      if a.documentFocused || f.row.None? || f.row.value >= |Rows(e, a, f.section)| then b == a
      else WentOut(e, a, b, f.section, f.row.value)
  {
    var f := a.focus.Get(a.tab);
    if !a.documentFocused && f.row.Some? && f.row.value < |Rows(e, a, f.section)| {
      var rows, i := Rows(e, a, f.section), f.row.value;
      var path := NodePath(rows, i);
      var parent := ParentKey(f.section, path);
      var row := if |path| >= 2 then FirstWithKey(rows, parent, 0) else None;
      FirstWithKeyExact(rows, parent, 0);
      RememberedWrites(e,
        Focused(Closed(a, f.section, path).(lastVisited := a.lastVisited[parent := rows[i].key]),
                Focus(f.section, row)));
    }
  }

  // ---- right

  /** Row `i` stands right below the node with this path. */
  predicate StandsBelow(rows: seq<Row>, ids: seq<Key>, i: nat) {
    i < |rows| && NodePath(rows, i) != [] && NodePath(rows, i)[..|NodePath(rows, i)| - 1] == ids
  }

  /** None of the first `n` rows stands right below and has the wanted key. */
  ghost predicate NoneBelow(rows: seq<Row>, ids: seq<Key>, wanted: Option<Key>, n: nat) {
    forall j | 0 <= j < n && StandsBelow(rows, ids, j) :: wanted.Some? && rows[j].key != wanted.value
  }

  /** The first row right below, or the first one with the wanted key. */
  ghost predicate FirstBelow(rows: seq<Row>, ids: seq<Key>, wanted: Option<Key>, i: nat) {
    && StandsBelow(rows, ids, i) && (wanted.Some? ==> rows[i].key == wanted.value)
    && NoneBelow(rows, ids, wanted, i)
  }

  /** The child that is remembered, or the first one when that one is gone or none is. */
  ghost predicate ChildToEnter(rows: seq<Row>, ids: seq<Key>, remembered: Option<Key>, r: Option<nat>) {
    if remembered.None? || NoneBelow(rows, ids, remembered, |rows|) then
      if r.Some? then FirstBelow(rows, ids, None, r.value) else NoneBelow(rows, ids, None, |rows|)
    else r.Some? && FirstBelow(rows, ids, remembered, r.value)
  }

  lemma ChildIsBelow(rows: seq<Row>, ids: seq<Key>, i: nat)
    ensures IsChild(rows, ids, i) <==> StandsBelow(rows, ids, i)
  {
    if i < |rows| && NodePath(rows, i) != [] {
      var p := NodePath(rows, i);
      assert IsChild(rows, ids, i) ==> p[..|p| - 1] == ids;
    }
  }

  lemma {:induction false} FirstChildLeast(rows: seq<Row>, ids: seq<Key>, wanted: Option<Key>, from: nat, j: nat)
    requires var r := FirstChild(rows, ids, wanted, from); from <= j < |rows| && (r.Some? ==> j < r.value)
    ensures IsChild(rows, ids, j) ==> wanted.Some? && rows[j].key != wanted.value
    decreases |rows| - from
  {
    if from < j { FirstChildLeast(rows, ids, wanted, from + 1, j); }
  }

  lemma {:induction false} FirstChildExact(rows: seq<Row>, ids: seq<Key>, wanted: Option<Key>)
    ensures var r := FirstChild(rows, ids, wanted, 0);
      if r.Some? then FirstBelow(rows, ids, wanted, r.value) else NoneBelow(rows, ids, wanted, |rows|)
  {
    var r := FirstChild(rows, ids, wanted, 0);
    var n := if r.Some? then r.value else |rows|;
    forall j | 0 <= j < n && StandsBelow(rows, ids, j) ensures wanted.Some? && rows[j].key != wanted.value {
      ChildIsBelow(rows, ids, j);
      FirstChildLeast(rows, ids, wanted, 0, j);
    }
    ChildIsBelow(rows, ids, n);
  }

  lemma {:induction false} EnteredExact(rows: seq<Row>, ids: seq<Key>, remembered: Option<Key>)
    ensures ChildToEnter(rows, ids, remembered, EnteredChild(rows, ids, remembered))
  {
    FirstChildExact(rows, ids, remembered);
    FirstChildExact(rows, ids, None);
  }

  function Recalled(m: map<Key, Key>, k: Key): Option<Key> {
    if k in m then Some(m[k]) else None
  }

  /** Row `r` of `rows` is the child to enter of the node with this path; it has the focus now. */
  ghost predicate WentInTo(a: App, b: App, s: Section, rows: seq<Row>, ids: seq<Key>, r: Option<nat>) {
    && ChildToEnter(rows, ids, Recalled(a.lastVisited, if ids == [] then SectionKey(s) else ids[|ids| - 1]), r)
    && if r.None? then b.focus == a.focus && b.lastVisited == a.lastVisited
       else
         && b.focus == a.focus.Set(a.tab, Focus(s, r))
         && Wrote(a.lastVisited, b.lastVisited, [SectionKey(s)] + NodePath(rows, r.value))
  }

  /** What is below the node with this path has been entered, among the rows that are shown now. */
  ghost predicate WentIn(e: Env, a: App, b: App, s: Section, ids: seq<Key>) {
    exists r :: WentInTo(a, b, s, Rows(e, b, s), ids, r)
  }

  lemma RowsSame(e: Env, a: App, b: App, s: Section)
    requires b == a.(focus := b.focus, lastVisited := b.lastVisited)
    ensures Rows(e, b, s) == Rows(e, a, s)
  {
  }

  lemma WayToRow(e: Env, a: App, s: Section, i: nat)
    ensures WayTo(e, Focused(a, Focus(s, Some(i)))) == [SectionKey(s)] + NodePath(Rows(e, a, s), i)
  {
    RowsSame(e, a, Focused(a, Focus(s, Some(i))), s);
  }

  lemma {:induction false} FocusWrites(e: Env, a: App, s: Section, i: nat)
    ensures var b := Remembered(e, Focused(a, Focus(s, Some(i))), a.tab);
      && b == a.(focus := a.focus.Set(a.tab, Focus(s, Some(i))), lastVisited := b.lastVisited)
      && Wrote(a.lastVisited, b.lastVisited, [SectionKey(s)] + NodePath(Rows(e, a, s), i))
  {
    WayToRow(e, a, s, i);
    RememberedWrites(e, Focused(a, Focus(s, Some(i))));
  }

  lemma {:induction false} EnterExact(e: Env, a: App, s: Section, ids: seq<Key>) returns (r: Option<nat>)
    ensures var b := EnterChild(e, a, s, ids);
      && b == a.(focus := b.focus, lastVisited := b.lastVisited)
      && WentInTo(a, b, s, Rows(e, b, s), ids, r)
  {
    var b, rows := EnterChild(e, a, s, ids), Rows(e, a, s);
    var remembered := Recalled(a.lastVisited, if ids == [] then SectionKey(s) else ids[|ids| - 1]);
    r := EnteredChild(rows, ids, remembered);
    EnteredExact(rows, ids, remembered);
    if r.Some? { FocusWrites(e, a, s, r.value); }
    RowsSame(e, a, b, s);
  }

  /** On a header the section opens and its child is entered; on a row that can be expanded the node does; else
      nothing happens. */
  lemma {:induction false} RightExact(e: Env, a: App)
    ensures var b, f := NavigateRight(e, a), a.focus.Get(a.tab);
      if a.documentFocused then b == a
      else if f.row.None? then
        && b == a.(collapsed := a.collapsed - {f.section}, focus := b.focus, lastVisited := b.lastVisited)
        && WentIn(e, a, b, f.section, [])
      else if f.row.value >= |Rows(e, a, f.section)| || !Rows(e, a, f.section)[f.row.value].expandable then b == a
      else
        && b == a.(expanded := a.expanded + {Rows(e, a, f.section)[f.row.value].key}, sourceRows := b.sourceRows,
                   focus := b.focus, lastVisited := b.lastVisited)
        && RebuiltRows(a, b, f.section)
        && WentIn(e, a, b, f.section, NodePath(Rows(e, a, f.section), f.row.value))
  {
    var f := a.focus.Get(a.tab);
    if !a.documentFocused {
      if f.row.None? {
        var r := EnterExact(e, a.(collapsed := a.collapsed - {f.section}), f.section, []);
        assert WentInTo(a, NavigateRight(e, a), f.section, Rows(e, NavigateRight(e, a), f.section), [], r);
      } else if f.row.value < |Rows(e, a, f.section)| && Rows(e, a, f.section)[f.row.value].expandable {
        var rows, i := Rows(e, a, f.section), f.row.value;
        var path := NodePath(rows, i);
        var r := EnterExact(e, RebuiltIf(a.(expanded := a.expanded + {rows[i].key}), f.section), f.section, path);
        assert WentInTo(a, NavigateRight(e, a), f.section, Rows(e, NavigateRight(e, a), f.section), path, r);
      }
    }
  }

  // ---- space

  /** Just this element has come or gone. */
  ghost predicate Flipped<T(!new)>(was: set<T>, now: set<T>, x: T) {
    forall y :: y in now <==> (y in was) != (y == x)
  }

  /** On a header the section opens or closes; on a row that can be expanded its node does, and the focus stays on
      the row of that number, or goes to the last one when there are fewer. */
  lemma {:induction false} ToggleExact(e: Env, a: App)
    ensures var b, f := ToggleExpanded(e, a), a.focus.Get(a.tab);
      if a.documentFocused then b == a
      else if f.row.None? then b == a.(collapsed := b.collapsed) && Flipped(a.collapsed, b.collapsed, f.section)
      else if f.row.value >= |Rows(e, a, f.section)| || !Rows(e, a, f.section)[f.row.value].expandable then b == a
      else
        var n := |Rows(e, b, f.section)|;
        && b == a.(expanded := b.expanded, sourceRows := b.sourceRows, focus := b.focus)
        && Flipped(a.expanded, b.expanded, Rows(e, a, f.section)[f.row.value].key) && RebuiltRows(a, b, f.section)
        && b.focus == a.focus.Set(a.tab, Focus(f.section,
             if f.section in a.collapsed || n == 0 then None
             else if f.row.value < n then f.row else Some(n - 1)))
  {
  }

  // ---- tabs and viewports

  /** The tab is shown without a focused document; its focus stays on its row, or goes to the last one there is,
      or to the header. The runtime tab keeps no details of targets. */
  lemma {:induction false} TabExact(e: Env, a: App, tab: Tab)
    ensures var b, f := SetTab(e, a, tab), a.focus.Get(tab);
      var n := |Rows(e, b, f.section)|;
      && b == a.(tab := tab, documentFocused := false, focus := b.focus,
                 details := if tab == Runtime then map[] else a.details)
      && b.focus == a.focus.Set(tab, Focus(f.section,
           if f.row.None? || f.section in a.collapsed || n == 0 then None
           else if f.row.value < n then f.row else Some(n - 1)))
  {
  }

  /** A section is visible if its last viewport had a height; one without takes the focus of both tabs back to its
      header. */
  lemma {:induction false} ViewportExact(a: App, s: Section, height: nat)
    ensures var b := SetViewport(a, s, height);
      && b == a.(visible := b.visible, focus := b.focus)
      && (forall t :: t in b.visible <==> if t == s then height > 0 else t in a.visible)
      && forall tab: Tab :: b.focus.Get(tab) ==
           (if height == 0 && a.focus.Get(tab).section == s then Focus(s, None) else a.focus.Get(tab))
  {
  }
}
