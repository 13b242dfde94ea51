/** What a node walk lists: exactly the reachable nodes, each once; and its indentation spells out real
    walks of the graph. */
module NodeReach {
  import opened Common
  import opened Outline
  import opened NodeWalk

  // ---- walks of the graph

  /** Each node but the last is expanded and the next one is its child. */
  ghost predicate Steps(f: Forest, expanded: set<Key>, p: seq<string>) {
    forall i | 0 <= i < |p| - 1 :: KeyOf(f.kind, p[i]) in expanded && p[i + 1] in f.children(p[i])
  }

  ghost predicate Reachable(f: Forest, expanded: set<Key>, from: seq<string>, x: string) {
    exists p :: Reaches(f, expanded, from, x, p)
  }

  ghost predicate Reaches(f: Forest, expanded: set<Key>, from: seq<string>, x: string, p: seq<string>) {
    p != [] && p[0] in from && p[|p| - 1] == x && Steps(f, expanded, p)
  }

  ghost function KeysOf(f: Forest, p: seq<string>): seq<Key> {
    seq(|p|, i requires 0 <= i < |p| => KeyOf(f.kind, p[i]))
  }

  /** `path` continues `base` with a walk that starts at one of `from`. */
  ghost predicate Continues(f: Forest, expanded: set<Key>, from: seq<string>, base: seq<Key>, path: seq<Key>) {
    exists p :: p != [] && p[0] in from && Steps(f, expanded, p) && path == base + KeysOf(f, p)
  }

  lemma {:induction false} ContinuesFromChild(
    f: Forest, expanded: set<Key>, id: string, base: seq<Key>, path: seq<Key>)
    requires KeyOf(f.kind, id) in expanded
    requires Continues(f, expanded, f.children(id), base + [KeyOf(f.kind, id)], path)
    ensures Continues(f, expanded, [id], base, path)
  {
    var p :| p != [] && p[0] in f.children(id) && Steps(f, expanded, p)
      && path == base + [KeyOf(f.kind, id)] + KeysOf(f, p);
    StepsCons(f, expanded, id, p);
    assert path == base + KeysOf(f, [id] + p);
  }

  lemma {:induction false} StepsCons(f: Forest, expanded: set<Key>, id: string, p: seq<string>)
    requires KeyOf(f.kind, id) in expanded && p != [] && p[0] in f.children(id) && Steps(f, expanded, p)
    ensures Steps(f, expanded, [id] + p) && KeysOf(f, [id] + p) == [KeyOf(f.kind, id)] + KeysOf(f, p)
  {
    var q := [id] + p;
    forall i | 0 <= i < |q| - 1 ensures KeyOf(f.kind, q[i]) in expanded && q[i + 1] in f.children(q[i]) {
      if i > 0 { assert q[i] == p[i - 1] && q[i + 1] == p[i - 1 + 1]; }
    }
  }

  // ---- indentation

  /** In `before + block`, the path of every row of `block` continues `base` with a walk. */
  ghost predicate PathsContinue(
    f: Forest, expanded: set<Key>, from: seq<string>, base: seq<Key>, before: seq<Row>, block: seq<Row>)
    decreases |block|
  {
    block != [] ==>
      && Continues(f, expanded, from, base, NodePath(before + block, |before + block| - 1))
      && PathsContinue(f, expanded, from, base, before, block[..|block| - 1])
  }

  lemma {:induction false} PathsJoin(
    f: Forest, expanded: set<Key>, from: seq<string>, base: seq<Key>,
    before: seq<Row>, a: seq<Row>, b: seq<Row>)
    requires PathsContinue(f, expanded, from, base, before, a)
    requires PathsContinue(f, expanded, from, base, before + a, b)
    ensures PathsContinue(f, expanded, from, base, before, a + b)
    decreases |b|
  {
    if b == [] {
      assert a + b == a;
    } else {
      Assoc(before, a, b);
      assert (a + b)[..|a + b| - 1] == a + b[..|b| - 1];
      PathsJoin(f, expanded, from, base, before, a, b[..|b| - 1]);
    }
  }

  lemma {:induction false} PathsFromMore(
    f: Forest, expanded: set<Key>, from: seq<string>, more: seq<string>, base: seq<Key>,
    before: seq<Row>, block: seq<Row>)
    requires PathsContinue(f, expanded, from, base, before, block)
    requires forall x | x in from :: x in more
    ensures PathsContinue(f, expanded, more, base, before, block)
    decreases |block|
  {
    if block != [] { PathsFromMore(f, expanded, from, more, base, before, block[..|block| - 1]); }
  }

  lemma {:induction false} PathsUnder(
    f: Forest, expanded: set<Key>, id: string, base: seq<Key>, before: seq<Row>, below: seq<Row>)
    requires KeyOf(f.kind, id) in expanded
    requires PathsContinue(f, expanded, f.children(id), base + [KeyOf(f.kind, id)], before, below)
    ensures PathsContinue(f, expanded, [id], base, before, below)
    decreases |below|
  {
    if below != [] {
      ContinuesFromChild(f, expanded, id, base, NodePath(before + below, |before + below| - 1));
      PathsUnder(f, expanded, id, base, before, below[..|below| - 1]);
    }
  }

  lemma {:induction false} PathAt(
    f: Forest, expanded: set<Key>, from: seq<string>, base: seq<Key>, block: seq<Row>, n: nat)
    requires PathsContinue(f, expanded, from, base, [], block) && n < |block|
    ensures Continues(f, expanded, from, base, NodePath(block, n))
    decreases |block|
  {
    assert [] + block == block;
    if n < |block| - 1 {
      var front := block[..|block| - 1];
      assert front[..n] == block[..n];
      NodePathLocal(block, front, n);
      PathAt(f, expanded, from, base, front, n);
    }
  }

  lemma {:induction false} VisitDeep(
    f: Forest, expanded: set<Key>, id: string, depth: nat, visited: set<string>)
    requires Fits(f) && id in f.ids && visited <= f.ids
    ensures AtLeast(Visit(f, expanded, id, depth, visited).rows, depth)
    decreases f.ids - visited, 0
  {
    if id !in visited {
      var children := f.children(id);
      var row := Row(KeyOf(f.kind, id), depth, children != [], KeyOf(f.kind, id) in expanded);
      if row.expanded {
        VisitAllDeep(f, expanded, children, depth + 1, visited + {id});
        AtLeastUnder(row, VisitAll(f, expanded, children, depth + 1, visited + {id}).rows);
      } else {
        AtLeastOne(row, depth);
      }
    }
  }

  lemma {:induction false} VisitAllDeep(
    f: Forest, expanded: set<Key>, todo: seq<string>, depth: nat, visited: set<string>)
    requires Fits(f) && (forall x | x in todo :: x in f.ids) && visited <= f.ids
    ensures AtLeast(VisitAll(f, expanded, todo, depth, visited).rows, depth)
    decreases f.ids - visited, |todo|
  {
    if todo != [] {
      var first := Visit(f, expanded, todo[0], depth, visited);
      VisitDeep(f, expanded, todo[0], depth, visited);
      VisitAllDeep(f, expanded, todo[1..], depth, first.visited);
      AtLeastJoin(first.rows, VisitAll(f, expanded, todo[1..], depth, first.visited).rows, depth);
    }
  }

  lemma {:induction false} FirstRow(f: Forest, expanded: set<Key>, id: string, row: Row, before: seq<Row>)
    requires row.key == KeyOf(f.kind, id)
    ensures PathsContinue(f, expanded, [id], Climb(before, |before|, row.depth), before, [row])
  {
    ClimbStep(before, row);
    var p := [id];
    assert KeysOf(f, p) == [row.key] && Steps(f, expanded, p);
  }

  lemma {:induction false} NodePaths(
    f: Forest, expanded: set<Key>, id: string, row: Row, before: seq<Row>, below: seq<Row>)
    requires row.key == KeyOf(f.kind, id) && row.key in expanded
    requires PathsContinue(f, expanded, f.children(id),
      Climb(before, |before|, row.depth) + [row.key], before + [row], below)
    ensures PathsContinue(
      f, expanded, [id], Climb(before, |before|, row.depth), before, [row] + below)
  {
    var base := Climb(before, |before|, row.depth);
    FirstRow(f, expanded, id, row, before);
    PathsUnder(f, expanded, id, base, before + [row], below);
    PathsJoin(f, expanded, [id], base, before, [row], below);
  }

  lemma {:induction false} VisitPaths(
    f: Forest, expanded: set<Key>, id: string, depth: nat, visited: set<string>, before: seq<Row>)
    requires Fits(f) && id in f.ids && visited <= f.ids
    ensures PathsContinue(f, expanded, [id], Climb(before, |before|, depth), before,
      Visit(f, expanded, id, depth, visited).rows)
    decreases f.ids - visited, 0
  {
    if id !in visited {
      var children := f.children(id);
      var row := Row(KeyOf(f.kind, id), depth, children != [], KeyOf(f.kind, id) in expanded);
      if row.expanded {
        var below := VisitAll(f, expanded, children, depth + 1, visited + {id}).rows;
        assert Visit(f, expanded, id, depth, visited).rows == [row] + below;
        assert Climb(before + [row], |before + [row]|, depth + 1) == Climb(before, |before|, depth) + [row.key] by {
          ClimbStep(before, row);
        }
        VisitAllPaths(f, expanded, children, depth + 1, visited + {id}, before + [row]);
        NodePaths(f, expanded, id, row, before, below);
      } else {
        FirstRow(f, expanded, id, row, before);
      }
    }
  }

  lemma {:induction false} VisitAllPaths(
    f: Forest, expanded: set<Key>, todo: seq<string>, depth: nat, visited: set<string>, before: seq<Row>)
    requires Fits(f) && (forall x | x in todo :: x in f.ids) && visited <= f.ids
    ensures PathsContinue(f, expanded, todo, Climb(before, |before|, depth), before,
      VisitAll(f, expanded, todo, depth, visited).rows)
    decreases f.ids - visited, |todo|
  {
    if todo != [] {
      var first := Visit(f, expanded, todo[0], depth, visited);
      var rest := VisitAll(f, expanded, todo[1..], depth, first.visited);
      var base := Climb(before, |before|, depth);
      VisitPaths(f, expanded, todo[0], depth, visited, before);
      VisitDeep(f, expanded, todo[0], depth, visited);
      ClimbOver(before, first.rows, depth);
      VisitAllPaths(f, expanded, todo[1..], depth, first.visited, before + first.rows);
      PathsFromMore(f, expanded, [todo[0]], todo, base, before, first.rows);
      PathsFromMore(f, expanded, todo[1..], todo, base, before + first.rows, rest.rows);
      PathsJoin(f, expanded, todo, base, before, first.rows, rest.rows);
    }
  }

  // ---- which nodes are listed

  function IdOf(k: Key): string {
    match k
    case ResourceKey(id) => id
    case ProcessTargetKey(_, id) => id
    case _ => ""
  }

  predicate IsNode(f: Forest, k: Key) { k == KeyOf(f.kind, IdOf(k)) }

  /** The rows list what the walk newly visited, once each. */
  ghost predicate Lists(f: Forest, rows: seq<Row>, added: set<string>) {
    && Distinct(RowKeys(rows))
    && (forall k :: k in RowKeys(rows) <==> IsNode(f, k) && IdOf(k) in added)
  }

  lemma {:induction false} ListsJoin(f: Forest, a: seq<Row>, b: seq<Row>, x: set<string>, y: set<string>,
      z: set<string>)
    requires Lists(f, a, y - x) && Lists(f, b, z - y) && x <= y <= z
    ensures Lists(f, a + b, z - x)
  {
    RowKeysJoin(a, b);
  }

  lemma {:induction false} VisitLists(
    f: Forest, expanded: set<Key>, id: string, depth: nat, visited: set<string>)
    requires Fits(f) && id in f.ids && visited <= f.ids
    ensures var w := Visit(f, expanded, id, depth, visited);
      Lists(f, w.rows, w.visited - visited) && id in w.visited
    decreases f.ids - visited, 0
  {
    if id !in visited {
      var children := f.children(id);
      var row := Row(KeyOf(f.kind, id), depth, children != [], KeyOf(f.kind, id) in expanded);
      assert RowKeys([row]) == [row.key];
      assert Lists(f, [row], visited + {id} - visited);
      if row.expanded {
        var below := VisitAll(f, expanded, children, depth + 1, visited + {id});
        VisitAllLists(f, expanded, children, depth + 1, visited + {id});
        ListsJoin(f, [row], below.rows, visited, visited + {id}, below.visited);
      }
    }
  }

  lemma {:induction false} VisitAllLists(
    f: Forest, expanded: set<Key>, todo: seq<string>, depth: nat, visited: set<string>)
    requires Fits(f) && (forall x | x in todo :: x in f.ids) && visited <= f.ids
    ensures var w := VisitAll(f, expanded, todo, depth, visited);
      Lists(f, w.rows, w.visited - visited) && forall x | x in todo :: x in w.visited
    decreases f.ids - visited, |todo|
  {
    if todo != [] {
      var first := Visit(f, expanded, todo[0], depth, visited);
      var rest := VisitAll(f, expanded, todo[1..], depth, first.visited);
      VisitLists(f, expanded, todo[0], depth, visited);
      VisitAllLists(f, expanded, todo[1..], depth, first.visited);
      ListsJoin(f, first.rows, rest.rows, visited, first.visited, rest.visited);
    }
  }

  /** No child of a newly visited expanded node is left unvisited. */
  ghost predicate Closed(f: Forest, expanded: set<Key>, added: set<string>, visited: set<string>) {
    forall x, y | x in added && KeyOf(f.kind, x) in expanded && y in f.children(x) :: y in visited
  }

  lemma {:induction false} VisitCloses(
    f: Forest, expanded: set<Key>, id: string, depth: nat, visited: set<string>)
    requires Fits(f) && id in f.ids && visited <= f.ids
    ensures var w := Visit(f, expanded, id, depth, visited);
      Closed(f, expanded, w.visited - visited, w.visited)
    decreases f.ids - visited, 0
  {
    if id !in visited && KeyOf(f.kind, id) in expanded {
      VisitAllCloses(f, expanded, f.children(id), depth + 1, visited + {id});
      VisitAllLists(f, expanded, f.children(id), depth + 1, visited + {id});
    }
  }

  lemma {:induction false} VisitAllCloses(
    f: Forest, expanded: set<Key>, todo: seq<string>, depth: nat, visited: set<string>)
    requires Fits(f) && (forall x | x in todo :: x in f.ids) && visited <= f.ids
    ensures var w := VisitAll(f, expanded, todo, depth, visited);
      Closed(f, expanded, w.visited - visited, w.visited)
    decreases f.ids - visited, |todo|
  {
    if todo != [] {
      VisitCloses(f, expanded, todo[0], depth, visited);
      VisitAllCloses(f, expanded, todo[1..], depth, Visit(f, expanded, todo[0], depth, visited).visited);
    }
  }

  lemma {:induction false} WalkStaysVisited(
    f: Forest, expanded: set<Key>, w: Walk, p: seq<string>, i: nat)
    requires Closed(f, expanded, w.visited, w.visited) && Steps(f, expanded, p) && i < |p| && p[0] in w.visited
    ensures p[i] in w.visited
  {
    if i > 0 { WalkStaysVisited(f, expanded, w, p, i - 1); }
  }

  /** The rows are exactly the nodes reachable from the roots along edges that leave expanded ones, each
      once; and the path of a row is such a walk. */
  ghost predicate ListsReachable(f: Forest, expanded: set<Key>, roots: seq<string>, rows: seq<Row>) {
    && Distinct(RowKeys(rows))
    && (forall k :: k in RowKeys(rows) <==> IsNode(f, k) && Reachable(f, expanded, roots, IdOf(k)))
    && (forall n | 0 <= n < |rows| :: Continues(f, expanded, roots, [], NodePath(rows, n)))
  }

  lemma {:induction false} WalkIsReachable(f: Forest, expanded: set<Key>, roots: seq<string>, depth: nat)
    requires Fits(f) && forall x | x in roots :: x in f.ids
    ensures ListsReachable(f, expanded, roots, VisitAll(f, expanded, roots, depth, {}).rows)
  {
    var w := VisitAll(f, expanded, roots, depth, {});
    VisitAllLists(f, expanded, roots, depth, {});
    VisitAllCloses(f, expanded, roots, depth, {});
    assert w.visited - {} == w.visited;
    RowsWalk(f, expanded, roots, depth);
    forall k: Key | IsNode(f, k) && Reachable(f, expanded, roots, IdOf(k)) ensures k in RowKeys(w.rows) {
      var p :| Reaches(f, expanded, roots, IdOf(k), p);
      WalkStaysVisited(f, expanded, w, p, |p| - 1);
    }
  }

  lemma {:induction false} RowsWalk(f: Forest, expanded: set<Key>, roots: seq<string>, depth: nat)
    requires Fits(f) && forall x | x in roots :: x in f.ids
    ensures var rows := VisitAll(f, expanded, roots, depth, {}).rows;
      && (forall n | 0 <= n < |rows| :: Continues(f, expanded, roots, [], NodePath(rows, n)))
      && (forall k | k in RowKeys(rows) :: IsNode(f, k) && Reachable(f, expanded, roots, IdOf(k)))
  {
    var rows := VisitAll(f, expanded, roots, depth, {}).rows;
    VisitAllPaths(f, expanded, roots, depth, {}, []);
    forall n | 0 <= n < |rows| ensures Continues(f, expanded, roots, [], NodePath(rows, n)) {
      PathAt(f, expanded, roots, [], rows, n);
    }
    forall k | k in RowKeys(rows) ensures IsNode(f, k) && Reachable(f, expanded, roots, IdOf(k)) {
      var n :| 0 <= n < |rows| && RowKeys(rows)[n] == k;
      PathEnds(f, expanded, roots, rows, n);
    }
  }

  lemma {:induction false} PathEnds(f: Forest, expanded: set<Key>, from: seq<string>, rows: seq<Row>, n: nat)
    requires n < |rows| && Continues(f, expanded, from, [], NodePath(rows, n))
    ensures IsNode(f, rows[n].key) && Reachable(f, expanded, from, IdOf(rows[n].key))
  {
    var p :| p != [] && p[0] in from && Steps(f, expanded, p) && NodePath(rows, n) == [] + KeysOf(f, p);
    LastKey(rows, n, KeysOf(f, p));
    assert Reaches(f, expanded, from, p[|p| - 1], p);
  }

  lemma {:induction false} LastKey(rows: seq<Row>, n: nat, path: seq<Key>)
    requires n < |rows| && NodePath(rows, n) == [] + path
    ensures path != [] && path[|path| - 1] == rows[n].key
  {
    assert path == NodePath(rows, n);
  }
}
