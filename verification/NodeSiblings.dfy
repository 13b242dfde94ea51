/** Where a node walk puts its rows: below each expanded node its children, in their order. */
module NodeSiblings {
  import opened Common
  import opened Outline
  import opened NodeWalk
  import opened NodeReach
  import opened Siblings
  import opened Subsequences

  /** `a` stands before `b` in `s`. */
  ghost predicate Precedes(s: seq<string>, a: string, b: string) {
    exists m, n :: 0 <= m < n < |s| && s[m] == a && s[n] == b
  }

  /** The row of a node: it can be expanded if the node has children. */
  ghost predicate NodeRow(f: Forest, expanded: set<Key>, row: Row) {
    && IsNode(f, row.key)
    && row.expandable == (f.children(IdOf(row.key)) != [])
    && row.expanded == (row.key in expanded)
  }

  /** Below row `h` hang children of its node, in their order. */
  ghost predicate Placed(f: Forest, expanded: set<Key>, rows: seq<Row>, h: nat, i: nat, j: nat) {
    && (h < |rows| ==> NodeRow(f, expanded, rows[h]))
    && (Hangs(rows, h, i) ==> IdOf(rows[i].key) in f.children(IdOf(rows[h].key)))
    && (Hangs(rows, h, i) && Hangs(rows, h, j) && i < j
        ==> Precedes(f.children(IdOf(rows[h].key)), IdOf(rows[i].key), IdOf(rows[j].key)))
  }

  lemma {:induction false} PlacedBefore(
      f: Forest, expanded: set<Key>, a: seq<Row>, b: seq<Row>, depth: nat, h: nat, i: nat, j: nat)
    requires AtLeast(a, depth) && (b != [] ==> b[0].depth == depth) && h < |a|
    requires Placed(f, expanded, a, h, i, j)
    ensures Placed(f, expanded, a + b, h, i, j)
  {
    HangsApart(a, b, depth, h, i);
    HangsApart(a, b, depth, h, j);
  }

  lemma {:induction false} PlacedBehind(
      f: Forest, expanded: set<Key>, a: seq<Row>, b: seq<Row>, h: nat, i: nat, j: nat)
    requires h >= |a| && i > h && j > h && Placed(f, expanded, b, h - |a|, i - |a|, j - |a|)
    ensures Placed(f, expanded, a + b, h, i, j)
  {
    HangsBehind(a, b, h - |a|, i - |a|);
    HangsBehind(a, b, h - |a|, j - |a|);
  }

  lemma {:induction false} VisitTops(f: Forest, expanded: set<Key>, id: string, depth: nat, visited: set<string>)
    requires Fits(f) && id in f.ids && visited <= f.ids
    ensures var rows := Visit(f, expanded, id, depth, visited).rows;
      && Tops(rows, depth) == (if id in visited then [] else [KeyOf(f.kind, id)])
      && (rows != [] ==> rows[0].depth == depth)
  {
    if id !in visited {
      var children := f.children(id);
      var row := Row(KeyOf(f.kind, id), depth, children != [], KeyOf(f.kind, id) in expanded);
      if row.expanded {
        VisitAllDeep(f, expanded, children, depth + 1, visited + {id});
        OneTop(row, VisitAll(f, expanded, children, depth + 1, visited + {id}).rows);
      } else {
        assert [row][1..] == [];
      }
    }
  }

  /** Of the nodes to visit, some get a row at this depth, in their order. */
  lemma {:induction false} VisitAllTops(
      f: Forest, expanded: set<Key>, todo: seq<string>, depth: nat, visited: set<string>)
    requires Fits(f) && (forall x | x in todo :: x in f.ids) && visited <= f.ids
    ensures var rows := VisitAll(f, expanded, todo, depth, visited).rows;
      Among(Tops(rows, depth), KeysOf(f, todo)) && (rows != [] ==> rows[0].depth == depth)
    decreases |todo|
  {
    if todo != [] {
      var first := Visit(f, expanded, todo[0], depth, visited);
      var rest := VisitAll(f, expanded, todo[1..], depth, first.visited);
      VisitTops(f, expanded, todo[0], depth, visited);
      VisitAllTops(f, expanded, todo[1..], depth, first.visited);
      TopsConcat(first.rows, rest.rows, depth);
      assert KeysOf(f, todo)[1..] == KeysOf(f, todo[1..]);
      AmongStep(Tops(first.rows, depth), Tops(rest.rows, depth), KeysOf(f, todo));
    }
  }

  lemma {:induction false} TopIsListed(f: Forest, ids: seq<string>, rows: seq<Row>, depth: nat, i: nat)
    requires Among(Tops(rows, depth), KeysOf(f, ids)) && i < |rows| && rows[i].depth == depth
    ensures IdOf(rows[i].key) in ids
  {
    TopAt(rows, depth, i);
    var n := AmongAt(Tops(rows, depth), KeysOf(f, ids), |Tops(rows[..i], depth)|);
    assert KeysOf(f, ids)[n] == KeyOf(f.kind, ids[n]);
  }

  lemma {:induction false} TopsInOrder(f: Forest, ids: seq<string>, rows: seq<Row>, depth: nat, i: nat, j: nat)
    requires Among(Tops(rows, depth), KeysOf(f, ids)) && i < j < |rows|
    requires rows[i].depth == depth && rows[j].depth == depth
    ensures Precedes(ids, IdOf(rows[i].key), IdOf(rows[j].key))
  {
    var k, l := TwoTops(rows, depth, i, j);
    var m, n := TwoAmong(Tops(rows, depth), KeysOf(f, ids), k, l);
    assert KeysOf(f, ids)[m] == KeyOf(f.kind, ids[m]) && KeysOf(f, ids)[n] == KeyOf(f.kind, ids[n]);
  }

  lemma {:induction false} HeadPlaced(
      f: Forest, expanded: set<Key>, id: string, row: Row, below: seq<Row>, i: nat, j: nat)
    requires row.key == KeyOf(f.kind, id) && NodeRow(f, expanded, row)
    requires AtLeast(below, row.depth + 1) && Among(Tops(below, row.depth + 1), KeysOf(f, f.children(id)))
    ensures Placed(f, expanded, [row] + below, 0, i, j)
  {
    var rows := [row] + below;
    if Hangs(rows, 0, i) {
      HangsFromHead(row, below, i);
      TopIsListed(f, f.children(id), below, row.depth + 1, i - 1);
    }
    if Hangs(rows, 0, i) && Hangs(rows, 0, j) && i < j {
      HangsFromHead(row, below, j);
      TopsInOrder(f, f.children(id), below, row.depth + 1, i - 1, j - 1);
    }
  }

  lemma {:induction false} VisitPlaced(
      f: Forest, expanded: set<Key>, id: string, depth: nat, visited: set<string>, h: nat, i: nat, j: nat)
    requires Fits(f) && id in f.ids && visited <= f.ids && h < i && h < j
    ensures Placed(f, expanded, Visit(f, expanded, id, depth, visited).rows, h, i, j)
    decreases f.ids - visited, 0
  {
    if id !in visited {
      var children := f.children(id);
      var row := Row(KeyOf(f.kind, id), depth, children != [], KeyOf(f.kind, id) in expanded);
      if row.expanded {
        var below := VisitAll(f, expanded, children, depth + 1, visited + {id}).rows;
        if h == 0 {
          VisitAllDeep(f, expanded, children, depth + 1, visited + {id});
          VisitAllTops(f, expanded, children, depth + 1, visited + {id});
          HeadPlaced(f, expanded, id, row, below, i, j);
        } else {
          VisitAllPlaced(f, expanded, children, depth + 1, visited + {id}, h - 1, i - 1, j - 1);
          PlacedBehind(f, expanded, [row], below, h, i, j);
        }
      }
    }
  }

  lemma {:induction false} VisitAllPlaced(
      f: Forest, expanded: set<Key>, todo: seq<string>, depth: nat, visited: set<string>, h: nat, i: nat, j: nat)
    requires Fits(f) && (forall x | x in todo :: x in f.ids) && visited <= f.ids && h < i && h < j
    ensures Placed(f, expanded, VisitAll(f, expanded, todo, depth, visited).rows, h, i, j)
    decreases f.ids - visited, |todo|
  {
    if todo != [] {
      var first := Visit(f, expanded, todo[0], depth, visited);
      var rest := VisitAll(f, expanded, todo[1..], depth, first.visited);
      if h < |first.rows| {
        VisitPlaced(f, expanded, todo[0], depth, visited, h, i, j);
        VisitDeep(f, expanded, todo[0], depth, visited);
        VisitAllTops(f, expanded, todo[1..], depth, first.visited);
        PlacedBefore(f, expanded, first.rows, rest.rows, depth, h, i, j);
      } else {
        var n := |first.rows|;
        VisitAllPlaced(f, expanded, todo[1..], depth, first.visited, h - n, i - n, j - n);
        PlacedBehind(f, expanded, first.rows, rest.rows, h, i, j);
      }
    }
  }

  lemma {:induction false} VisitRooted(
      f: Forest, expanded: set<Key>, id: string, depth: nat, visited: set<string>, n: nat)
    requires Fits(f) && id in f.ids && visited <= f.ids
    ensures Rooted(Visit(f, expanded, id, depth, visited).rows, depth, n)
    decreases f.ids - visited, 0
  {
    if id !in visited {
      var children := f.children(id);
      var row := Row(KeyOf(f.kind, id), depth, children != [], KeyOf(f.kind, id) in expanded);
      if row.expanded {
        VisitAllDeep(f, expanded, children, depth + 1, visited + {id});
        if n > 0 { VisitAllRooted(f, expanded, children, depth + 1, visited + {id}, n - 1); }
        RootedBelow(row, VisitAll(f, expanded, children, depth + 1, visited + {id}).rows, n);
      }
    }
  }

  lemma {:induction false} VisitAllRooted(
      f: Forest, expanded: set<Key>, todo: seq<string>, depth: nat, visited: set<string>, n: nat)
    requires Fits(f) && (forall x | x in todo :: x in f.ids) && visited <= f.ids
    ensures Rooted(VisitAll(f, expanded, todo, depth, visited).rows, depth, n)
    decreases f.ids - visited, |todo|
  {
    if todo != [] {
      var first := Visit(f, expanded, todo[0], depth, visited);
      var rest := VisitAll(f, expanded, todo[1..], depth, first.visited);
      if n < |first.rows| {
        VisitRooted(f, expanded, todo[0], depth, visited, n);
        VisitDeep(f, expanded, todo[0], depth, visited);
        VisitAllTops(f, expanded, todo[1..], depth, first.visited);
        RootedBefore(first.rows, rest.rows, depth, n);
      } else {
        VisitAllRooted(f, expanded, todo[1..], depth, first.visited, n - |first.rows|);
        RootedBehind(first.rows, rest.rows, depth, n);
      }
    }
  }
}
