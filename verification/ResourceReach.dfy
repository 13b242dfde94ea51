/** The resource outline of a connection lists exactly the reachable resources, each below one that
    leads to it, and siblings by id. */
module ResourceReach {
  import opened Common
  import opened OrderedMap
  import opened Sorting
  import opened Outline
  import opened NodeWalk
  import opened NodeReach
  import opened NodeSiblings
  import opened Siblings
  import opened ResourceOutline

  /** The rows of a connection are exactly the resources reachable from the chosen roots along
      edges that leave expanded ones, each once; and the path of a row is such a walk. */
  lemma {:induction false} RowsAreReachable(g: Graph, connection: string, expanded: set<Key>, depth: nat)
    ensures ListsReachable(
      ForestOf(g, connection), expanded, Roots(g, connection), ConnectionRows(g, connection, expanded, depth))
  {
    WalkIsReachable(ForestOf(g, connection), expanded, Roots(g, connection), depth);
  }

  // ---- told by the graph alone

  predicate Owned(g: Graph, connection: string, x: string) {
    Resource(x, Some(connection)) in g.resources
  }

  /** A relation between two resources of the connection. */
  predicate Leads(g: Graph, connection: string, a: string, b: string) {
    Owned(g, connection, a) && Owned(g, connection, b) && Relation(a, b) in g.relations
  }

  ghost predicate PointedAt(g: Graph, connection: string, x: string) {
    exists a :: Leads(g, connection, a, x)
  }

  /** Where the outline starts: at what nothing points at, or anywhere when everything is pointed at. */
  ghost predicate Starts(g: Graph, connection: string, x: string) {
    && Owned(g, connection, x)
    && (PointedAt(g, connection, x) ==> forall y | Owned(g, connection, y) :: PointedAt(g, connection, y))
  }

  /** Each resource but the last is expanded and leads to the next. */
  ghost predicate Trail(g: Graph, connection: string, expanded: set<Key>, p: seq<string>) {
    && p != [] && Starts(g, connection, p[0])
    && forall i | 0 <= i < |p| - 1 :: ResourceKey(p[i]) in expanded && Leads(g, connection, p[i], p[i + 1])
  }

  ghost predicate Reached(g: Graph, connection: string, expanded: set<Key>, x: string) {
    exists p :: Trail(g, connection, expanded, p) && p[|p| - 1] == x
  }

  lemma {:induction false} ChildrenExact(g: Graph, connection: string, a: string, b: string)
    requires Owned(g, connection, a)
    ensures b in ForestOf(g, connection).children(a) <==> Leads(g, connection, a, b)
  {
    var own := OwnIds(g.resources, connection);
    if Leads(g, connection, a, b) {
      assert Relation(a, b) in g.relations && b in IdSet(own);
      assert Resource(b, Some(connection)) in g.resources;
    }
  }

  lemma {:induction false} FreeExact(g: Graph, connection: string, x: string)
    ensures var own := OwnIds(g.resources, connection);
      x in WithoutIncoming(g, IdSet(own), own) <==> Owned(g, connection, x) && !PointedAt(g, connection, x)
  {
    var own := OwnIds(g.resources, connection);
    forall a ensures x in own ==> (Edge(g, IdSet(own), a, x) <==> Leads(g, connection, a, x)) {}
  }

  lemma {:induction false} RootsExact(g: Graph, connection: string, x: string)
    ensures x in Roots(g, connection) <==> Starts(g, connection, x)
  {
    var own := OwnIds(g.resources, connection);
    var free := WithoutIncoming(g, IdSet(own), own);
    FreeExact(g, connection, x);
    if free == [] {
      forall y | Owned(g, connection, y) ensures PointedAt(g, connection, y) { FreeExact(g, connection, y); }
    } else {
      FreeExact(g, connection, free[0]);
    }
  }

  lemma {:induction false} StepsAreTrail(g: Graph, connection: string, expanded: set<Key>, p: seq<string>)
    requires p != [] && p[0] in Roots(g, connection)
    ensures Steps(ForestOf(g, connection), expanded, p) <==> Trail(g, connection, expanded, p)
  {
    var f := ForestOf(g, connection);
    RootsExact(g, connection, p[0]);
    forall i | 0 <= i < |p| - 1 && (Steps(f, expanded, p) || Trail(g, connection, expanded, p))
      ensures p[i + 1] in f.children(p[i]) <==> Leads(g, connection, p[i], p[i + 1])
    {
      if Steps(f, expanded, p) && i > 0 { assert p[i - 1 + 1] in f.children(p[i - 1]) && p[i] in f.ids; }
      ChildrenExact(g, connection, p[i], p[i + 1]);
    }
  }

  /** A resource has a row if and only if a trail leads to it; no resource has two rows, and nothing else
      has one. */
  lemma {:induction false} ShownAlongRelations(
      g: Graph, connection: string, expanded: set<Key>, depth: nat, k: Key)
    ensures var keys := RowKeys(ConnectionRows(g, connection, expanded, depth));
      Distinct(keys) && (k in keys <==> k.ResourceKey? && Reached(g, connection, expanded, k.resourceId))
  {
    var f, roots := ForestOf(g, connection), Roots(g, connection);
    RowsAreReachable(g, connection, expanded, depth);
    if IsNode(f, k) && Reachable(f, expanded, roots, IdOf(k)) {
      var p :| Reaches(f, expanded, roots, IdOf(k), p);
      StepsAreTrail(g, connection, expanded, p);
    }
    if k.ResourceKey? && Reached(g, connection, expanded, k.resourceId) {
      var p :| Trail(g, connection, expanded, p) && p[|p| - 1] == k.resourceId;
      RootsExact(g, connection, p[0]);
      StepsAreTrail(g, connection, expanded, p);
      assert Reaches(f, expanded, roots, IdOf(k), p);
    }
  }

  lemma {:induction false} RootsFit(g: Graph, connection: string)
    ensures forall x | x in Roots(g, connection) :: x in ForestOf(g, connection).ids
  {
    forall x | x in Roots(g, connection) ensures x in ForestOf(g, connection).ids {
      RootsExact(g, connection, x);
    }
  }

  lemma {:induction false} RowIsOwned(g: Graph, connection: string, expanded: set<Key>, depth: nat, n: nat)
    requires n < |ConnectionRows(g, connection, expanded, depth)|
    ensures var row := ConnectionRows(g, connection, expanded, depth)[n];
      row.key.ResourceKey? && Owned(g, connection, row.key.resourceId)
  {
    var rows := ConnectionRows(g, connection, expanded, depth);
    ShownAlongRelations(g, connection, expanded, depth, rows[n].key);
    assert RowKeys(rows)[n] == rows[n].key;
    var p :| Trail(g, connection, expanded, p) && p[|p| - 1] == rows[n].key.resourceId;
    if |p| > 1 { assert Leads(g, connection, p[|p| - 2], p[|p| - 2 + 1]); }
  }

  /** The marker says whether a relation leaves the resource; every row stands at the top, where it is one
      to start at, or hangs from a row. */
  lemma {:induction false} RowTellsRelations(
      g: Graph, connection: string, expanded: set<Key>, depth: nat, n: nat)
    requires n < |ConnectionRows(g, connection, expanded, depth)|
    ensures var rows := ConnectionRows(g, connection, expanded, depth);
      && rows[n].key.ResourceKey?
      && (rows[n].expandable <==> exists y :: Leads(g, connection, rows[n].key.resourceId, y))
      && (rows[n].expanded <==> rows[n].key in expanded)
      && (rows[n].depth == depth ==> Starts(g, connection, rows[n].key.resourceId))
      && (rows[n].depth != depth ==> exists h :: Hangs(rows, h, n))
  {
    var f, roots := ForestOf(g, connection), Roots(g, connection);
    var rows := ConnectionRows(g, connection, expanded, depth);
    RowIsOwned(g, connection, expanded, depth, n);
    var id := rows[n].key.resourceId;
    RootsFit(g, connection);
    VisitAllPlaced(f, expanded, roots, depth, {}, n, n + 1, n + 1);
    VisitAllRooted(f, expanded, roots, depth, {}, n);
    VisitAllTops(f, expanded, roots, depth, {});
    if f.children(id) != [] { ChildrenExact(g, connection, id, f.children(id)[0]); }
    if y :| Leads(g, connection, id, y) { ChildrenExact(g, connection, id, y); }
    if rows[n].depth == depth {
      TopIsListed(f, roots, rows, depth, n);
      RootsExact(g, connection, id);
    }
  }

  lemma {:induction false} PrecedesIsBefore(s: seq<string>, a: string, b: string)
    requires Ascending(s) && Precedes(s, a, b) && a != b
    ensures Before(a, b)
  {
    var m, n :| 0 <= m < n < |s| && s[m] == a && s[n] == b;
    LessTotal(a, b);
    LessExact(a, b);
  }

  lemma {:induction false} KeysDiffer(g: Graph, connection: string, expanded: set<Key>, depth: nat, i: nat, j: nat)
    requires i < j < |ConnectionRows(g, connection, expanded, depth)|
    ensures var rows := ConnectionRows(g, connection, expanded, depth);
      && rows[i].key.ResourceKey? && rows[j].key.ResourceKey? && rows[i].key.resourceId != rows[j].key.resourceId
  {
    var rows := ConnectionRows(g, connection, expanded, depth);
    RowIsOwned(g, connection, expanded, depth, i);
    RowIsOwned(g, connection, expanded, depth, j);
    ShownAlongRelations(g, connection, expanded, depth, rows[i].key);
    assert RowKeys(rows)[i] != RowKeys(rows)[j];
  }

  /** Below a row hang resources that it leads to. */
  lemma {:induction false} HangsAlongRelation(
      g: Graph, connection: string, expanded: set<Key>, depth: nat, h: nat, i: nat)
    requires Hangs(ConnectionRows(g, connection, expanded, depth), h, i)
    ensures var rows := ConnectionRows(g, connection, expanded, depth);
      && rows[h].key.ResourceKey? && rows[i].key.ResourceKey?
      && Leads(g, connection, rows[h].key.resourceId, rows[i].key.resourceId)
  {
    var rows := ConnectionRows(g, connection, expanded, depth);
    RowIsOwned(g, connection, expanded, depth, h);
    RowIsOwned(g, connection, expanded, depth, i);
    RootsFit(g, connection);
    VisitAllPlaced(ForestOf(g, connection), expanded, Roots(g, connection), depth, {}, h, i, i);
    ChildrenExact(g, connection, rows[h].key.resourceId, rows[i].key.resourceId);
  }

  /** Of two rows that hang from the same one, or stand at the top, the first has the smaller id. */
  lemma {:induction false} SiblingsAscend(
      g: Graph, connection: string, expanded: set<Key>, depth: nat, h: nat, i: nat, j: nat)
    requires i < j < |ConnectionRows(g, connection, expanded, depth)|
    requires var rows := ConnectionRows(g, connection, expanded, depth);
      (Hangs(rows, h, i) && Hangs(rows, h, j)) || (rows[i].depth == depth && rows[j].depth == depth)
    ensures var rows := ConnectionRows(g, connection, expanded, depth);
      && rows[i].key.ResourceKey? && rows[j].key.ResourceKey?
      && Before(rows[i].key.resourceId, rows[j].key.resourceId)
  {
    var f, roots := ForestOf(g, connection), Roots(g, connection);
    var rows := ConnectionRows(g, connection, expanded, depth);
    KeysDiffer(g, connection, expanded, depth, i, j);
    RootsFit(g, connection);
    var a, b := rows[i].key.resourceId, rows[j].key.resourceId;
    if rows[i].depth == depth && rows[j].depth == depth {
      VisitAllTops(f, expanded, roots, depth, {});
      TopsInOrder(f, roots, rows, depth, i, j);
      PrecedesIsBefore(roots, a, b);
    } else {
      RowIsOwned(g, connection, expanded, depth, h);
      VisitAllPlaced(f, expanded, roots, depth, {}, h, i, j);
      PrecedesIsBefore(f.children(rows[h].key.resourceId), a, b);
    }
  }
}
