/** The resource rows under a connection: a depth-first walk of a directed graph that may share
    nodes and have cycles. */
module ResourceOutline {
  import opened Common
  import opened Outline
  import opened NodeWalk
  import opened Sorting

  datatype Resource = Resource(id: string, connectionId: Option<string>)

  datatype Relation = Relation(from: string, to: string)

  datatype Graph = Graph(revision: nat, resources: seq<Resource>, relations: seq<Relation>)

  function OwnIds(resources: seq<Resource>, connection: string): (r: seq<string>)
    ensures forall x :: x in r <==> Resource(x, Some(connection)) in resources
  {
    if resources == [] then []
    else
      (if resources[0].connectionId == Some(connection) then [resources[0].id] else [])
      + OwnIds(resources[1..], connection)
  }

  function IdSet(s: seq<string>): (r: set<string>)
    ensures forall x :: x in r <==> x in s
  {
    set x | x in s
  }

  /** Both ends of the relation belong to the connection. */
  predicate Edge(g: Graph, ids: set<string>, a: string, b: string) {
    a in ids && b in ids && Relation(a, b) in g.relations
  }

  function Listed(resources: seq<Resource>, among: set<string>): (r: seq<string>)
    ensures forall x :: x in r <==> x in among && exists s | s in resources :: s.id == x
  {
    if resources == [] then []
    else (if resources[0].id in among then [resources[0].id] else []) + Listed(resources[1..], among)
  }

  /** `resource_children`: the related resources of the connection, by id. */
  function Children(g: Graph, ids: set<string>, id: string): (r: seq<string>)
    ensures forall x | x in r :: x in ids && Relation(id, x) in g.relations
  {
    SortIds(Listed(g.resources, set r | r in g.relations && r.from == id && r.to in ids :: r.to))
  }

  function WithoutIncoming(g: Graph, ids: set<string>, candidates: seq<string>): (r: seq<string>)
    ensures forall x :: x in r <==> x in candidates && !exists a :: Edge(g, ids, a, x)
  {
    if candidates == [] then []
    else
      (if exists a | a in ids :: Edge(g, ids, a, candidates[0]) then [] else [candidates[0]])
      + WithoutIncoming(g, ids, candidates[1..])
  }

  /** The resources nothing points at, or all of them when every one is pointed at. */
  function Roots(g: Graph, connection: string): seq<string> {
    var own := OwnIds(g.resources, connection);
    var free := WithoutIncoming(g, IdSet(own), own);
    SortIds(if free == [] then own else free)
  }

  function ForestOf(g: Graph, connection: string): (f: Forest)
    ensures Fits(f)
  {
    var ids := IdSet(OwnIds(g.resources, connection));
    Forest(ResourceNode, ids, id => Children(g, ids, id))
  }

  function ConnectionRows(g: Graph, connection: string, expanded: set<Key>, depth: nat): seq<Row> {
    VisitAll(ForestOf(g, connection), expanded, Roots(g, connection), depth, {}).rows
  }

  method AppendConnectionResourceRows(g: Graph, connection: string, expanded: set<Key>, depth: nat)
      returns (rows: seq<Row>)
    ensures rows == ConnectionRows(g, connection, expanded, depth)
  {
    var writer := new NodeWriter();
    writer.AppendAll(ForestOf(g, connection), expanded, Roots(g, connection), depth);
    rows := writer.rows;
  }
}
