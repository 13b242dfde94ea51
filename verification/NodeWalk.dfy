/** A depth-first walk of nodes with ids, which may share children and have cycles: the resources under
    a connection and the runtime targets under a process are listed by one. */
module NodeWalk {
  import opened Common
  import opened Outline

  datatype NodeKind = ResourceNode | RuntimeNode(rootPid: nat)

  function KeyOf(kind: NodeKind, id: string): Key {
    match kind
    case ResourceNode => ResourceKey(id)
    case RuntimeNode(root) => ProcessTargetKey(root, id)
  }

  datatype Forest = Forest(kind: NodeKind, ids: set<string>, children: string -> seq<string>)

  ghost predicate Fits(f: Forest) {
    forall x, y | y in f.children(x) :: y in f.ids
  }

  datatype Walk = Walk(rows: seq<Row>, visited: set<string>)

  function Visit(f: Forest, expanded: set<Key>, id: string, depth: nat, visited: set<string>): (w: Walk)
    requires Fits(f) && id in f.ids && visited <= f.ids
    ensures visited <= w.visited <= f.ids
    decreases f.ids - visited, 0
  {
    if id in visited then Walk([], visited)
    else
      var children := f.children(id);
      var row := Row(KeyOf(f.kind, id), depth, children != [], KeyOf(f.kind, id) in expanded);
      if row.expanded then
        var below := VisitAll(f, expanded, children, depth + 1, visited + {id});
        Walk([row] + below.rows, below.visited)
      else Walk([row], visited + {id})
  }

  function VisitAll(
    f: Forest, expanded: set<Key>, todo: seq<string>, depth: nat, visited: set<string>): (w: Walk)
    requires Fits(f) && (forall x | x in todo :: x in f.ids) && visited <= f.ids
    ensures visited <= w.visited <= f.ids
    decreases f.ids - visited, |todo|
  {
    if todo == [] then Walk([], visited)
    else
      var first := Visit(f, expanded, todo[0], depth, visited);
      var rest := VisitAll(f, expanded, todo[1..], depth, first.visited);
      Walk(first.rows + rest.rows, rest.visited)
  }

  /** The row list and the visited set that `append_resource_row` and `append_process_target_row` update in place. */
  class NodeWriter {
    var rows: seq<Row>
    var visited: set<string>

    constructor ()
      ensures rows == [] && visited == {}
    {
      rows, visited := [], {};
    }

    method AppendNode(f: Forest, expanded: set<Key>, id: string, depth: nat)
      requires Fits(f) && id in f.ids && visited <= f.ids
      modifies this
      ensures var w := Visit(f, expanded, id, depth, old(visited));
        rows == old(rows) + w.rows && visited == w.visited
      decreases f.ids - visited, 0
    {
      if id in visited { return; }
      visited := visited + {id};
      var children := f.children(id);
      var row := Row(KeyOf(f.kind, id), depth, children != [], KeyOf(f.kind, id) in expanded);
      rows := rows + [row];
      if row.expanded {
        ghost var below := VisitAll(f, expanded, children, depth + 1, visited);
        AppendAll(f, expanded, children, depth + 1);
        Assoc(old(rows), [row], below.rows);
      }
    }

    method AppendAll(f: Forest, expanded: set<Key>, todo: seq<string>, depth: nat)
      requires Fits(f) && (forall x | x in todo :: x in f.ids) && visited <= f.ids
      modifies this
      ensures var w := VisitAll(f, expanded, todo, depth, old(visited));
        rows == old(rows) + w.rows && visited == w.visited
      decreases f.ids - visited, |todo| + 1
    {
      ghost var done: seq<Row> := [];
      ghost var all := VisitAll(f, expanded, todo, depth, visited);
      var k: nat := 0;
      while k < |todo|
        invariant k <= |todo| && old(visited) <= visited <= f.ids
        invariant rows == old(rows) + done
        invariant all == Then(done, VisitAll(f, expanded, todo[k..], depth, visited))
      {
        ghost var step := Visit(f, expanded, todo[k], depth, visited);
        ghost var rest := VisitAll(f, expanded, todo[k + 1..], depth, step.visited);
        assert todo[k..][1..] == todo[k + 1..];
        Assoc(old(rows), done, step.rows);
        Assoc(done, step.rows, rest.rows);
        AppendNode(f, expanded, todo[k], depth);
        done := done + step.rows;
        k := k + 1;
      }
      assert done + [] == done;
    }
  }

  ghost function Then(done: seq<Row>, w: Walk): Walk {
    Walk(done + w.rows, w.visited)
  }
}
