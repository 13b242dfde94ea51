/** The in-place form of the process walk: a row list and a visited set that the recursive row
    builder updates while it loops over children and windows. */
module ProcessWriter {
  import opened Common
  import opened Outline
  import opened ProcessOutline
  import Targets = RuntimeTargets

  ghost function Then(done: seq<Row>, w: Walk): Walk {
    Walk(done + w.rows, w.visited)
  }

  lemma {:induction false} ItemStep(
    t: ProcessTree, expanded: set<Key>, pid: nat, item: Item, items: seq<Item>, depth: nat, active: Option<nat>,
    visited: set<nat>, done: seq<Row>)
    requires AllFit(t, pid, [item] + items) && visited <= Pids(t.processes)
    ensures Fits(t, pid, item) && AllFit(t, pid, items)
    ensures var step := VisitItem(t, expanded, pid, item, depth, active, visited);
      Then(done, VisitItems(t, expanded, pid, [item] + items, depth, active, visited))
        == Then(done + step.rows, VisitItems(t, expanded, pid, items, depth, active, step.visited))
  {
    assert ([item] + items)[1..] == items;
    var step := VisitItem(t, expanded, pid, item, depth, active, visited);
    Assoc(done, step.rows, VisitItems(t, expanded, pid, items, depth, active, step.visited).rows);
  }

  class Writer {
    var rows: seq<Row>
    var visited: set<nat>

    constructor ()
      ensures rows == [] && visited == {}
    {
      rows, visited := [], {};
    }

    method AppendProcessRow(t: ProcessTree, expanded: set<Key>, p: Process, depth: nat, active: Option<nat>)
      requires p in t.processes && visited <= Pids(t.processes)
      modifies this
      ensures var w := Visit(t, expanded, p, depth, active, old(visited));
        rows == old(rows) + w.rows && visited == w.visited
      decreases Pids(t.processes) - visited, 0
    {
      if p.pid in visited { return; }
      visited := visited + {p.pid};
      var row := ProcessRow(t, expanded, p, depth);
      rows := rows + [row];
      if row.expanded {
        ghost var sessions := SessionRows(p.pid, p.sessions, depth + 1);
        ghost var below := VisitItems(t, expanded, p.pid, ItemsOf(t, p.pid, active), depth + 1, active, visited);
        Assoc(old(rows), [row], sessions);
        ghost var targets := TargetRows(t, expanded, p.pid, depth + 1);
        Assoc(old(rows), [row] + sessions, below.rows + targets);
        Assoc(old(rows) + ([row] + sessions), below.rows, targets);
        AppendSessions(p.pid, p.sessions, depth + 1);
        AppendChildren(t, expanded, p.pid, depth + 1, active);
        var last := Targets.AppendProcessTargetRows(t.rootPid, t.targets, p.pid, expanded, depth + 1);
        rows := rows + last;
      }
    }

    method AppendSessions(pid: nat, sessions: seq<string>, depth: nat)
      modifies this`rows
      ensures rows == old(rows) + SessionRows(pid, sessions, depth)
    {
      var k: nat := 0;
      while k < |sessions|
        invariant k <= |sessions|
        invariant rows + SessionRows(pid, sessions[k..], depth) == old(rows) + SessionRows(pid, sessions, depth)
      {
        assert sessions[k..][1..] == sessions[k + 1..];
        var row := Row(AgentSessionKey(pid, sessions[k]), depth, false, false);
        Assoc(rows, [row], SessionRows(pid, sessions[k + 1..], depth));
        rows := rows + [row];
        k := k + 1;
      }
    }

    method AppendChildren(t: ProcessTree, expanded: set<Key>, pid: nat, depth: nat, active: Option<nat>)
      requires visited <= Pids(t.processes)
      modifies this
      ensures var w := VisitItems(t, expanded, pid, ItemsOf(t, pid, active), depth, active, old(visited));
        rows == old(rows) + w.rows && visited == w.visited
      decreases Pids(t.processes) - visited, 3
    {
      var todo := Children(t, pid);
      var rendered: set<nat> := {};
      ghost var done: seq<Row> := [];
      ghost var all := VisitItems(t, expanded, pid, ItemsOf(t, pid, active), depth, active, visited);
      while todo != []
        invariant old(visited) <= visited <= Pids(t.processes)
        invariant rows == old(rows) + done
        invariant AllFit(t, pid, Items(t, pid, todo, active, rendered))
        invariant all == Then(done,
          VisitItems(t, expanded, pid, Items(t, pid, todo, active, rendered), depth, active, visited))
        decreases |todo|
      {
        var child := todo[0];
        todo := todo[1..];
        var grouped := child.window.Some? && child.window != active;
        if grouped && child.window.value in rendered { continue; }
        var item := Single(child);
        if grouped {
          rendered := rendered + {child.window.value};
          item := Window(child.window.value, Members(t, pid, child.window.value));
        }
        ghost var step := VisitItem(t, expanded, pid, item, depth, active, visited);
        ItemStep(t, expanded, pid, item, Items(t, pid, todo, active, rendered), depth, active, visited, done);
        Assoc(old(rows), done, step.rows);
        AppendItem(t, expanded, pid, item, depth, active);
        done := done + step.rows;
      }
      assert done + [] == done;
    }

    method AppendItem(t: ProcessTree, expanded: set<Key>, pid: nat, item: Item, depth: nat, active: Option<nat>)
      requires Fits(t, pid, item) && visited <= Pids(t.processes)
      modifies this
      ensures var w := VisitItem(t, expanded, pid, item, depth, active, old(visited));
        rows == old(rows) + w.rows && visited == w.visited
      decreases Pids(t.processes) - visited, 2
    {
      match item
      case Single(p) =>
        AppendProcessRow(t, expanded, p, depth, active);
      case Window(windowId, members) =>
        var row := WindowRow(t, expanded, windowId, members, depth);
        rows := rows + [row];
        if row.expanded {
          ghost var all := VisitAll(t, expanded, members, depth + 1, Some(windowId), visited);
          Assoc(old(rows), [row], all.rows);
          AppendMembers(t, expanded, members, depth + 1, Some(windowId));
        }
    }

    method AppendMembers(t: ProcessTree, expanded: set<Key>, members: seq<Process>, depth: nat, active: Option<nat>)
      requires AllIn(t, members) && visited <= Pids(t.processes)
      modifies this
      ensures var w := VisitAll(t, expanded, members, depth, active, old(visited));
        rows == old(rows) + w.rows && visited == w.visited
      decreases Pids(t.processes) - visited, 1
    {
      ghost var done: seq<Row> := [];
      ghost var all := VisitAll(t, expanded, members, depth, active, visited);
      var k: nat := 0;
      while k < |members|
        invariant k <= |members| && AllIn(t, members[k..]) && old(visited) <= visited <= Pids(t.processes)
        invariant rows == old(rows) + done
        invariant all == Then(done, VisitAll(t, expanded, members[k..], depth, active, visited))
      {
        ghost var step := Visit(t, expanded, members[k], depth, active, visited);
        ghost var rest := VisitAll(t, expanded, members[k + 1..], depth, active, step.visited);
        assert members[k..][1..] == members[k + 1..];
        Assoc(old(rows), done, step.rows);
        Assoc(done, step.rows, rest.rows);
        AppendProcessRow(t, expanded, members[k], depth, active);
        done := done + step.rows;
        k := k + 1;
      }
      assert done + [] == done;
    }

    method AppendRoots(t: ProcessTree, expanded: set<Key>, roots: seq<Process>)
      requires AllIn(t, roots) && visited == {}
      modifies this
      ensures rows == old(rows) + VisitRoots(t, expanded, roots, {}).rows
    {
      ghost var done: seq<Row> := [];
      ghost var all := VisitRoots(t, expanded, roots, {});
      var k: nat := 0;
      while k < |roots|
        invariant k <= |roots| && AllIn(t, roots[k..]) && visited <= Pids(t.processes)
        invariant rows == old(rows) + done
        invariant all == Then(done, VisitRoots(t, expanded, roots[k..], visited))
      {
        ghost var step := Visit(t, expanded, roots[k], 1, roots[k].window, visited);
        ghost var rest := VisitRoots(t, expanded, roots[k + 1..], step.visited);
        assert roots[k..][1..] == roots[k + 1..];
        Assoc(old(rows), done, step.rows);
        Assoc(done, step.rows, rest.rows);
        AppendProcessRow(t, expanded, roots[k], 1, roots[k].window);
        done := done + step.rows;
        k := k + 1;
      }
      assert done + [] == done;
    }
  }

  method BuildTreeRows(t: ProcessTree, expanded: set<Key>) returns (rows: seq<Row>)
    ensures rows == TreeRows(t, expanded)
  {
    var key := ProcessTreeKey(t.rootPid);
    rows := [Row(key, 0, t.processes != [], key in expanded)];
    if key in expanded {
      var writer := new Writer();
      ghost var below := VisitRoots(t, expanded, Roots(t), {}).rows;
      assert TreeRows(t, expanded) == rows + below;
      assert [] + below == below;
      writer.AppendRoots(t, expanded, Roots(t));
      rows := rows + writer.rows;
    }
  }

  method BuildProcessRows(trees: seq<ProcessTree>, expanded: set<Key>) returns (rows: seq<Row>)
    ensures rows == ProcessRows(trees, expanded)
  {
    rows := [];
    var k: nat := 0;
    while k < |trees|
      invariant k <= |trees|
      invariant rows + ProcessRows(trees[k..], expanded) == ProcessRows(trees, expanded)
    {
      var tree := BuildTreeRows(trees[k], expanded);
      assert trees[k..][1..] == trees[k + 1..];
      Assoc(rows, tree, ProcessRows(trees[k + 1..], expanded));
      rows := rows + tree;
      k := k + 1;
    }
  }
}
