/** What the service's target lists spare the terminal client: no observer is left without a handle, and
    every target of a group is indented one deeper than its parent there. */
module ServiceTargets {
  import opened Common
  import opened AppModel
  import opened ServiceForest
  import opened Sidebar
  import Depths = TargetDepths
  import Tasks = TargetTasks

  datatype Connection = Connection(id: string, generation: nat, targets: seq<Reported>)

  /** A debugged target counts as attached whatever it reports. */
  function AttachmentOf(c: Connection, debugged: set<TargetId>, id: string): Attachment {
    if (c.id, id) in debugged then Debugger else if IsAttached(c.targets, id) then CdpClient else Detached
  }

  /** The last report of a target counts. */
  predicate IsAttached(targets: seq<Reported>, id: string) {
    targets != [] &&
    (if targets[|targets| - 1].id == id then targets[|targets| - 1].attached
     else IsAttached(targets[..|targets| - 1], id))
  }

  function TargetNodes(c: Connection, debugged: set<TargetId>, nodes: seq<Node>): seq<TargetNode> {
    if nodes == [] then []
    else
      [TargetNode(c.id, nodes[0].id, c.generation, AttachmentOf(c, debugged, nodes[0].id), nodes[0].parent)]
      + TargetNodes(c, debugged, nodes[1..])
  }

  /** The target forest of a snapshot. */
  function ForestOf(connections: seq<Connection>, debugged: set<TargetId>): seq<TargetNode> {
    if connections == [] then []
    else
      TargetNodes(connections[0], debugged, Nodes(connections[0].targets)) + ForestOf(connections[1..], debugged)
  }

  /** Connections are kept by id. */
  predicate ById(connections: seq<Connection>) {
    forall i, j | 0 <= i < j < |connections| :: connections[i].id != connections[j].id
  }

  // ---- identities

  function Identities(forest: seq<TargetNode>): seq<TargetId> {
    if forest == [] then [] else [(forest[0].connectionId, forest[0].targetId)] + Identities(forest[1..])
  }

  lemma {:induction false} IdentitiesConcat(a: seq<TargetNode>, b: seq<TargetNode>)
    ensures Identities(a + b) == Identities(a) + Identities(b)
  {
    if a == [] {
      assert a + b == b;
    } else {
      assert (a + b)[1..] == a[1..] + b;
      IdentitiesConcat(a[1..], b);
    }
  }

  lemma {:induction false} NodeIdentities(c: Connection, debugged: set<TargetId>, nodes: seq<Node>)
    ensures var ids := Identities(TargetNodes(c, debugged, nodes));
      |ids| == |NodeIds(nodes)| && forall i | 0 <= i < |ids| :: ids[i] == (c.id, NodeIds(nodes)[i])
  {
    if nodes != [] {
      NodeIdentities(c, debugged, nodes[1..]);
      var node := TargetNode(c.id, nodes[0].id, c.generation, AttachmentOf(c, debugged, nodes[0].id), nodes[0].parent);
      assert ([node] + TargetNodes(c, debugged, nodes[1..]))[1..] == TargetNodes(c, debugged, nodes[1..]);
    }
  }

  ghost predicate OwnedBy(connections: seq<Connection>, x: TargetId) {
    exists c | c in connections :: c.id == x.0
  }

  lemma {:induction false} OwnIdentity(c: Connection, debugged: set<TargetId>, nodes: seq<Node>, x: TargetId)
    requires x in Identities(TargetNodes(c, debugged, nodes))
    ensures x.0 == c.id
  {
    NodeIdentities(c, debugged, nodes);
  }

  lemma {:induction false} IdentityIsOwned(connections: seq<Connection>, debugged: set<TargetId>, x: TargetId)
    requires x in Identities(ForestOf(connections, debugged))
    ensures OwnedBy(connections, x)
  {
    var c, rest := connections[0], ForestOf(connections[1..], debugged);
    var own := TargetNodes(c, debugged, Nodes(c.targets));
    IdentitiesConcat(own, rest);
    if x in Identities(own) {
      OwnIdentity(c, debugged, Nodes(c.targets), x);
    } else {
      IdentityIsOwned(connections[1..], debugged, x);
    }
  }

  lemma {:induction false} OthersOwn(connections: seq<Connection>, x: TargetId)
    requires ById(connections) && connections != [] && x.0 == connections[0].id
    ensures !OwnedBy(connections[1..], x)
  {
    forall c | c in connections[1..] ensures c.id != x.0 {
      var i :| 0 <= i < |connections| - 1 && connections[1..][i] == c;
      assert connections[0].id != connections[i + 1].id;
    }
  }

  lemma {:induction false} NodesDiffer(c: Connection, debugged: set<TargetId>)
    ensures Distinct(Identities(TargetNodes(c, debugged, Nodes(c.targets))))
  {
    EachTargetOnce(c.targets);
    NodeIdentities(c, debugged, Nodes(c.targets));
  }

  lemma {:induction false} IdentitiesDiffer(connections: seq<Connection>, debugged: set<TargetId>)
    requires ById(connections)
    ensures Distinct(Identities(ForestOf(connections, debugged)))
  {
    if connections != [] {
      var c, rest := connections[0], ForestOf(connections[1..], debugged);
      var own := TargetNodes(c, debugged, Nodes(c.targets));
      NodesDiffer(c, debugged);
      IdentitiesDiffer(connections[1..], debugged);
      IdentitiesConcat(own, rest);
      forall x | x in Identities(own) ensures x !in Identities(rest) {
        OwnIdentity(c, debugged, Nodes(c.targets), x);
        OthersOwn(connections, x);
        if x in Identities(rest) { IdentityIsOwned(connections[1..], debugged, x); }
      }
      DistinctConcat(Identities(own), Identities(rest));
    }
  }

  // ---- observers

  function RefIds(targets: seq<TargetRef>): seq<TargetId> {
    if targets == [] then [] else [Tasks.IdOf(targets[0])] + RefIds(targets[1..])
  }

  lemma {:induction false} AttachedIdentities(contextId: string, forest: seq<TargetNode>)
    requires Distinct(Identities(forest))
    ensures Distinct(RefIds(AttachedTargets(contextId, forest)))
    ensures forall x | x in RefIds(AttachedTargets(contextId, forest)) :: x in Identities(forest)
  {
    if forest != [] {
      assert Identities(forest)[1..] == Identities(forest[1..]);
      assert Identities(forest)[0] !in Identities(forest[1..]);
      AttachedIdentities(contextId, forest[1..]);
      var rest := AttachedTargets(contextId, forest[1..]);
      if forest[0].attachment == Debugger {
        var t := TargetRef(contextId, forest[0].connectionId, forest[0].targetId, forest[0].generation);
        assert ([t] + rest)[1..] == rest;
        DistinctConcat([Tasks.IdOf(t)], RefIds(rest));
      } else {
        assert [] + rest == rest;
      }
    }
  }

  lemma {:induction false} RefIdsAt(targets: seq<TargetRef>, i: nat)
    requires i < |targets|
    ensures |RefIds(targets)| == |targets| && RefIds(targets)[i] == Tasks.IdOf(targets[i])
  {
    if i > 0 { RefIdsAt(targets[1..], i - 1); } else if |targets| > 1 { RefIdsAt(targets[1..], 0); }
  }

  lemma {:induction false} RefsDiffer(targets: seq<TargetRef>)
    requires Distinct(RefIds(targets))
    ensures Tasks.IdsDiffer(targets)
  {
    forall i, j | 0 <= i < j < |targets| ensures Tasks.IdOf(targets[i]) != Tasks.IdOf(targets[j]) {
      RefIdsAt(targets, i);
      RefIdsAt(targets, j);
    }
  }

  lemma {:induction false} AttachedDiffer(contextId: string, connections: seq<Connection>, debugged: set<TargetId>)
    requires ById(connections)
    ensures Tasks.IdsDiffer(AttachedTargets(contextId, ForestOf(connections, debugged)))
  {
    IdentitiesDiffer(connections, debugged);
    AttachedIdentities(contextId, ForestOf(connections, debugged));
    RefsDiffer(AttachedTargets(contextId, ForestOf(connections, debugged)));
  }

  /** The targets are the attached ones of some snapshot of the service, or none. */
  ghost predicate OfService(targets: seq<TargetRef>) {
    targets == []
    || exists contextId: string, connections: seq<Connection>, debugged: set<TargetId> ::
         ById(connections) && targets == AttachedTargets(contextId, ForestOf(connections, debugged))
  }

  lemma {:induction false} ServiceIdsDiffer(history: seq<seq<TargetRef>>)
    requires forall targets | targets in history :: OfService(targets)
    ensures Tasks.AllDiffer(history)
  {
    forall targets | targets in history ensures Tasks.IdsDiffer(targets) {
      if targets != [] {
        var contextId: string, connections: seq<Connection>, debugged: set<TargetId> :|
          ById(connections) && targets == AttachedTargets(contextId, ForestOf(connections, debugged));
        AttachedDiffer(contextId, connections, debugged);
      }
    }
  }

  /** However often targets are set from snapshots of the service, the observers that run are those of the
      targets set last, one each. */
  lemma {:induction false} OnlyCurrentObservers(history: seq<seq<TargetRef>>)
    requires forall targets | targets in history :: OfService(targets)
    requires history != []
    ensures var s, last := Tasks.Controlled(history), history[|history| - 1];
      && |last| <= s.spawned
      && s.observers == Tasks.Spawned(map[], s.spawned - |last|, |history|, last)
      && s.handles == Tasks.Handles(s.spawned - |last|, last)
  {
    ServiceIdsDiffer(history);
    Tasks.OnlyLastRun(history);
  }

  // ---- depths

  lemma {:induction false} ProjectedConcat(a: seq<TargetNode>, b: seq<TargetNode>, attached: bool, connection: string)
    ensures Projected(a + b, attached, connection)
      == Projected(a, attached, connection) + Projected(b, attached, connection)
  {
    if a == [] {
      assert a + b == b;
    } else {
      assert (a + b)[1..] == a[1..] + b;
      ProjectedConcat(a[1..], b, attached, connection);
    }
  }

  lemma {:induction false} ForeignNodes(
      c: Connection, debugged: set<TargetId>, nodes: seq<Node>, attached: bool, connection: string)
    requires c.id != connection
    ensures Projected(TargetNodes(c, debugged, nodes), attached, connection) == []
  {
    if nodes != [] {
      var node := TargetNode(c.id, nodes[0].id, c.generation, AttachmentOf(c, debugged, nodes[0].id), nodes[0].parent);
      assert ([node] + TargetNodes(c, debugged, nodes[1..]))[1..] == TargetNodes(c, debugged, nodes[1..]);
      ForeignNodes(c, debugged, nodes[1..], attached, connection);
    }
  }

  function LinkIds(links: seq<Depths.Link>): set<string> { set l | l in links :: l.id }

  /** Each link is the first with its id, and no parent comes at or after its child. */
  ghost predicate Ordered(links: seq<Depths.Link>) {
    links != [] ==>
      && links[0].id !in LinkIds(links[1..])
      && (links[0].parent.Some? ==> links[0].parent.value !in LinkIds(links))
      && Ordered(links[1..])
  }

  /** What a connection's projection shows keeps the order of the connection's nodes. */
  lemma {:induction false} OwnNodesOrdered(c: Connection, debugged: set<TargetId>, nodes: seq<Node>, attached: bool)
    requires ParentsFirst(nodes) && Distinct(NodeIds(nodes))
    ensures var links := Links(Projected(TargetNodes(c, debugged, nodes), attached, c.id));
      Ordered(links) && forall x | x in LinkIds(links) :: x in NodeIds(nodes)
  {
    if nodes != [] {
      var node := TargetNode(c.id, nodes[0].id, c.generation, AttachmentOf(c, debugged, nodes[0].id), nodes[0].parent);
      var below := TargetNodes(c, debugged, nodes[1..]);
      assert ([node] + below)[1..] == below;
      assert NodeIds(nodes)[1..] == NodeIds(nodes[1..]) && NodeIds(nodes)[0] == nodes[0].id;
      OwnNodesOrdered(c, debugged, nodes[1..], attached);
      var rest := Projected(below, attached, c.id);
      if (node.attachment == Debugger) == attached {
        assert ([node] + rest)[1..] == rest;
        assert Links([node] + rest) == [Depths.Link(node.targetId, node.parentId)] + Links(rest);
        assert Links([node] + rest)[1..] == Links(rest);
      } else {
        assert [] + rest == rest;
      }
    }
  }

  lemma {:induction false} GroupOrdered(
      connections: seq<Connection>, debugged: set<TargetId>, attached: bool, connection: string)
    requires ById(connections)
    ensures Ordered(Links(Projected(ForestOf(connections, debugged), attached, connection)))
  {
    if connections != [] {
      var c, rest := connections[0], ForestOf(connections[1..], debugged);
      var own := TargetNodes(c, debugged, Nodes(c.targets));
      ProjectedConcat(own, rest, attached, connection);
      if c.id == connection {
        EachTargetOnce(c.targets);
        OwnNodesOrdered(c, debugged, Nodes(c.targets), attached);
        NotAmong(connections[1..], debugged, attached, connection);
        assert Projected(own, attached, connection) + [] == Projected(own, attached, connection);
      } else {
        ForeignNodes(c, debugged, Nodes(c.targets), attached, connection);
        GroupOrdered(connections[1..], debugged, attached, connection);
        assert [] + Projected(rest, attached, connection) == Projected(rest, attached, connection);
      }
    }
  }

  lemma {:induction false} NotAmong(
      connections: seq<Connection>, debugged: set<TargetId>, attached: bool, connection: string)
    requires forall c | c in connections :: c.id != connection
    ensures Projected(ForestOf(connections, debugged), attached, connection) == []
  {
    if connections != [] {
      var c := connections[0];
      ForeignNodes(c, debugged, Nodes(c.targets), attached, connection);
      NotAmong(connections[1..], debugged, attached, connection);
      ProjectedConcat(
        TargetNodes(c, debugged, Nodes(c.targets)), ForestOf(connections[1..], debugged), attached, connection);
    }
  }

  /** The position of the link with this id, counted from 1; 0 without one. */
  function Rank(links: seq<Depths.Link>, id: string): nat {
    if links == [] || id !in LinkIds(links) then 0
    else if links[0].id == id then 1
    else 1 + Rank(links[1..], id)
  }

  lemma {:induction false} ParentsRankLower(links: seq<Depths.Link>, l: Depths.Link)
    requires Ordered(links) && l in links && l.parent.Some?
    ensures Rank(links, l.parent.value) < Rank(links, l.id)
  {
    assert links == [links[0]] + links[1..];
    assert l.id in LinkIds(links);
    if l == links[0] {
      assert Rank(links, l.parent.value) == 0;
    } else {
      assert l in links[1..] && l.id in LinkIds(links[1..]);
      ParentsRankLower(links[1..], l);
      var p := l.parent.value;
      assert p in LinkIds(links) <==> p == links[0].id || p in LinkIds(links[1..]);
    }
  }

  lemma {:induction false} OrderedDiffer(links: seq<Depths.Link>, i: nat, j: nat)
    requires Ordered(links) && i < j < |links|
    ensures links[i].id != links[j].id
  {
    if i == 0 {
      assert links[1..][j - 1] in links[1..];
    } else {
      OrderedDiffer(links[1..], i - 1, j - 1);
    }
  }

  lemma {:induction false} OrderedHasNoCycle(links: seq<Depths.Link>, p: string)
    requires Ordered(links)
    ensures !Depths.OnCycle(Depths.ParentsOf(links), p)
  {
    var parents := Depths.ParentsOf(links);
    var rank := id => Rank(links, id);
    forall q | q in parents && parents[q].Some? ensures rank(parents[q].value) < rank(q) {
      Depths.ParentsFrom(links, q);
      ParentsRankLower(links, Depths.Link(q, parents[q]));
    }
    Depths.AcyclicHasNoCycle(parents, p, rank);
  }

  lemma {:induction false} LinkOf(group: seq<TargetNode>, t: TargetNode)
    requires t in group
    ensures Depths.Link(t.targetId, t.parentId) in Links(group)
  {
    if t != group[0] { LinkOf(group[1..], t); }
  }

  lemma {:induction false} LinkFrom(group: seq<TargetNode>, l: Depths.Link)
    requires l in Links(group)
    ensures exists t | t in group :: Depths.Link(t.targetId, t.parentId) == l
  {
    if l == Links(group)[0] {
      assert group[0] in group;
    } else {
      assert Links(group)[1..] == Links(group[1..]);
      LinkFrom(group[1..], l);
      var t :| t in group[1..] && Depths.Link(t.targetId, t.parentId) == l;
      assert t in group;
    }
  }

  function DepthsIn(group: seq<TargetNode>): map<string, nat> {
    Depths.DepthsOf(Depths.ParentsOf(Links(group)), Links(group))
  }

  /** With the service's target list, in a group of targets of a connection: a target whose parent is not in
      the group is at the top, any other is one deeper than its parent. */
  lemma {:induction false} GroupDepths(
      connections: seq<Connection>, debugged: set<TargetId>, attached: bool, connection: string,
      t: TargetNode, u: TargetNode)
    requires ById(connections)
    requires var group := Projected(ForestOf(connections, debugged), attached, connection); t in group && u in group
    ensures var group := Projected(ForestOf(connections, debugged), attached, connection);
      var depths := DepthsIn(group);
      && t.targetId in depths && u.targetId in depths
      && ((forall v | v in group :: t.parentId != Some(v.targetId)) ==> depths[t.targetId] == 0)
      && (t.parentId == Some(u.targetId) ==> depths[t.targetId] == depths[u.targetId] + 1)
  {
    var group := Projected(ForestOf(connections, debugged), attached, connection);
    GroupOrdered(connections, debugged, attached, connection);
    OrderedDepths(group, t, u);
  }

  lemma {:induction false} OrderedDepths(group: seq<TargetNode>, t: TargetNode, u: TargetNode)
    requires Ordered(Links(group)) && t in group && u in group
    ensures var depths := DepthsIn(group);
      && t.targetId in depths && u.targetId in depths
      && ((forall v | v in group :: t.parentId != Some(v.targetId)) ==> depths[t.targetId] == 0)
      && (t.parentId == Some(u.targetId) ==> depths[t.targetId] == depths[u.targetId] + 1)
  {
    var links, parents := Links(group), Depths.ParentsOf(Links(group));
    LinkOf(group, t);
    LinkOf(group, u);
    forall i, j | 0 <= i < j < |links| ensures links[i].id != links[j].id { OrderedDiffer(links, i, j); }
    OrderedHasNoCycle(links, u.targetId);
    Depths.DepthsExact(links, Depths.Link(t.targetId, t.parentId), Depths.Link(u.targetId, u.parentId));
    if t.parentId.Some? && t.parentId.value in parents {
      Depths.ParentsFrom(links, t.parentId.value);
      LinkFrom(group, Depths.Link(t.parentId.value, parents[t.parentId.value]));
    }
  }
}
