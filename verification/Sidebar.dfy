/** The rows of the sections other than Sources, and what sharing one set of expanded keys means for
    them. */
module Sidebar {
  import opened OrderedMap
  import opened Outline
  import opened Sorting
  import opened AppModel
  import opened SourceTrie
  import Numerals
  import Depths = TargetDepths
  import Proc = ProcessOutline
  import Res = ResourceOutline

  /** What the model does not compute: the processes offered as connections, by tree and process id, and
      the rows of Attention and Call Stacks. */
  datatype Parts = Parts(candidates: View -> seq<(nat, nat)>, others: (View, Section) -> seq<Row>)

  function ContextRows(contexts: seq<ContextSummary>): seq<Row> {
    if contexts == [] then []
    else [Row(ContextKey(contexts[0].id), 0, false, false)] + ContextRows(contexts[1..])
  }

  // ---- connections

  function Decimal2(ids: (nat, nat)): string {
    Numerals.Decimal(ids.0) + ":" + Numerals.Decimal(ids.1)
  }

  function CandidateRows(candidates: seq<(nat, nat)>): seq<Row> {
    if candidates == [] then []
    else
      [Row(OtherKey("connection-candidate", Decimal2(candidates[0])), 1, false, false)] + CandidateRows(candidates[1..])
  }

  /** A connection and, when it is open, its resources. */
  function OneConnection(v: View, id: string): seq<Row> {
    var key := OtherKey("connection", id);
    [Row(key, 1, v.resources.Some? && Res.OwnIds(v.resources.value.resources, id) != [], key in v.expanded)]
    + if key in v.expanded && v.resources.Some? then Res.ConnectionRows(v.resources.value, id, v.expanded, 2) else []
  }

  function AllConnections(v: View, ids: seq<string>): seq<Row> {
    if ids == [] then [] else OneConnection(v, ids[0]) + AllConnections(v, ids[1..])
  }

  function ConnectionRows(v: View, candidates: seq<(nat, nat)>): seq<Row> {
    if v.context.None? then []
    else
      var connections := SortIds(v.context.value.connections);
      var available, configured := OtherKey("connections", "available"), OtherKey("connections", "configured");
      [Row(available, 0, candidates != [], available in v.expanded)]
      + (if available in v.expanded then CandidateRows(candidates) else [])
      + [Row(configured, 0, connections != [], configured in v.expanded)]
      + (if configured in v.expanded then AllConnections(v, connections) else [])
  }

  // ---- targets

  function Projection(attached: bool): string { if attached then "attached" else "available" }

  /** The targets that the projection lists under a connection. */
  function Projected(forest: seq<TargetNode>, attached: bool, connection: string): seq<TargetNode> {
    if forest == [] then []
    else
      (if forest[0].connectionId == connection && (forest[0].attachment == Debugger) == attached then [forest[0]]
        else [])
      + Projected(forest[1..], attached, connection)
  }

  function Links(targets: seq<TargetNode>): seq<Depths.Link> {
    if targets == [] then []
    else [Depths.Link(targets[0].targetId, targets[0].parentId)] + Links(targets[1..])
  }

  function TargetNodeRows(targets: seq<TargetNode>, depths: map<string, nat>): seq<Row> {
    if targets == [] then []
    else
      var t := targets[0];
      var depth := if t.targetId in depths then depths[t.targetId] else 0;
      [Row(OtherKey("target", t.connectionId + ":" + t.targetId), depth + 2, false, false)]
      + TargetNodeRows(targets[1..], depths)
  }

  function GroupName(attached: bool, connection: string): string { Projection(attached) + ":" + connection }

  function GroupRows(v: View, targets: seq<TargetNode>, attached: bool, connection: string): seq<Row> {
    if targets == [] then []
    else
      var key := TargetGroupKey(GroupName(attached, connection));
      [Row(key, 1, true, key in v.expanded)]
      + if key in v.expanded
        then TargetNodeRows(targets, Depths.DepthsOf(Depths.ParentsOf(Links(targets)), Links(targets)))
        else []
  }

  function AllGroups(v: View, forest: seq<TargetNode>, attached: bool, connections: seq<string>): seq<Row> {
    if connections == [] then []
    else
      GroupRows(v, Projected(forest, attached, connections[0]), attached, connections[0])
      + AllGroups(v, forest, attached, connections[1..])
  }

  predicate AnyProjected(forest: seq<TargetNode>, attached: bool) {
    forest != [] && ((forest[0].attachment == Debugger) == attached || AnyProjected(forest[1..], attached))
  }

  function ProjectionRows(v: View, context: ContextSnapshot, attached: bool): seq<Row> {
    var key := OtherKey("targets", Projection(attached));
    [Row(key, 0, AnyProjected(context.forest, attached), key in v.expanded)]
    + if key in v.expanded then AllGroups(v, context.forest, attached, SortIds(context.connections)) else []
  }

  function TargetRows(v: View): seq<Row> {
    if v.context.None? then []
    else ProjectionRows(v, v.context.value, false) + ProjectionRows(v, v.context.value, true)
  }

  // ---- breakpoints and captures

  function InsertBreakpoint(s: seq<Breakpoint>, b: Breakpoint): seq<Breakpoint> {
    if s == [] || Less(b.id, s[0].id) then [b] + s else [s[0]] + InsertBreakpoint(s[1..], b)
  }

  function SortBreakpoints(s: seq<Breakpoint>): seq<Breakpoint> {
    if s == [] then [] else InsertBreakpoint(SortBreakpoints(s[..|s| - 1]), s[|s| - 1])
  }

  /** The places a breakpoint was applied at are told apart by script only, not by position. */
  function ApplicationRows(breakpointId: string, applications: seq<Application>): seq<Row> {
    if applications == [] then []
    else
      var a := applications[0];
      [Row(OtherKey("breakpoint-app", breakpointId + ":" + a.connectionId + ":" + a.targetId + ":" + a.scriptId),
           1, false, false)]
      + ApplicationRows(breakpointId, applications[1..])
  }

  function OneBreakpoint(v: View, b: Breakpoint): seq<Row> {
    var key := BreakpointKey(b.id);
    [Row(key, 0, b.applications != [], key in v.expanded)]
    + if key in v.expanded then ApplicationRows(b.id, b.applications) else []
  }

  function AllBreakpoints(v: View, breakpoints: seq<Breakpoint>): seq<Row> {
    if breakpoints == [] then [] else OneBreakpoint(v, breakpoints[0]) + AllBreakpoints(v, breakpoints[1..])
  }

  function BreakpointRows(v: View): seq<Row> {
    if v.context.None? then [] else AllBreakpoints(v, SortBreakpoints(v.context.value.breakpoints))
  }

  function CaptureRows(captures: seq<string>): seq<Row> {
    if captures == [] then [] else [Row(OtherKey("capture", captures[0]), 0, false, false)] + CaptureRows(captures[1..])
  }

  // ---- all sections

  function RowsOf(parts: Parts, v: View, s: Section): seq<Row> {
    match s
    case Contexts => ContextRows(v.contexts)
    case Processes => Proc.ProcessRows(v.processes, v.expanded)
    case Connections => ConnectionRows(v, parts.candidates(v))
    case Targets => TargetRows(v)
    case Breakpoints => BreakpointRows(v)
    case Captures => CaptureRows(SortIds(v.captures))
    case Sources => []
    case _ => parts.others(v, s)
  }

  function EnvOf(place: Placer, parts: Parts): Env {
    Env(place, (v, s) => RowsOf(parts, v, s))
  }
}
