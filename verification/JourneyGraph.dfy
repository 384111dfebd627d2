/** validateGraph as a whole, and what a graph without issues promises to every run through it. */
module JourneyGraph {
  import opened Wrappers
  import opened Collections
  import opened Digraph
  import opened JourneyModel
  import opened JourneyValidation

  // ---------------------------------------------------------------- reachability

  lemma {:induction false} ClosedHoldsWalk(arcs: seq<Arc>, closed: set<string>, p: seq<string>)
    requires Walk(arcs, p) && p[0] in closed
    requires forall a | a in arcs && a.from in closed :: a.to in closed
    ensures p[|p| - 1] in closed
    decreases |p|
  {
    if |p| > 1 {
      WalkPart(arcs, p, 0, |p| - 1);
      ClosedHoldsWalk(arcs, closed, p[0..|p| - 1]);
      assert Arc(p[|p| - 2], p[|p| - 1]) in arcs;
    }
  }

  lemma Onward(arcs: seq<Arc>, a: string, b: string, c: string)
    requires Reachable(arcs, a, b) && Arc(b, c) in arcs
    ensures Reachable(arcs, a, c)
  {
    var p :| Walk(arcs, p) && p[0] == a && p[|p| - 1] == b;
    var q := p + [c];
    forall i | 0 <= i < |q| - 1 ensures Arc(q[i], q[i + 1]) in arcs {
      if i < |p| - 1 { assert Arc(p[i], p[i + 1]) in arcs; }
    }
    assert Walk(arcs, q) && q[0] == a && q[|q| - 1] == c;
  }

  /** The search stack starts with the start id unless that is missing or the empty string. */
  predicate Started(start: Option<string>) { start.Some? && start.value != "" }

  ghost predicate SearchOk(arcs: seq<Arc>, start: string, reached: set<string>, pending: seq<string>) {
    && (start in reached || start in pending)
    && (forall x | x in reached || x in pending :: Reachable(arcs, start, x))
    && (forall a | a in arcs && a.from in reached :: a.to in reached || a.to in pending)
  }

  /** The depth-first search over the adjacency table; it ends on cyclic graphs too. */
  method Reach(start: Option<string>, adjacency: map<string, seq<string>>, ghost arcs: seq<Arc>)
      returns (reached: set<string>)
    requires AdjacencyOf(arcs, adjacency)
    ensures forall x :: x in reached <==> Started(start) && Reachable(arcs, start.value, x)
  {
    hide SearchOk, Reachable, Targets;
    reached := {};
    if !Started(start) { return; }
    var pending := [start.value];
    ghost var universe := {start.value} + set a | a in arcs :: a.to;
    SearchStarts(arcs, start.value);
    while pending != []
      invariant SearchOk(arcs, start.value, reached, pending)
      invariant (forall x | x in pending :: x in universe) && reached <= universe
      decreases |universe - reached|, |pending|
    {
      var id := pending[|pending| - 1];
      var rest := pending[..|pending| - 1];
      if id in reached {
        SkipKeeps(arcs, start.value, reached, pending);
        pending := rest;
      } else {
        VisitKeeps(arcs, start.value, reached, pending, From(adjacency, id));
        TargetsAreArcs(arcs, id);
        assert From(adjacency, id) == Targets(arcs, id);
        forall t | t in From(adjacency, id) ensures t in universe { assert Arc(id, t) in arcs; }
        SubsetSize(universe - (reached + {id}), (universe - reached) - {id});
        reached := reached + {id};
        pending := rest + From(adjacency, id);
      }
    }
    SearchEnds(arcs, start.value, reached);
  }

  lemma SearchStarts(arcs: seq<Arc>, start: string)
    ensures SearchOk(arcs, start, {}, [start])
  {
    assert Walk(arcs, [start]);
  }

  lemma SearchEnds(arcs: seq<Arc>, start: string, reached: set<string>)
    requires SearchOk(arcs, start, reached, [])
    ensures forall x :: x in reached <==> Reachable(arcs, start, x)
  {
    forall x | Reachable(arcs, start, x) ensures x in reached {
      var p :| Walk(arcs, p) && p[0] == start && p[|p| - 1] == x;
      ClosedHoldsWalk(arcs, reached, p);
    }
  }

  lemma SkipKeeps(arcs: seq<Arc>, start: string, reached: set<string>, pending: seq<string>)
    requires pending != [] && SearchOk(arcs, start, reached, pending) && pending[|pending| - 1] in reached
    ensures SearchOk(arcs, start, reached, pending[..|pending| - 1])
  {
    hide Reachable;
    assert pending == pending[..|pending| - 1] + [pending[|pending| - 1]];
  }

  lemma VisitKeeps(arcs: seq<Arc>, start: string, reached: set<string>, pending: seq<string>, targets: seq<string>)
    requires pending != [] && SearchOk(arcs, start, reached, pending)
      && targets == Targets(arcs, pending[|pending| - 1])
    ensures SearchOk(arcs, start, reached + {pending[|pending| - 1]}, pending[..|pending| - 1] + targets)
  {
    hide Reachable, Targets;
    var id := pending[|pending| - 1];
    var rest := pending[..|pending| - 1];
    assert pending == rest + [id];
    TargetsAreArcs(arcs, id);
    forall t | t in targets ensures Reachable(arcs, start, t) {
      Onward(arcs, start, id, t);
    }
    forall a | a in arcs && a.from == id ensures a.to in targets {
      assert a == Arc(id, a.to);
    }
  }

  // ---------------------------------------------------------------- the validator

  lemma FitsIsOk(nodes: seq<Node>, table: map<string, NodeKind>, order: seq<string>, e: Edge)
    requires TableOf(nodes, table, order) && IdsOk(nodes)
    ensures EdgeFits(table, e) <==> EdgeOk(nodes, e)
  {
    assert table.Keys == Ids(nodes);
    if EdgeFits(table, e) {
      assert e.source in Ids(nodes);
      var n :| n in nodes && n.id == Some(e.source);
      assert table[n.id.value] == n.kind;
    }
    if EdgeOk(nodes, e) {
      var n :| n in nodes && n.id == Some(e.source) && e.port in OutputPorts(n.kind);
      assert table[n.id.value] == n.kind;
    }
  }

  lemma TableMeansOk(nodes: seq<Node>, table: map<string, NodeKind>, order: seq<string>, edges: seq<Edge>,
      outputs: set<(string, string)>)
    requires TableOf(nodes, table, order) && IdsOk(nodes)
    requires outputs == set e | e in edges :: (e.source, e.port)
    ensures table.Keys == Ids(nodes)
    ensures EdgesFit(table, edges) <==> EdgesOk(nodes, edges)
    ensures (forall id | id in table :: PortsIn(table, id, outputs)) <==> PortsOk(nodes, edges)
  {
    assert table.Keys == Ids(nodes);
    forall e ensures EdgeFits(table, e) <==> EdgeOk(nodes, e) {
      FitsIsOk(nodes, table, order, e);
    }
    hide EdgeFits, EdgeOk, IdsOk;
    forall id, port ensures (id, port) in outputs <==> Connected(edges, id, port) {
      if e :| e in edges && e.source == id && e.port == port { assert (e.source, e.port) in outputs; }
    }
    if PortsOk(nodes, edges) {
      forall id | id in table ensures PortsIn(table, id, outputs) {
        var n :| n in nodes && n.id == Some(id);
        assert table[id] == n.kind;
      }
    }
    if forall id | id in table :: PortsIn(table, id, outputs) {
      forall n | n in nodes && n.id.Some? ensures forall port | port in OutputPorts(n.kind) ::
        Connected(edges, n.id.value, port) {
        assert PortsIn(table, n.id.value, outputs);
        assert table[n.id.value] == n.kind;
      }
    }
  }

  /** The arcs of correct edges join nodes. */
  lemma OkArcsJoinNodes(nodes: seq<Node>, edges: seq<Edge>)
    requires EdgesOk(nodes, edges)
    ensures forall a | a in Arcs(edges) :: a.from in Ids(nodes) && a.to in Ids(nodes)
  {
    forall a | a in Arcs(edges) ensures a.from in Ids(nodes) && a.to in Ids(nodes) {
      ArcsAreEdges(edges);
      assert Arc(a.from, a.to) in Arcs(edges);
      var e :| e in edges && e.source == a.from && e.target == Some(a.to);
      assert EdgeOk(nodes, e);
    }
  }

  predicate HasStart(def: Definition, table: map<string, NodeKind>) {
    def.start.Some? && def.start.value in table
  }

  /**
   The validator. It is silent exactly on well-formed graphs. The cycle issue means a cycle, or an edge
   into a node from a source that is no node: such an edge counts as incoming and is never taken off.
   */
  method ValidateGraph(def: Definition) returns (issues: seq<Issue>)
    ensures issues == [] <==> WellFormed(def)
    ensures Cycle in issues <==>
      def.edges.Some? && (HasCycle(Arcs(def.edges.value), KnownIds(def.nodes))
        || !Inward(Arcs(def.edges.value), KnownIds(def.nodes)))
    ensures forall id :: Unreachable(id) in issues <==>
      && def.edges.Some? && id in KnownIds(def.nodes)
      && !(Started(def.start) && Reachable(Arcs(def.edges.value), def.start.value, id))
  {
    hide *;
    var table, order, nodeIssues := CollectNodes(def.nodes);
    issues := nodeIssues;
    TableKeys(def, def.nodes, table, order);
    if !HasStart(def, table) { issues := issues + [NoStart]; }
    if def.edges == None {
      issues := issues + [NoEdges];
      NoEdgesNotWellFormed(def);
      LocalHasNone(nodeIssues);
      return;
    }
    var adjacency, sources, outputs, edgeIssues := CheckEdges(table, def.edges.value);
    var portIssues := CheckPorts(table, order, outputs);
    var graphIssues := CheckGraph(def.start, order, adjacency, sources, Arcs(def.edges.value));
    issues := issues + edgeIssues + portIssues + graphIssues;
    LocalHasNone(nodeIssues);
    LocalHasNone(edgeIssues);
    LocalHasNone(portIssues);
    Verdict(def, table, order, outputs);
  }

  lemma NoEdgesNotWellFormed(def: Definition)
    requires def.edges == None
    ensures !WellFormed(def)
  {}

  lemma LocalHasNone(issues: seq<Issue>)
    requires Local(issues)
    ensures Cycle !in issues && forall id :: Unreachable(id) !in issues
  {
    forall x | x in issues ensures !x.Cycle? && !x.Unreachable? {}
  }

  /** The last two passes: the topological check and the search from the start. */
  method CheckGraph(start: Option<string>, order: seq<string>, adjacency: map<string, seq<string>>,
      sources: seq<string>, ghost arcs: seq<Arc>)
    returns (issues: seq<Issue>)
    requires Distinct(order) && Distinct(sources) && Elements(sources) == adjacency.Keys && AdjacencyOf(arcs, adjacency)
    ensures Cycle in issues <==> HasCycle(arcs, Elements(order)) || !Inward(arcs, Elements(order))
    ensures forall id :: Unreachable(id) in issues <==>
      id in Elements(order)
      && !(Started(start) && Reachable(arcs, start.value, id))
    ensures issues == [] <==>
      && !HasCycle(arcs, Elements(order)) && Inward(arcs, Elements(order))
      && forall id | id in Elements(order) :: Started(start) && Reachable(arcs, start.value, id)
  {
    hide HasCycle, Reachable, Inward, AdjacencyOf, Topological, Complete;
    var queue := Kahn(order, adjacency, sources, arcs);
    CoversIffAcyclic(arcs, Elements(order), queue);
    SizeMeansDistinct(order);
    issues := [];
    if |queue| != |order| { issues := [Cycle]; }
    var reached := Reach(start, adjacency, arcs);
    var unreached := Unreached(order, reached);
    assert unreached != [] ==> unreached[0] in unreached;
    assert forall id | id in Elements(order) :: id in reached || Unreachable(id) in unreached;
    issues := issues + unreached;
  }

  lemma TableKeys(def: Definition, nodes: seq<Node>, table: map<string, NodeKind>, order: seq<string>)
    requires TableOf(nodes, table, order) && table.Keys == KnownIds(nodes)
    ensures Distinct(order) && Elements(order) == table.Keys
    ensures HasStart(def, table) ==> Started(def.start)
    ensures IdsOk(nodes) ==> table.Keys == Ids(nodes)
  {}

  method Unreached(order: seq<string>, reached: set<string>) returns (issues: seq<Issue>)
    ensures forall x :: x in issues <==> x.Unreachable? && x.id in order && x.id !in reached
  {
    issues := [];
    for i := 0 to |order|
      invariant forall x :: x in issues <==> x.Unreachable? && x.id in order[..i] && x.id !in reached
    {
      assert order[..i + 1] == order[..i] + [order[i]];
      if order[i] !in reached { issues := issues + [Unreachable(order[i])]; }
    }
    assert order[..|order|] == order;
  }

  /** The conditions the five passes decide are together the definition of a well-formed graph. */
  lemma {:induction false} Verdict(def: Definition, table: map<string, NodeKind>, order: seq<string>,
      outputs: set<(string, string)>)
    requires TableOf(def.nodes, table, order) && table.Keys == KnownIds(def.nodes) && def.edges.Some?
    requires outputs == set e | e in def.edges.value :: (e.source, e.port)
    ensures WellFormed(def) <==>
      && IdsOk(def.nodes)
      && HasStart(def, table)
      && EdgesFit(table, def.edges.value)
      && (forall id | id in table :: PortsIn(table, id, outputs))
      && !HasCycle(Arcs(def.edges.value), table.Keys) && Inward(Arcs(def.edges.value), table.Keys)
      && (forall id | id in table :: Reachable(Arcs(def.edges.value), def.start.value, id))
  {
    hide HasCycle, Reachable, Arcs, EdgeFits;
    if IdsOk(def.nodes) {
      TableMeansOk(def.nodes, table, order, def.edges.value, outputs);
      hide IdsOk, TableOf, KnownIds;
      if EdgesOk(def.nodes, def.edges.value) { OkArcsJoinNodes(def.nodes, def.edges.value); }
      hide EdgesOk, EdgesFit, PortsOk;
    }
  }

  /** The cycle issue can appear without a cycle: one edge into the only node, from no node. */
  lemma StrayEdgeIsReportedAsCycle(edges: seq<Edge>)
    requires edges == [Edge("e", "x", "next", Some("a"))]
    ensures !HasCycle(Arcs(edges), {"a"}) && !Inward(Arcs(edges), {"a"})
  {
    assert Arcs(edges) == [Arc("x", "a")] by {
      assert edges[1..] == [];
    }
    assert Arc("x", "a") in Arcs(edges);
    forall p | |p| >= 2 && Walk(Arcs(edges), p) ensures p[0] == "x" {
      assert Arc(p[0], p[1]) in Arcs(edges);
    }
  }

  // ---------------------------------------------------------------- runs

  /** The first edge leaving a node through a port. */
  function Next(edges: seq<Edge>, id: string, port: string): Option<Edge> {
    if edges == [] then None
    else if edges[0].source == id && edges[0].port == port then Some(edges[0])
    else Next(edges[1..], id, port)
  }

  lemma {:induction false} NextIsTheEdge(edges: seq<Edge>, id: string, port: string)
    ensures Next(edges, id, port).Some? <==> Connected(edges, id, port)
    ensures Next(edges, id, port).Some? ==>
      var e := Next(edges, id, port).value; e in edges && e.source == id && e.port == port
  {
    if edges != [] {
      NextIsTheEdge(edges[1..], id, port);
      assert edges == [edges[0]] + edges[1..];
      if Connected(edges, id, port) && !(edges[0].source == id && edges[0].port == port) {
        var e :| e in edges && e.source == id && e.port == port;
        assert e in edges[1..];
      }
    }
  }

  /** Where a run is: at a node, past the end, or with no edge to follow. */
  datatype Position = At(id: string) | Ended | Stuck

  function Follow(def: Definition, at: string, port: string): Position {
    if def.edges == None then Stuck
    else match Next(def.edges.value, at, port)
      case None => Stuck
      case Some(e) => if e.target.Some? then At(e.target.value) else Ended
  }

  /** The nodes a run visits when it leaves the k-th node through the k-th port; None once it got stuck. */
  ghost predicate Visits(def: Definition, ports: seq<string>, path: seq<string>, last: Position) {
    && |path| == |ports| && def.start.Some?
    && (forall k | 0 <= k < |ports| :: exists n | n in def.nodes ::
      n.id == Some(path[k])
      && ports[k] in OutputPorts(n.kind))
    && (path == [] ==> last == At(def.start.value))
    && (path != [] ==> path[0] == def.start.value && last == Follow(def, path[|path| - 1], ports[|path| - 1]))
    && (forall k | 0 <= k < |path| - 1 :: Follow(def, path[k], ports[k]) == At(path[k + 1]))
  }

  /**
   However the ports are chosen, a run through a well-formed graph never gets stuck, sees no node twice,
   and so ends within as many steps as there are nodes.
   */
  lemma {:induction false} EveryRunEnds(def: Definition, ports: seq<string>, path: seq<string>, last: Position)
    requires WellFormed(def) && Visits(def, ports, path, last)
    ensures Distinct(path) && |path| <= |def.nodes|
    ensures last != Stuck
    ensures |path| == |def.nodes| ==> last == Ended
  {
    hide HasCycle, Reachable, EdgesOk, PortsOk, IdsOk, Visits, Ids, Arcs;
    var arcs := Arcs(def.edges.value);
    var full := path + if last.At? then [last.id] else [];
    RunIsWalk(def, ports, path, last, full);
    if full != [] {
      assert Elements(full) <= Ids(def.nodes);
      WalksAreShort(arcs, Ids(def.nodes), full);
    }
    IdCount(def.nodes);
    assert path == full[..|path|];
  }

  lemma {:induction false} NeverStuck(def: Definition, ports: seq<string>, path: seq<string>, last: Position, k: nat)
    requires WellFormed(def) && Visits(def, ports, path, last) && k < |path|
    ensures Follow(def, path[k], ports[k]) != Stuck && path[k] in Ids(def.nodes)
  {
    hide HasCycle, Reachable, EdgesOk, IdsOk;
    var n :| n in def.nodes && n.id == Some(path[k]) && ports[k] in OutputPorts(n.kind);
    assert Connected(def.edges.value, n.id.value, ports[k]);
    NextIsTheEdge(def.edges.value, path[k], ports[k]);
  }

  lemma {:induction false} RunIsWalk(def: Definition, ports: seq<string>, path: seq<string>, last: Position,
      full: seq<string>)
    requires WellFormed(def) && Visits(def, ports, path, last)
    requires full == path + (if last.At? then [last.id] else []) && def.edges.Some?
    ensures last != Stuck && |path| == |ports|
    ensures full != [] ==> Walk(Arcs(def.edges.value), full) && forall x | x in full :: x in Ids(def.nodes)
  {
    hide HasCycle, Reachable, PortsOk, IdsOk, Ids, EdgesOk, Follow, WellFormed;
    forall k | 0 <= k < |path| ensures path[k] in Ids(def.nodes) { NeverStuck(def, ports, path, last, k); }
    if path != [] { NeverStuck(def, ports, path, last, |path| - 1); }
    StartIsNode(def);
    forall k | 0 <= k < |full| - 1 ensures Arc(full[k], full[k + 1]) in Arcs(def.edges.value) {
      assert Follow(def, path[k], ports[k]) == At(full[k + 1]);
      FollowedInGraph(def, path[k], ports[k]);
    }
    if last.At? && path != [] {
      assert Arc(full[|full| - 2], full[|full| - 1]) in Arcs(def.edges.value);
      TargetsAreNodes(def, full[|full| - 2], full[|full| - 1]);
    }
  }

  lemma StartIsNode(def: Definition)
    requires WellFormed(def)
    ensures def.start.Some? && def.start.value in Ids(def.nodes)
  {}

  lemma FollowedInGraph(def: Definition, at: string, port: string)
    requires WellFormed(def) && Follow(def, at, port).At?
    ensures def.edges.Some? && Arc(at, Follow(def, at, port).id) in Arcs(def.edges.value)
  {
    hide HasCycle, Reachable, Follow;
    FollowedIsArc(def, at, port);
  }

  lemma TargetsAreNodes(def: Definition, a: string, b: string)
    requires WellFormed(def) && Arc(a, b) in Arcs(def.edges.value)
    ensures b in Ids(def.nodes)
  {
    hide HasCycle, Reachable;
    OkArcsJoinNodes(def.nodes, def.edges.value);
  }

  lemma FollowedIsArc(def: Definition, at: string, port: string)
    requires def.edges.Some? && Follow(def, at, port).At?
    ensures Arc(at, Follow(def, at, port).id) in Arcs(def.edges.value)
  {
    NextIsTheEdge(def.edges.value, at, port);
    ArcsAreEdges(def.edges.value);
  }

  lemma {:induction false} IdCount(nodes: seq<Node>)
    ensures |Ids(nodes)| <= |nodes|
  {
    if nodes == [] {
      assert Ids(nodes) == {};
    } else {
      var n := |nodes| - 1;
      IdCount(nodes[..n]);
      assert nodes == nodes[..n] + [nodes[n]];
      assert Ids(nodes) == Ids(nodes[..n]) + if nodes[n].id.Some? then {nodes[n].id.value} else {};
    }
  }

  /** At each node and port of a well-formed graph exactly one edge leaves. */
  lemma OneWayOut(def: Definition, n: Node, port: string)
    requires WellFormed(def) && n in def.nodes && port in OutputPorts(n.kind)
    ensures exists i | 0 <= i < |def.edges.value| :: IsExit(def, i, n, port) && forall j | 0 <= j < |def.edges.value|
      && IsExit(def, j, n, port) :: i == j
  {
    hide HasCycle, Reachable;
    var edges := def.edges.value;
    assert IdsOk(def.nodes);
    assert n.id.Some? by { var k :| 0 <= k < |def.nodes| && def.nodes[k] == n; assert ValidId(def.nodes[k].id); }
    assert Connected(edges, n.id.value, port);
    var e :| e in edges && e.source == n.id.value && e.port == port;
    var i :| 0 <= i < |edges| && edges[i] == e;
    assert IsExit(def, i, n, port);
  }

  predicate IsExit(def: Definition, i: nat, n: Node, port: string) {
    def.edges.Some? && i < |def.edges.value| && Some(def.edges.value[i].source) == n.id
      && def.edges.value[i].port == port
  }
}
