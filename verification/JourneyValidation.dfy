/** validateGraph: its loops, and the proof that it reports nothing exactly on well-formed graphs. */
module JourneyValidation {
  import opened Wrappers
  import opened Collections
  import opened Digraph
  import opened JourneyModel

  datatype Issue =
    | InvalidNodeId(index: nat)
    | DuplicateNodeId(id: string)
    | NoStart
    | NoEdges
    | InvalidEdgeId(id: string)
    | UnknownSource(id: string)
    | UnsupportedPort(id: string)
    | UnknownTarget(id: string)
    | DuplicateOutput(id: string)
    | MissingOutput(id: string, port: string)
    | Cycle
    | Unreachable(id: string)

  /** The issues of the loops before the two graph searches. */
  predicate Local(issues: seq<Issue>) {
    forall x | x in issues :: !x.Cycle? && !x.Unreachable?
  }

  // ---------------------------------------------------------------- nodes

  /** The ids that make it into the table. */
  function KnownIds(nodes: seq<Node>): set<string> {
    set n | n in nodes && ValidId(n.id) :: n.id.value
  }

  /** The id table after the first k nodes: each valid id with the kind of its first node. */
  ghost predicate TableOf(nodes: seq<Node>, table: map<string, NodeKind>, order: seq<string>) {
    && Distinct(order) && Elements(order) == table.Keys
    && (forall id | id in table :: id in Ids(nodes))
    && (IdsOk(nodes) ==>
          && (forall n | n in nodes :: n.id.Some? && n.id.value in table && table[n.id.value] == n.kind)
          && |order| == |nodes|)
  }

  method CollectNodes(nodes: seq<Node>) returns (table: map<string, NodeKind>, order: seq<string>, issues: seq<Issue>)
    ensures TableOf(nodes, table, order) && table.Keys == KnownIds(nodes)
    ensures (issues == [] <==> IdsOk(nodes)) && Local(issues)
  {
    table, order, issues := map[], [], [];
    for i := 0 to |nodes|
      invariant Distinct(order) && Elements(order) == table.Keys
      invariant forall id | id in table :: exists n | n in nodes[..i] :: n.id == Some(id) && ValidId(n.id)
      invariant forall n | n in nodes[..i] && ValidId(n.id) :: n.id.value in table
      invariant (issues == [] <==> IdsOk(nodes[..i])) && Local(issues)
      invariant IdsOk(nodes[..i]) ==> |order| == i && forall n | n in nodes[..i] ::
        n.id.Some? && n.id.value in table
        && table[n.id.value] == n.kind
    {
      var n := nodes[i];
      assert nodes[..i + 1] == nodes[..i] + [n];
      if !ValidId(n.id) {
        issues := issues + [InvalidNodeId(i)];
        assert !IdsOk(nodes[..i + 1]) by { assert nodes[..i + 1][i] == n; }
      } else if n.id.value in table {
        issues := issues + [DuplicateNodeId(n.id.value)];
        var m :| m in nodes[..i] && m.id == n.id;
        var k :| 0 <= k < i && nodes[k] == m;
        assert !IdsOk(nodes[..i + 1]) by {
          assert nodes[..i + 1][k].id == nodes[..i + 1][i].id;
        }
      } else {
        AddedId(nodes, i, table);
        table := table[n.id.value := n.kind];
        order := order + [n.id.value];
      }
    }
    assert nodes[..|nodes|] == nodes;
    forall id | id in table ensures id in Ids(nodes) {
      var n :| n in nodes && n.id == Some(id);
    }
  }

  lemma AddedId(nodes: seq<Node>, i: nat, table: map<string, NodeKind>)
    requires i < |nodes| && ValidId(nodes[i].id) && nodes[i].id.value !in table
    requires forall n | n in nodes[..i] && ValidId(n.id) :: n.id.value in table
    ensures IdsOk(nodes[..i + 1]) <==> IdsOk(nodes[..i])
  {
    var longer, shorter := nodes[..i + 1], nodes[..i];
    if IdsOk(longer) {
      forall k | 0 <= k < i ensures ValidId(shorter[k].id) { assert shorter[k] == longer[k]; }
      forall k, l | 0 <= k < l < i ensures shorter[k].id != shorter[l].id { assert longer[k].id != longer[l].id; }
    }
    if IdsOk(shorter) {
      forall k | 0 <= k < |longer| ensures ValidId(longer[k].id) { if k < i { assert longer[k] == shorter[k]; } }
      forall k, l | 0 <= k < l < |longer| ensures longer[k].id != longer[l].id {
        if l < i {
          assert shorter[k].id != shorter[l].id;
        } else {
          assert shorter[k] in shorter;
          assert ValidId(shorter[k].id);
        }
      }
    }
  }

  // ---------------------------------------------------------------- edges

  predicate EdgeFits(table: map<string, NodeKind>, e: Edge) {
    && Nonempty(e.id)
    && e.source in table && e.port in OutputPorts(table[e.source])
    && (e.target.Some? ==> e.target.value in table)
  }

  predicate EdgesFit(table: map<string, NodeKind>, edges: seq<Edge>) {
    && (forall e | e in edges :: EdgeFits(table, e))
    && (forall i, j | 0 <= i < j < |edges| :: edges[i].id != edges[j].id)
    && (forall i, j | 0 <= i < j < |edges| :: (edges[i].source, edges[i].port) != (edges[j].source, edges[j].port))
  }

  function From(adjacency: map<string, seq<string>>, v: string): seq<string> {
    if v in adjacency then adjacency[v] else []
  }

  /** The adjacency table lists every vertex's targets in arc order. */
  ghost predicate AdjacencyOf(arcs: seq<Arc>, adjacency: map<string, seq<string>>) {
    && (forall v :: From(adjacency, v) == Targets(arcs, v))
    && (forall v | v in adjacency :: adjacency[v] != [])
  }

  lemma {:induction false} TargetsSnoc(arcs: seq<Arc>, a: Arc, v: Vertex)
    ensures Targets(arcs + [a], v) == Targets(arcs, v) + if a.from == v then [a.to] else []
  {
    if arcs == [] {
      assert [] + [a] == [a];
    } else {
      assert (arcs + [a])[1..] == arcs[1..] + [a];
      TargetsSnoc(arcs[1..], a, v);
    }
  }

  lemma {:induction false} ArcsSnoc(edges: seq<Edge>, e: Edge)
    ensures Arcs(edges + [e]) == Arcs(edges) + if e.target.Some? then [Arc(e.source, e.target.value)] else []
  {
    if edges == [] {
      assert [] + [e] == [e];
    } else {
      assert (edges + [e])[1..] == edges[1..] + [e];
      ArcsSnoc(edges[1..], e);
    }
  }

  lemma EdgesSnoc(table: map<string, NodeKind>, edges: seq<Edge>, e: Edge)
    ensures EdgesFit(table, edges + [e]) <==>
      && EdgesFit(table, edges) && EdgeFits(table, e)
      && (forall f | f in edges :: f.id != e.id && (f.source, f.port) != (e.source, e.port))
  {
    var longer := edges + [e];
    if EdgesFit(table, longer) {
      assert longer[|edges|] == e;
      forall f | f in edges ensures f.id != e.id && (f.source, f.port) != (e.source, e.port) {
        var i :| 0 <= i < |edges| && edges[i] == f;
        assert longer[i] == f;
      }
      forall i | 0 <= i < |edges| ensures EdgeFits(table, edges[i]) { assert longer[i] == edges[i]; }
      forall i, j | 0 <= i < j < |edges| ensures edges[i].id != edges[j].id
        && (edges[i].source, edges[i].port) != (edges[j].source, edges[j].port) {
        assert longer[i] == edges[i] && longer[j] == edges[j];
      }
    }
  }

  /** The checks on one edge, given whether its id and its output were already used. */
  method CheckEdge(table: map<string, NodeKind>, edge: Edge, duplicate: bool, taken: bool) returns (issues: seq<Issue>)
    ensures (issues == [] <==> EdgeFits(table, edge) && !duplicate && !taken) && Local(issues)
  {
    issues := [];
    if !Nonempty(edge.id) || duplicate { issues := issues + [InvalidEdgeId(edge.id)]; }
    if edge.source !in table {
      issues := issues + [UnknownSource(edge.id)];
    } else if edge.port !in OutputPorts(table[edge.source]) {
      issues := issues + [UnsupportedPort(edge.id)];
    }
    if edge.target.Some? && edge.target.value !in table { issues := issues + [UnknownTarget(edge.id)]; }
    if taken { issues := issues + [DuplicateOutput(edge.id)]; }
  }

  method CheckEdges(table: map<string, NodeKind>, edges: seq<Edge>)
    returns (adjacency: map<string, seq<string>>, sources: seq<string>, outputs: set<(string, string)>,
      issues: seq<Issue>)
    ensures AdjacencyOf(Arcs(edges), adjacency) && Distinct(sources) && Elements(sources) == adjacency.Keys
    ensures outputs == set e | e in edges :: (e.source, e.port)
    ensures (issues == [] <==> EdgesFit(table, edges)) && Local(issues)
  {
    adjacency, sources, outputs, issues := map[], [], {}, [];
    var ids: set<string> := {};
    assert EdgesFit(table, edges[..0]);
    for i := 0 to |edges|
      invariant AdjacencyOf(Arcs(edges[..i]), adjacency) && Distinct(sources) && Elements(sources) == adjacency.Keys
      invariant ids == set e | e in edges[..i] :: e.id
      invariant outputs == set e | e in edges[..i] :: (e.source, e.port)
      invariant (issues == [] <==> EdgesFit(table, edges[..i])) && Local(issues)
    {
      hide EdgesFit, AdjacencyOf, Distinct, Elements, EdgeFits;
      var edge := edges[i];
      ghost var done := edges[..i];
      assert edges[..i + 1] == done + [edge];
      EdgesSnoc(table, done, edge);
      ArcsSnoc(done, edge);
      var duplicate := edge.id in ids;
      assert duplicate <==> exists f | f in done :: f.id == edge.id;
      var taken := (edge.source, edge.port) in outputs;
      assert taken <==> exists f | f in done :: (f.source, f.port) == (edge.source, edge.port);
      var found := CheckEdge(table, edge, duplicate, taken);
      issues := issues + found;
      ids := ids + {edge.id};
      outputs := outputs + {(edge.source, edge.port)};
      if edge.target.Some? {
        adjacency, sources := Connect(adjacency, sources, Arcs(done), edge.source, edge.target.value);
      } else {
        assert Arcs(done + [edge]) == Arcs(done);
      }
    }
    assert edges[..|edges|] == edges;
  }

  /** adjacency.set(source, [...(adjacency.get(source) ?? []), target]) */
  method Connect(adjacency: map<string, seq<string>>, sources: seq<string>, ghost arcs: seq<Arc>, source: string,
      target: string)
    returns (adjacency': map<string, seq<string>>, sources': seq<string>)
    requires AdjacencyOf(arcs, adjacency) && Distinct(sources) && Elements(sources) == adjacency.Keys
    ensures AdjacencyOf(arcs + [Arc(source, target)], adjacency')
    ensures Distinct(sources') && Elements(sources') == adjacency'.Keys
  {
    sources' := if source in adjacency then sources else sources + [source];
    adjacency' := adjacency[source := From(adjacency, source) + [target]];
    forall v ensures From(adjacency', v) == Targets(arcs + [Arc(source, target)], v) {
      TargetsSnoc(arcs, Arc(source, target), v);
      assert From(adjacency, v) == Targets(arcs, v);
    }
    assert source !in adjacency ==> source !in Elements(sources);
  }

  method CheckPorts(table: map<string, NodeKind>, order: seq<string>, outputs: set<(string, string)>)
      returns (issues: seq<Issue>)
    requires Elements(order) == table.Keys
    ensures issues == [] <==> forall id | id in table :: PortsIn(table, id, outputs)
    ensures Local(issues)
  {
    issues := [];
    for i := 0 to |order|
      invariant Local(issues)
      invariant issues == [] <==> forall k | 0 <= k < i :: PortsIn(table, order[k], outputs)
    {
      assert order[i] in Elements(order);
      var ports := OutputPorts(table[order[i]]);
      ghost var before := issues;
      for j := 0 to |ports|
        invariant Local(issues)
        invariant issues == [] <==> before == [] && forall k | 0 <= k < j :: (order[i], ports[k]) in outputs
      {
        if (order[i], ports[j]) !in outputs { issues := issues + [MissingOutput(order[i], ports[j])]; }
      }
      assert PortsIn(table, order[i], outputs) <==> forall k | 0 <= k < |ports| :: (order[i], ports[k]) in outputs;
    }
    if forall k | 0 <= k < |order| :: PortsIn(table, order[k], outputs) {
      forall id | id in table ensures PortsIn(table, id, outputs) {
        assert id in Elements(order);
      }
    } else {
      var k :| 0 <= k < |order| && !PortsIn(table, order[k], outputs);
      assert order[k] in Elements(order);
    }
  }

  predicate PortsIn(table: map<string, NodeKind>, id: string, outputs: set<(string, string)>) {
    id in table ==> forall port | port in OutputPorts(table[id]) :: (id, port) in outputs
  }

  // ---------------------------------------------------------------- the topological check

  predicate InDegrees(arcs: seq<Arc>, nodes: set<string>, indegree: map<string, int>, done: set<string>) {
    indegree.Keys == nodes && forall t | t in nodes :: indegree[t] == InLeft(arcs, t, done)
  }

  /** One adjacency list's worth of increments; targets that are no nodes are skipped. */
  method CountTargets(indegree: map<string, int>, targets: seq<string>) returns (indegree': map<string, int>)
    ensures indegree'.Keys == indegree.Keys
    ensures forall t | t in indegree :: indegree'[t] == indegree[t] + Count(targets, t)
  {
    indegree' := indegree;
    for j := 0 to |targets|
      invariant indegree'.Keys == indegree.Keys
      invariant forall t | t in indegree :: indegree'[t] + Count(targets[j..], t) == indegree[t] + Count(targets, t)
    {
      if targets[j] in indegree' { indegree' := indegree'[targets[j] := indegree'[targets[j]] + 1]; }
      assert targets[j..][1..] == targets[j + 1..];
    }
    assert targets[|targets|..] == [];
  }

  lemma NothingLeft(arcs: seq<Arc>, adjacency: map<string, seq<string>>, t: string)
    requires AdjacencyOf(arcs, adjacency)
    ensures InLeft(arcs, t, adjacency.Keys) == 0
  {
    NoneLeft(arcs, t, adjacency.Keys);
    forall a | a in arcs && a.to == t ensures a.from in adjacency.Keys {
      TargetsAreArcs(arcs, a.from);
      assert Arc(a.from, t) in arcs;
      assert From(adjacency, a.from) == Targets(arcs, a.from);
    }
  }

  /** The initial in-degrees, summed over the adjacency lists. */
  method CountIncoming(order: seq<string>, adjacency: map<string, seq<string>>, sources: seq<string>,
      ghost arcs: seq<Arc>)
    returns (indegree: map<string, int>)
    requires Distinct(sources) && Elements(sources) == adjacency.Keys && AdjacencyOf(arcs, adjacency)
    ensures InDegrees(arcs, Elements(order), indegree, {})
  {
    indegree := map id | id in Elements(order) :: 0;
    assert Elements(sources[..0]) == {};
    for i := 0 to |sources|
      invariant indegree.Keys == Elements(order)
      invariant forall t | t in indegree :: indegree[t] + InLeft(arcs, t, Elements(sources[..i])) == InLeft(arcs, t, {})
    {
      var v := sources[i];
      assert v in Elements(sources);
      assert adjacency[v] == From(adjacency, v) == Targets(arcs, v);
      assert Elements(sources[..i + 1]) == Elements(sources[..i]) + {v};
      assert v !in sources[..i];
      forall t ensures InLeft(arcs, t, Elements(sources[..i]))
        == InLeft(arcs, t, Elements(sources[..i + 1])) + Count(adjacency[v], t) {
        Finish(arcs, t, Elements(sources[..i]), v);
      }
      indegree := CountTargets(indegree, adjacency[v]);
    }
    assert sources[..|sources|] == sources;
    forall t | t in indegree ensures InLeft(arcs, t, Elements(sources)) == 0 {
      NothingLeft(arcs, adjacency, t);
    }
  }

  /** A node is queued exactly when no unfinished arc enters it. */
  predicate QueueOk(arcs: seq<Arc>, nodes: set<string>, indegree: map<string, int>, queue: seq<string>) {
    && Distinct(queue) && Elements(queue) <= nodes && Topological(arcs, queue)
    && indegree.Keys == nodes
    && (forall t | t in nodes :: t in queue <==> indegree[t] == 0)
  }

  lemma PushKeepsQueue(arcs: seq<Arc>, nodes: set<string>, before: map<string, int>, after: map<string, int>,
                       queue: seq<string>, t: string, done: set<string>)
    requires QueueOk(arcs, nodes, before, queue) && t in nodes && before[t] == 1 && after == before[t := 0]
    requires InLeft(arcs, t, done) == 0 && done <= Elements(queue)
    ensures QueueOk(arcs, nodes, after, queue + [t])
  {
    NoneLeft(arcs, t, done);
    var q := queue + [t];
    assert t !in queue;
    assert Elements(q) == Elements(queue) + {t};
    forall k, a | 0 <= k < |q| && a in arcs && a.to == q[k] ensures a.from in q[..k] {
      if k < |queue| {
        assert a.to == queue[k];
        assert q[..k] == queue[..k];
      } else {
        assert a.from in Elements(queue);
        assert q[..k] == queue;
      }
    }
  }

  /** Kahn's loop: the queue it ends with is a topological order that nothing can be added to. */
  method Kahn(order: seq<string>, adjacency: map<string, seq<string>>, sources: seq<string>, ghost arcs: seq<Arc>)
    returns (queue: seq<string>)
    requires Distinct(order) && Distinct(sources) && Elements(sources) == adjacency.Keys && AdjacencyOf(arcs, adjacency)
    ensures Distinct(queue) && Elements(queue) <= Elements(order)
    ensures Topological(arcs, queue) && Complete(arcs, Elements(order), queue)
  {
    ghost var nodes := Elements(order);
    var indegree := CountIncoming(order, adjacency, sources, arcs);
    queue := Sources(order, indegree, arcs);
    var i := 0;
    SizeMeansDistinct(order);
    assert Elements(queue[..0]) == {};
    while i < |queue|
      invariant i <= |queue| <= |order|
      invariant QueueOk(arcs, nodes, indegree, queue)
      invariant InDegrees(arcs, nodes, indegree, Elements(queue[..i]))
      decreases |order| - i
    {
      indegree, queue := FinishNode(queue, i, indegree, From(adjacency, queue[i]), nodes, arcs);
      SizeMeansDistinct(queue);
      SubsetSize(Elements(queue), nodes);
      i := i + 1;
    }
    assert queue[..i] == queue;
    forall t | t in nodes && t !in queue ensures exists a | a in arcs :: a.to == t && a.from !in queue {
      NoneLeft(arcs, t, Elements(queue));
      var a :| a in arcs && a.to == t && a.from !in Elements(queue);
    }
  }

  /** The nodes nothing points to. */
  method Sources(order: seq<string>, indegree: map<string, int>, ghost arcs: seq<Arc>) returns (queue: seq<string>)
    requires Distinct(order) && InDegrees(arcs, Elements(order), indegree, {})
    ensures QueueOk(arcs, Elements(order), indegree, queue) && |queue| <= |order|
  {
    queue := [];
    for i := 0 to |order|
      invariant Distinct(queue) && |queue| <= i
      invariant forall t :: t in queue <==> t in order[..i] && t in indegree && indegree[t] == 0
    {
      assert order[i] in Elements(order);
      assert order[i] !in order[..i];
      if indegree[order[i]] == 0 { queue := queue + [order[i]]; }
    }
    forall k | 0 <= k < |queue| ensures forall a | a in arcs :: a.to != queue[k] {
      assert queue[k] in queue;
      NoneLeft(arcs, queue[k], {});
    }
    assert order[..|order|] == order;
  }

  /** One round of the outer loop: every arc of queue[i] is taken off its target. */
  method FinishNode(queue: seq<string>, i: nat, indegree: map<string, int>, targets: seq<string>,
      ghost nodes: set<string>, ghost arcs: seq<Arc>)
    returns (indegree': map<string, int>, queue': seq<string>)
    requires i < |queue| && QueueOk(arcs, nodes, indegree, queue)
    requires InDegrees(arcs, nodes, indegree, Elements(queue[..i])) && targets == Targets(arcs, queue[i])
    ensures queue <= queue' && QueueOk(arcs, nodes, indegree', queue')
    ensures InDegrees(arcs, nodes, indegree', Elements(queue'[..i + 1]))
  {
    indegree', queue' := indegree, queue;
    ghost var before, done := Elements(queue[..i]), Elements(queue[..i + 1]);
    assert done == before + {queue[i]};
    forall t | t in nodes ensures indegree[t] == InLeft(arcs, t, done) + Count(targets, t) {
      Finish(arcs, t, before, queue[i]);
    }
    for j := 0 to |targets|
      invariant queue <= queue' && QueueOk(arcs, nodes, indegree', queue')
      invariant forall t | t in nodes :: indegree'[t] == InLeft(arcs, t, done) + Count(targets[j..], t)
    {
      var target := targets[j];
      assert targets[j..][1..] == targets[j + 1..];
      if target in indegree' {
        var degree := indegree'[target] - 1;
        ghost var was := indegree';
        indegree' := indegree'[target := degree];
        if degree == 0 {
          assert done <= Elements(queue');
          PushKeepsQueue(arcs, nodes, was, indegree', queue', target, done);
          queue' := queue' + [target];
        }
      }
    }
    assert targets[|targets|..] == [];
    assert queue'[..i + 1] == queue[..i + 1];
  }
}
