/** The adapter that presents a version-1 list of nodes as a version-2 graph. */
module JourneyAdapter {
  import opened Wrappers
  import opened Decimals
  import opened Collections
  import opened Digraph
  import opened JourneyModel
  import opened JourneyGraph

  /** The longest array the adapter's language has. */
  const MAX_ARRAY := 0xffff_ffff

  function LegacyId(i: nat): string { "legacy-" + Decimal(i) }

  function NodeId(nodes: seq<Node>, i: nat): string
    requires i < |nodes|
  {
    if nodes[i].id.Some? then nodes[i].id.value else LegacyId(i)
  }

  function NodeIds(nodes: seq<Node>): seq<string> {
    seq(|nodes|, i requires 0 <= i < |nodes| => NodeId(nodes, i))
  }

  function Named(nodes: seq<Node>): seq<Node> {
    seq(|nodes|, i requires 0 <= i < |nodes| => Node(Some(NodeId(nodes, i)), nodes[i].kind))
  }

  function Chain(ids: seq<string>): seq<Edge> {
    seq(|ids|, i requires 0 <= i < |ids| =>
      Edge("legacy-edge-" + Decimal(i), ids[i], "next", if i + 1 < |ids| then Some(ids[i + 1]) else None))
  }

  /** A version-2 graph passes unchanged; an unknown version is an error. */
  function ToGraph(def: Definition): Option<Definition> {
    if def.schemaVersion == Some(2) then Some(def)
    else if def.schemaVersion.Some? && def.schemaVersion != Some(1) then None
    else
      var ids := NodeIds(def.nodes);
      Some(def.(schemaVersion := Some(2), nodes := Named(def.nodes), start := if ids == [] then None else Some(ids[0]),
        edges := Some(Chain(ids))))
  }

  /** What version 1 allows: messages and delays, at least one. */
  predicate Linear(def: Definition) {
    && (def.schemaVersion == None || def.schemaVersion == Some(1))
    && 0 < |def.nodes| <= MAX_ARRAY
    && forall n | n in def.nodes :: n.kind.Message? || n.kind.Delay?
  }

  // ---------------------------------------------------------------- generated ids

  lemma {:induction false} AsciiBytes(s: string)
    requires forall c | c in s :: c as int < 0x80
    ensures Utf8Bytes(s) == |s|
  {
    if s != [] {
      assert forall c | c in s[1..] :: c in s;
      assert s[0] in s;
      AsciiBytes(s[1..]);
    }
  }

  lemma LegacyIdIsValid(i: nat)
    requires i < MAX_ARRAY
    ensures ValidId(Some(LegacyId(i)))
  {
    assert Pow10(10) == 10_000_000_000 by { assert Pow10(5) == 100_000; }
    DecimalFits(i, 10);
    AsciiBytes(LegacyId(i));
    assert LegacyId(i)[0] == 'l' && !IsSpace('l');
  }

  lemma LegacyEdgeIds(ids: seq<string>)
    ensures forall i, j | 0 <= i < j < |ids| :: Chain(ids)[i].id != Chain(ids)[j].id
    ensures forall i | 0 <= i < |ids| :: Nonempty(Chain(ids)[i].id)
  {
    forall i, j | 0 <= i < j < |ids| ensures Chain(ids)[i].id != Chain(ids)[j].id {
      DecimalInjective(i, j);
      var a, b := "legacy-edge-" + Decimal(i), "legacy-edge-" + Decimal(j);
      assert a[12..] == Decimal(i) && b[12..] == Decimal(j);
    }
    forall i | 0 <= i < |ids| ensures Nonempty(Chain(ids)[i].id) {
      assert Chain(ids)[i].id[0] == 'l' && !IsSpace('l');
    }
  }

  /** Lists without ids always get valid, distinct ones. */
  lemma FreshIdsAreOk(nodes: seq<Node>)
    requires |nodes| <= MAX_ARRAY && forall n | n in nodes :: n.id == None
    ensures IdsOk(Named(nodes))
  {
    forall i | 0 <= i < |nodes| ensures ValidId(Named(nodes)[i].id) { LegacyIdIsValid(i); }
    forall i, j | 0 <= i < j < |nodes| ensures Named(nodes)[i].id != Named(nodes)[j].id {
      DecimalInjective(i, j);
      assert LegacyId(i)[7..] == Decimal(i) && LegacyId(j)[7..] == Decimal(j);
    }
  }

  // ---------------------------------------------------------------- the chain is well formed

  lemma NamedIds(nodes: seq<Node>)
    ensures Elements(NodeIds(nodes)) == Ids(Named(nodes))
    ensures IdsOk(Named(nodes)) ==> Distinct(NodeIds(nodes))
  {
    var ids, named := NodeIds(nodes), Named(nodes);
    forall x | x in ids ensures x in Ids(named) {
      var i :| 0 <= i < |ids| && ids[i] == x;
      assert named[i] in named && named[i].id == Some(x);
    }
    forall x | x in Ids(named) ensures x in ids {
      var n :| n in named && n.id == Some(x);
      var i :| 0 <= i < |named| && named[i] == n;
      assert ids[i] == x;
    }
    if IdsOk(named) {
      forall i, j | 0 <= i < j < |ids| ensures ids[i] != ids[j] { assert named[i].id != named[j].id; }
    }
  }

  lemma ChainArcs(ids: seq<string>)
    ensures forall a | a in Arcs(Chain(ids)) :: exists k | 0 <= k < |ids| - 1 :: a == Arc(ids[k], ids[k + 1])
    ensures forall k | 0 <= k < |ids| - 1 :: Arc(ids[k], ids[k + 1]) in Arcs(Chain(ids))
  {
    var edges := Chain(ids);
    ArcsAreEdges(edges);
    forall a | a in Arcs(edges) ensures exists k | 0 <= k < |ids| - 1 :: a == Arc(ids[k], ids[k + 1]) {
      assert Arc(a.from, a.to) in Arcs(edges);
      var e :| e in edges && e.source == a.from && e.target == Some(a.to);
      var k :| 0 <= k < |edges| && edges[k] == e;
      assert a == Arc(ids[k], ids[k + 1]);
    }
    forall k | 0 <= k < |ids| - 1 ensures Arc(ids[k], ids[k + 1]) in Arcs(edges) {
      assert edges[k] in edges && edges[k].source == ids[k] && edges[k].target == Some(ids[k + 1]);
    }
  }

  lemma ChainIsAcyclic(ids: seq<string>)
    requires Distinct(ids)
    ensures !HasCycle(Arcs(Chain(ids)), Elements(ids))
  {
    hide Arcs, Chain, HasCycle;
    var arcs := Arcs(Chain(ids));
    ChainArcs(ids);
    forall k, a | 0 <= k < |ids| && a in arcs && a.to == ids[k] ensures a.from in ids[..k] {
      var j :| 0 <= j < |ids| - 1 && a == Arc(ids[j], ids[j + 1]);
      assert j + 1 >= k && j + 1 <= k;
      assert ids[..k][j] == a.from;
    }
    OrderedHasNoCycle(arcs, Elements(ids), ids);
  }

  lemma ChainIsReached(ids: seq<string>, k: nat)
    requires k < |ids|
    ensures Reachable(Arcs(Chain(ids)), ids[0], ids[k])
  {
    ChainArcs(ids);
    var p := ids[..k + 1];
    assert Walk(Arcs(Chain(ids)), p) && p[0] == ids[0] && p[|p| - 1] == ids[k];
  }

  lemma ChainEdgesOk(nodes: seq<Node>)
    requires IdsOk(Named(nodes)) && forall n | n in nodes :: n.kind.Message? || n.kind.Delay?
    ensures EdgesOk(Named(nodes), Chain(NodeIds(nodes))) && PortsOk(Named(nodes), Chain(NodeIds(nodes)))
  {
    var ids, named := NodeIds(nodes), Named(nodes);
    var edges := Chain(ids);
    NamedIds(nodes);
    LegacyEdgeIds(ids);
    forall e | e in edges ensures EdgeOk(named, e) {
      var k :| 0 <= k < |edges| && edges[k] == e;
      assert nodes[k] in nodes;
      assert named[k] in named && named[k].id == Some(e.source) && e.port in OutputPorts(named[k].kind);
      assert k + 1 < |ids| ==> ids[k + 1] in Elements(ids);
    }
    forall n | n in named && n.id.Some? ensures forall port | port in OutputPorts(n.kind) ::
      Connected(edges, n.id.value, port) {
      var k :| 0 <= k < |named| && named[k] == n;
      assert nodes[k] in nodes;
      assert edges[k] in edges && edges[k].source == n.id.value && edges[k].port == "next";
    }
  }

  /** A list of messages and delays becomes a graph the validator accepts, exactly when the ids are good. */
  lemma AdapterIsWellFormed(def: Definition)
    requires Linear(def)
    ensures WellFormed(ToGraph(def).value) <==> IdsOk(Named(def.nodes))
    ensures (forall n | n in def.nodes :: n.id == None) ==> WellFormed(ToGraph(def).value)
  {
    var ids := NodeIds(def.nodes);
    if forall n | n in def.nodes :: n.id == None { FreshIdsAreOk(def.nodes); }
    if IdsOk(Named(def.nodes)) {
      NamedIds(def.nodes);
      ChainEdgesOk(def.nodes);
      ChainIsAcyclic(ids);
      forall id | id in Ids(Named(def.nodes)) ensures Reachable(Arcs(Chain(ids)), ids[0], id) {
        assert id in ids;
        var k :| 0 <= k < |ids| && ids[k] == id;
        ChainIsReached(ids, k);
      }
      assert ids[0] in Elements(ids);
    }
  }

  // ---------------------------------------------------------------- and runs as the list did

  lemma FollowChain(def: Definition, k: nat)
    requires Linear(def) && IdsOk(Named(def.nodes)) && k < |def.nodes|
    ensures var ids := NodeIds(def.nodes);
      Follow(ToGraph(def).value, ids[k], "next") == if k + 1 < |ids| then At(ids[k + 1]) else Ended
  {
    var ids := NodeIds(def.nodes);
    NamedIds(def.nodes);
    var edges := Chain(ids);
    NextIsTheEdge(edges, ids[k], "next");
    assert edges[k] in edges && edges[k].source == ids[k] && edges[k].port == "next";
    assert Connected(edges, ids[k], "next");
    var e := Next(edges, ids[k], "next").value;
    var j :| 0 <= j < |edges| && edges[j] == e;
    assert ids[j] == ids[k] && j == k;
  }

  lemma {:induction false} OnlyNext(def: Definition, ports: seq<string>, path: seq<string>, last: Position, k: nat)
    requires Linear(def) && IdsOk(Named(def.nodes)) && Visits(ToGraph(def).value, ports, path, last) && k < |path|
    ensures k < |def.nodes| && path[k] == NodeIds(def.nodes)[k] && ports[k] == "next"
  {
    var ids, named := NodeIds(def.nodes), Named(def.nodes);
    OnlyNextPort(def, ports, path, last, k);
    hide *;
    if k > 0 {
      OnlyNext(def, ports, path, last, k - 1);
      FollowChain(def, k - 1);
      assert |ids| == |def.nodes|;
      assert At(path[k]) == if k < |ids| then At(ids[k]) else Ended;
    }
  }

  lemma OnlyNextPort(def: Definition, ports: seq<string>, path: seq<string>, last: Position, k: nat)
    requires Linear(def) && Visits(ToGraph(def).value, ports, path, last) && k < |path|
    ensures ports[k] == "next"
    ensures if k == 0 then path[k] == NodeIds(def.nodes)[0]
      else Follow(ToGraph(def).value, path[k - 1], ports[k - 1]) == At(path[k])
  {
    hide Follow;
    var named := Named(def.nodes);
    var n :| n in named && n.id == Some(path[k]) && ports[k] in OutputPorts(n.kind);
    var j :| 0 <= j < |named| && named[j] == n;
    assert def.nodes[j] in def.nodes;
    if k > 0 { assert Follow(ToGraph(def).value, path[k - 1], ports[k - 1]) == At(path[k - 1 + 1]); }
  }

  /**
   A run through the adapted graph visits the original nodes in the original order, kinds unchanged, and
   ends right after the last one; and that run exists.
   */
  lemma AdapterKeepsTheList(def: Definition, ports: seq<string>, path: seq<string>, last: Position)
    requires Linear(def) && IdsOk(Named(def.nodes)) && Visits(ToGraph(def).value, ports, path, last)
    ensures path <= NodeIds(def.nodes)
    ensures last == if |path| == |def.nodes| then Ended else At(NodeIds(def.nodes)[|path|])
    ensures forall k | 0 <= k < |def.nodes| ::
      ToGraph(def).value.nodes[k].id == Some(NodeIds(def.nodes)[k])
        && ToGraph(def).value.nodes[k].kind == def.nodes[k].kind
  {
    forall k | 0 <= k < |path| ensures k < |def.nodes| && path[k] == NodeIds(def.nodes)[k] && ports[k] == "next" {
      OnlyNext(def, ports, path, last, k);
    }
    assert |path| <= |def.nodes| by { if path != [] { OnlyNext(def, ports, path, last, |path| - 1); } }
    if path != [] { FollowChain(def, |path| - 1); }
  }

  lemma TheWholeListRuns(def: Definition, ports: seq<string>)
    requires Linear(def) && IdsOk(Named(def.nodes))
    requires |ports| == |def.nodes| && forall k | 0 <= k < |ports| :: ports[k] == "next"
    ensures Visits(ToGraph(def).value, ports, NodeIds(def.nodes), Ended)
  {
    hide IdsOk, Follow;
    var ids, named, g := NodeIds(def.nodes), Named(def.nodes), ToGraph(def).value;
    forall k | 0 <= k < |ids| ensures exists n | n in g.nodes ::
      n.id == Some(ids[k])
      && ports[k] in OutputPorts(n.kind) {
      assert def.nodes[k] in def.nodes;
      assert named[k] in named && named[k].id == Some(ids[k]) && ports[k] in OutputPorts(named[k].kind);
    }
    forall k | 0 <= k < |ids| ensures Follow(g, ids[k], ports[k]) == if k + 1 < |ids| then At(ids[k + 1]) else Ended {
      FollowChain(def, k);
    }
    FollowChain(def, |ids| - 1);
  }
}
