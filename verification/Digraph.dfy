/** Walks, cycles and topological order in a directed multigraph given by its list of arcs. */
module Digraph {
  import opened Collections

  type Vertex = string
  datatype Arc = Arc(from: Vertex, to: Vertex)

  predicate Walk(arcs: seq<Arc>, p: seq<Vertex>) {
    p != [] && forall i | 0 <= i < |p| - 1 :: Arc(p[i], p[i + 1]) in arcs
  }

  /** A closed walk through a vertex of `nodes`; a self-loop and a pair of parallel arcs there and back count. */
  ghost predicate HasCycle(arcs: seq<Arc>, nodes: set<Vertex>) {
    exists p :: |p| >= 2 && Walk(arcs, p) && p[0] == p[|p| - 1] && p[0] in nodes
  }

  ghost predicate Reachable(arcs: seq<Arc>, a: Vertex, b: Vertex) {
    exists p :: Walk(arcs, p) && p[0] == a && p[|p| - 1] == b
  }

  lemma WalkPart(arcs: seq<Arc>, p: seq<Vertex>, i: nat, j: nat)
    requires Walk(arcs, p) && i < j <= |p|
    ensures Walk(arcs, p[i..j])
  {
    forall k | 0 <= k < |p[i..j]| - 1 ensures Arc(p[i..j][k], p[i..j][k + 1]) in arcs {
      assert Arc(p[i + k], p[i + k + 1]) in arcs;
    }
  }

  lemma RepeatIsCycle(arcs: seq<Arc>, nodes: set<Vertex>, p: seq<Vertex>, i: nat, j: nat)
    requires Walk(arcs, p) && i < j < |p| && p[i] == p[j] && p[i] in nodes
    ensures HasCycle(arcs, nodes)
  {
    hide Walk;
    var loop := p[i..j + 1];
    WalkPart(arcs, p, i, j + 1);
    assert |loop| >= 2 && loop[0] == p[i] && loop[|loop| - 1] == p[j];
  }

  /** Without a cycle, no walk visits a vertex of `nodes` twice, so walks inside are short. */
  lemma WalksAreShort(arcs: seq<Arc>, nodes: set<Vertex>, p: seq<Vertex>)
    requires !HasCycle(arcs, nodes) && Walk(arcs, p) && Elements(p) <= nodes
    ensures Distinct(p) && |p| <= |nodes|
  {
    forall i, j | 0 <= i < j < |p| ensures p[i] != p[j] {
      assert p[i] in Elements(p);
      if p[i] == p[j] {
        RepeatIsCycle(arcs, nodes, p, i, j);
      }
    }
    SizeMeansDistinct(p);
    SubsetSize(Elements(p), nodes);
  }

  lemma {:induction false} LongWalkHasCycle(arcs: seq<Arc>, nodes: set<Vertex>, p: seq<Vertex>)
    requires Walk(arcs, p) && Elements(p) <= nodes && |p| > |nodes|
    ensures HasCycle(arcs, nodes)
  {
    var i, j := Pigeonhole(p, nodes);
    assert p[i] in Elements(p);
    RepeatIsCycle(arcs, nodes, p, i, j);
  }

  // ---------------------------------------------------------------- counting incoming arcs

  /** Arcs into t whose source is not in `done`. */
  function InLeft(arcs: seq<Arc>, t: Vertex, done: set<Vertex>): nat {
    if arcs == [] then 0
    else InLeft(arcs[1..], t, done) + if arcs[0].to == t && arcs[0].from !in done then 1 else 0
  }

  /** The targets of v's arcs, in order, with repeats. */
  function Targets(arcs: seq<Arc>, v: Vertex): seq<Vertex> {
    if arcs == [] then []
    else if arcs[0].from == v then [arcs[0].to] + Targets(arcs[1..], v)
    else Targets(arcs[1..], v)
  }

  function Count(s: seq<Vertex>, t: Vertex): nat {
    if s == [] then 0 else (if s[0] == t then 1 else 0) + Count(s[1..], t)
  }

  lemma {:induction false} NoneLeft(arcs: seq<Arc>, t: Vertex, done: set<Vertex>)
    ensures InLeft(arcs, t, done) == 0 <==> forall a | a in arcs && a.to == t :: a.from in done
  {
    if arcs != [] {
      NoneLeft(arcs[1..], t, done);
      assert arcs == [arcs[0]] + arcs[1..];
      assert arcs[0] in arcs;
    }
  }

  /** Finishing v takes away exactly v's arcs into t. */
  lemma {:induction false} Finish(arcs: seq<Arc>, t: Vertex, done: set<Vertex>, v: Vertex)
    requires v !in done
    ensures InLeft(arcs, t, done) == InLeft(arcs, t, done + {v}) + Count(Targets(arcs, v), t)
  {
    if arcs != [] {
      Finish(arcs[1..], t, done, v);
      if arcs[0].from == v {
        assert Targets(arcs, v)[1..] == Targets(arcs[1..], v);
      }
    }
  }

  lemma {:induction false} TargetsAreArcs(arcs: seq<Arc>, v: Vertex)
    ensures forall t :: t in Targets(arcs, v) <==> Arc(v, t) in arcs
  {
    if arcs != [] {
      TargetsAreArcs(arcs[1..], v);
      assert arcs == [arcs[0]] + arcs[1..];
    }
  }

  // ---------------------------------------------------------------- topological orders

  /** Every vertex of the order comes after the sources of all arcs into it. */
  predicate Topological(arcs: seq<Arc>, q: seq<Vertex>) {
    forall k, a | 0 <= k < |q| && a in arcs && a.to == q[k] :: a.from in q[..k]
  }

  /** Nothing outside the order could have been added to it. */
  predicate Complete(arcs: seq<Arc>, nodes: set<Vertex>, q: seq<Vertex>) {
    forall t | t in nodes && t !in q :: exists a | a in arcs :: a.to == t && a.from !in q
  }

  /** A walk that ends in a topological order runs forward in it. */
  lemma {:induction false} WalkAscends(arcs: seq<Arc>, q: seq<Vertex>, p: seq<Vertex>, k: nat)
    requires Topological(arcs, q) && Distinct(q) && Walk(arcs, p) && k < |q| && p[|p| - 1] == q[k]
    ensures |p| > 1 ==> p[0] in q[..k]
    decreases |p|
  {
    if |p| > 1 {
      var n := |p| - 2;
      assert Arc(p[n], p[n + 1]) in arcs;
      assert p[n] in q[..k];
      var j :| 0 <= j < k && q[j] == p[n];
      WalkPart(arcs, p, 0, |p| - 1);
      WalkAscends(arcs, q, p[0..|p| - 1], j);
      if |p| > 2 { assert q[..j] <= q[..k]; }
    }
  }

  lemma OrderedHasNoCycle(arcs: seq<Arc>, nodes: set<Vertex>, q: seq<Vertex>)
    requires Topological(arcs, q) && Distinct(q) && Elements(q) == nodes
    ensures !HasCycle(arcs, nodes)
  {
    if p :| |p| >= 2 && Walk(arcs, p) && p[0] == p[|p| - 1] && p[0] in nodes {
      assert p[0] in q;
      var k :| 0 <= k < |q| && q[k] == p[0];
      WalkAscends(arcs, q, p, k);
      assert false;
    }
  }

  lemma Prepend(arcs: seq<Arc>, v: Vertex, p: seq<Vertex>)
    requires Walk(arcs, p) && Arc(v, p[0]) in arcs
    ensures Walk(arcs, [v] + p)
  {
    forall k | 0 <= k < |[v] + p| - 1 ensures Arc(([v] + p)[k], ([v] + p)[k + 1]) in arcs {
      if k > 0 { assert Arc(p[k - 1], p[k]) in arcs; }
    }
  }

  /** The arcs into the nodes all start at nodes. */
  predicate Inward(arcs: seq<Arc>, nodes: set<Vertex>) {
    forall a | a in arcs && a.to in nodes :: a.from in nodes
  }

  lemma {:induction false} Predecessor(arcs: seq<Arc>, nodes: set<Vertex>, q: seq<Vertex>, t: Vertex)
      returns (v: Vertex)
    requires t in nodes && t !in q
    requires Complete(arcs, nodes, q) && Inward(arcs, nodes)
    ensures Arc(v, t) in arcs && v !in q && v in nodes
  {
    assert exists a | a in arcs :: a.to == t && a.from !in q;
    hide Complete;
    var a :| a in arcs && a.to == t && a.from !in q;
    v := a.from;
    assert a == Arc(v, t);
  }

  /** Outside a complete order one can walk backwards for ever. */
  lemma {:induction false} BackWalk(arcs: seq<Arc>, nodes: set<Vertex>, q: seq<Vertex>, t: Vertex, n: nat)
      returns (p: seq<Vertex>)
    requires Complete(arcs, nodes, q) && t in nodes && t !in q
    requires Inward(arcs, nodes)
    ensures |p| == n + 1 && Walk(arcs, p) && Elements(p) <= nodes && p[0] in nodes && p[0] !in q
  {
    hide Complete, Inward;
    if n == 0 {
      p := [t];
    } else {
      var rest := BackWalk(arcs, nodes, q, t, n - 1);
      var v := Predecessor(arcs, nodes, q, rest[0]);
      Prepend(arcs, v, rest);
      p := [v] + rest;
    }
  }

  lemma CoveringIsAcyclic(arcs: seq<Arc>, nodes: set<Vertex>, q: seq<Vertex>)
    requires Topological(arcs, q) && Distinct(q) && Elements(q) == nodes
    ensures !HasCycle(arcs, nodes)
    ensures Inward(arcs, nodes)
  {
    OrderedHasNoCycle(arcs, nodes, q);
    forall a | a in arcs && a.to in nodes ensures a.from in nodes {
      assert a.to in q;
      var k :| 0 <= k < |q| && q[k] == a.to;
      assert a.from in q[..k];
      assert a.from in Elements(q);
    }
  }

  lemma {:induction false} AcyclicIsCovered(arcs: seq<Arc>, nodes: set<Vertex>, q: seq<Vertex>)
    requires Complete(arcs, nodes, q) && !HasCycle(arcs, nodes)
    requires Inward(arcs, nodes)
    ensures nodes <= Elements(q)
  {
    hide Complete, Inward, HasCycle;
    forall t | t in nodes ensures t in Elements(q) {
      if t !in q {
        var p := BackWalk(arcs, nodes, q, t, |nodes|);
        LongWalkHasCycle(arcs, nodes, p);
      }
    }
  }

  /**
   The exact meaning of a topological order that cannot be extended covering every node: the nodes lie on
   no cycle, and no arc enters them from outside.
   */
  lemma CoversIffAcyclic(arcs: seq<Arc>, nodes: set<Vertex>, q: seq<Vertex>)
    requires Topological(arcs, q) && Distinct(q) && Elements(q) <= nodes && Complete(arcs, nodes, q)
    ensures |q| == |nodes| <==> !HasCycle(arcs, nodes) && Inward(arcs, nodes)
  {
    hide Topological, Complete, HasCycle, Inward;
    SizeMeansDistinct(q);
    SubsetSize(Elements(q), nodes);
    if Elements(q) == nodes {
      CoveringIsAcyclic(arcs, nodes, q);
    } else if !HasCycle(arcs, nodes) && Inward(arcs, nodes) {
      AcyclicIsCovered(arcs, nodes, q);
    }
  }
}
