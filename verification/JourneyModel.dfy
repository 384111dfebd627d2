/** Journey definitions, their output ports, and what a well-formed version-2 graph is. */
module JourneyModel {
  import opened Wrappers
  import opened Digraph

  datatype Variant = Variant(id: string, title: string, weight: int)

  datatype Push = Push(title: string, body: string)
  datatype Email = Email(subject: string, html: string, provider: Option<string>)
  datatype Alimtalk = Alimtalk(sender: string, template: string, fallback: Option<string>)
  datatype Content = Content(push: Option<Push>, email: Option<Email>, alimtalk: Option<Alimtalk>)

  datatype NodeKind =
    | Message(content: Content)
    | Delay(seconds: int)
    | Branch(conditionOk: bool)
    | EventWait(event: string, timeout: int)
    | AbSplit(variants: seq<Variant>)

  datatype Node = Node(id: Option<string>, kind: NodeKind)
  datatype Edge = Edge(id: string, source: string, port: string, target: Option<string>)

  datatype Entry = NoEntry | Blast(segment: Option<string>) | Trigger(event: string) | OtherEntry
  datatype Category = Marketing | Transactional
  datatype Reentry = Never | Always | AfterDays(days: int) | OtherReentry

  datatype Definition = Definition(
    schemaVersion: Option<int>, entry: Entry, nodes: seq<Node>, start: Option<string>, edges: Option<seq<Edge>>,
    conversion: Option<string>, category: Option<Category>, reentry: Reentry)

  const MAX_ID_BYTES: nat := 128

  function OutputPorts(kind: NodeKind): seq<string> {
    match kind
    case Branch(_) => ["true", "false"]
    case EventWait(_, _) => ["matched", "timeout"]
    case AbSplit(variants) => seq(|variants|, i requires 0 <= i < |variants| => variants[i].id)
    case _ => ["next"]
  }

  /** The white space that trimming removes. */
  predicate IsSpace(c: char) {
    var n := c as int;
    9 <= n <= 13 || n == 32 || n == 0xa0 || n == 0x1680 || 0x2000 <= n <= 0x200a || n == 0x2028 || n == 0x2029
    || n == 0x202f || n == 0x205f || n == 0x3000 || n == 0xfeff
  }

  predicate Nonempty(s: string) { exists c | c in s :: !IsSpace(c) }

  function Utf8Bytes(s: string): nat {
    if s == [] then 0
    else
      var n := s[0] as int;
      (if n < 0x80 then 1 else if n < 0x800 then 2 else if n < 0x10000 then 3 else 4) + Utf8Bytes(s[1..])
  }

  predicate ValidId(id: Option<string>) {
    id.Some? && Nonempty(id.value) && Utf8Bytes(id.value) <= MAX_ID_BYTES
  }

  // ---------------------------------------------------------------- well-formed graphs

  /** The connections between nodes, in edge order; an edge to the end of the journey is none. */
  function Arcs(edges: seq<Edge>): seq<Arc> {
    if edges == [] then []
    else (if edges[0].target.Some? then [Arc(edges[0].source, edges[0].target.value)] else []) + Arcs(edges[1..])
  }

  lemma {:induction false} ArcsAreEdges(edges: seq<Edge>)
    ensures forall a, b :: Arc(a, b) in Arcs(edges) <==> exists e | e in edges :: e.source == a && e.target == Some(b)
  {
    if edges != [] {
      ArcsAreEdges(edges[1..]);
      assert edges == [edges[0]] + edges[1..];
      forall a, b ensures Arc(a, b) in Arcs(edges) <==> exists e | e in edges :: e.source == a && e.target == Some(b) {
        if Arc(a, b) in Arcs(edges) {
          if Arc(a, b) in Arcs(edges[1..]) {
            var e :| e in edges[1..] && e.source == a && e.target == Some(b);
            assert e in edges;
          } else {
            assert edges[0].source == a && edges[0].target == Some(b);
          }
        }
        if e :| e in edges && e.source == a && e.target == Some(b) {
          if e in edges[1..] { assert Arc(a, b) in Arcs(edges[1..]); }
        }
      }
    }
  }

  predicate IdsOk(nodes: seq<Node>) {
    && (forall i | 0 <= i < |nodes| :: ValidId(nodes[i].id))
    && (forall i, j | 0 <= i < j < |nodes| :: nodes[i].id != nodes[j].id)
  }

  function Ids(nodes: seq<Node>): set<string> {
    set n | n in nodes && n.id.Some? :: n.id.value
  }

  predicate EdgeOk(nodes: seq<Node>, e: Edge) {
    && Nonempty(e.id)
    && (exists n | n in nodes :: n.id == Some(e.source) && e.port in OutputPorts(n.kind))
    && (e.target.Some? ==> e.target.value in Ids(nodes))
  }

  predicate EdgesOk(nodes: seq<Node>, edges: seq<Edge>) {
    && (forall e | e in edges :: EdgeOk(nodes, e))
    && (forall i, j | 0 <= i < j < |edges| :: edges[i].id != edges[j].id)
    && (forall i, j | 0 <= i < j < |edges| :: (edges[i].source, edges[i].port) != (edges[j].source, edges[j].port))
  }

  predicate Connected(edges: seq<Edge>, id: string, port: string) {
    exists e | e in edges :: e.source == id && e.port == port
  }

  predicate PortsOk(nodes: seq<Node>, edges: seq<Edge>) {
    forall n | n in nodes && n.id.Some? :: forall port | port in OutputPorts(n.kind) ::
      Connected(edges, n.id.value, port)
  }

  /** What the validator is for: an exclusive, complete, acyclic graph, all of it reachable from its start. */
  ghost predicate WellFormed(def: Definition) {
    && IdsOk(def.nodes)
    && def.start.Some? && def.start.value in Ids(def.nodes)
    && def.edges.Some?
    && EdgesOk(def.nodes, def.edges.value)
    && PortsOk(def.nodes, def.edges.value)
    && !HasCycle(Arcs(def.edges.value), Ids(def.nodes))
    && (forall id | id in Ids(def.nodes) :: Reachable(Arcs(def.edges.value), def.start.value, id))
  }
}
