/** Publishing journeys: drafts, numbered immutable versions, and the frozen A/B allocations. */
module JourneyPublication {
  import opened Wrappers
  import opened JourneyModel
  import opened JourneyAdapter
  import opened JourneyGraph
  import opened JourneyChecks

  // ---------------------------------------------------------------- published splits

  /** The allocation identity of a split: ids and weights in order; labels may change. */
  function Allocation(variants: seq<Variant>): seq<(string, int)> {
    seq(|variants|, i requires 0 <= i < |variants| => (variants[i].id, variants[i].weight))
  }

  predicate IsSplit(n: Node, id: string) { n.kind.AbSplit? && n.id == Some(id) && id != "" }

  /** The variants of the first split node with this id. */
  function FirstIn(nodes: seq<Node>, id: string): Option<seq<Variant>> {
    if nodes == [] then None
    else
      var earlier := FirstIn(nodes[..|nodes| - 1], id);
      var n := nodes[|nodes| - 1];
      if earlier.None? && IsSplit(n, id) then Some(n.kind.variants) else earlier
  }

  function FirstPublished(defs: seq<Definition>, id: string): Option<seq<Variant>> {
    if defs == [] then None
    else
      var earlier := FirstPublished(defs[..|defs| - 1], id);
      if earlier.None? then FirstIn(defs[|defs| - 1].nodes, id) else earlier
  }

  function Lookup(published: map<string, seq<Variant>>, id: string): Option<seq<Variant>> {
    if id in published then Some(published[id]) else None
  }

  method CollectPublishedABNodes(definitions: seq<Definition>) returns (published: map<string, seq<Variant>>)
    ensures forall id :: Lookup(published, id) == FirstPublished(definitions, id)
  {
    published := map[];
    for i := 0 to |definitions|
      invariant forall id :: Lookup(published, id) == FirstPublished(definitions[..i], id)
    {
      var nodes := definitions[i].nodes;
      ghost var before := published;
      for j := 0 to |nodes|
        invariant forall id :: Lookup(published, id) == if id in before then Some(before[id])
          else FirstIn(nodes[..j], id)
      {
        var n := nodes[j];
        assert nodes[..j + 1][..j] == nodes[..j];
        if n.kind.AbSplit? && n.id.Some? && n.id.value != "" && n.id.value !in published {
          published := published[n.id.value := n.kind.variants];
        }
      }
      assert nodes[..|nodes|] == nodes;
      assert definitions[..i + 1][..i] == definitions[..i];
    }
    assert definitions[..|definitions|] == definitions;
  }

  predicate Conflicts(n: Node, published: map<string, seq<Variant>>) {
    && n.kind.AbSplit? && n.id.Some? && n.id.value != ""
    && n.id.value in published && Allocation(n.kind.variants) != Allocation(published[n.id.value])
  }

  /** The nodes whose split was published with another allocation. */
  method ValidatePublishedABNodes(def: Definition, published: map<string, seq<Variant>>) returns (issues: seq<nat>)
    ensures forall i :: i in issues <==> 0 <= i < |def.nodes| && Conflicts(def.nodes[i], published)
  {
    issues := [];
    for i := 0 to |def.nodes|
      invariant forall k :: k in issues <==> 0 <= k < i && Conflicts(def.nodes[k], published)
    {
      var n := def.nodes[i];
      if !n.kind.AbSplit? || n.id == None || n.id.value == "" || n.id.value !in published { continue; }
      if Allocation(n.kind.variants) != Allocation(published[n.id.value]) { issues := issues + [i]; }
    }
  }

  /** Each split id has one allocation in all these definitions. */
  ghost predicate Frozen(defs: seq<Definition>) {
    forall a, b, m, n, id |
      a in defs && b in defs && m in a.nodes && n in b.nodes && IsSplit(m, id) && IsSplit(n, id) ::
      Allocation(m.kind.variants) == Allocation(n.kind.variants)
  }

  predicate Agrees(def: Definition, defs: seq<Definition>) {
    forall n | n in def.nodes && n.kind.AbSplit? && n.id.Some? && n.id.value != "" ::
      var first := FirstPublished(defs, n.id.value);
      first.None? || Allocation(n.kind.variants) == Allocation(first.value)
  }

  lemma {:induction false} FirstInNodes(nodes: seq<Node>, id: string)
    ensures FirstIn(nodes, id).Some? ==> exists n | n in nodes ::
      IsSplit(n, id)
      && n.kind.variants == FirstIn(nodes, id).value
    ensures FirstIn(nodes, id).None? ==> forall n | n in nodes :: !IsSplit(n, id)
  {
    if nodes != [] {
      var k := |nodes| - 1;
      FirstInNodes(nodes[..k], id);
      assert nodes == nodes[..k] + [nodes[k]];
      assert nodes[k] in nodes;
      if FirstIn(nodes[..k], id).Some? {
        var n :| n in nodes[..k] && IsSplit(n, id) && n.kind.variants == FirstIn(nodes[..k], id).value;
        assert n in nodes;
      }
    }
  }

  lemma {:induction false} FirstInHistory(defs: seq<Definition>, id: string)
    ensures FirstPublished(defs, id).Some? ==>
      exists d, n | d in defs && n in d.nodes :: IsSplit(n, id) && n.kind.variants == FirstPublished(defs, id).value
    ensures FirstPublished(defs, id).None? ==> forall d, n | d in defs && n in d.nodes :: !IsSplit(n, id)
  {
    if defs != [] {
      var k := |defs| - 1;
      FirstInHistory(defs[..k], id);
      FirstInNodes(defs[k].nodes, id);
      assert defs == defs[..k] + [defs[k]];
      assert defs[k] in defs;
      if FirstPublished(defs[..k], id).Some? {
        var d, n :| d in defs[..k] && n in d.nodes && IsSplit(n, id)
          && n.kind.variants == FirstPublished(defs[..k], id).value;
        assert d in defs;
      }
    }
  }

  /** A definition fit for publishing has at most one split node per id. */
  lemma SplitsAreUnique(def: Definition, m: Node, n: Node, id: string)
    requires JourneyOk(def) && m in def.nodes && n in def.nodes && IsSplit(m, id) && IsSplit(n, id)
    ensures m == n
  {
    assert KindOk(m.kind, IsGraph(def));
    assert IdsOk(def.nodes);
    var i :| 0 <= i < |def.nodes| && def.nodes[i] == m;
    var j :| 0 <= j < |def.nodes| && def.nodes[j] == n;
    assert i == j;
  }

  /** Comparing with the first published allocation is enough to agree with all of them. */
  lemma {:induction false} AgreeingStaysFrozen(defs: seq<Definition>, def: Definition)
    requires Frozen(defs) && JourneyOk(def) && Agrees(def, defs)
    ensures Frozen(defs + [def])
  {
    hide JourneyOk;
    forall a, n, id | a in defs && n in a.nodes && IsSplit(n, id)
      ensures forall m | m in def.nodes && IsSplit(m, id) :: Allocation(m.kind.variants) == Allocation(n.kind.variants)
    {
      FirstInHistory(defs, id);
      var d, f :| d in defs && f in d.nodes && IsSplit(f, id) && f.kind.variants == FirstPublished(defs, id).value;
      assert Allocation(f.kind.variants) == Allocation(n.kind.variants);
    }
    forall m, n, id | m in def.nodes && n in def.nodes && IsSplit(m, id) && IsSplit(n, id)
      ensures m == n
    {
      SplitsAreUnique(def, m, n, id);
    }
  }

  // ---------------------------------------------------------------- the record and its operations

  datatype Status = Draft | Active | Paused | Archived
  datatype Row = Row(version: nat, definition: Definition)
  /** The hash of name and draft, taken to be injective. */
  datatype Revision = Revision(name: string, draft: Definition)

  datatype Journey = Journey(
    status: Status, name: string, draft: Definition, active: Option<nat>, versions: seq<Row>, entryJobs: seq<nat>)

  datatype Op =
    | Update(name: string, draft: Definition)
    | Activate(revision: Option<Revision>, graphEnabled: bool, snapshotOk: bool)
    | Pause
    | Archive

  datatype Reply = Done | Activated(version: nat) | NotFound | Conflict | Invalid | SnapshotFailed

  function MaxVersion(rows: seq<Row>): nat {
    if rows == [] then 0
    else
      var rest := MaxVersion(rows[..|rows| - 1]);
      var last := rows[|rows| - 1].version;
      if last > rest then last else rest
  }

  function AtVersion(rows: seq<Row>, v: nat): seq<Definition> {
    if rows == [] then []
    else AtVersion(rows[..|rows| - 1], v) + if rows[|rows| - 1].version == v then [rows[|rows| - 1].definition] else []
  }

  /** The definitions ordered by version, up to version v. */
  function ByVersion(rows: seq<Row>, v: nat): seq<Definition> {
    if v == 0 then [] else ByVersion(rows, v - 1) + AtVersion(rows, v)
  }

  function History(rows: seq<Row>): seq<Definition> { ByVersion(rows, MaxVersion(rows)) }

  ghost predicate Publishable(rows: seq<Row>, def: Definition, graphEnabled: bool) {
    JourneyOk(def) && (IsGraph(def) ==> graphEnabled) && Agrees(def, History(rows))
  }

  predicate WrongRevision(s: Journey, revision: Option<Revision>) {
    (IsGraph(s.draft) && revision == None) || (revision.Some? && revision.value != Revision(s.name, s.draft))
  }

  ghost function Step(s: Journey, op: Op): (Journey, Reply) {
    match op
    case Update(name, draft) =>
      if s.status in {Draft, Paused} then (s.(name := name, draft := draft), Done) else (s, NotFound)
    case Activate(revision, graphEnabled, snapshotOk) =>
      if s.status !in {Draft, Paused} || WrongRevision(s, revision) then (s, Conflict)
      else if !Publishable(s.versions, s.draft, graphEnabled) then (s, Invalid)
      else if s.draft.entry.Blast? && !snapshotOk then (s, SnapshotFailed)
      else
        var v := MaxVersion(s.versions) + 1;
        (s.(status := Active, active := Some(v), versions := s.versions + [Row(v, s.draft)],
            entryJobs := if s.draft.entry.Blast? && v !in s.entryJobs then s.entryJobs + [v] else s.entryJobs),
         Activated(v))
    case Pause => if s.status == Active then (s.(status := Paused), Done) else (s, Conflict)
    case Archive => (s.(status := Archived), Done)
  }

  function Created(name: string, draft: Definition): Journey { Journey(Draft, name, draft, None, [], []) }

  ghost function Run(s: Journey, ops: seq<Op>): Journey {
    if ops == [] then s else Step(Run(s, ops[..|ops| - 1]), ops[|ops| - 1]).0
  }

  // ---------------------------------------------------------------- what every history keeps

  predicate Numbered(rows: seq<Row>) {
    forall i | 0 <= i < |rows| :: rows[i].version == i + 1
  }

  function Definitions(rows: seq<Row>): seq<Definition> {
    seq(|rows|, i requires 0 <= i < |rows| => rows[i].definition)
  }

  /** One entry job per version that enters a whole segment, and none for the others. */
  predicate JobsMatch(s: Journey) {
    && (forall v | v in s.entryJobs :: 1 <= v <= |s.versions| && s.versions[v - 1].definition.entry.Blast?)
    && (forall i | 0 <= i < |s.versions| && s.versions[i].definition.entry.Blast? :: i + 1 in s.entryJobs)
    && (forall i, j | 0 <= i < j < |s.entryJobs| :: s.entryJobs[i] != s.entryJobs[j])
  }

  ghost predicate Inv(s: Journey) {
    && Numbered(s.versions)
    && s.active == (if s.versions == [] then None else Some(|s.versions|))
    && (s.status == Active ==> s.versions != [])
    && (forall r | r in s.versions :: JourneyOk(r.definition))
    && Frozen(Definitions(s.versions))
    && JobsMatch(s)
  }

  lemma {:induction false} NumberedMax(rows: seq<Row>)
    requires Numbered(rows)
    ensures MaxVersion(rows) == |rows|
  {
    if rows != [] { NumberedMax(rows[..|rows| - 1]); }
  }

  lemma {:induction false} NumberedAt(rows: seq<Row>, v: nat)
    requires Numbered(rows)
    ensures AtVersion(rows, v) == if 1 <= v <= |rows| then [rows[v - 1].definition] else []
  {
    if rows != [] { NumberedAt(rows[..|rows| - 1], v); }
  }

  lemma {:induction false} NumberedHistory(rows: seq<Row>, v: nat)
    requires Numbered(rows) && v <= |rows|
    ensures ByVersion(rows, v) == Definitions(rows)[..v]
  {
    if v > 0 {
      NumberedHistory(rows, v - 1);
      NumberedAt(rows, v);
      assert Definitions(rows)[..v] == Definitions(rows)[..v - 1] + [Definitions(rows)[v - 1]];
    }
  }

  lemma HistoryIsInOrder(rows: seq<Row>)
    requires Numbered(rows)
    ensures History(rows) == Definitions(rows)
  {
    NumberedMax(rows);
    NumberedHistory(rows, |rows|);
  }

  lemma ActivateKeepsInv(s: Journey, op: Op)
    requires Inv(s) && op.Activate? && Step(s, op).1.Activated?
    ensures Inv(Step(s, op).0)
  {
    hide JourneyOk, Frozen, Agrees;
    var t := Step(s, op).0;
    NumberedMax(s.versions);
    HistoryIsInOrder(s.versions);
    assert Definitions(t.versions) == Definitions(s.versions) + [s.draft];
    AgreeingStaysFrozen(Definitions(s.versions), s.draft);
  }

  lemma StepKeepsInv(s: Journey, op: Op)
    requires Inv(s)
    ensures Inv(Step(s, op).0)
  {
    hide JourneyOk, Frozen, Publishable;
    if op.Activate? && Step(s, op).1.Activated? { ActivateKeepsInv(s, op); }
  }

  lemma {:induction false} EveryHistoryKeepsInv(name: string, draft: Definition, ops: seq<Op>)
    ensures Inv(Run(Created(name, draft), ops))
  {
    if ops != [] {
      EveryHistoryKeepsInv(name, draft, ops[..|ops| - 1]);
      StepKeepsInv(Run(Created(name, draft), ops[..|ops| - 1]), ops[|ops| - 1]);
    }
  }

  lemma {:induction false} RunConcat(s: Journey, ops: seq<Op>, more: seq<Op>)
    ensures Run(s, ops + more) == Run(Run(s, ops), more)
  {
    if more == [] {
      assert ops + [] == ops;
    } else {
      assert (ops + more)[..|ops + more| - 1] == ops + more[..|more| - 1];
      RunConcat(s, ops, more[..|more| - 1]);
    }
  }

  // ---------------------------------------------------------------- theorems

  /** The same split id has the same ordered allocation in every version ever published. */
  lemma {:induction false} AllocationIsFrozen(name: string, draft: Definition, ops: seq<Op>, i: nat, j: nat, m: Node,
      n: Node, id: string)
    requires var vs := Run(Created(name, draft), ops).versions;
      i < |vs| && j < |vs| && m in vs[i].definition.nodes && n in vs[j].definition.nodes && IsSplit(m, id)
        && IsSplit(n, id)
    ensures Allocation(m.kind.variants) == Allocation(n.kind.variants)
  {
    hide JourneyOk, Step;
    EveryHistoryKeepsInv(name, draft, ops);
    var defs := Definitions(Run(Created(name, draft), ops).versions);
    assert defs[i] in defs && defs[j] in defs;
  }

  /** Versions are exactly 1..n, the active one is the latest, and what is published never changes. */
  lemma {:induction false} VersionsOnlyGrow(s: Journey, ops: seq<Op>)
    ensures s.versions <= Run(s, ops).versions
  {
    hide Publishable;
    if ops != [] { VersionsOnlyGrow(s, ops[..|ops| - 1]); }
  }

  lemma VersionsAreCounted(name: string, draft: Definition, ops: seq<Op>, more: seq<Op>)
    ensures var s := Run(Created(name, draft), ops);
      && (forall i | 0 <= i < |s.versions| :: s.versions[i].version == i + 1)
      && s.active == (if s.versions == [] then None else Some(|s.versions|))
      && s.versions <= Run(Created(name, draft), ops + more).versions
  {
    EveryHistoryKeepsInv(name, draft, ops);
    RunConcat(Created(name, draft), ops, more);
    VersionsOnlyGrow(Run(Created(name, draft), ops), more);
  }

  /** An archived journey never changes again. */
  lemma {:induction false} ArchivedIsForever(s: Journey, ops: seq<Op>)
    requires s.status == Archived
    ensures Run(s, ops) == s
  {
    if ops != [] { ArchivedIsForever(s, ops[..|ops| - 1]); }
  }

  /** An activation publishes exactly the draft whose revision the caller saw, and the draft alone. */
  lemma ActivationPublishesTheSeenDraft(s: Journey, op: Op)
    requires op.Activate? && Step(s, op).1.Activated?
    ensures op.revision.Some? ==> op.revision.value == Revision(s.name, s.draft)
    ensures op.revision == None ==> !IsGraph(s.draft)
    ensures Step(s, op).0.versions == s.versions + [Row(Step(s, op).1.version, s.draft)]
    ensures forall r | r in s.versions :: r.version < Step(s, op).1.version
  {
    MaxIsMax(s.versions);
  }

  lemma {:induction false} MaxIsMax(rows: seq<Row>)
    ensures forall r | r in rows :: r.version <= MaxVersion(rows)
  {
    if rows != [] {
      MaxIsMax(rows[..|rows| - 1]);
      assert rows == rows[..|rows| - 1] + [rows[|rows| - 1]];
    }
  }

  /** In any published graph, whatever is chosen at each node, a run ends within as many steps as nodes. */
  lemma {:induction false} PublishedRunsEnd(name: string, draft: Definition, ops: seq<Op>, v: nat, ports: seq<string>,
      path: seq<string>, last: Position)
    requires var vs := Run(Created(name, draft), ops).versions;
      v < |vs| && IsGraph(vs[v].definition) && Visits(vs[v].definition, ports, path, last)
    ensures var def := Run(Created(name, draft), ops).versions[v].definition;
      |path| <= |def.nodes| && last != Stuck && (|path| == |def.nodes| ==> last == Ended)
  {
    hide Step, Visits, WellFormed;
    EveryHistoryKeepsInv(name, draft, ops);
    var def := Run(Created(name, draft), ops).versions[v].definition;
    assert JourneyOk(def);
    EveryRunEnds(def, ports, path, last);
  }

  // ---------------------------------------------------------------- the controller

  class JourneyRecord {
    var status: Status
    var name: string
    var draft: Definition
    var active: Option<nat>
    var versions: seq<Row>
    var entryJobs: seq<nat>

    function View(): Journey
      reads this
    {
      Journey(status, name, draft, active, versions, entryJobs)
    }

    constructor (name: string, draft: Definition)
      ensures View() == Created(name, draft)
    {
      this.status, this.name, this.draft := Status.Draft, name, draft;
      this.active, this.versions, this.entryJobs := None, [], [];
    }

    /** The findings that stand between a definition and its publication. */
    method DefinitionIssues(def: Definition, graphEnabled: bool) returns (errors: bool)
      ensures errors <==> !Publishable(versions, def, graphEnabled)
    {
      hide JourneyOk;
      var findings := ValidateJourney(def);
      var disabled := IsGraph(def) && !graphEnabled;
      var published := CollectPublishedABNodes(History(versions));
      var changed := ValidatePublishedABNodes(def, published);
      AgreesIsNoConflict(def, History(versions), published, changed);
      errors := HasErrors(findings) || disabled || changed != [];
    }

    method UpdateDraft(name: string, draft: Definition) returns (reply: Reply)
      modifies this
      ensures (View(), reply) == Step(old(View()), Update(name, draft))
    {
      if status == Status.Draft || status == Paused {
        this.name, this.draft := name, draft;
        return Done;
      }
      return NotFound;
    }

    method ActivateVersion(revision: Option<Revision>, graphEnabled: bool, snapshotOk: bool) returns (reply: Reply)
      modifies this
      ensures (View(), reply) == Step(old(View()), Activate(revision, graphEnabled, snapshotOk))
    {
      hide Publishable;
      if status != Status.Draft && status != Paused { return Conflict; }
      var current := Revision(name, draft);
      if (IsGraph(draft) && revision == None) || (revision.Some? && revision.value != current) { return Conflict; }
      var errors := DefinitionIssues(draft, graphEnabled);
      if errors { return Invalid; }
      var version := MaxVersion(versions) + 1;
      if draft.entry.Blast? && !snapshotOk { return SnapshotFailed; }
      versions := versions + [Row(version, draft)];
      status, active := Active, Some(version);
      if draft.entry.Blast? && version !in entryJobs { entryJobs := entryJobs + [version]; }
      return Activated(version);
    }

    method PauseJourney() returns (reply: Reply)
      modifies this
      ensures (View(), reply) == Step(old(View()), Pause)
    {
      if status != Active { return Conflict; }
      status := Paused;
      return Done;
    }

    method ArchiveJourney() returns (reply: Reply)
      modifies this
      ensures (View(), reply) == Step(old(View()), Archive)
    {
      status := Archived;
      return Done;
    }
  }

  lemma AgreesIsNoConflict(def: Definition, defs: seq<Definition>, published: map<string, seq<Variant>>,
      issues: seq<nat>)
    requires forall id :: Lookup(published, id) == FirstPublished(defs, id)
    requires forall i :: i in issues <==> 0 <= i < |def.nodes| && Conflicts(def.nodes[i], published)
    ensures issues == [] <==> Agrees(def, defs)
  {
    hide FirstPublished;
    if issues != [] {
      var i := issues[0];
      assert i in issues;
      assert def.nodes[i] in def.nodes;
      assert Lookup(published, def.nodes[i].id.value).Some?;
    }
    if issues == [] {
      forall n | n in def.nodes && n.kind.AbSplit? && n.id.Some? && n.id.value != ""
        ensures var first := FirstPublished(defs, n.id.value);
          first.None?
          || Allocation(n.kind.variants) == Allocation(first.value)
      {
        var i :| 0 <= i < |def.nodes| && def.nodes[i] == n;
        assert i !in issues;
        assert Lookup(published, n.id.value) == FirstPublished(defs, n.id.value);
      }
    }
  }
}
