/** validateJourney: everything a definition is checked for before it can be activated. */
module JourneyChecks {
  import opened Wrappers
  import opened Collections
  import opened Digraph
  import opened JourneyModel
  import opened JourneyValidation
  import opened JourneyGraph
  import opened JourneyAdapter

  datatype Finding =
    | Failure(node: Option<nat>)
    | GraphFailure(issue: Issue)
    | Warning(at: nat)

  const MAX_DURATION_SECONDS := 9_223_372_036
  const MAX_NODES := 65_535
  const MAX_REENTRY_DAYS := 106_751
  const EMAIL_PROVIDERS: set<string> := {"email_smtp", "email_nhn", "email_resend"}

  predicate HasErrors(findings: seq<Finding>) {
    exists f | f in findings :: !f.Warning?
  }

  lemma ErrorsAdd(a: seq<Finding>, b: seq<Finding>)
    ensures HasErrors(a + b) <==> HasErrors(a) || HasErrors(b)
  {}

  // ---------------------------------------------------------------- what is checked

  predicate ValidDuration(seconds: int) { 0 < seconds <= MAX_DURATION_SECONDS }

  predicate ContentOk(c: Content) {
    match (c.push, c.email, c.alimtalk)
    case (Some(p), None, None) => Nonempty(p.title) && Nonempty(p.body)
    case (None, Some(e), None) =>
      Nonempty(e.subject) && Nonempty(e.html) && (e.provider.Some? ==> e.provider.value in EMAIL_PROVIDERS)
    case (None, None, Some(a)) =>
      Nonempty(a.sender) && Nonempty(a.template) && (a.fallback.Some? ==> Nonempty(a.fallback.value))
    case _ => false
  }

  function TotalWeight(variants: seq<Variant>): int {
    if variants == [] then 0 else variants[0].weight + TotalWeight(variants[1..])
  }

  predicate VariantsOk(variants: seq<Variant>) {
    && 2 <= |variants| <= 4
    && (forall v | v in variants :: Nonempty(v.id) && Nonempty(v.title) && 1 <= v.weight <= 100)
    && (forall i, j | 0 <= i < j < |variants| :: variants[i].id != variants[j].id)
    && TotalWeight(variants) == 100
  }

  predicate KindOk(kind: NodeKind, graph: bool) {
    && (graph || kind.Message? || kind.Delay?)
    && match kind
       case Message(content) => ContentOk(content)
       case Delay(seconds) => ValidDuration(seconds)
       case Branch(conditionOk) => conditionOk
       case EventWait(event, timeout) => Nonempty(event) && ValidDuration(timeout)
       case AbSplit(variants) => VariantsOk(variants)
  }

  predicate EntryOk(entry: Entry) {
    match entry
    case Blast(segment) => segment.Some? && segment.value != ""
    case Trigger(event) => Nonempty(event)
    case _ => false
  }

  predicate ReentryOk(reentry: Reentry, graph: bool) {
    match reentry
    case AfterDays(days) => days > 0 && (graph ==> days <= MAX_REENTRY_DAYS)
    case OtherReentry => false
    case _ => true
  }

  predicate IsGraph(def: Definition) { def.schemaVersion == Some(2) }

  /** A definition that may be published. */
  ghost predicate JourneyOk(def: Definition) {
    && (def.schemaVersion.Some? ==> def.schemaVersion.value in {1, 2})
    && EntryOk(def.entry)
    && 0 < |def.nodes| <= MAX_NODES
    && (forall n | n in def.nodes :: KindOk(n.kind, IsGraph(def)))
    && (exists n | n in def.nodes :: n.kind.Message?)
    && (IsGraph(def) ==> WellFormed(def))
    && def.category.Some?
    && ReentryOk(def.reentry, IsGraph(def))
  }

  // ---------------------------------------------------------------- the checks

  method CheckVariants(index: nat, variants: seq<Variant>) returns (findings: seq<Finding>)
    ensures HasErrors(findings) <==> !VariantsOk(variants)
  {
    findings := [];
    if |variants| < 2 || |variants| > 4 { findings := [Failure(Some(index))]; }
    var ids := seq(|variants|, i requires 0 <= i < |variants| => variants[i].id);
    SizeMeansDistinct(ids);
    if (exists v | v in variants :: !Nonempty(v.id)) || |Elements(ids)| != |variants| {
      findings := findings + [Failure(Some(index))];
    }
    if exists v | v in variants :: !Nonempty(v.title) { findings := findings + [Failure(Some(index))]; }
    if (exists v | v in variants :: !(1 <= v.weight <= 100)) || TotalWeight(variants) != 100 {
      findings := findings + [Failure(Some(index))];
    }
    assert findings != [] ==> findings[0] in findings;
    if Distinct(ids) {
      forall i, j | 0 <= i < j < |variants| ensures variants[i].id != variants[j].id { assert ids[i] != ids[j]; }
    }
  }

  method CheckContent(index: nat, c: Content) returns (findings: seq<Finding>)
    ensures HasErrors(findings) <==> !ContentOk(c)
  {
    findings := [];
    match (c.push, c.email, c.alimtalk) {
      case (None, Some(e), None) =>
        if !Nonempty(e.subject) || !Nonempty(e.html) { findings := findings + [Failure(Some(index))]; }
        if e.provider.Some? && e.provider.value !in EMAIL_PROVIDERS { findings := findings + [Failure(Some(index))]; }
      case (None, None, Some(a)) =>
        if !Nonempty(a.sender) { findings := findings + [Failure(Some(index))]; }
        if !Nonempty(a.template) { findings := findings + [Failure(Some(index))]; }
        if a.fallback.Some? && !Nonempty(a.fallback.value) { findings := findings + [Failure(Some(index))]; }
      case (Some(p), None, None) =>
        if !Nonempty(p.title) || !Nonempty(p.body) { findings := findings + [Failure(Some(index))]; }
      case _ => findings := [Failure(Some(index))];
    }
    assert findings != [] ==> findings[0] in findings;
  }

  method CheckNode(index: nat, node: Node, graph: bool, conversion: Option<string>) returns (findings: seq<Finding>)
    ensures HasErrors(findings) <==> !KindOk(node.kind, graph)
  {
    hide ContentOk, VariantsOk, HasErrors;
    var fail := [Failure(Some(index))];
    NoneIsFine();
    OneIsError(fail[0]);
    OneIsError(Warning(index));
    findings := if !graph && !node.kind.Message? && !node.kind.Delay? then fail else [];
    var more := [];
    match node.kind {
      case Message(content) => more := CheckContent(index, content);
      case Delay(seconds) => if !ValidDuration(seconds) { more := fail; }
      case Branch(conditionOk) => if !conditionOk { more := fail; }
      case EventWait(event, timeout) =>
        if !Nonempty(event) { more := fail; }
        if !ValidDuration(timeout) {
          ErrorsAdd(more, fail);
          more := more + fail;
        }
        if event != "" && Some(event) == conversion {
          ErrorsAdd(more, [Warning(index)]);
          more := more + [Warning(index)];
        }
      case AbSplit(variants) => more := CheckVariants(index, variants);
    }
    ErrorsAdd(findings, more);
    findings := findings + more;
  }

  method CheckNodes(def: Definition) returns (findings: seq<Finding>, hasMessage: bool)
    ensures HasErrors(findings) <==> exists n | n in def.nodes :: !KindOk(n.kind, IsGraph(def))
    ensures hasMessage <==> exists n | n in def.nodes :: n.kind.Message?
  {
    hide KindOk, HasErrors;
    findings, hasMessage := [], false;
    NoneIsFine();
    for i := 0 to |def.nodes|
      invariant HasErrors(findings) <==> exists k | 0 <= k < i :: !KindOk(def.nodes[k].kind, IsGraph(def))
      invariant hasMessage <==> exists k | 0 <= k < i :: def.nodes[k].kind.Message?
    {
      var found := CheckNode(i, def.nodes[i], IsGraph(def), def.conversion);
      ErrorsAdd(findings, found);
      findings := findings + found;
      hasMessage := hasMessage || def.nodes[i].kind.Message?;
    }
    assert forall n | n in def.nodes :: exists k | 0 <= k < |def.nodes| :: def.nodes[k] == n;
  }

  lemma NoneIsFine()
    ensures !HasErrors([])
  {}

  lemma OneIsError(f: Finding)
    ensures HasErrors([f]) <==> !f.Warning?
  {
    assert f in [f];
  }

  lemma GraphFindings(issues: seq<Issue>)
    ensures HasErrors(seq(|issues|, i requires 0 <= i < |issues| => GraphFailure(issues[i]))) <==> issues != []
  {
    var s := seq(|issues|, i requires 0 <= i < |issues| => GraphFailure(issues[i]));
    if issues != [] { assert s[0] in s; }
  }

  /** The checks on the whole definition; it has errors exactly when it must not be published. */
  method ValidateJourney(def: Definition) returns (findings: seq<Finding>)
    ensures HasErrors(findings) <==> !JourneyOk(def)
  {
    hide HasErrors, KindOk, WellFormed, EntryOk, ReentryOk;
    var fail: seq<Finding> := [Failure(None)];
    OneIsError(Failure(None));
    NoneIsFine();
    var versionBad := def.schemaVersion.Some? && def.schemaVersion != Some(1) && def.schemaVersion != Some(2);
    var head := (if versionBad then fail else []) + (if EntryOk(def.entry) then [] else fail)
      + (if def.nodes == [] then fail else []) + (if |def.nodes| > MAX_NODES then fail else []);
    FourFindings(versionBad, !EntryOk(def.entry), def.nodes == [], |def.nodes| > MAX_NODES, fail);
    var nodeFindings, hasMessage := CheckNodes(def);
    var none := if def.nodes != [] && !hasMessage then fail else [];
    var graphFindings := [];
    if IsGraph(def) {
      var issues := ValidateGraph(def);
      graphFindings := seq(|issues|, i requires 0 <= i < |issues| => GraphFailure(issues[i]));
      GraphFindings(issues);
    } else if def.nodes != [] && def.nodes[|def.nodes| - 1].kind.Delay? {
      graphFindings := [Warning(|def.nodes| - 1)];
      OneIsError(Warning(|def.nodes| - 1));
    }
    var tooLong := IsGraph(def) && def.reentry.AfterDays? && def.reentry.days > MAX_REENTRY_DAYS;
    var tail := (if def.category == None then fail else []) + (if ReentryOk(def.reentry, false) then [] else fail)
      + (if tooLong then fail else []) + [];
    FourFindings(def.category == None, !ReentryOk(def.reentry, false), tooLong, false, fail);
    ReentrySplit(def.reentry, IsGraph(def));
    findings := head + nodeFindings + none + graphFindings + tail;
    ErrorsAdd(head, nodeFindings);
    ErrorsAdd(head + nodeFindings, none);
    ErrorsAdd(head + nodeFindings + none, graphFindings);
    ErrorsAdd(head + nodeFindings + none + graphFindings, tail);
  }

  lemma FourFindings(a: bool, b: bool, c: bool, d: bool, fail: seq<Finding>)
    requires HasErrors(fail)
    ensures a || b || c || d <==>
      HasErrors((if a then fail else []) + (if b then fail else [])
                + (if c then fail else []) + (if d then fail else []))
  {
    var f :| f in fail && !f.Warning?;
  }

  lemma ReentrySplit(reentry: Reentry, graph: bool)
    ensures ReentryOk(reentry, graph) <==>
      ReentryOk(reentry, false)
      && !(graph && reentry.AfterDays? && reentry.days > MAX_REENTRY_DAYS)
  {}

  /** Publishing a version-1 list or its graph is allowed in the same cases, up to ids and the longest re-entry wait. */
  lemma {:induction false} AdapterKeepsValidity(def: Definition)
    requires !IsGraph(def) && ToGraph(def).Some?
    ensures JourneyOk(def) ==> Linear(def)
    ensures JourneyOk(ToGraph(def).value) && Linear(def) <==>
      JourneyOk(def) && IdsOk(Named(def.nodes))
      && ReentryOk(def.reentry, true)
  {
    hide WellFormed, KindOk, EntryOk, IdsOk, Named;
    if JourneyOk(def) {
      forall n | n in def.nodes ensures n.kind.Message? || n.kind.Delay? { OnlyLinearKinds(n.kind); }
    }
    if Linear(def) {
      AdapterIsWellFormed(def);
      SameKinds(def);
    }
  }

  lemma OnlyLinearKinds(kind: NodeKind)
    requires KindOk(kind, false)
    ensures kind.Message? || kind.Delay?
  {}

  lemma SameKinds(def: Definition)
    requires Linear(def)
    ensures |Named(def.nodes)| == |def.nodes|
    ensures (forall n | n in Named(def.nodes) :: KindOk(n.kind, true))
      <==> (forall m | m in def.nodes :: KindOk(m.kind, false))
    ensures (exists n | n in Named(def.nodes) :: n.kind.Message?) <==> (exists m | m in def.nodes :: m.kind.Message?)
  {
    hide ContentOk, VariantsOk, NodeId, ValidDuration;
    var named := Named(def.nodes);
    forall n | n in named ensures exists m | m in def.nodes :: m.kind == n.kind {
      var i :| 0 <= i < |named| && named[i] == n;
      assert def.nodes[i] in def.nodes;
    }
    forall m | m in def.nodes ensures exists n | n in named :: m.kind == n.kind {
      var i :| 0 <= i < |def.nodes| && def.nodes[i] == m;
      assert named[i] in named;
    }
    forall m | m in def.nodes ensures KindOk(m.kind, true) <==> KindOk(m.kind, false) {}
  }
}
