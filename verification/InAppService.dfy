/** The campaign and delivery services: tables updated by transactions, each proved to be its protocol step. */
module InAppService {
  import opened Wrappers
  import opened InAppProtocol

  /** A step of the decision that has the installation row locked. */
  predicate OfDecision(inst: Id, s: Step) {
    (s.DecideLook? || s.DecideCommit? || s.DecideAbort?) && s.inst == inst
  }

  /** What others do while inst is being decided. */
  function Others(inst: Id, ss: seq<Step>): seq<Step> {
    if ss == [] then []
    else
      var rest := Others(inst, ss[..|ss| - 1]);
      if OfDecision(inst, ss[|ss| - 1]) then rest else rest + [ss[|ss| - 1]]
  }

  function Slot(between: seq<seq<Step>>, k: nat): seq<Step> { if k < |between| then between[k] else [] }

  lemma {:induction false} OthersAreNotOfIt(inst: Id, ss: seq<Step>)
    ensures forall s | s in Others(inst, ss) :: !OfDecision(inst, s)
  {
    if ss != [] { OthersAreNotOfIt(inst, ss[..|ss| - 1]); }
  }

  predicate LockKept(db: Db, t: Db, inst: Id)
    requires inst in db.deciding && inst in db.installations
  {
    inst in t.deciding && t.deciding[inst] == db.deciding[inst] && inst in t.installations
    && t.installations[inst].platform == db.installations[inst].platform
  }

  lemma {:induction false} OthersKeepTheLock(db: Db, cal: Calendar, inst: Id, ss: seq<Step>)
    requires inst in db.deciding && inst in db.installations
    ensures LockKept(db, Run(db, cal, Others(inst, ss)), inst)
  {
    hide Run, OfDecision;
    if ss == [] {
      RunNothing(db, cal);
    } else {
      OthersKeepTheLock(db, cal, inst, ss[..|ss| - 1]);
      var rest := Others(inst, ss[..|ss| - 1]);
      if !OfDecision(inst, ss[|ss| - 1]) {
        RunStep(db, cal, rest, ss[|ss| - 1]);
        StepKeepsTheLock(Run(db, cal, rest), cal, inst, ss[|ss| - 1]);
      }
      hide Apply;
    }
  }

  lemma InstallationsStay(db: Db, cal: Calendar, inst: Id, s: Step)
    requires inst in db.installations
    ensures var t := Apply(db, cal, s);
      inst in t.installations && t.installations[inst].platform == db.installations[inst].platform
      && (db.installations[inst].revoked ==> t.installations[inst].revoked)
  {
    if s.Register? || s.RevokeRow? {
    } else {
      StepTouches(db, cal, s);
      if !(OfCampaigns(s) || OfDecisions(s) || s.Report?) {
        hide AuthorizeStep, RevokeDeliveriesStep, TouchesOnly;
        RowsStay(db, cal, s);
      }
      hide Apply;
    }
  }

  lemma RowsStay(db: Db, cal: Calendar, s: Step)
    requires s.Tick? || s.Authorize? || s.RevokeDeliveries?
    ensures Apply(db, cal, s).installations == db.installations
  {
    hide Close;
  }

  lemma StepKeepsTheLock(db: Db, cal: Calendar, inst: Id, s: Step)
    requires inst in db.deciding && inst in db.installations && !OfDecision(inst, s)
    ensures LockKept(db, Apply(db, cal, s), inst)
  {
    hide Apply;
    InstallationsStay(db, cal, inst, s);
    DecisionMoves(db, cal, s, inst);
  }

  /** A decision's own steps in a schedule: looks, then the commit or the abort. */
  predicate DecisionRun(inst: Id, id: Id, ss: seq<Step>) {
    && ss != [] && (ss[|ss| - 1] == Step.DecideCommit(inst, id) || ss[|ss| - 1] == Step.DecideAbort(inst))
    && forall s | s in ss[..|ss| - 1] && OfDecision(inst, s) :: s.DecideLook?
  }

  lemma {:induction false} RevokedStays(db: Db, cal: Calendar, inst: Id, ss: seq<Step>)
    requires inst in db.installations && db.installations[inst].revoked
    ensures inst in Run(db, cal, ss).installations && Run(db, cal, ss).installations[inst].revoked
  {
    if ss != [] {
      RevokedStays(db, cal, inst, ss[..|ss| - 1]);
      hide Apply;
      InstallationsStay(Run(db, cal, ss[..|ss| - 1]), cal, inst, ss[|ss| - 1]);
    }
  }

  lemma StepsAre(db: Db, cal: Calendar, inst: Id, id: Id)
    ensures Apply(db, cal, DecideLook(inst)) == DecideLookStep(db, cal, inst).0
    ensures Apply(db, cal, Step.DecideCommit(inst, id)) == DecideCommitStep(db, inst, id).0
    ensures Apply(db, cal, Step.DecideAbort(inst)) == DecideAbortStep(db, inst).0
  {
    hide DecideLookStep, DecideCommitStep, DecideAbortStep;
  }

  class Service {
    const cal: Calendar
    var now: int
    var installations: map<Id, Installation>
    var campaigns: map<Id, Campaign>
    var publications: map<(Id, nat), Publication>
    var deliveries: map<Id, Delivery>
    var events: map<(Id, Id), EventRow>
    var suppressions: map<(Id, Id), int>
    var deciding: map<Id, Deciding>
    var revokeDone: set<Id>

    function View(): Db
      reads this
    {
      Db(now, installations, campaigns, publications, deliveries, events, suppressions, deciding, revokeDone)
    }

    constructor (cal: Calendar)
      ensures this.cal == cal && View() == Initial()
    {
      this.cal := cal;
      now, installations, campaigns, publications := 0, map[], map[], map[];
      deliveries, events, suppressions, deciding, revokeDone := map[], map[], map[], map[], {};
    }

    /** Other transactions run. */
    method Interleave(ss: seq<Step>)
      modifies this
      ensures View() == Run(old(View()), cal, ss)
    {
      var t := Run(View(), cal, ss);
      now, installations, campaigns, publications := t.now, t.installations, t.campaigns, t.publications;
      deliveries, events, suppressions := t.deliveries, t.events, t.suppressions;
      deciding, revokeDone := t.deciding, t.revokeDone;
    }

    /** UPDATE of the deliveries that are open and hit. */
    method CloseDeliveries(hit: Delivery -> bool, to: DeliveryState)
      modifies this`deliveries
      ensures deliveries == Close(old(deliveries), hit, to)
    {
      deliveries := map id | id in deliveries :: if Open(deliveries[id].state)
        && hit(deliveries[id]) then deliveries[id].(state := to) else deliveries[id];
    }

    method Save(camp: Id, expected: nat, revision: Id, config: Config) returns (reply: Reply)
      modifies this
      ensures (View(), reply) == SaveStep(old(View()), camp, expected, revision, config)
    {
      if !ConfigAccepted(config) { return Conflict; }
      if camp !in campaigns { return Conflict; }
      var c := campaigns[camp];
      if c.version != expected || c.state.Published? { return Conflict; }
      campaigns := campaigns[camp := Campaign(c.state, c.version + 1, revision, config, c.past + [c.config])];
      return Done;
    }

    method Transition(camp: Id, expected: nat, publish: bool, reviewed: set<Platform>) returns (reply: Reply)
      modifies this
      ensures (View(), reply) ==
        if publish then PublishStep(old(View()), camp, expected, reviewed) else PauseStep(old(View()), camp, expected)
    {
      if camp !in campaigns { return NotFound; }
      var c := campaigns[camp];
      if c.version != expected { return Conflict; }
      if publish {
        if c.state.Published? { return Done; }
        if c.config.endsAt <= now { return Conflict; }
        if !(c.config.platforms <= reviewed) { return Conflict; }
        if (camp, c.version) in publications { return Conflict; }
        publications := publications[(camp, c.version) := Publication(c.revision, c.config)];
      }
      campaigns := campaigns[camp :=
        if publish then c.(state := Published)
          else c.(state := Paused, version := c.version + 1, past := c.past + [c.config])];
      if !publish {
        CloseDeliveries((d: Delivery) => d.camp == camp, Cancelled);
      }
      return Done;
    }

    /** The first transaction half of decide, up to and including its unlocked read of the campaigns. */
    method DecideBegin(inst: Id, request: Request, order: seq<Id>) returns (reply: Reply)
      modifies this
      ensures (View(), reply) == DecideBeginStep(old(View()), inst, request, order)
    {
      if inst in deciding { return Waiting; }
      if inst !in installations || installations[inst].revoked { return Unauthorized; }
      var asked := set id | id in deliveries && deliveries[id].inst == inst
        && deliveries[id].requestKey == request.requestKey;
      assert asked == Requested(View(), inst, request.requestKey);
      if KeyReused(View(), asked, request) { return Conflict; }
      var expired := ExpireFor(View(), inst, now);
      if asked != {} {
        var again := set id | id in asked && id in expired && expired[id].state.Reserved?
                              && (request.supportsTimeZone || ZoneOf(View(), expired[id]) == "UTC");
        deliveries := expired;
        return if again == {} then Nothing else Repeat(again);
      }
      if HasOpen(expired, inst) {
        deliveries := expired;
        return Nothing;
      }
      deciding := deciding[inst := Deciding(request, now, Candidates(View(), order), None)];
      return Waiting;
    }

    /** The loop body: pass over the next candidate, or choose it, or stop for a recent authorization. */
    method Look(inst: Id)
      requires inst in deciding && inst in installations && deciding[inst].candidates != []
      modifies this`deciding
      ensures View() == DecideLookStep(old(View()), cal, inst).0
      ensures inst in deciding && |deciding[inst].candidates| < |old(deciding)[inst].candidates|
    {
      var d := deciding[inst];
      var c, rest := d.candidates[0], d.candidates[1..];
      var cfg := c.campaign.config;
      if installations[inst].platform !in cfg.platforms || (!d.request.supportsTimeZone && cfg.zone != "UTC")
         || cfg.startsAt > now || cfg.endsAt <= now || cfg.trigger != d.request.trigger {
        deciding := deciding[inst := d.(candidates := rest)];
        return;
      }
      if (inst, c.camp) in suppressions && suppressions[(inst, c.camp)] > d.began {
        deciding := deciding[inst := d.(candidates := rest)];
        return;
      }
      var counted := AuthIds(View(), inst, c.camp);
      var today := AuthSince(View(), inst, c.camp, cal.dayStart(cfg.zone, d.began));
      if |counted| >= cfg.maxTotal || |today| >= cfg.maxPerDay
         || (exists id | id in counted :: deliveries[id].session == d.request.session)
         || (exists id | id in counted :: deliveries[id].authorizedAt.value + cfg.cooldownSeconds * 1000 > now) {
        deciding := deciding[inst := d.(candidates := rest)];
        return;
      }
      if Recent(View(), inst, d.began) {
        deciding := deciding[inst := d.(candidates := [])];
        return;
      }
      deciding := deciding[inst := d.(candidates := [], chosen := Some(c))];
    }

    /** The insert and the commit; the primary key refuses an id that exists. */
    method DecideCommit(inst: Id, id: Id) returns (reply: Reply)
      requires inst in deciding && deciding[inst].candidates == []
      modifies this
      ensures var (t, answer) := DecideCommitStep(old(View()), inst, id);
        reply == answer && View() == if answer == Conflict then DecideAbortStep(old(View()), inst).0 else t
    {
      var d := deciding[inst];
      deciding := Unlocked(deciding, inst);
      if d.chosen.Some? && id in deliveries { return Conflict; }
      CloseDeliveries((x: Delivery) => x.inst == inst && x.expiresAt <= d.began, Expired);
      if d.chosen.None? { return Nothing; }
      deliveries := deliveries[id := Reservation(inst, d, d.chosen.value)];
      return Reserve(id);
    }

    /** Others run while inst is being decided. */
    method Meanwhile(inst: Id, between: seq<Step>, ghost start: Db, ghost steps: seq<Step>)
        returns (ghost now': seq<Step>)
      requires inst in deciding && inst in installations && View() == Run(start, cal, steps)
      modifies this
      ensures now' == steps + Others(inst, between) && View() == Run(start, cal, now')
      ensures inst in deciding && deciding[inst] == old(deciding)[inst] && inst in installations
    {
      hide Run, Others;
      OthersKeepTheLock(View(), cal, inst, between);
      RunConcat(start, cal, steps, Others(inst, between));
      now' := steps + Others(inst, between);
      Interleave(Others(inst, between));
    }

    /**
     decide: a begin, one look after the other and an insert, with any other transactions between them. Only the
     installation's row stays locked.
     */
    method Decide(inst: Id, request: Request, order: seq<Id>, id: Id, between: seq<seq<Step>>)
      returns (reply: Reply, ghost steps: seq<Step>)
      modifies this
      ensures var begun := DecideBeginStep(old(View()), inst, request, order);
        && View() == Run(begun.0, cal, steps)
        && if inst in old(View()).deciding || inst !in begun.0.deciding then steps == [] && reply == begun.1
           else DecisionRun(inst, id, steps) && (reply == Conflict <==> steps[|steps| - 1] == Step.DecideAbort(inst))
    {
      hide Run, Others, DecideLookStep, DecideCommitStep, DecideBeginStep, DecideAbortStep, Apply;
      var busy := inst in deciding;
      BeginMoves(View(), inst, request, order, inst);
      BeginTouches(View(), inst, request, order);
      reply := DecideBegin(inst, request, order);
      steps := [];
      RunNothing(View(), cal);
      if busy || inst !in deciding { return; }
      ghost var start := View();
      var k := 0;
      while deciding[inst].candidates != []
        invariant inst in deciding && inst in installations && View() == Run(start, cal, steps)
        invariant forall s | s in steps && OfDecision(inst, s) :: s.DecideLook?
        decreases |deciding[inst].candidates|
      {
        OthersAreNotOfIt(inst, Slot(between, k));
        steps := Meanwhile(inst, Slot(between, k), start, steps);
        StepsAre(View(), cal, inst, id);
        RunStep(start, cal, steps, DecideLook(inst));
        Look(inst);
        steps := steps + [DecideLook(inst)];
        k := k + 1;
      }
      OthersAreNotOfIt(inst, Slot(between, k));
      steps := Meanwhile(inst, Slot(between, k), start, steps);
      StepsAre(View(), cal, inst, id);
      RunStep(start, cal, steps, Step.DecideCommit(inst, id));
      RunStep(start, cal, steps, Step.DecideAbort(inst));
      reply := DecideCommit(inst, id);
      steps := steps + [if reply == Conflict then Step.DecideAbort(inst) else Step.DecideCommit(inst, id)];
    }

    method Authorize(inst: Id, id: Id) returns (reply: Reply)
      modifies this
      ensures (View(), reply) == AuthorizeStep(old(View()), inst, id)
    {
      if inst in deciding { return Waiting; }
      if inst !in installations || installations[inst].revoked { return Unauthorized; }
      if id !in deliveries || deliveries[id].inst != inst { return NotFound; }
      var d := deliveries[id];
      if d.camp !in campaigns { return NotFound; }
      var c := campaigns[d.camp];
      if !c.state.Published? || c.version != d.version { return Conflict; }
      if c.config.startsAt > now || c.config.endsAt <= now || d.expiresAt <= now { return Conflict; }
      if !d.state.Reserved? && !d.state.Authorized? { return Conflict; }
      if d.state.Reserved? {
        deliveries := deliveries[id := d.(state := Authorized, authorizedAt := Some(now),
                                          expiresAt := Min(now + AUTHORIZED_MS, c.config.endsAt))];
      }
      return Done;
    }

    /** The refusals of a report that is not a repetition, in order. */
    method Accepts(id: Id, row: EventRow, knownDetail: bool) returns (accepted: bool)
      requires id in deliveries
      ensures accepted == EventAccepted(View(), deliveries[id], id, row, knownDetail)
    {
      hide EventsOf, PresentedStored;
      var d := deliveries[id];
      if row.kind.CancelledKind? && !knownDetail { return false; }
      var occurred := if row.occurredAt.Some? then row.occurredAt.value else now;
      var closed := !Open(d.state) || d.expiresAt <= now;
      if row.occurredAt.Some? && (occurred < now - WEEK_MS || occurred > now + SKEW_MS
                                  || occurred < d.createdAt - SKEW_MS || occurred > d.expiresAt + SKEW_MS) {
        return false;
      }
      if closed && row.occurredAt.None? { return false; }
      if row.kind.PresentedKind? && d.authorizedAt.None? { return false; }
      if NeedsPresented(row.kind) && (d.authorizedAt.None? || !PresentedStored(View(), id)) { return false; }
      if |EventsOf(View(), id)| >= EVENT_LIMIT { return false; }
      return !(row.kind.Action? && !knownDetail);
    }

    method Event(inst: Id, id: Id, eventId: Id, row: EventRow, knownDetail: bool) returns (reply: Reply)
      modifies this
      ensures (View(), reply) == ReportStep(old(View()), cal, inst, id, eventId, row, knownDetail)
    {
      hide EventAccepted, Suppress, InsertEvent;
      if id !in deliveries || deliveries[id].inst != inst { return NotFound; }
      var d := deliveries[id];
      if (id, eventId) in events {
        var prior := events[(id, eventId)];
        if prior.kind != row.kind || prior.detail != row.detail { return Conflict; }
        if row.occurredAt.Some? && prior.occurredAt.Some? && row.occurredAt != prior.occurredAt { return Conflict; }
        return Done;
      }
      var accepted := Accepts(id, row, knownDetail);
      if !accepted { return Conflict; }
      if inst in deciding && InsertsSuppression(View(), cal, d, row) { return Waiting; }
      var stored := Suppress(View(), cal, d, row);
      events := InsertEvent(View(), id, eventId, row);
      suppressions := stored;
      var st := d.state;
      if !Open(d.state) || d.expiresAt <= now {
        if Open(d.state) { st := Expired; }
      } else if row.kind.PresentedKind? { st := Presented; }
      else if row.kind.Dismiss? { st := Completed; }
      else if row.kind.CancelledKind? { st := Cancelled; }
      else if row.kind.FailedKind? { st := Failed; }
      deliveries := deliveries[id := d.(state := st)];
      return Done;
    }

    /** revoke's first statement: the installation no longer counts as registered. */
    method RevokeInstallation(inst: Id)
      requires inst in installations
      modifies this
      ensures View() == Apply(old(View()), cal, RevokeRow(inst))
    {
      hide CreateStep, SaveStep, PublishStep, PauseStep, DecideBeginStep, DecideCommitStep, AuthorizeStep, ReportStep,
        DecideAbortStep, RevokeDeliveriesStep;
      ghost var before := View();
      if inst !in deciding {
        installations := installations[inst := installations[inst].(revoked := true)];
      }
      assert View() == RevokeRowStep(before, inst).0;
    }

    /** Its second statement: what is still open of the installation is cancelled. */
    method CancelOpen(inst: Id)
      requires inst in installations && installations[inst].revoked
      modifies this
      ensures View() == Apply(old(View()), cal, RevokeDeliveries(inst))
    {
      hide CreateStep, SaveStep, PublishStep, PauseStep, DecideBeginStep, DecideCommitStep, AuthorizeStep, ReportStep,
        DecideAbortStep, RevokeRowStep;
      ghost var before := View();
      CloseDeliveries((d: Delivery) => d.inst == inst, Cancelled);
      revokeDone := revokeDone + {inst};
      assert View() == RevokeDeliveriesStep(before, inst).0;
    }

    /** revoke is two statements; anything may happen between them. */
    method Revoke(inst: Id, between: seq<Step>)
      requires inst in installations && inst !in deciding
      modifies this
      ensures View() == Run(Apply(old(View()), cal, RevokeRow(inst)), cal, between + [RevokeDeliveries(inst)])
    {
      hide Run, CreateStep, SaveStep, PublishStep, PauseStep, DecideBeginStep, DecideCommitStep, AuthorizeStep,
        ReportStep, DecideAbortStep, RevokeDeliveriesStep;
      RevokeInstallation(inst);
      ghost var t := View();
      assert inst in t.installations && t.installations[inst].revoked;
      RevokedStays(t, cal, inst, between);
      Interleave(between);
      RunConcat(t, cal, between, [RevokeDeliveries(inst)]);
      RunOne(View(), cal, RevokeDeliveries(inst));
      CancelOpen(inst);
    }
  }
}
