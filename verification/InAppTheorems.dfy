/** What the in-app protocol promises its users, over every run. */
module InAppTheorems {
  import opened Wrappers
  import opened Collections
  import opened InAppProtocol
  import opened InAppSafety

  /** Deliveries of the pair shown in one session. */
  function AuthInSession(db: Db, inst: Id, camp: Id, session: Id): set<Id> {
    set id | id in db.deliveries && AuthorizedFor(db.deliveries[id], inst, camp) && db.deliveries[id].session == session
  }

  lemma SinceShrinks(db: Db, inst: Id, camp: Id, a: int, b: int)
    requires a <= b
    ensures |AuthSince(db, inst, camp, b)| <= |AuthSince(db, inst, camp, a)|
  {
    SubsetSize(AuthSince(db, inst, camp, b), AuthSince(db, inst, camp, a));
  }

  /**
   The caps are checked when a delivery is reserved and counted when it is authorized, possibly on a later
   local day and after other transactions. They hold at the authorization nevertheless.
   */
  lemma {:induction false} CapsHoldAtAuthorization(cal: Calendar, ss: seq<Step>, inst: Id, id: Id)
    requires Lawful(cal)
    requires var s := Run(Initial(), cal, ss);
      id in s.deliveries && s.deliveries[id].state.Reserved? && AuthorizeStep(s, inst, id).1 == Done
    ensures var s := Run(Initial(), cal, ss); var t := AuthorizeStep(s, inst, id).0;
      && id in t.deliveries && t.deliveries[id].camp in t.campaigns
      && var d := t.deliveries[id]; var cfg := t.campaigns[d.camp].config;
         && d.authorizedAt == Some(s.now)
         && |AuthIds(t, inst, d.camp)| <= cfg.maxTotal
         && |AuthSince(t, inst, d.camp, cal.dayStart(cfg.zone, s.now))| <= cfg.maxPerDay
         && AuthInSession(t, inst, d.camp, d.session) == {id}
         && (forall k | k in AuthIds(t, inst, d.camp) && k != id ::
               t.deliveries[k].authorizedAt.value + cfg.cooldownSeconds * 1000 <= s.now)
  {
    EveryRunKeepsInv(cal, ss);
    var s := Run(Initial(), cal, ss);
    hide Run, OneOpen, KeysUnique, Spaced, DecidingOk, CampaignsOk;
    var (t, _) := AuthorizeStep(s, inst, id);
    var d := s.deliveries[id];
    assert DeliveryOk(s, id) && Room(s, cal, d);
    PublishedConfig(s, d.camp, d.version);
    var cfg := s.campaigns[d.camp].config;
    AuthorizedSets(s, t, id, cal.dayStart(cfg.zone, s.now));
    SinceShrinks(s, inst, d.camp, cal.dayStart(cfg.zone, d.createdAt), cal.dayStart(cfg.zone, s.now));
    forall k | k in AuthInSession(t, inst, d.camp, d.session) ensures k == id {
      assert k != id ==> k in AuthIds(s, inst, d.camp);
    }
  }

  lemma PublishedConfig(s: Db, camp: Id, v: nat)
    requires CampaignsOk(s) && camp in s.campaigns && s.campaigns[camp].version == v && (camp, v) in s.publications
    ensures s.publications[(camp, v)].config == s.campaigns[camp].config
  {
    assert PublicationOk(s, (camp, v));
  }

  /** An authorization adds exactly itself to the counted sets. */
  lemma AuthorizedSets(s: Db, t: Db, id: Id, since: int)
    requires id in s.deliveries && s.deliveries[id].authorizedAt.None?
    requires id in t.deliveries && t.deliveries == s.deliveries[id := t.deliveries[id]]
    requires t.deliveries[id].inst == s.deliveries[id].inst && t.deliveries[id].camp == s.deliveries[id].camp
    requires t.deliveries[id].authorizedAt == Some(s.now)
    ensures var d := s.deliveries[id];
      && AuthIds(t, d.inst, d.camp) == AuthIds(s, d.inst, d.camp) + {id}
      && |AuthIds(t, d.inst, d.camp)| == |AuthIds(s, d.inst, d.camp)| + 1
      && |AuthSince(t, d.inst, d.camp, since)| <= |AuthSince(s, d.inst, d.camp, since)| + 1
  {
    var d := s.deliveries[id];
    assert AuthIds(t, d.inst, d.camp) == AuthIds(s, d.inst, d.camp) + {id};
    SubsetSize(AuthSince(t, d.inst, d.camp, since), AuthSince(s, d.inst, d.camp, since) + {id});
  }

  /** At most one delivery of an installation is reserved, authorized or presented. */
  lemma {:induction false} OneOpenDelivery(cal: Calendar, ss: seq<Step>, i: Id, j: Id)
    requires var s := Run(Initial(), cal, ss);
      && i in s.deliveries && j in s.deliveries && s.deliveries[i].inst == s.deliveries[j].inst
      && Open(s.deliveries[i].state) && Open(s.deliveries[j].state)
    ensures i == j
  {
    EveryRunKeepsInv(cal, ss);
  }

  /** A request key is answered by one delivery, however often it is sent. */
  lemma {:induction false} OneDeliveryPerRequest(cal: Calendar, ss: seq<Step>, i: Id, j: Id)
    requires var s := Run(Initial(), cal, ss);
      && i in s.deliveries && j in s.deliveries && s.deliveries[i].inst == s.deliveries[j].inst
      && s.deliveries[i].requestKey == s.deliveries[j].requestKey
    ensures i == j
  {
    EveryRunKeepsInv(cal, ss);
  }

  /** Two authorizations of one installation are at least 30 seconds apart, whatever their campaigns. */
  lemma {:induction false} AuthorizationsSpaced(cal: Calendar, ss: seq<Step>, i: Id, j: Id)
    requires var s := Run(Initial(), cal, ss);
      && i in s.deliveries && j in s.deliveries && i != j && s.deliveries[i].inst == s.deliveries[j].inst
      && s.deliveries[i].authorizedAt.Some? && s.deliveries[j].authorizedAt.Some?
      && s.deliveries[i].authorizedAt.value <= s.deliveries[j].authorizedAt.value
    ensures var s := Run(Initial(), cal, ss);
      s.deliveries[j].authorizedAt.value - s.deliveries[i].authorizedAt.value >= SPACING_MS
  {
    EveryRunKeepsInv(cal, ss);
  }

  /**
   Whatever is authorized or presented belongs to a campaign published at exactly that version, with the
   config that version was published with.
   */
  lemma {:induction false} DisplayedIsCurrent(cal: Calendar, ss: seq<Step>, id: Id)
    requires var s := Run(Initial(), cal, ss);
      id in s.deliveries && (s.deliveries[id].state.Authorized? || s.deliveries[id].state.Presented?)
    ensures var s := Run(Initial(), cal, ss); var d := s.deliveries[id];
      && d.camp in s.campaigns && s.campaigns[d.camp].state.Published? && s.campaigns[d.camp].version == d.version
      && (d.camp, d.version) in s.publications
      && s.publications[(d.camp, d.version)].config == s.campaigns[d.camp].config
  {
    EveryRunKeepsInv(cal, ss);
    var s := Run(Initial(), cal, ss);
    assert DeliveryOk(s, id);
    PublishedConfig(s, s.deliveries[id].camp, s.deliveries[id].version);
  }

  /** Presented or completed means: it was authorized, and a presented event is on record. */
  lemma {:induction false} PresentedWasAuthorized(cal: Calendar, ss: seq<Step>, id: Id)
    requires var s := Run(Initial(), cal, ss);
      id in s.deliveries && (s.deliveries[id].state.Presented? || s.deliveries[id].state.Completed?)
    ensures var s := Run(Initial(), cal, ss); s.deliveries[id].authorizedAt.Some? && PresentedStored(s, id)
  {
    EveryRunKeepsInv(cal, ss);
    assert DeliveryOk(Run(Initial(), cal, ss), id);
  }

  /** Once revoke has run both its statements, nothing of the installation is open or can be reserved. */
  lemma {:induction false} RevokedStaysShut(cal: Calendar, ss: seq<Step>, inst: Id)
    requires inst in Run(Initial(), cal, ss).revokeDone
    ensures var s := Run(Initial(), cal, ss);
      && !HasOpen(s.deliveries, inst) && inst !in s.deciding
      && inst in s.installations && s.installations[inst].revoked
  {
    EveryRunKeepsInv(cal, ss);
    var s := Run(Initial(), cal, ss);
    forall id | id in s.deliveries && s.deliveries[id].inst == inst ensures !Open(s.deliveries[id].state) {
      assert DeliveryOk(s, id);
    }
    assert inst in s.deciding ==> DecidingOk(s, cal, inst);
  }

  // ---------------------------------------------------------------- what no later step undoes

  /** How one delivery may differ after a step: closed ones not at all, and only Authorize stamps an authorization. */
  predicate Onward(a: Delivery, b: Delivery, authorizing: bool) {
    && (b.inst, b.camp, b.version, b.requestKey, b.session, b.createdAt)
         == (a.inst, a.camp, a.version, a.requestKey, a.session, a.createdAt)
    && (!Open(a.state) ==> b == a)
    && (b.state.Reserved? ==> a.state.Reserved?)
    && (a.authorizedAt.Some? ==> b.authorizedAt == a.authorizedAt)
    && (b.authorizedAt != a.authorizedAt ==> authorizing && a.state.Reserved? && b.state.Authorized?)
  }

  lemma CampaignStepsOnward(db: Db, cal: Calendar, s: Step, id: Id)
    requires id in db.deliveries
    requires s.Create? || s.Save? || s.Publish? || s.Pause?
    ensures id in Apply(db, cal, s).deliveries && Onward(db.deliveries[id], Apply(db, cal, s).deliveries[id], false)
  {
  }

  lemma RowStepsOnward(db: Db, cal: Calendar, s: Step, id: Id)
    requires id in db.deliveries
    requires s.Tick? || s.Register? || s.DecideLook? || s.DecideAbort? || s.RevokeRow?
    ensures Apply(db, cal, s).deliveries == db.deliveries
  {
    hide Onward, NextLook;
  }

  lemma RevokeOnward(db: Db, inst: Id, id: Id)
    requires id in db.deliveries
    ensures var t := RevokeDeliveriesStep(db, inst).0;
      id in t.deliveries && Onward(db.deliveries[id], t.deliveries[id], false)
  {
  }

  lemma StayingIsOnward(d: Delivery)
    ensures Onward(d, d, false)
  {
  }

  lemma BeginOnward(db: Db, inst: Id, request: Request, order: seq<Id>, id: Id)
    requires id in db.deliveries
    ensures var t := DecideBeginStep(db, inst, request, order).0;
      id in t.deliveries && Onward(db.deliveries[id], t.deliveries[id], false)
  {
    DecideBeginShapes(db, inst, request, order);
    hide DecideBeginStep;
  }

  lemma CommitOnward(db: Db, inst: Id, newId: Id, id: Id)
    requires id in db.deliveries
    ensures var t := DecideCommitStep(db, inst, newId).0;
      id in t.deliveries && Onward(db.deliveries[id], t.deliveries[id], false)
  {
  }

  lemma AuthorizeOnward(db: Db, inst: Id, which: Id, id: Id)
    requires id in db.deliveries && (db.deliveries[id].state.Reserved? ==> db.deliveries[id].authorizedAt.None?)
    ensures var t := AuthorizeStep(db, inst, which).0;
      id in t.deliveries && Onward(db.deliveries[id], t.deliveries[id], true)
  {
  }

  lemma ReportOnward(db: Db, cal: Calendar, inst: Id, which: Id, eventId: Id, row: EventRow, known: bool, id: Id)
    requires id in db.deliveries
    ensures var t := ReportStep(db, cal, inst, which, eventId, row, known).0;
      id in t.deliveries && Onward(db.deliveries[id], t.deliveries[id], false)
  {
    hide EventAccepted, InsertEvent, Suppress, InsertsSuppression;
  }

  lemma {:induction false} StepIsOnward(db: Db, cal: Calendar, s: Step, id: Id)
    requires id in db.deliveries && DeliveryOk(db, id)
    ensures var t := Apply(db, cal, s);
      id in t.deliveries && Onward(db.deliveries[id], t.deliveries[id], s.Authorize?)
  {
    hide DeliveryOk, CreateStep, SaveStep, PublishStep, PauseStep, DecideBeginStep, DecideLookStep, DecideCommitStep,
      AuthorizeStep,
      ReportStep, RevokeRowStep, RevokeDeliveriesStep, DecideAbortStep;
    match s
    case DecideBegin(inst, request, order) => BeginOnward(db, inst, request, order, id);
    case DecideCommit(inst, newId) => CommitOnward(db, inst, newId, id);
    case Authorize(inst, which) =>
      ReservedUnstamped(db, id);
      AuthorizeOnward(db, inst, which, id);
    case Report(inst, which, eventId, row, known) => ReportOnward(db, cal, inst, which, eventId, row, known, id);
    case Create(_, _, _) => CampaignStepsOnward(db, cal, s, id);
    case Save(_, _, _, _) => CampaignStepsOnward(db, cal, s, id);
    case Publish(_, _, _) => CampaignStepsOnward(db, cal, s, id);
    case Pause(_, _) => CampaignStepsOnward(db, cal, s, id);
    case RevokeDeliveries(inst) => RevokeOnward(db, inst, id);
    case _ =>
      RowStepsOnward(db, cal, s, id);
      StayingIsOnward(db.deliveries[id]);
  }

  lemma ReservedUnstamped(db: Db, id: Id)
    requires id in db.deliveries && DeliveryOk(db, id)
    ensures db.deliveries[id].state.Reserved? ==> db.deliveries[id].authorizedAt.None?
  {
  }

  lemma AlwaysOk(cal: Calendar, ss: seq<Step>, id: Id)
    requires id in Run(Initial(), cal, ss).deliveries
    ensures DeliveryOk(Run(Initial(), cal, ss), id)
  {
    EveryRunKeepsInv(cal, ss);
    hide DeliveryOk, CampaignsOk, OneOpen, KeysUnique, Spaced, RevokedOk, Room, DecidingOk, Run;
  }

  /** Closed deliveries never change again; an authorization, once stamped, is never moved or removed. */
  lemma {:induction false} ClosedIsForever(cal: Calendar, ss: seq<Step>, more: seq<Step>, id: Id)
    requires id in Run(Initial(), cal, ss).deliveries
    ensures id in Run(Initial(), cal, ss + more).deliveries
    ensures var a := Run(Initial(), cal, ss).deliveries[id]; var b := Run(Initial(), cal, ss + more).deliveries[id];
      (!Open(a.state) ==> b == a) && (a.authorizedAt.Some? ==> b.authorizedAt == a.authorizedAt)
  {
    if more == [] {
      assert ss + more == ss;
    } else {
      var n := |more| - 1;
      ClosedIsForever(cal, ss, more[..n], id);
      assert (ss + more)[..|ss + more| - 1] == ss + more[..n];
      AlwaysOk(cal, ss + more[..n], id);
      hide DeliveryOk, Apply;
      StepIsOnward(Run(Initial(), cal, ss + more[..n]), cal, more[n], id);
    }
  }

  /** Only the authorize transaction grants display; events, late ones included, never do. */
  lemma OnlyAuthorizeGrants(cal: Calendar, ss: seq<Step>, s: Step, id: Id)
    requires var db := Run(Initial(), cal, ss);
      && id in db.deliveries && id in Apply(db, cal, s).deliveries
      && db.deliveries[id].authorizedAt != Apply(db, cal, s).deliveries[id].authorizedAt
    ensures s.Authorize? && Run(Initial(), cal, ss).deliveries[id].state.Reserved?
  {
    hide Apply;
    AlwaysOk(cal, ss, id);
    StepIsOnward(Run(Initial(), cal, ss), cal, s, id);
  }

  predicate ConfigsKept(c: Campaign, d: Campaign) {
    CampaignOk(c) && CampaignOk(d) && c.version <= d.version
    && forall v | 1 <= v <= c.version :: ConfigAt(d, v) == ConfigAt(c, v)
  }

  lemma {:induction false} StepKeepsConfigs(db: Db, cal: Calendar, s: Step, camp: Id)
    requires Inv(db, cal) && camp in db.campaigns
    ensures camp in Apply(db, cal, s).campaigns && ConfigsKept(db.campaigns[camp], Apply(db, cal, s).campaigns[camp])
  {
    ApplyKeeps(db, cal, s);
    var t := Apply(db, cal, s);
    hide Inv, DeliveryOk, Room, DecidingOk, DecideBeginStep, DecideLookStep, DecideCommitStep;
    assert CampaignsOk(db) by { InvCampaigns(db, cal); }
    assert CampaignsOk(t) by { InvCampaigns(t, cal); }
    assert camp in t.campaigns && Evolves(db.campaigns[camp], t.campaigns[camp]) by { StepEvolves(db, cal, s, camp); }
    forall v | 1 <= v <= db.campaigns[camp].version
      ensures ConfigAt(t.campaigns[camp], v) == ConfigAt(db.campaigns[camp], v)
    {
      EvolvingKeepsConfigs(db.campaigns[camp], t.campaigns[camp], v);
    }
  }

  /** The campaign is there after the step, and is its next value. */
  predicate EvolvedIn(db: Db, t: Db, camp: Id)
    requires camp in db.campaigns
  {
    camp in t.campaigns && Evolves(db.campaigns[camp], t.campaigns[camp])
  }

  lemma CreateEvolves(db: Db, made: Id, revision: Id, config: Config, camp: Id)
    requires camp in db.campaigns
    ensures EvolvedIn(db, CreateStep(db, made, revision, config).0, camp)
  {
    hide Close, ConfigAccepted;
  }

  lemma SaveEvolves(db: Db, saved: Id, expected: nat, revision: Id, config: Config, camp: Id)
    requires camp in db.campaigns
    ensures EvolvedIn(db, SaveStep(db, saved, expected, revision, config).0, camp)
  {
    hide Close, ConfigAccepted;
  }

  lemma PublishEvolves(db: Db, published: Id, expected: nat, reviewed: set<Platform>, camp: Id)
    requires camp in db.campaigns
    ensures EvolvedIn(db, PublishStep(db, published, expected, reviewed).0, camp)
  {
    hide Close, ConfigAccepted;
  }

  lemma PauseEvolves(db: Db, paused: Id, expected: nat, camp: Id)
    requires camp in db.campaigns
    ensures EvolvedIn(db, PauseStep(db, paused, expected).0, camp)
  {
    hide Close, ConfigAccepted;
  }

  lemma OtherStepsLeaveCampaigns(db: Db, cal: Calendar, s: Step)
    requires !OfCampaigns(s)
    ensures Apply(db, cal, s).campaigns == db.campaigns
  {
    hide Apply;
    StepTouches(db, cal, s);
  }

  lemma StepEvolves(db: Db, cal: Calendar, s: Step, camp: Id)
    requires camp in db.campaigns
    ensures camp in Apply(db, cal, s).campaigns && Evolves(db.campaigns[camp], Apply(db, cal, s).campaigns[camp])
  {
    hide CreateStep, SaveStep, PublishStep, PauseStep, DecideBeginStep, DecideLookStep, DecideCommitStep,
      DecideAbortStep, AuthorizeStep,
      ReportStep, RevokeRowStep, RevokeDeliveriesStep;
    match s
    case Create(made, revision, config) => CreateEvolves(db, made, revision, config, camp);
    case Save(saved, expected, revision, config) => SaveEvolves(db, saved, expected, revision, config, camp);
    case Publish(published, expected, reviewed) => PublishEvolves(db, published, expected, reviewed, camp);
    case Pause(paused, expected) => PauseEvolves(db, paused, expected, camp);
    case _ => OtherStepsLeaveCampaigns(db, cal, s);
  }

  /** A campaign version never has two configs: what it meant once it means for ever. */
  lemma {:induction false} VersionMeansOneConfig(cal: Calendar, ss: seq<Step>, more: seq<Step>, camp: Id)
    requires camp in Run(Initial(), cal, ss).campaigns
    ensures camp in Run(Initial(), cal, ss + more).campaigns
    ensures ConfigsKept(Run(Initial(), cal, ss).campaigns[camp], Run(Initial(), cal, ss + more).campaigns[camp])
  {
    EveryRunKeepsInv(cal, ss);
    if more == [] {
      assert ss + more == ss;
      assert CampaignsOk(Run(Initial(), cal, ss));
    } else {
      var n := |more| - 1;
      VersionMeansOneConfig(cal, ss, more[..n], camp);
      assert (ss + more)[..|ss + more| - 1] == ss + more[..n];
      EveryRunKeepsInv(cal, ss + more[..n]);
      StepKeepsConfigs(Run(Initial(), cal, ss + more[..n]), cal, more[n], camp);
    }
  }
}
