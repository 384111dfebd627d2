/**
 In-app campaigns and deliveries of one app, as a state machine whose steps are the database transactions
 of the API, cut wherever the code does not hold a lock: `decide` reads the campaigns, looks at one candidate
 after the other and inserts, with other transactions in between, and `revoke` is two statements. `deciding`
 holds the installation rows locked FOR UPDATE.
 */
module InAppProtocol {
  import opened Wrappers

  type Id = nat
  type Zone = string

  /** Where a local day starts and ends, per zone. Only its order is used. */
  datatype Calendar = Calendar(dayStart: (Zone, int) -> int, dayEnd: (Zone, int) -> int)

  ghost predicate Lawful(cal: Calendar) {
    && (forall z: Zone, t: int :: cal.dayStart(z, t) <= t)
    && (forall z: Zone, t: int, u: int :: t <= u ==> cal.dayStart(z, t) <= cal.dayStart(z, u))
  }

  datatype Platform = Ios | Android
  datatype Trigger = Foreground | Launch | Screen(name: string) | Custom(name: string)

  datatype Config = Config(platforms: set<Platform>, trigger: Trigger, zone: Zone, startsAt: int, endsAt: int,
                           cooldownSeconds: nat, maxPerDay: nat, maxTotal: nat, priority: nat)

  datatype CampaignState = Draft | Published | Paused
  /** `past` remembers the config of every earlier version: past[v - 1] is version v's. */
  datatype Campaign = Campaign(state: CampaignState, version: nat, revision: Id, config: Config, past: seq<Config>)
  datatype Publication = Publication(revision: Id, config: Config)

  datatype DeliveryState = Reserved | Authorized | Presented | Completed | Failed | Cancelled | Expired
  datatype Delivery = Delivery(inst: Id, camp: Id, version: nat, requestKey: Id, session: Id, trigger: Trigger,
                               state: DeliveryState, expiresAt: int, authorizedAt: Option<int>, createdAt: int)

  datatype Kind =
    | BridgeReady | ContentReady | PresentedKind | Impression | Action | Dismiss | FailedKind | Log | HideToday
    | CancelledKind
  datatype EventRow = EventRow(kind: Kind, detail: string, occurredAt: Option<int>)

  datatype Installation = Installation(platform: Platform, revoked: bool)
  datatype Request = Request(requestKey: Id, session: Id, trigger: Trigger, supportsTimeZone: bool)
  datatype Candidate = Candidate(camp: Id, campaign: Campaign)

  /** A `decide` between its unlocked read of the campaigns and its insert: what is left to look at, and its choice. */
  datatype Deciding = Deciding(request: Request, began: int, candidates: seq<Candidate>, chosen: Option<Candidate>)

  datatype Db = Db(
    now: int,
    installations: map<Id, Installation>,
    campaigns: map<Id, Campaign>,
    publications: map<(Id, nat), Publication>,
    deliveries: map<Id, Delivery>,
    events: map<(Id, Id), EventRow>,
    suppressions: map<(Id, Id), int>,
    deciding: map<Id, Deciding>,
    revokeDone: set<Id>)                 // installations whose revoke has completed

  datatype Reply =
    | Done | Reserve(id: Id) | Repeat(ids: set<Id>) | Nothing | Unauthorized | NotFound | Conflict | Waiting

  datatype Step =
    | Tick(to: int)
    | Register(inst: Id, platform: Platform)
    | Create(camp: Id, revision: Id, config: Config)
    | Save(camp: Id, expected: nat, revision: Id, config: Config)
    | Publish(camp: Id, expected: nat, reviewed: set<Platform>)
    | Pause(camp: Id, expected: nat)
    | DecideBegin(inst: Id, request: Request, order: seq<Id>)
    | DecideLook(inst: Id)
    | DecideCommit(inst: Id, id: Id)
    | DecideAbort(inst: Id)
    | Authorize(inst: Id, id: Id)
    | Report(inst: Id, id: Id, eventId: Id, row: EventRow, knownDetail: bool)
    | RevokeRow(inst: Id)
    | RevokeDeliveries(inst: Id)

  const RESERVE_MS: int := 30000
  const AUTHORIZED_MS: int := 300000
  const SPACING_MS: int := 30000
  const SKEW_MS: int := 120000
  const WEEK_MS: int := 7 * 86400000
  const EVENT_LIMIT: nat := 200

  predicate Open(st: DeliveryState) { st.Reserved? || st.Authorized? || st.Presented? }

  predicate ConfigAccepted(c: Config) {
    c.platforms != {} && c.startsAt < c.endsAt && 60 <= c.cooldownSeconds <= 31536000
    && 1 <= c.maxPerDay <= 10 && 1 <= c.maxTotal <= 100 && c.priority <= 100
  }

  function Initial(): Db {
    Db(0, map[], map[], map[], map[], map[], map[], map[], {})
  }

  // ---------------------------------------------------------------- campaigns

  function PutCampaign(db: Db, camp: Id, c: Campaign): Db {
    db.(campaigns := db.campaigns[camp := c])
  }

  function CreateStep(db: Db, camp: Id, revision: Id, config: Config): (Db, Reply) {
    if camp in db.campaigns || !ConfigAccepted(config) then (db, Conflict)
    else (PutCampaign(db, camp, Campaign(Draft, 1, revision, config, [])), Done)
  }

  function SaveStep(db: Db, camp: Id, expected: nat, revision: Id, config: Config): (Db, Reply) {
    if camp !in db.campaigns || !ConfigAccepted(config) || db.campaigns[camp].version != expected
       || db.campaigns[camp].state.Published? then (db, Conflict)
    else 
      var c := db.campaigns[camp];
      (PutCampaign(db, camp, Campaign(c.state, expected + 1, revision, config, c.past + [c.config])), Done)
  }

  function PublishStep(db: Db, camp: Id, expected: nat, reviewed: set<Platform>): (Db, Reply) {
    if camp !in db.campaigns then (db, NotFound)
    else
      var c := db.campaigns[camp];
      if c.version != expected then (db, Conflict)
      else if c.state.Published? then (db, Done)
      else if c.config.endsAt <= db.now || !(c.config.platforms <= reviewed) then (db, Conflict)
      else if (camp, c.version) in db.publications then (db, Conflict)
      else
        (PutCampaign(db, camp, c.(state := Published)).(
           publications := db.publications[(camp, c.version) := Publication(c.revision, c.config)]), Done)
  }

  /** Open deliveries chosen by `hit` become `to`. */
  function Close(ds: map<Id, Delivery>, hit: Delivery -> bool, to: DeliveryState): map<Id, Delivery> {
    map id | id in ds :: if Open(ds[id].state) && hit(ds[id]) then ds[id].(state := to) else ds[id]
  }

  function PauseStep(db: Db, camp: Id, expected: nat): (Db, Reply) {
    if camp !in db.campaigns then (db, NotFound)
    else
      var c := db.campaigns[camp];
      if c.version != expected then (db, Conflict)
      else
        (PutCampaign(db, camp, c.(state := Paused, version := c.version + 1, past := c.past + [c.config])).(
           deliveries := Close(db.deliveries, (d: Delivery) => d.camp == camp, Cancelled)), Done)
  }

  // ---------------------------------------------------------------- decide

  function ExpireFor(db: Db, inst: Id, at: int): map<Id, Delivery> {
    Close(db.deliveries, (d: Delivery) => d.inst == inst && d.expiresAt <= at, Expired)
  }

  predicate HasOpen(ds: map<Id, Delivery>, inst: Id) {
    exists id | id in ds :: ds[id].inst == inst && Open(ds[id].state)
  }

  /** The published campaigns in the order the query returned them. */
  function Candidates(db: Db, order: seq<Id>): seq<Candidate> {
    if order == [] then []
    else
      var rest := Candidates(db, order[1..]);
      if order[0] in db.campaigns && db.campaigns[order[0]].state.Published?
      then [Candidate(order[0], db.campaigns[order[0]])] + rest
      else rest
  }

  function Requested(db: Db, inst: Id, key: Id): set<Id> {
    set id | id in db.deliveries && db.deliveries[id].inst == inst && db.deliveries[id].requestKey == key
  }

  function ZoneOf(db: Db, d: Delivery): Zone {
    if (d.camp, d.version) in db.publications then db.publications[(d.camp, d.version)].config.zone else "UTC"
  }

  /** A repeated request gets the delivery it was given, while that is still reserved and the client knows its zone. */
  function Repeated(db: Db, ds: map<Id, Delivery>, asked: set<Id>, supportsTimeZone: bool): Reply {
    var again := set id | id in asked && id in ds && ds[id].state.Reserved?
      && (supportsTimeZone || ZoneOf(db, ds[id]) == "UTC");
    if again == {} then Nothing else Repeat(again)
  }

  /** The request key was used before, for something else. */
  predicate KeyReused(db: Db, asked: set<Id>, request: Request) {
    exists id | id in asked && id in db.deliveries ::
      db.deliveries[id].session != request.session || db.deliveries[id].trigger != request.trigger
  }

  /** An accepted request: what it was asked before, and the deliveries with the overdue ones expired. */
  function BeginWith(db: Db, inst: Id, request: Request, order: seq<Id>, asked: set<Id>,
      expired: map<Id, Delivery>): (Db, Reply) {
    if KeyReused(db, asked, request) then (db, Conflict)
    else if asked != {} then (db.(deliveries := expired), Repeated(db, expired, asked, request.supportsTimeZone))
    else if HasOpen(expired, inst) then (db.(deliveries := expired), Nothing)
    else (PutDeciding(db, inst, Deciding(request, db.now, Candidates(db, order), None)), Waiting)
  }

  function DecideBeginStep(db: Db, inst: Id, request: Request, order: seq<Id>): (Db, Reply) {
    if inst in db.deciding then (db, Waiting)
    else if inst !in db.installations || db.installations[inst].revoked then (db, Unauthorized)
    else BeginWith(db, inst, request, order, Requested(db, inst, request.requestKey), ExpireFor(db, inst, db.now))
  }

  predicate AuthorizedFor(d: Delivery, inst: Id, camp: Id) {
    d.inst == inst && d.camp == camp && d.authorizedAt.Some?
  }

  function PutDeciding(db: Db, inst: Id, d: Deciding): Db {
    db.(deciding := db.deciding[inst := d])
  }

  /** Deliveries of the pair that were ever authorized. */
  function AuthIds(db: Db, inst: Id, camp: Id): set<Id> {
    set id | id in db.deliveries && AuthorizedFor(db.deliveries[id], inst, camp)
  }

  function AuthSince(db: Db, inst: Id, camp: Id, since: int): set<Id> {
    set id | id in db.deliveries && AuthorizedFor(db.deliveries[id], inst, camp)
      && db.deliveries[id].authorizedAt.value >= since
  }

  /** The loop body's test: none of the `continue` conditions holds. */
  predicate Eligible(db: Db, cal: Calendar, inst: Id, platform: Platform, d: Deciding, c: Candidate) {
    var cfg := c.campaign.config;
    && platform in cfg.platforms
    && (d.request.supportsTimeZone || cfg.zone == "UTC")
    && cfg.startsAt <= db.now < cfg.endsAt
    && cfg.trigger == d.request.trigger
    && !((inst, c.camp) in db.suppressions && db.suppressions[(inst, c.camp)] > d.began)
    && |AuthIds(db, inst, c.camp)| < cfg.maxTotal
    && |AuthSince(db, inst, c.camp, cal.dayStart(cfg.zone, d.began))| < cfg.maxPerDay
    && (forall id | id in AuthIds(db, inst, c.camp) ::
          && db.deliveries[id].session != d.request.session
          && db.deliveries[id].authorizedAt.value + cfg.cooldownSeconds * 1000 <= db.now)
  }

  predicate Recent(db: Db, inst: Id, began: int) {
    exists id | id in db.deliveries ::
      db.deliveries[id].inst == inst && db.deliveries[id].authorizedAt.Some?
      && db.deliveries[id].authorizedAt.value > began - SPACING_MS
  }

  /** What the look at the next candidate makes of a decision. */
  function NextLook(db: Db, cal: Calendar, inst: Id, platform: Platform, d: Deciding): Deciding
    requires d.candidates != []
  {
    if !Eligible(db, cal, inst, platform, d, d.candidates[0]) then d.(candidates := d.candidates[1..])
    else if Recent(db, inst, d.began) then d.(candidates := [])
    else d.(candidates := [], chosen := Some(d.candidates[0]))
  }

  /**
   The decision looks at its next candidate: one that fails a test is passed over; the first that passes is chosen,
   unless an authorization was too recent, which ends the decision. Authorizations of the installation wait for its
   row, so the counts cannot move between the reads of one candidate.
   */
  function DecideLookStep(db: Db, cal: Calendar, inst: Id): (Db, Reply) {
    if inst !in db.deciding || inst !in db.installations || db.deciding[inst].candidates == [] then (db, Waiting)
    else (PutDeciding(db, inst, NextLook(db, cal, inst, db.installations[inst].platform, db.deciding[inst])), Done)
  }

  function Reservation(inst: Id, d: Deciding, c: Candidate): Delivery {
    Delivery(inst, c.camp, c.campaign.version, d.request.requestKey, d.request.session, d.request.trigger,
             Reserved, d.began + RESERVE_MS, None, d.began)
  }

  /** Without the row of inst. */
  function Unlocked(deciding: map<Id, Deciding>, inst: Id): map<Id, Deciding> {
    map i | i in deciding && i != inst :: deciding[i]
  }

  /** The insert of the chosen delivery, if any, and the commit. */
  function DecideCommitStep(db: Db, inst: Id, id: Id): (Db, Reply) {
    if inst !in db.deciding || db.deciding[inst].candidates != [] then (db, Waiting)
    else
      var d := db.deciding[inst];
      var expired := ExpireFor(db, inst, d.began);
      var released := db.(deliveries := expired, deciding := Unlocked(db.deciding, inst));
      if d.chosen.None? then (released, Nothing)
      else if id in db.deliveries then (db, Conflict)
      else (released.(deliveries := expired[id := Reservation(inst, d, d.chosen.value)]), Reserve(id))
  }

  function DecideAbortStep(db: Db, inst: Id): (Db, Reply) {
    (db.(deciding := Unlocked(db.deciding, inst)), Done)
  }

  // ---------------------------------------------------------------- authorize, event, revoke

  function Min(a: int, b: int): int { if a <= b then a else b }

  function AuthorizeStep(db: Db, inst: Id, id: Id): (Db, Reply) {
    if inst in db.deciding then (db, Waiting)
    else if inst !in db.installations || db.installations[inst].revoked then (db, Unauthorized)
    else if id !in db.deliveries || db.deliveries[id].inst != inst then (db, NotFound)
    else
      var d := db.deliveries[id];
      if d.camp !in db.campaigns then (db, NotFound)
      else
        var c := db.campaigns[d.camp];
        if !c.state.Published? || c.version != d.version || c.config.startsAt > db.now || c.config.endsAt <= db.now
           || d.expiresAt <= db.now || !(d.state.Reserved? || d.state.Authorized?) then (db, Conflict)
        else if d.state.Authorized? then (db, Done)
        else
          (db.(deliveries := db.deliveries[id := d.(state := Authorized, authorizedAt := Some(db.now),
                                                    expiresAt := Min(db.now + AUTHORIZED_MS, c.config.endsAt))]), Done)
  }

  predicate PresentedStored(db: Db, id: Id) {
    exists e | e in db.events :: e.0 == id && db.events[e].kind.PresentedKind?
  }

  function EventsOf(db: Db, id: Id): set<(Id, Id)> { set e | e in db.events && e.0 == id }

  predicate NeedsPresented(k: Kind) { k.Impression? || k.Action? || k.HideToday? || k.Dismiss? }

  predicate OncePerDelivery(k: Kind) { k.PresentedKind? || k.Impression? || k.HideToday? }

  /** Closed to new events: no longer open, or past its expiry. */
  predicate ClosedAt(d: Delivery, now: int) { !Open(d.state) || d.expiresAt <= now }

  predicate EventAccepted(db: Db, d: Delivery, id: Id, row: EventRow, knownDetail: bool) {
    var closed := ClosedAt(d, db.now);
    && (row.kind.CancelledKind? ==> knownDetail)
    && (row.occurredAt.Some? ==>
          && db.now - WEEK_MS <= row.occurredAt.value <= db.now + SKEW_MS
          && d.createdAt - SKEW_MS <= row.occurredAt.value <= d.expiresAt + SKEW_MS)
    && (closed ==> row.occurredAt.Some?)
    && (row.kind.PresentedKind? ==> d.authorizedAt.Some?)
    && (NeedsPresented(row.kind) ==> d.authorizedAt.Some? && PresentedStored(db, id))
    && |EventsOf(db, id)| < EVENT_LIMIT
    && (row.kind.Action? ==> knownDetail)
  }

  function NextState(d: Delivery, now: int, k: Kind): DeliveryState {
    if ClosedAt(d, now) then (if Open(d.state) then Expired else d.state)
    else match k
      case PresentedKind => Presented
      case Dismiss => Completed
      case CancelledKind => Cancelled
      case FailedKind => Failed
      case _ => d.state
  }

  function InsertEvent(db: Db, id: Id, eventId: Id, row: EventRow): map<(Id, Id), EventRow> {
    if OncePerDelivery(row.kind) && (exists e | e in db.events :: e.0 == id && db.events[e].kind == row.kind)
      then db.events
    else db.events[(id, eventId) := row]
  }

  function Suppress(db: Db, cal: Calendar, d: Delivery, row: EventRow): map<(Id, Id), int> {
    if !row.kind.HideToday? || (d.camp, d.version) !in db.publications then db.suppressions
    else
      var occurred := if row.occurredAt.Some? then row.occurredAt.value else db.now;
      var until := cal.dayEnd(db.publications[(d.camp, d.version)].config.zone, occurred);
      var key := (d.inst, d.camp);
      if until <= db.now || (key in db.suppressions && db.suppressions[key] >= until) then db.suppressions
      else db.suppressions[key := until]
  }

  /**
   A first suppression of its installation and campaign: the inserted row refers to the installation, whose row a
   decision has locked. Extending one that exists waits for nothing.
   */
  predicate InsertsSuppression(db: Db, cal: Calendar, d: Delivery, row: EventRow) {
    (d.inst, d.camp) !in db.suppressions && Suppress(db, cal, d, row) != db.suppressions
  }

  function ReportStep(db: Db, cal: Calendar, inst: Id, id: Id, eventId: Id, row: EventRow,
      knownDetail: bool): (Db, Reply) {
    if id !in db.deliveries || db.deliveries[id].inst != inst then (db, NotFound)
    else if (id, eventId) in db.events then
      var prior := db.events[(id, eventId)];
      if prior.kind != row.kind || prior.detail != row.detail
         || (row.occurredAt.Some? && prior.occurredAt.Some? && row.occurredAt != prior.occurredAt) then (db, Conflict)
      else (db, Done)
    else
      var d := db.deliveries[id];
      if !EventAccepted(db, d, id, row, knownDetail) then (db, Conflict)
      else if inst in db.deciding && InsertsSuppression(db, cal, d, row) then (db, Waiting)
      else
        (db.(events := InsertEvent(db, id, eventId, row),
             suppressions := Suppress(db, cal, d, row),
             deliveries := db.deliveries[id := d.(state := NextState(d, db.now, row.kind))]), Done)
  }

  function RevokeRowStep(db: Db, inst: Id): (Db, Reply) {
    if inst in db.deciding then (db, Waiting)
    else if inst !in db.installations then (db, Done)
    else (db.(installations := db.installations[inst := db.installations[inst].(revoked := true)]), Done)
  }

  function RevokeDeliveriesStep(db: Db, inst: Id): (Db, Reply) {
    if inst !in db.installations || !db.installations[inst].revoked then (db, Waiting)
    else (db.(deliveries := Close(db.deliveries, (d: Delivery) => d.inst == inst, Cancelled),
              revokeDone := db.revokeDone + {inst}), Done)
  }

  function Answer(db: Db, cal: Calendar, s: Step): (Db, Reply) {
    match s
    case Tick(to) => (if to >= db.now then db.(now := to) else db, Done)
    case Register(inst, platform) =>
      (if inst in db.installations then db
       else db.(installations := db.installations[inst := Installation(platform, false)]), Done)
    case Create(camp, revision, config) => CreateStep(db, camp, revision, config)
    case Save(camp, expected, revision, config) => SaveStep(db, camp, expected, revision, config)
    case Publish(camp, expected, reviewed) => PublishStep(db, camp, expected, reviewed)
    case Pause(camp, expected) => PauseStep(db, camp, expected)
    case DecideBegin(inst, request, order) => DecideBeginStep(db, inst, request, order)
    case DecideLook(inst) => DecideLookStep(db, cal, inst)
    case DecideCommit(inst, id) => DecideCommitStep(db, inst, id)
    case DecideAbort(inst) => DecideAbortStep(db, inst)
    case Authorize(inst, id) => AuthorizeStep(db, inst, id)
    case Report(inst, id, eventId, row, known) => ReportStep(db, cal, inst, id, eventId, row, known)
    case RevokeRow(inst) => RevokeRowStep(db, inst)
    case RevokeDeliveries(inst) => RevokeDeliveriesStep(db, inst)
  }

  function Apply(db: Db, cal: Calendar, s: Step): Db { Answer(db, cal, s).0 }

  function Run(db: Db, cal: Calendar, ss: seq<Step>): Db {
    if ss == [] then db else Apply(Run(db, cal, ss[..|ss| - 1]), cal, ss[|ss| - 1])
  }

  lemma {:induction false} RunConcat(db: Db, cal: Calendar, ss: seq<Step>, more: seq<Step>)
    ensures Run(db, cal, ss + more) == Run(Run(db, cal, ss), cal, more)
  {
    if more == [] {
      assert ss + more == ss;
    } else {
      var n := |more| - 1;
      assert (ss + more)[..|ss + more| - 1] == ss + more[..n];
      RunConcat(db, cal, ss, more[..n]);
    }
  }

  lemma RunStep(db: Db, cal: Calendar, ss: seq<Step>, s: Step)
    ensures Run(db, cal, ss + [s]) == Apply(Run(db, cal, ss), cal, s)
  {
    assert (ss + [s])[..|ss + [s]| - 1] == ss;
  }

  lemma RunNothing(db: Db, cal: Calendar)
    ensures Run(db, cal, []) == db
  {}

  lemma RunOne(db: Db, cal: Calendar, s: Step)
    ensures Run(db, cal, [s]) == Apply(db, cal, s)
  {
    assert [s][..0] == [];
  }

  // ---------------------------------------------------------------- what a step touches

  predicate OfDecisions(s: Step) { s.DecideBegin? || s.DecideLook? || s.DecideCommit? || s.DecideAbort? }

  predicate OfCampaigns(s: Step) { s.Create? || s.Save? || s.Publish? || s.Pause? }

  /** Only steps of their kind touch campaigns, decisions, and what reports store. */
  predicate TouchesOnly(db: Db, t: Db, s: Step) {
    if OfCampaigns(s) then t == db.(campaigns := t.campaigns, publications := t.publications,
      deliveries := t.deliveries)
    else if OfDecisions(s) then t == db.(deliveries := t.deliveries, deciding := t.deciding)
    else if s.Report? then t == db.(events := t.events, suppressions := t.suppressions, deliveries := t.deliveries)
    else t == db.(now := t.now, installations := t.installations, deliveries := t.deliveries,
      revokeDone := t.revokeDone)
  }

  lemma CreateTouches(db: Db, camp: Id, revision: Id, config: Config)
    ensures TouchesOnly(db, CreateStep(db, camp, revision, config).0, Create(camp, revision, config))
  {
    hide ConfigAccepted;
  }

  lemma SaveTouches(db: Db, camp: Id, expected: nat, revision: Id, config: Config)
    ensures TouchesOnly(db, SaveStep(db, camp, expected, revision, config).0, Save(camp, expected, revision, config))
  {
    hide ConfigAccepted;
  }

  lemma PublishTouches(db: Db, camp: Id, expected: nat, reviewed: set<Platform>)
    ensures TouchesOnly(db, PublishStep(db, camp, expected, reviewed).0, Publish(camp, expected, reviewed))
  {
  }

  lemma PauseTouches(db: Db, camp: Id, expected: nat)
    ensures TouchesOnly(db, PauseStep(db, camp, expected).0, Pause(camp, expected))
  {
    hide Close;
  }

  lemma BeginTouches(db: Db, inst: Id, request: Request, order: seq<Id>)
    ensures TouchesOnly(db, DecideBeginStep(db, inst, request, order).0, DecideBegin(inst, request, order))
  {
    hide Candidates, HasOpen, Requested, KeyReused, Repeated, ExpireFor;
  }

  lemma LookTouches(db: Db, cal: Calendar, inst: Id)
    ensures TouchesOnly(db, DecideLookStep(db, cal, inst).0, DecideLook(inst))
  {
    hide NextLook;
  }

  lemma CommitTouches(db: Db, inst: Id, id: Id)
    ensures TouchesOnly(db, DecideCommitStep(db, inst, id).0, DecideCommit(inst, id))
  {
    hide ExpireFor;
  }

  lemma ReportTouches(db: Db, cal: Calendar, s: Step)
    requires s.Report?
    ensures TouchesOnly(db, Apply(db, cal, s), s)
  {
    hide EventAccepted, InsertEvent, Suppress, InsertsSuppression, NextState;
  }

  lemma StepTouches(db: Db, cal: Calendar, s: Step)
    ensures TouchesOnly(db, Apply(db, cal, s), s)
  {
    hide CreateStep, SaveStep, PublishStep, PauseStep, DecideBeginStep, DecideLookStep, DecideCommitStep, ReportStep,
      Close,
      Unlocked;
    match s
    case DecideBegin(inst, request, order) => BeginTouches(db, inst, request, order);
    case DecideLook(inst) => LookTouches(db, cal, inst);
    case DecideCommit(inst, id) => CommitTouches(db, inst, id);
    case Report(_, _, _, _, _) => ReportTouches(db, cal, s);
    case Create(camp, revision, config) => CreateTouches(db, camp, revision, config);
    case Save(camp, expected, revision, config) => SaveTouches(db, camp, expected, revision, config);
    case Publish(camp, expected, reviewed) => PublishTouches(db, camp, expected, reviewed);
    case Pause(camp, expected) => PauseTouches(db, camp, expected);
    case _ =>
  }

  lemma BeginMoves(db: Db, who: Id, request: Request, order: seq<Id>, i: Id)
    ensures var t := DecideBeginStep(db, who, request, order).0.deciding;
      && (i in db.deciding ==> i in t && t[i] == db.deciding[i])
      && (i in t && i !in db.deciding ==> i == who && i in db.installations && t[i].chosen == None)
  {
    hide Candidates, HasOpen, Requested, KeyReused, Repeated, ExpireFor;
  }

  lemma LookMoves(db: Db, cal: Calendar, who: Id, i: Id)
    ensures var t := DecideLookStep(db, cal, who).0.deciding;
      && (i in db.deciding <==> i in t)
      && (i in t && (i != who || i !in db.installations || db.deciding[i].candidates == []) ==> t[i] == db.deciding[i])
      && (i in t && i == who && i in db.installations && db.deciding[i].candidates != [] ==>
            t[i] == NextLook(db, cal, i, db.installations[i].platform, db.deciding[i]))
  {
    hide NextLook;
  }

  lemma EndMoves(db: Db, who: Id, id: Id, i: Id)
    ensures var t := DecideCommitStep(db, who, id).0.deciding;
      (i in t ==> i in db.deciding && t[i] == db.deciding[i]) && (i != who && i in db.deciding ==> i in t)
    ensures var t := DecideAbortStep(db, who).0.deciding;
      (i in t ==> i in db.deciding && t[i] == db.deciding[i]) && (i != who && i in db.deciding ==> i in t)
  {
    hide ExpireFor;
  }

  predicate Ends(s: Step, inst: Id) { (s.DecideCommit? || s.DecideAbort?) && s.inst == inst }

  /** Only its own commit or abort releases a decision, and only its own look moves it. */
  lemma DecisionMoves(db: Db, cal: Calendar, s: Step, i: Id)
    ensures var t := Apply(db, cal, s).deciding;
      && (i in db.deciding && !Ends(s, i) ==> i in t)
      && (i in t && i !in db.deciding ==> i in db.installations && t[i].chosen == None)
      && (i in t && i in db.deciding && s != DecideLook(i) ==> t[i] == db.deciding[i])
  {
    hide DecideBeginStep, DecideLookStep, DecideCommitStep, DecideAbortStep, NextLook;
    match s
    case DecideBegin(who, request, order) => BeginMoves(db, who, request, order, i);
    case DecideLook(who) => LookMoves(db, cal, who, i);
    case DecideCommit(who, id) => EndMoves(db, who, id, i);
    case DecideAbort(who) => EndMoves(db, who, 0, i);
    case _ =>
      StepTouches(db, cal, s);
      hide Apply;
  }
}
