/** What every run of the in-app protocol keeps. */
module InAppSafety {
  import opened Wrappers
  import opened InAppProtocol

  // ---------------------------------------------------------------- the invariant

  /** Versions count from 1, one config each. */
  predicate CampaignOk(c: Campaign) {
    c.version == |c.past| + 1 && ConfigAccepted(c.config) && (forall q | q in c.past :: ConfigAccepted(q))
  }

  function ConfigAt(c: Campaign, v: nat): Config
    requires CampaignOk(c) && 1 <= v <= c.version
  {
    if v == c.version then c.config else c.past[v - 1]
  }

  /** Only present or past versions were published, with their config, and the present one only if published now. */
  predicate PublicationOk(db: Db, p: (Id, nat))
    requires p in db.publications
  {
    && p.0 in db.campaigns && CampaignOk(db.campaigns[p.0])
    && 1 <= p.1 <= db.campaigns[p.0].version
    && db.publications[p].config == ConfigAt(db.campaigns[p.0], p.1)
    && (p.1 == db.campaigns[p.0].version ==> db.campaigns[p.0].state.Published?)
  }

  predicate CampaignsOk(db: Db) {
    && (forall c | c in db.campaigns ::
          CampaignOk(db.campaigns[c])
          && (db.campaigns[c].state.Published? ==> (c, db.campaigns[c].version) in db.publications))
    && (forall p | p in db.publications :: PublicationOk(db, p))
  }

  predicate OneOpen(db: Db) {
    forall i, j | i in db.deliveries && j in db.deliveries && i != j
      && db.deliveries[i].inst == db.deliveries[j].inst && Open(db.deliveries[i].state) :: !Open(db.deliveries[j].state)
  }

  /** A request key names at most one delivery of its installation. */
  predicate KeysUnique(db: Db) {
    forall i, j | i in db.deliveries && j in db.deliveries && i != j
      && db.deliveries[i].inst == db.deliveries[j].inst ::
      db.deliveries[i].requestKey != db.deliveries[j].requestKey
  }

  /** What holds of one delivery on its own. */
  predicate DeliveryOk(db: Db, id: Id)
    requires id in db.deliveries
  {
    var d := db.deliveries[id];
    && d.createdAt <= db.now
    && (d.camp, d.version) in db.publications
    && (d.state.Reserved? ==> d.authorizedAt.None?)
    && (d.state.Authorized? || d.state.Presented? || d.state.Completed? ==> d.authorizedAt.Some?)
    && (d.authorizedAt.Some? ==> d.authorizedAt.value <= db.now)
    && (d.state.Presented? || d.state.Completed? ==> PresentedStored(db, id))
    && (d.state.Authorized? || d.state.Presented? ==>
          d.camp in db.campaigns && db.campaigns[d.camp].state.Published? && db.campaigns[d.camp].version == d.version)
    && d.inst in db.installations
    && (d.inst in db.revokeDone ==> !Open(d.state))
  }

  /** A reservation leaves room for its own authorization under every cap. */
  predicate Room(db: Db, cal: Calendar, d: Delivery)
    requires (d.camp, d.version) in db.publications
  {
    var cfg := db.publications[(d.camp, d.version)].config;
    && |AuthIds(db, d.inst, d.camp)| < cfg.maxTotal
    && |AuthSince(db, d.inst, d.camp, cal.dayStart(cfg.zone, d.createdAt))| < cfg.maxPerDay
    && (forall id | id in AuthIds(db, d.inst, d.camp) ::
          && db.deliveries[id].session != d.session
          && db.deliveries[id].authorizedAt.value + cfg.cooldownSeconds * 1000 <= db.now)
    && (forall id | id in db.deliveries && db.deliveries[id].inst == d.inst && db.deliveries[id].authorizedAt.Some? ::
          db.deliveries[id].authorizedAt.value <= d.createdAt - SPACING_MS)
  }

  predicate Spaced(db: Db) {
    forall i, j | i in db.deliveries && j in db.deliveries && i != j
      && db.deliveries[i].inst == db.deliveries[j].inst
      && db.deliveries[i].authorizedAt.Some? && db.deliveries[j].authorizedAt.Some? ::
      db.deliveries[i].authorizedAt.value - db.deliveries[j].authorizedAt.value >= SPACING_MS
      || db.deliveries[j].authorizedAt.value - db.deliveries[i].authorizedAt.value >= SPACING_MS
  }

  /** What a decision under way found still holds, and its choice has room to be authorized. */
  predicate DecidingOk(db: Db, cal: Calendar, inst: Id)
    requires inst in db.deciding
  {
    var d := db.deciding[inst];
    && d.began <= db.now
    && inst in db.installations && !db.installations[inst].revoked
    && !HasOpen(ExpireFor(db, inst, d.began), inst)
    && (forall id | id in db.deliveries && db.deliveries[id].inst == inst ::
      db.deliveries[id].requestKey != d.request.requestKey)
    && (forall c | c in d.candidates :: CandidateOk(db, c))
    && (d.chosen.Some? ==>
      d.candidates == [] && CandidateOk(db, d.chosen.value)
      && Room(db, cal, Reservation(inst, d, d.chosen.value)))
  }

  /** Read while it was published: that version's publication is still on record. */
  predicate CandidateOk(db: Db, c: Candidate) {
    && (c.camp, c.campaign.version) in db.publications
    && db.publications[(c.camp, c.campaign.version)].config == c.campaign.config
  }

  predicate RevokedOk(db: Db) {
    forall i | i in db.revokeDone :: i in db.installations && db.installations[i].revoked
  }

  predicate Inv(db: Db, cal: Calendar) {
    && CampaignsOk(db)
    && OneOpen(db)
    && KeysUnique(db)
    && Spaced(db)
    && RevokedOk(db)
    && (forall id | id in db.deliveries :: DeliveryOk(db, id))
    && (forall id | id in db.deliveries && db.deliveries[id].state.Reserved? :: Room(db, cal, db.deliveries[id]))
    && (forall i | i in db.deciding :: DecidingOk(db, cal, i))
  }

  // ---------------------------------------------------------------- steps that authorize nothing

  /** Only states change; nothing closed moves again, and nothing becomes reserved. */
  predicate Quiet(ds: map<Id, Delivery>, es: map<Id, Delivery>) {
    && ds.Keys == es.Keys
    && (forall id | id in ds ::
          && es[id] == ds[id].(state := es[id].state)
          && (es[id].state.Reserved? ==> ds[id].state.Reserved?)
          && (!Open(ds[id].state) ==> es[id].state == ds[id].state))
  }

  /** A step that authorizes nothing and forgets nothing. */
  predicate Gentle(db: Db, t: Db) {
    && Quiet(db.deliveries, t.deliveries)
    && db.now <= t.now
    && (forall p | p in db.publications :: p in t.publications && t.publications[p] == db.publications[p])
    && (forall e | e in db.events :: e in t.events && t.events[e] == db.events[e])
    && (forall i | i in db.installations :: i in t.installations)
  }

  lemma CloseIsQuiet(ds: map<Id, Delivery>, hit: Delivery -> bool, to: DeliveryState)
    requires !Open(to)
    ensures Quiet(ds, Close(ds, hit, to))
  {
  }

  lemma SameAuth(db: Db, t: Db, inst: Id, camp: Id)
    requires Quiet(db.deliveries, t.deliveries)
    ensures AuthIds(t, inst, camp) == AuthIds(db, inst, camp)
    ensures forall since :: AuthSince(t, inst, camp, since) == AuthSince(db, inst, camp, since)
  {
  }

  lemma RoomStays(db: Db, t: Db, cal: Calendar, d: Delivery)
    requires Gentle(db, t)
    requires (d.camp, d.version) in db.publications && Room(db, cal, d)
    ensures Room(t, cal, d)
  {
    SameAuth(db, t, d.inst, d.camp);
  }

  lemma GentleApart(db: Db, t: Db)
    requires OneOpen(db) && KeysUnique(db) && Spaced(db) && Gentle(db, t)
    ensures OneOpen(t) && KeysUnique(t) && Spaced(t)
  {
  }

  lemma GentleRoom(db: Db, t: Db, cal: Calendar, id: Id)
    requires Gentle(db, t) && id in t.deliveries && t.deliveries[id].state.Reserved?
    requires id in db.deliveries && DeliveryOk(db, id)
    requires db.deliveries[id].state.Reserved? ==> Room(db, cal, db.deliveries[id])
    ensures (t.deliveries[id].camp, t.deliveries[id].version) in t.publications && Room(t, cal, t.deliveries[id])
  {
    hide Room;
    RoomStays(db, t, cal, db.deliveries[id]);
    assert t.deliveries[id] == db.deliveries[id];
  }

  /** A delivery that kept its state or was closed without being completed. */
  lemma DeliveryStays(db: Db, t: Db, id: Id)
    requires Gentle(db, t) && id in db.deliveries && DeliveryOk(db, id)
    requires var st := t.deliveries[id].state;
      st == db.deliveries[id].state || st.Cancelled? || st.Expired?
      || st.Failed?
    requires var d := t.deliveries[id]; d.state.Authorized? || d.state.Presented? ==>
      d.camp in t.campaigns && t.campaigns[d.camp].state.Published? && t.campaigns[d.camp].version == d.version
    requires t.deliveries[id].inst in t.revokeDone ==> !Open(t.deliveries[id].state)
    ensures DeliveryOk(t, id)
  {
    if PresentedStored(db, id) {
      var e :| e in db.events && e.0 == id && db.events[e].kind.PresentedKind?;
      assert e in t.events;
    }
  }

  lemma DecidingStays(db: Db, t: Db, cal: Calendar, inst: Id)
    requires Gentle(db, t) && inst in db.deciding && inst in t.deciding && t.deciding[inst] == db.deciding[inst]
    requires DecidingOk(db, cal, inst) && !t.installations[inst].revoked
    ensures DecidingOk(t, cal, inst)
  {
    hide Room;
    var d := db.deciding[inst];
    if d.chosen.Some? { RoomStays(db, t, cal, Reservation(inst, d, d.chosen.value)); }
    NoneOpenStays(db, t, inst, d.began);
  }

  lemma NoneOpenStays(db: Db, t: Db, inst: Id, began: int)
    requires Quiet(db.deliveries, t.deliveries) && !HasOpen(ExpireFor(db, inst, began), inst)
    ensures !HasOpen(ExpireFor(t, inst, began), inst)
  {
    var ds, es := ExpireFor(db, inst, began), ExpireFor(t, inst, began);
    forall id | id in es && es[id].inst == inst ensures !Open(es[id].state) {
      assert id in ds && ds[id].inst == inst;
    }
  }

  /** What is left to show of a gentle step: the campaigns, each delivery, each decision under way, the revocations. */
  lemma {:induction false} GentleKeepsInv(db: Db, t: Db, cal: Calendar)
    requires Inv(db, cal) && Gentle(db, t)
    requires CampaignsOk(t) && RevokedOk(t)
    requires forall id | id in t.deliveries :: DeliveryOk(t, id)
    requires forall i | i in t.deciding :: DecidingOk(t, cal, i)
    ensures Inv(t, cal)
  {
    hide CampaignsOk, OneOpen, KeysUnique, Spaced, RevokedOk, DeliveryOk, DecidingOk;
    GentleApart(db, t);
    forall id | id in t.deliveries && t.deliveries[id].state.Reserved?
      ensures (t.deliveries[id].camp, t.deliveries[id].version) in t.publications && Room(t, cal, t.deliveries[id])
    {
      GentleRoom(db, t, cal, id);
    }
  }

  // ---------------------------------------------------------------- campaign steps

  /** A campaign's next value: the same version, or the following one with the config put on record. */
  predicate Evolves(c: Campaign, d: Campaign) {
    || d == c.(state := d.state)
    || (d.version == c.version + 1 && d.past == c.past + [c.config] && !d.state.Published?)
  }

  lemma EvolvingKeepsConfigs(c: Campaign, d: Campaign, v: nat)
    requires CampaignOk(c) && Evolves(c, d) && ConfigAccepted(d.config) && 1 <= v <= c.version
    ensures CampaignOk(d) && v <= d.version && ConfigAt(d, v) == ConfigAt(c, v)
  {
  }

  /** One campaign evolved; if it is published now, that version has its publication. */
  lemma CampaignsStayOk(db: Db, t: Db, camp: Id, c: Campaign)
    requires CampaignsOk(db) && t.campaigns == db.campaigns[camp := c] && CampaignOk(c)
    requires if camp in db.campaigns then Evolves(db.campaigns[camp], c) else c.version == 1
    requires t.publications == db.publications
             || (c.state.Published? && t.publications
               == db.publications[(camp, c.version) := Publication(c.revision, c.config)])
    requires c.state.Published? ==> (camp, c.version) in t.publications
    requires camp in db.campaigns && db.campaigns[camp].state.Published? && c.version == db.campaigns[camp].version
      ==> c.state.Published?
    ensures CampaignsOk(t)
  {
    forall p | p in t.publications ensures PublicationOk(t, p) {
      if p in db.publications {
        assert PublicationOk(db, p);
        if p.0 == camp { EvolvingKeepsConfigs(db.campaigns[camp], c, p.1); }
      }
    }
  }

  /** The step touched nothing but campaigns and publications, and no published campaign. */
  predicate OnlyCampaigns(db: Db, t: Db, camp: Id) {
    && t == db.(campaigns := t.campaigns, publications := t.publications)
    && (forall p | p in db.publications :: p in t.publications && t.publications[p] == db.publications[p])
    && (t.campaigns == db.campaigns
        || (camp in t.campaigns && t.campaigns == db.campaigns[camp := t.campaigns[camp]]
            && (camp in db.campaigns ==> !db.campaigns[camp].state.Published?)))
  }

  lemma {:induction false} OnlyCampaignsKeeps(db: Db, t: Db, cal: Calendar, camp: Id)
    requires Inv(db, cal) && OnlyCampaigns(db, t, camp) && CampaignsOk(t)
    ensures Inv(t, cal)
  {
    hide CampaignsOk, OneOpen, KeysUnique, Spaced, Room, DecidingOk;
    assert Gentle(db, t);
    forall id | id in t.deliveries ensures DeliveryOk(t, id) {
      assert DeliveryOk(db, id);
      DeliveryStays(db, t, id);
    }
    forall i | i in t.deciding ensures DecidingOk(t, cal, i) {
      DecidingNotRevoked(db, cal, i);
      DecidingStays(db, t, cal, i);
    }
    GentleKeepsInv(db, t, cal);
  }

  lemma {:induction false} CreateKeeps(db: Db, cal: Calendar, camp: Id, revision: Id, config: Config)
    requires Inv(db, cal)
    ensures Inv(CreateStep(db, camp, revision, config).0, cal)
  {
    hide OneOpen, KeysUnique, Spaced, Room, DecidingOk, DeliveryOk, RevokedOk;
    var t := CreateStep(db, camp, revision, config).0;
    if t != db {
      CampaignsStayOk(db, t, camp, Campaign(Draft, 1, revision, config, []));
      OnlyCampaignsKeeps(db, t, cal, camp);
    }
  }

  lemma {:induction false} SaveKeeps(db: Db, cal: Calendar, camp: Id, expected: nat, revision: Id, config: Config)
    requires Inv(db, cal)
    ensures Inv(SaveStep(db, camp, expected, revision, config).0, cal)
  {
    hide OneOpen, KeysUnique, Spaced, Room, DecidingOk, DeliveryOk, RevokedOk;
    var t := SaveStep(db, camp, expected, revision, config).0;
    if t != db {
      CampaignsStayOk(db, t, camp, t.campaigns[camp]);
      OnlyCampaignsKeeps(db, t, cal, camp);
    }
  }

  lemma {:induction false} PublishKeeps(db: Db, cal: Calendar, camp: Id, expected: nat, reviewed: set<Platform>)
    requires Inv(db, cal)
    ensures Inv(PublishStep(db, camp, expected, reviewed).0, cal)
  {
    hide OneOpen, KeysUnique, Spaced, Room, DecidingOk, DeliveryOk, RevokedOk;
    var t := PublishStep(db, camp, expected, reviewed).0;
    if t != db {
      CampaignsStayOk(db, t, camp, t.campaigns[camp]);
      OnlyCampaignsKeeps(db, t, cal, camp);
    }
  }

  lemma {:induction false} PauseKeeps(db: Db, cal: Calendar, camp: Id, expected: nat)
    requires Inv(db, cal)
    ensures Inv(PauseStep(db, camp, expected).0, cal)
  {
    hide OneOpen, KeysUnique, Spaced, Room, DecidingOk, RevokedOk;
    var t := PauseStep(db, camp, expected).0;
    if camp in db.campaigns && db.campaigns[camp].version == expected {
      assert CampaignsOk(t) by {
        hide DeliveryOk;
        CampaignsStayOk(db, t, camp, t.campaigns[camp]);
      }
      PausedKeeps(db, t, cal, camp);
    }
  }

  lemma {:induction false} PausedKeeps(db: Db, t: Db, cal: Calendar, camp: Id)
    requires Inv(db, cal) && CampaignsOk(t) && camp in t.campaigns
    requires t == db.(campaigns := db.campaigns[camp := t.campaigns[camp]],
                      deliveries := Close(db.deliveries, (d: Delivery) => d.camp == camp, Cancelled))
    ensures Inv(t, cal)
  {
    hide CampaignsOk, OneOpen, KeysUnique, Spaced, Room, DecidingOk;
    CloseIsQuiet(db.deliveries, (d: Delivery) => d.camp == camp, Cancelled);
    assert Gentle(db, t);
    forall id | id in t.deliveries ensures DeliveryOk(t, id) {
      assert DeliveryOk(db, id);
      DeliveryStays(db, t, id);
    }
    forall i | i in t.deciding ensures DecidingOk(t, cal, i) {
      DecidingNotRevoked(db, cal, i);
      DecidingStays(db, t, cal, i);
    }
    GentleKeepsInv(db, t, cal);
  }

  lemma DecidingNotRevoked(db: Db, cal: Calendar, i: Id)
    requires i in db.deciding && DecidingOk(db, cal, i)
    ensures i in db.installations && !db.installations[i].revoked
  {
  }

  // ---------------------------------------------------------------- clock, installations, revocation

  /** Steps that leave the campaigns alone and at most close deliveries. */
  lemma {:induction false} CloseKeeps(db: Db, t: Db, cal: Calendar, hit: Delivery -> bool, to: DeliveryState)
    requires Inv(db, cal)
    requires t == db.(now := t.now, installations := t.installations, deciding := t.deciding,
      revokeDone := t.revokeDone,
                      deliveries := Close(db.deliveries, hit, to))
    requires to.Cancelled? || to.Expired?
    requires db.now <= t.now
    requires forall i | i in db.installations :: i in t.installations
    requires RevokedOk(t)
    requires forall i | i in t.deciding ::
      (i in db.deciding && t.deciding[i] == db.deciding[i] && i in t.installations && !t.installations[i].revoked)
        || DecidingOk(t, cal, i)
    requires forall id | id in t.deliveries && t.deliveries[id].inst in t.revokeDone
      && t.deliveries[id].inst !in db.revokeDone ::
      !Open(t.deliveries[id].state)
    ensures Inv(t, cal)
  {
    hide OneOpen, KeysUnique, Spaced, Room, DecidingOk;
    CloseIsQuiet(db.deliveries, hit, to);
    assert Gentle(db, t);
    forall id | id in t.deliveries ensures DeliveryOk(t, id) {
      assert DeliveryOk(db, id);
      DeliveryStays(db, t, id);
    }
    forall i | i in t.deciding ensures DecidingOk(t, cal, i) {
      if i in db.deciding && t.deciding[i] == db.deciding[i] && i in t.installations && !t.installations[i].revoked {
        DecidingStays(db, t, cal, i);
      }
    }
    assert CampaignsOk(t) by { CampaignsFramed(db, t); }
    GentleKeepsInv(db, t, cal);
  }

  lemma CampaignsFramed(db: Db, t: Db)
    requires CampaignsOk(db) && t.campaigns == db.campaigns && t.publications == db.publications
    ensures CampaignsOk(t)
  {
    forall p | p in t.publications ensures PublicationOk(t, p) {
      assert PublicationOk(db, p);
    }
  }

  /** As CloseKeeps, for steps that touch no delivery. */
  lemma {:induction false} RowsKeep(db: Db, t: Db, cal: Calendar)
    requires Inv(db, cal)
    requires t == db.(now := t.now, installations := t.installations, deciding := t.deciding)
    requires db.now <= t.now && RevokedOk(t)
    requires forall i | i in db.installations :: i in t.installations
    requires forall i | i in t.deciding ::
      (i in db.deciding && t.deciding[i] == db.deciding[i] && i in t.installations && !t.installations[i].revoked)
        || DecidingOk(t, cal, i)
    ensures Inv(t, cal)
  {
    hide CampaignsOk, OneOpen, KeysUnique, Spaced, Room, DecidingOk, DeliveryOk, RevokedOk;
    assert Close(db.deliveries, (d: Delivery) => false, Expired) == db.deliveries;
    CloseKeeps(db, t, cal, (d: Delivery) => false, Expired);
  }

  lemma DecidingInstallations(db: Db, cal: Calendar)
    requires Inv(db, cal)
    ensures RevokedOk(db)
    ensures forall i | i in db.deciding :: i in db.installations && !db.installations[i].revoked
  {
    hide CampaignsOk, OneOpen, KeysUnique, Spaced, Room, DeliveryOk, RevokedOk;
    forall i | i in db.deciding ensures i in db.installations && !db.installations[i].revoked {
      DecidingNotRevoked(db, cal, i);
    }
  }

  lemma {:induction false} TickKeeps(db: Db, cal: Calendar, to: int)
    requires Inv(db, cal) && db.now <= to
    ensures Inv(db.(now := to), cal)
  {
    hide Inv;
    DecidingInstallations(db, cal);
    RowsKeep(db, db.(now := to), cal);
  }

  lemma {:induction false} RegisterKeeps(db: Db, cal: Calendar, inst: Id, platform: Platform)
    requires Inv(db, cal)
    ensures Inv(Apply(db, cal, Register(inst, platform)), cal)
  {
    hide Inv;
    DecidingInstallations(db, cal);
    RowsKeep(db, Apply(db, cal, Register(inst, platform)), cal);
  }

  lemma {:induction false} RevokeRowKeeps(db: Db, cal: Calendar, inst: Id)
    requires Inv(db, cal)
    ensures Inv(RevokeRowStep(db, inst).0, cal)
  {
    hide Inv;
    DecidingInstallations(db, cal);
    RowsKeep(db, RevokeRowStep(db, inst).0, cal);
  }

  lemma {:induction false} RevokeDeliveriesKeeps(db: Db, cal: Calendar, inst: Id)
    requires Inv(db, cal)
    ensures Inv(RevokeDeliveriesStep(db, inst).0, cal)
  {
    hide Inv;
    DecidingInstallations(db, cal);
    var t := RevokeDeliveriesStep(db, inst).0;
    if t != db {
      CloseKeeps(db, t, cal, (d: Delivery) => d.inst == inst, Cancelled);
    }
  }

  lemma {:induction false} DecideAbortKeeps(db: Db, cal: Calendar, inst: Id)
    requires Inv(db, cal)
    ensures Inv(DecideAbortStep(db, inst).0, cal)
  {
    hide Inv;
    DecidingInstallations(db, cal);
    RowsKeep(db, DecideAbortStep(db, inst).0, cal);
  }

  // ---------------------------------------------------------------- decide

  lemma {:induction false} CandidatesPublished(db: Db, order: seq<Id>)
    requires CampaignsOk(db)
    ensures forall c | c in Candidates(db, order) ::
      c.camp in db.campaigns && c.campaign == db.campaigns[c.camp] && c.campaign.state.Published?
  {
    if order != [] { CandidatesPublished(db, order[1..]); }
  }

  lemma CandidatesHavePublications(db: Db, order: seq<Id>)
    requires CampaignsOk(db)
    ensures forall c | c in Candidates(db, order) :: CandidateOk(db, c)
  {
    CandidatesPublished(db, order);
    forall c | c in Candidates(db, order) ensures CandidateOk(db, c) {
      assert PublicationOk(db, (c.camp, c.campaign.version));
    }
  }

  /** What a decision found when it began. */
  lemma BeganWith(db: Db, inst: Id, request: Request, order: seq<Id>)
    ensures var t := DecideBeginStep(db, inst, request, order).0;
      inst !in db.deciding && inst in t.deciding ==>
        && t == PutDeciding(db, inst, Deciding(request, db.now, Candidates(db, order), None))
        && !HasOpen(ExpireFor(db, inst, db.now), inst) && Requested(db, inst, request.requestKey) == {}
        && inst in db.installations && !db.installations[inst].revoked
  {
    hide Candidates, Requested, HasOpen, KeyReused, Repeated, ExpireFor;
  }

  lemma NoneAsked(db: Db, inst: Id, key: Id)
    requires Requested(db, inst, key) == {}
    ensures forall id | id in db.deliveries && db.deliveries[id].inst == inst :: db.deliveries[id].requestKey != key
  {
    assert forall id | id in db.deliveries && db.deliveries[id].inst == inst && db.deliveries[id].requestKey == key ::
        id in Requested(db, inst, key);
  }

  lemma DecideBeginOk(db: Db, cal: Calendar, inst: Id, request: Request, order: seq<Id>)
    requires CampaignsOk(db) && inst !in db.deciding
    ensures var t := DecideBeginStep(db, inst, request, order).0; inst in t.deciding ==> DecidingOk(t, cal, inst)
  {
    hide DecideBeginStep, Candidates, CampaignsOk, Room, HasOpen, ExpireFor, Requested;
    var t := DecideBeginStep(db, inst, request, order).0;
    BeganWith(db, inst, request, order);
    CandidatesHavePublications(db, order);
    if inst in t.deciding {
      NoneAsked(db, inst, request.requestKey);
      NoneOpenStays(db, t, inst, db.now);
    }
  }

  /** A decision that begins adds its own entry, or only expires overdue deliveries, or changes nothing. */
  lemma DecideBeginShapes(db: Db, inst: Id, request: Request, order: seq<Id>)
    ensures var t := DecideBeginStep(db, inst, request, order).0;
      || t == db
      || t == db.(deliveries := ExpireFor(db, inst, db.now))
      || (inst !in db.deciding && inst in db.installations && !db.installations[inst].revoked
          && inst in t.deciding && t == db.(deciding := db.deciding[inst := t.deciding[inst]]))
  {
    hide Candidates, Requested, HasOpen, KeyReused, Repeated, ExpireFor;
  }

  lemma DecideBeginKeeps(db: Db, cal: Calendar, inst: Id, request: Request, order: seq<Id>)
    requires Inv(db, cal)
    ensures Inv(DecideBeginStep(db, inst, request, order).0, cal)
  {
    hide Inv, DecidingOk, CampaignsOk, DecideBeginStep, RevokedOk, ExpireFor;
    DecidingInstallations(db, cal);
    DecideBeginShapes(db, inst, request, order);
    var t := DecideBeginStep(db, inst, request, order).0;
    if t == db {
    } else if t == db.(deliveries := ExpireFor(db, inst, db.now)) {
      ExpiringKeeps(db, t, cal, inst);
    } else {
      InvCampaigns(db, cal);
      DecideBeginOk(db, cal, inst, request, order);
      RevokedFramed(db, t, cal);
      RowsKeep(db, t, cal);
    }
  }

  lemma RevokedFramed(db: Db, t: Db, cal: Calendar)
    requires Inv(db, cal) && t == db.(deciding := t.deciding)
    ensures RevokedOk(t)
  {
    hide DeliveryOk, OneOpen, KeysUnique, Spaced, Room, DecidingOk, CampaignsOk;
  }

  lemma {:induction false} ExpiringKeeps(db: Db, t: Db, cal: Calendar, inst: Id)
    requires Inv(db, cal) && t == db.(deliveries := ExpireFor(db, inst, db.now))
    ensures Inv(t, cal)
  {
    hide Inv, DecidingOk, Close;
    DecidingInstallations(db, cal);
    RevokedStaysOk(db, t, cal, inst);
    CloseKeeps(db, t, cal, (d: Delivery) => d.inst == inst && d.expiresAt <= db.now, Expired);
  }

  lemma RevokedStaysOk(db: Db, t: Db, cal: Calendar, inst: Id)
    requires Inv(db, cal) && t == db.(deliveries := ExpireFor(db, inst, db.now))
    ensures RevokedOk(t)
  {
    hide DeliveryOk, OneOpen, KeysUnique, Spaced, Room, DecidingOk, CampaignsOk;
  }

  lemma InvCampaigns(db: Db, cal: Calendar)
    requires Inv(db, cal)
    ensures CampaignsOk(db)
  {
  }

  /** What Eligible and Recent established is exactly the room the new reservation needs. */
  lemma EligibleHasRoom(db: Db, u: Db, cal: Calendar, inst: Id, platform: Platform, d: Deciding, c: Candidate)
    requires Quiet(db.deliveries, u.deliveries) && u.now == db.now && u.publications == db.publications
    requires CandidateOk(db, c)
    requires Eligible(db, cal, inst, platform, d, c) && !Recent(db, inst, d.began)
    ensures Room(u, cal, Reservation(inst, d, c))
  {
    SameAuth(db, u, inst, c.camp);
    forall id | id in u.deliveries && u.deliveries[id].inst == inst && u.deliveries[id].authorizedAt.Some?
      ensures u.deliveries[id].authorizedAt.value <= d.began - SPACING_MS
    {
      assert db.deliveries[id].inst == inst;
    }
  }

  predicate Inserted(u: Db, t: Db, id: Id, r: Delivery) {
    id !in u.deliveries && r.state.Reserved? && r.authorizedAt.None? && t == u.(deliveries := u.deliveries[id := r])
  }

  lemma InsertedAuth(u: Db, t: Db, id: Id, r: Delivery, inst: Id, camp: Id)
    requires Inserted(u, t, id, r)
    ensures AuthIds(t, inst, camp) == AuthIds(u, inst, camp)
    ensures forall since :: AuthSince(t, inst, camp, since) == AuthSince(u, inst, camp, since)
  {
  }

  lemma InsertedRoom(u: Db, t: Db, cal: Calendar, id: Id, r: Delivery, d: Delivery)
    requires Inserted(u, t, id, r) && (d.camp, d.version) in u.publications && Room(u, cal, d)
    ensures Room(t, cal, d)
  {
    InsertedAuth(u, t, id, r, d.inst, d.camp);
  }

  lemma InsertedApart(u: Db, t: Db, id: Id, r: Delivery)
    requires Inserted(u, t, id, r) && OneOpen(u) && KeysUnique(u) && Spaced(u) && !HasOpen(u.deliveries, r.inst)
    requires forall k | k in u.deliveries && u.deliveries[k].inst == r.inst ::
      u.deliveries[k].requestKey != r.requestKey
    ensures OneOpen(t) && KeysUnique(t) && Spaced(t)
  {
  }

  lemma {:induction false} InsertKeeps(u: Db, t: Db, cal: Calendar, id: Id, r: Delivery)
    requires Inv(u, cal) && Inserted(u, t, id, r) && !HasOpen(u.deliveries, r.inst)
    requires forall k | k in u.deliveries && u.deliveries[k].inst == r.inst ::
      u.deliveries[k].requestKey != r.requestKey
    requires (r.camp, r.version) in u.publications && Room(u, cal, r)
    requires r.createdAt <= u.now && r.inst in u.installations && !u.installations[r.inst].revoked
      && r.inst !in u.deciding
    ensures Inv(t, cal)
  {
    hide OneOpen, KeysUnique, Spaced, CampaignsOk, Room;
    assert CampaignsOk(t) by { CampaignsFramed(u, t); }
    InsertedApart(u, t, id, r);
    forall k | k in t.deliveries ensures DeliveryOk(t, k) {
      if k != id { assert DeliveryOk(u, k); }
    }
    forall k | k in t.deliveries && t.deliveries[k].state.Reserved? ensures Room(t, cal, t.deliveries[k]) {
      if k != id { assert DeliveryOk(u, k); }
      InsertedRoom(u, t, cal, id, r, t.deliveries[k]);
    }
    forall i | i in t.deciding ensures DecidingOk(t, cal, i) {
      assert DecidingOk(u, cal, i);
      InsertedDeciding(u, t, cal, id, r, i);
    }
  }

  lemma InsertedDeciding(u: Db, t: Db, cal: Calendar, id: Id, r: Delivery, i: Id)
    requires Inserted(u, t, id, r) && i in u.deciding && DecidingOk(u, cal, i) && i != r.inst
    ensures DecidingOk(t, cal, i)
  {
    hide Room;
    var d := u.deciding[i];
    if d.chosen.Some? { InsertedRoom(u, t, cal, id, r, Reservation(i, d, d.chosen.value)); }
    var us, ts := ExpireFor(u, i, u.deciding[i].began), ExpireFor(t, i, u.deciding[i].began);
    forall k | k in ts && ts[k].inst == i ensures !Open(ts[k].state) {
      assert k in us && us[k].inst == i;
    }
  }

  function Released(db: Db, inst: Id): Db
    requires inst in db.deciding
  {
    db.(deliveries := ExpireFor(db, inst, db.deciding[inst].began), deciding := Unlocked(db.deciding, inst))
  }

  lemma {:induction false} ReleasedKeeps(db: Db, cal: Calendar, inst: Id)
    requires Inv(db, cal) && inst in db.deciding
    ensures Inv(Released(db, inst), cal)
  {
    hide Inv;
    DecidingInstallations(db, cal);
    var began := db.deciding[inst].began;
    CloseKeeps(db, Released(db, inst), cal, (d: Delivery) => d.inst == inst && d.expiresAt <= began, Expired);
  }

  /** A look changes what is left to look at, and chooses at most a candidate that passes. */
  predicate Looked(db: Db, cal: Calendar, inst: Id, d: Deciding, e: Deciding)
    requires inst in db.installations
  {
    && e == d.(candidates := e.candidates, chosen := e.chosen)
    && |e.candidates| <= |d.candidates| && (forall c | c in e.candidates :: c in d.candidates)
    && (e.chosen == d.chosen
        || (e.candidates == [] && e.chosen.Some? && e.chosen.value in d.candidates && !Recent(db, inst, d.began)
            && Eligible(db, cal, inst, db.installations[inst].platform, d, e.chosen.value)))
  }

  lemma NextIsLooked(db: Db, cal: Calendar, inst: Id, d: Deciding)
    requires inst in db.installations && d.candidates != []
    ensures Looked(db, cal, inst, d, NextLook(db, cal, inst, db.installations[inst].platform, d))
  {
    hide Eligible, Recent;
    assert d.candidates[0] in d.candidates;
    assert forall c | c in d.candidates[1..] :: c in d.candidates;
  }

  lemma LookShapes(db: Db, cal: Calendar, inst: Id)
    requires inst in db.deciding && inst in db.installations
    ensures var t := DecideLookStep(db, cal, inst).0;
      || t == db
      || (inst in t.deciding && t == PutDeciding(db, inst, t.deciding[inst]) && db.deciding[inst].candidates != []
          && Looked(db, cal, inst, db.deciding[inst], t.deciding[inst]))
  {
    hide Looked, NextLook;
    if db.deciding[inst].candidates != [] { NextIsLooked(db, cal, inst, db.deciding[inst]); }
  }

  /** What a decision chooses has room, and what it has not looked at is as it was read. */
  lemma LookKeepsDeciding(db: Db, t: Db, cal: Calendar, inst: Id)
    requires inst in db.deciding && DecidingOk(db, cal, inst) && db.deciding[inst].candidates != []
    requires inst in t.deciding && t == PutDeciding(db, inst, t.deciding[inst])
    requires Looked(db, cal, inst, db.deciding[inst], t.deciding[inst])
    ensures DecidingOk(t, cal, inst)
  {
    hide Eligible, Recent, Room, ExpireFor, HasOpen;
    var d, e := db.deciding[inst], t.deciding[inst];
    NoneOpenStays(db, t, inst, d.began);
    if e.chosen != d.chosen {
      var c := e.chosen.value;
      assert CandidateOk(db, c);
      EligibleHasRoom(db, t, cal, inst, db.installations[inst].platform, d, c);
      assert Reservation(inst, e, c) == Reservation(inst, d, c);
    }
  }

  lemma {:induction false} DecideLookKeeps(db: Db, cal: Calendar, inst: Id)
    requires Inv(db, cal)
    ensures Inv(DecideLookStep(db, cal, inst).0, cal)
  {
    hide CampaignsOk, OneOpen, KeysUnique, Spaced, RevokedOk, DeliveryOk, DecidingOk, Room, Eligible, Recent;
    DecidingInstallations(db, cal);
    var t := DecideLookStep(db, cal, inst).0;
    if inst in db.deciding {
      LookShapes(db, cal, inst);
      if t != db {
        hide DecideLookStep, Looked;
        LookKeepsDeciding(db, t, cal, inst);
        RevokedFramed(db, t, cal);
        RowsKeep(db, t, cal);
      }
    }
  }

  lemma {:induction false} DecideCommitKeeps(db: Db, cal: Calendar, inst: Id, id: Id)
    requires Inv(db, cal)
    ensures Inv(DecideCommitStep(db, inst, id).0, cal)
  {
    hide Room, OneOpen, KeysUnique, Spaced, CampaignsOk, DeliveryOk;
    var (t, reply) := DecideCommitStep(db, inst, id);
    if inst in db.deciding && db.deciding[inst].candidates == [] {
      ReleasedKeeps(db, cal, inst);
      if reply.Reserve? {
        var d := db.deciding[inst];
        var r := Reservation(inst, d, d.chosen.value);
        var u := Released(db, inst);
        assert DecidingOk(db, cal, inst);
        CloseIsQuiet(db.deliveries, (x: Delivery) => x.inst == inst && x.expiresAt <= d.began, Expired);
        RoomStays(db, u, cal, r);
        InsertKeeps(u, t, cal, id, r);
      }
    }
  }

  // ---------------------------------------------------------------- authorize

  /** The one reservation of an installation becomes its newest authorization. */
  predicate Authorizes(db: Db, t: Db, id: Id) {
    && id in db.deliveries
    && var d := db.deliveries[id];
       && d.state.Reserved? && d.inst !in db.deciding
       && d.camp in db.campaigns && db.campaigns[d.camp].state.Published? && db.campaigns[d.camp].version == d.version
       && id in t.deliveries
       && t.deliveries[id] == d.(state := Authorized, authorizedAt := Some(db.now),
         expiresAt := t.deliveries[id].expiresAt)
       && t == db.(deliveries := db.deliveries[id := t.deliveries[id]])
  }

  lemma AuthorizedOneOpen(db: Db, t: Db, id: Id)
    requires OneOpen(db) && KeysUnique(db) && Authorizes(db, t, id)
    ensures OneOpen(t) && KeysUnique(t)
  {
  }

  lemma AuthorizedSpaced(db: Db, t: Db, cal: Calendar, id: Id)
    requires Spaced(db) && Authorizes(db, t, id) && db.deliveries[id].createdAt <= db.now
    requires (db.deliveries[id].camp, db.deliveries[id].version) in db.publications && Room(db, cal, db.deliveries[id])
    ensures Spaced(t)
  {
    var d := db.deliveries[id];
    assert forall k | k in db.deliveries && db.deliveries[k].inst == d.inst && db.deliveries[k].authorizedAt.Some? ::
        db.deliveries[k].authorizedAt.value <= d.createdAt - SPACING_MS;
  }

  lemma AuthorizedDelivery(db: Db, t: Db, id: Id, k: Id)
    requires Authorizes(db, t, id) && k in db.deliveries && DeliveryOk(db, k)
    ensures DeliveryOk(t, k)
  {
  }

  lemma AuthorizedElsewhere(db: Db, t: Db, cal: Calendar, id: Id, d: Delivery)
    requires Authorizes(db, t, id) && d.inst != db.deliveries[id].inst
    requires (d.camp, d.version) in db.publications && Room(db, cal, d)
    ensures Room(t, cal, d)
  {
    assert AuthIds(t, d.inst, d.camp) == AuthIds(db, d.inst, d.camp);
    var cfg := t.publications[(d.camp, d.version)].config;
    var since := cal.dayStart(cfg.zone, d.createdAt);
    assert AuthSince(t, d.inst, d.camp, since) == AuthSince(db, d.inst, d.camp, since);
  }

  lemma AuthorizedRoom(db: Db, t: Db, cal: Calendar, id: Id, k: Id)
    requires OneOpen(db) && Authorizes(db, t, id) && k in t.deliveries && t.deliveries[k].state.Reserved?
    requires (t.deliveries[k].camp, t.deliveries[k].version) in db.publications
    requires Room(db, cal, t.deliveries[k])
    ensures Room(t, cal, t.deliveries[k])
  {
    var d := t.deliveries[k];
    assert k != id && d == db.deliveries[k];
    assert d.inst != db.deliveries[id].inst;
    AuthorizedElsewhere(db, t, cal, id, d);
  }

  lemma AuthorizedDeciding(db: Db, t: Db, cal: Calendar, id: Id, i: Id)
    requires Authorizes(db, t, id) && i in db.deciding && DecidingOk(db, cal, i)
    ensures DecidingOk(t, cal, i)
  {
    hide Room;
    var d := db.deciding[i];
    if d.chosen.Some? { AuthorizedElsewhere(db, t, cal, id, Reservation(i, d, d.chosen.value)); }
    var us, ts := ExpireFor(db, i, db.deciding[i].began), ExpireFor(t, i, db.deciding[i].began);
    forall k | k in ts && ts[k].inst == i ensures !Open(ts[k].state) {
      assert k in us && us[k].inst == i;
    }
  }

  lemma {:induction false} AuthorizedKeeps(db: Db, t: Db, cal: Calendar, id: Id)
    requires Inv(db, cal) && Authorizes(db, t, id)
    ensures Inv(t, cal)
  {
    hide OneOpen, KeysUnique, Spaced, CampaignsOk, Room, DecidingOk, DeliveryOk;
    assert DeliveryOk(db, id);
    ReservedFacts(db, id);
    AuthorizedOneOpen(db, t, id);
    AuthorizedSpaced(db, t, cal, id);
    CampaignsFramed(db, t);
    forall k | k in t.deliveries ensures DeliveryOk(t, k) {
      AuthorizedDelivery(db, t, id, k);
    }
    forall k | k in t.deliveries && t.deliveries[k].state.Reserved?
      ensures (t.deliveries[k].camp, t.deliveries[k].version) in t.publications && Room(t, cal, t.deliveries[k])
    {
      ReservedFacts(db, k);
      AuthorizedRoom(db, t, cal, id, k);
    }
    forall i | i in t.deciding ensures DecidingOk(t, cal, i) {
      AuthorizedDeciding(db, t, cal, id, i);
    }
  }

  lemma ReservedFacts(db: Db, id: Id)
    requires id in db.deliveries && DeliveryOk(db, id)
    ensures db.deliveries[id].createdAt <= db.now
    ensures (db.deliveries[id].camp, db.deliveries[id].version) in db.publications
  {
  }

  lemma {:induction false} AuthorizeKeeps(db: Db, cal: Calendar, inst: Id, id: Id)
    requires Inv(db, cal)
    ensures Inv(AuthorizeStep(db, inst, id).0, cal)
  {
    hide Inv;
    var t := AuthorizeStep(db, inst, id).0;
    if t != db { AuthorizedKeeps(db, t, cal, id); }
  }

  // ---------------------------------------------------------------- event

  lemma ReportedOk(db: Db, cal: Calendar, id: Id, eventId: Id, row: EventRow, knownDetail: bool)
    requires id in db.deliveries && DeliveryOk(db, id)
    requires (id, eventId) !in db.events
    requires EventAccepted(db, db.deliveries[id], id, row, knownDetail)
    ensures var d := db.deliveries[id];
      var t := db.(events := InsertEvent(db, id, eventId, row), suppressions := Suppress(db, cal, d, row),
                   deliveries := db.deliveries[id := d.(state := NextState(d, db.now, row.kind))]);
      Gentle(db, t) && DeliveryOk(t, id)
  {
    var d := db.deliveries[id];
    var t := db.(events := InsertEvent(db, id, eventId, row), suppressions := Suppress(db, cal, d, row),
                 deliveries := db.deliveries[id := d.(state := NextState(d, db.now, row.kind))]);
    if PresentedStored(db, id) {
      var e :| e in db.events && e.0 == id && db.events[e].kind.PresentedKind?;
      assert e in t.events;
    } else if row.kind.PresentedKind? {
      assert t.events[(id, eventId)] == row;
    }
  }

  lemma {:induction false} ReportKeeps(db: Db, cal: Calendar, inst: Id, id: Id, eventId: Id, row: EventRow,
      knownDetail: bool)
    requires Inv(db, cal)
    ensures Inv(ReportStep(db, cal, inst, id, eventId, row, knownDetail).0, cal)
  {
    hide OneOpen, KeysUnique, Spaced, CampaignsOk, Room, DecidingOk, EventAccepted, InsertEvent, Suppress, NextState;
    var t := ReportStep(db, cal, inst, id, eventId, row, knownDetail).0;
    if t != db {
      assert DeliveryOk(db, id);
      ReportedOk(db, cal, id, eventId, row, knownDetail);
      assert CampaignsOk(t) by { CampaignsFramed(db, t); }
      forall k | k in t.deliveries ensures DeliveryOk(t, k) {
        if k != id { assert DeliveryOk(db, k); DeliveryStays(db, t, k); }
      }
      forall i | i in t.deciding ensures DecidingOk(t, cal, i) {
        DecidingNotRevoked(db, cal, i);
        DecidingStays(db, t, cal, i);
      }
      GentleKeepsInv(db, t, cal);
    }
  }

  // ---------------------------------------------------------------- every run

  lemma {:induction false} ApplyKeeps(db: Db, cal: Calendar, s: Step)
    requires Inv(db, cal)
    ensures Inv(Apply(db, cal, s), cal)
  {
    hide Inv, CreateStep, SaveStep, PublishStep, PauseStep, DecideBeginStep, DecideLookStep, DecideCommitStep,
      AuthorizeStep, ReportStep,
      RevokeRowStep, RevokeDeliveriesStep, DecideAbortStep;
    match s
    case Tick(to) => if db.now <= to { TickKeeps(db, cal, to); }
    case Register(inst, platform) => RegisterKeeps(db, cal, inst, platform);
    case Create(camp, revision, config) => CreateKeeps(db, cal, camp, revision, config);
    case Save(camp, expected, revision, config) => SaveKeeps(db, cal, camp, expected, revision, config);
    case Publish(camp, expected, reviewed) => PublishKeeps(db, cal, camp, expected, reviewed);
    case Pause(camp, expected) => PauseKeeps(db, cal, camp, expected);
    case DecideBegin(inst, request, order) => DecideBeginKeeps(db, cal, inst, request, order);
    case DecideLook(inst) => DecideLookKeeps(db, cal, inst);
    case DecideCommit(inst, id) => DecideCommitKeeps(db, cal, inst, id);
    case DecideAbort(inst) => DecideAbortKeeps(db, cal, inst);
    case Authorize(inst, id) => AuthorizeKeeps(db, cal, inst, id);
    case Report(inst, id, eventId, row, known) => ReportKeeps(db, cal, inst, id, eventId, row, known);
    case RevokeRow(inst) => RevokeRowKeeps(db, cal, inst);
    case RevokeDeliveries(inst) => RevokeDeliveriesKeeps(db, cal, inst);
  }

  lemma {:induction false} EveryRunKeepsInv(cal: Calendar, ss: seq<Step>)
    ensures Inv(Run(Initial(), cal, ss), cal)
  {
    if ss != [] {
      EveryRunKeepsInv(cal, ss[..|ss| - 1]);
      ApplyKeeps(Run(Initial(), cal, ss[..|ss| - 1]), cal, ss[|ss| - 1]);
    }
  }
}
