/**
 What a decision chooses, and which suppressions it can still miss: it reads them candidate by candidate and
 inserts later, with nothing locked in between but the installation's own row.
 */
module InAppSuppression {
  import opened Wrappers
  import opened InAppProtocol
  import opened InAppSafety

  // ---------------------------------------------------------------- a decision left alone

  function Looks(inst: Id, n: nat): seq<Step> {
    if n == 0 then [] else Looks(inst, n - 1) + [DecideLook(inst)]
  }

  /** Candidate k passes every test and no earlier one does. */
  predicate FirstPassing(db: Db, cal: Calendar, inst: Id, d: Deciding, k: nat)
    requires inst in db.installations
  {
    && k < |d.candidates| && Eligible(db, cal, inst, db.installations[inst].platform, d, d.candidates[k])
    && NonePasses(db, cal, inst, d, k)
  }

  predicate NonePasses(db: Db, cal: Calendar, inst: Id, d: Deciding, n: nat)
    requires inst in db.installations && n <= |d.candidates|
  {
    forall j | 0 <= j < n :: !Eligible(db, cal, inst, db.installations[inst].platform, d, d.candidates[j])
  }

  /** The tests do not depend on how far the decision has come. */
  lemma SameTests(db: Db, cal: Calendar, inst: Id, platform: Platform, d: Deciding, e: Deciding, c: Candidate)
    requires e.request == d.request && e.began == d.began
    ensures var t := PutDeciding(db, inst, e);
      && Eligible(t, cal, inst, platform, e, c) == Eligible(db, cal, inst, platform, d, c)
      && Recent(t, inst, e.began) == Recent(db, inst, d.began)
  {
    var t := PutDeciding(db, inst, e);
    assert AuthIds(t, inst, c.camp) == AuthIds(db, inst, c.camp);
    var since := cal.dayStart(c.campaign.config.zone, d.began);
    assert AuthSince(t, inst, c.camp, since) == AuthSince(db, inst, c.camp, since);
  }

  /** e is where decision d stands after n looks with nothing in between. */
  predicate LookedThrough(db: Db, cal: Calendar, inst: Id, d: Deciding, e: Deciding, n: nat)
    requires inst in db.installations && n <= |d.candidates|
  {
    || (NonePasses(db, cal, inst, d, n) && e == d.(candidates := d.candidates[n..]))
    || (exists k | 0 <= k < n :: FirstPassing(db, cal, inst, d, k)
          && e == d.(candidates := [], chosen := if Recent(db, inst, d.began) then None else Some(d.candidates[k])))
  }

  lemma OneMorePasses(db: Db, cal: Calendar, inst: Id, d: Deciding, n: nat)
    requires inst in db.installations && n < |d.candidates|
    ensures var passes := Eligible(db, cal, inst, db.installations[inst].platform, d, d.candidates[n]);
      && (NonePasses(db, cal, inst, d, n + 1) <==> NonePasses(db, cal, inst, d, n) && !passes)
      && (FirstPassing(db, cal, inst, d, n) <==> NonePasses(db, cal, inst, d, n) && passes)
  {
    hide Eligible;
  }

  /** A look at the next of the remaining candidates. */
  lemma LookAtNext(db: Db, cal: Calendar, inst: Id, d: Deciding, n: nat)
    requires inst in db.installations && n < |d.candidates|
    ensures var platform := db.installations[inst].platform; var c := d.candidates[n];
      NextLook(PutDeciding(db, inst, d.(candidates := d.candidates[n..])), cal, inst, platform,
        d.(candidates := d.candidates[n..]))
        == if !Eligible(db, cal, inst, platform, d, c) then d.(candidates := d.candidates[n + 1..])
           else d.(candidates := [], chosen := if Recent(db, inst, d.began) then d.chosen else Some(c))
  {
    var e, c := d.(candidates := d.candidates[n..]), d.candidates[n];
    assert e.candidates[0] == c && e.candidates[1..] == d.candidates[n + 1..];
    SameTests(db, cal, inst, db.installations[inst].platform, d, e, c);
    hide Eligible, Recent;
  }

  /** The decision after one more look. */
  function OneMore(db: Db, cal: Calendar, inst: Id, e: Deciding): Deciding
    requires inst in db.installations
  {
    if e.candidates == [] then e else NextLook(PutDeciding(db, inst, e), cal, inst, db.installations[inst].platform, e)
  }

  lemma OneLook(db: Db, cal: Calendar, inst: Id, d: Deciding, e: Deciding, n: nat)
    requires inst in db.installations && n < |d.candidates| && d.chosen.None?
    requires LookedThrough(db, cal, inst, d, e, n)
    ensures LookedThrough(db, cal, inst, d, OneMore(db, cal, inst, e), n + 1)
  {
    hide Eligible, Recent, FirstPassing, NonePasses, NextLook;
    if NonePasses(db, cal, inst, d, n) && e == d.(candidates := d.candidates[n..]) {
      LookAtNext(db, cal, inst, d, n);
      OneMorePasses(db, cal, inst, d, n);
    }
  }

  lemma LookIsOneMore(db: Db, cal: Calendar, inst: Id, e: Deciding)
    requires inst in db.installations
    ensures DecideLookStep(PutDeciding(db, inst, e), cal, inst).0 == PutDeciding(db, inst, OneMore(db, cal, inst, e))
  {
    hide NextLook;
  }

  lemma RunLook(db: Db, cal: Calendar, inst: Id, n: nat)
    ensures Run(db, cal, Looks(inst, n + 1)) == DecideLookStep(Run(db, cal, Looks(inst, n)), cal, inst).0
  {
    hide Run, DecideLookStep, DecideBeginStep, DecideCommitStep, ReportStep, PauseStep, AuthorizeStep;
    RunStep(db, cal, Looks(inst, n), DecideLook(inst));
  }

  lemma {:induction false} LooksPass(db: Db, cal: Calendar, inst: Id, n: nat)
    requires inst in db.deciding && inst in db.installations && db.deciding[inst].chosen.None?
    requires n <= |db.deciding[inst].candidates|
    ensures var t := Run(db, cal, Looks(inst, n));
      inst in t.deciding && t == PutDeciding(db, inst, t.deciding[inst])
      && LookedThrough(db, cal, inst, db.deciding[inst], t.deciding[inst], n)
  {
    hide LookedThrough, DecideLookStep, OneMore, Run;
    RunNothing(db, cal);
    var d := db.deciding[inst];
    if n > 0 {
      LooksPass(db, cal, inst, n - 1);
      RunLook(db, cal, inst, n - 1);
      var e := Run(db, cal, Looks(inst, n - 1)).deciding[inst];
      OneLook(db, cal, inst, d, e, n - 1);
      LookIsOneMore(db, cal, inst, e);
    } else {
      assert PutDeciding(db, inst, d) == db;
      NoLookYet(db, cal, inst, d);
    }
  }

  lemma NoLookYet(db: Db, cal: Calendar, inst: Id, d: Deciding)
    requires inst in db.installations
    ensures LookedThrough(db, cal, inst, d, d, 0)
  {
    assert d.candidates[0..] == d.candidates;
  }

  /**
   A decision that nobody interrupts chooses the first candidate that passes all tests, or none if none passes or
   an authorization was too recent.
   */
  lemma {:induction false} AloneChoosesTheFirst(db: Db, cal: Calendar, inst: Id, k: nat)
    requires inst in db.deciding && inst in db.installations && db.deciding[inst].chosen.None?
    ensures var d := db.deciding[inst]; var t := Run(db, cal, Looks(inst, |d.candidates|));
      && inst in t.deciding && t.deciding[inst].candidates == []
      && (NonePasses(db, cal, inst, d, |d.candidates|) ==> t.deciding[inst].chosen == None)
      && (FirstPassing(db, cal, inst, d, k) ==>
            t.deciding[inst].chosen == if Recent(db, inst, d.began) then None else Some(d.candidates[k]))
  {
    hide Eligible, Recent, Run;
    var d := db.deciding[inst];
    LooksPass(db, cal, inst, |d.candidates|);
    if FirstPassing(db, cal, inst, d, k) {
      assert !NonePasses(db, cal, inst, d, |d.candidates|);
      var e := Run(db, cal, Looks(inst, |d.candidates|)).deciding[inst];
      var j :| 0 <= j < |d.candidates| && FirstPassing(db, cal, inst, d, j)
        && e == d.(candidates := [], chosen := if Recent(db, inst, d.began) then None else Some(d.candidates[j]));
      assert j == k;
    }
  }

  // ---------------------------------------------------------------- suppressions last

  /** A suppression is never shortened. */
  lemma StepKeepsSuppressions(db: Db, cal: Calendar, s: Step, key: (Id, Id))
    requires key in db.suppressions
    ensures key in Apply(db, cal, s).suppressions && Apply(db, cal, s).suppressions[key] >= db.suppressions[key]
  {
    if s.Report? {
      hide InsertEvent, EventAccepted, InsertsSuppression, NextState;
    } else {
      StepTouches(db, cal, s);
      hide Apply;
    }
  }

  lemma {:induction false} SuppressionsLast(cal: Calendar, ss: seq<Step>, more: seq<Step>, key: (Id, Id))
    requires key in Run(Initial(), cal, ss).suppressions
    ensures key in Run(Initial(), cal, ss + more).suppressions
    ensures Run(Initial(), cal, ss + more).suppressions[key] >= Run(Initial(), cal, ss).suppressions[key]
  {
    if more == [] {
      assert ss + more == ss;
    } else {
      var n := |more| - 1;
      SuppressionsLast(cal, ss, more[..n], key);
      assert (ss + more)[..|ss + more| - 1] == ss + more[..n];
      StepKeepsSuppressions(Run(Initial(), cal, ss + more[..n]), cal, more[n], key);
    }
  }

  // ---------------------------------------------------------------- one decision under the others' steps

  /** The decision of inst has chosen camp, and began before `until`. */
  predicate HasChosen(db: Db, inst: Id, camp: Id, until: int) {
    inst in db.deciding && db.deciding[inst].began < until
    && db.deciding[inst].chosen.Some? && db.deciding[inst].chosen.value.camp == camp
  }

  lemma OwnLook(db: Db, cal: Calendar, inst: Id)
    ensures var t := Apply(db, cal, DecideLook(inst)).deciding;
      inst in t && inst in db.deciding ==>
        t[inst] == db.deciding[inst] || (inst in db.installations && Looked(db, cal, inst, db.deciding[inst], t[inst]))
  {
    hide DecideLookStep, Looked, NextLook;
    LookMoves(db, cal, inst, inst);
    if inst in db.deciding && inst in db.installations && db.deciding[inst].candidates != [] {
      NextIsLooked(db, cal, inst, db.deciding[inst]);
    }
  }

  /** Under a suppression no step makes a decision choose the campaign. */
  lemma StepChoosesAnother(db: Db, cal: Calendar, s: Step, inst: Id, camp: Id, until: int)
    requires (inst, camp) in db.suppressions && db.suppressions[(inst, camp)] >= until
    ensures HasChosen(Apply(db, cal, s), inst, camp, until) ==> HasChosen(db, inst, camp, until)
  {
    hide Apply, Recent;
    DecisionMoves(db, cal, s, inst);
    if s == DecideLook(inst) { OwnLook(db, cal, inst); }
  }

  lemma {:induction false} RunChoosesAnother(cal: Calendar, ss: seq<Step>, more: seq<Step>, inst: Id, camp: Id)
    requires (inst, camp) in Run(Initial(), cal, ss).suppressions
    ensures var s := Run(Initial(), cal, ss); var until := s.suppressions[(inst, camp)];
      HasChosen(Run(Initial(), cal, ss + more), inst, camp, until) ==> HasChosen(s, inst, camp, until)
  {
    hide HasChosen;
    if more == [] {
      assert ss + more == ss;
    } else {
      var n := |more| - 1;
      RunChoosesAnother(cal, ss, more[..n], inst, camp);
      SuppressionsLast(cal, ss, more[..n], (inst, camp));
      assert (ss + more)[..|ss + more| - 1] == ss + more[..n];
      var until := Run(Initial(), cal, ss).suppressions[(inst, camp)];
      StepChoosesAnother(Run(Initial(), cal, ss + more[..n]), cal, more[n], inst, camp, until);
    }
  }

  // ---------------------------------------------------------------- what a suppression stops

  /** The reservation that the decision of inst makes now, as delivery id. */
  predicate Reserves(db: Db, inst: Id, id: Id, camp: Id) {
    var (t, reply) := DecideCommitStep(db, inst, id);
    reply == Reserve(id) && id in t.deliveries && t.deliveries[id].camp == camp
  }

  /**
   While a suppression lasts, no decision that begins after it was stored reserves the campaign for the installation,
   whatever happens between.
   */
  lemma {:induction false} SuppressedIsNotReserved(cal: Calendar, ss: seq<Step>, more: seq<Step>, inst: Id, camp: Id,
      id: Id)
    requires var s := Run(Initial(), cal, ss); (inst, camp) in s.suppressions && inst !in s.deciding
    requires var t := Run(Initial(), cal, ss + more);
      inst in t.deciding && t.deciding[inst].began < Run(Initial(), cal, ss).suppressions[(inst, camp)]
    ensures !Reserves(Run(Initial(), cal, ss + more), inst, id, camp)
  {
    hide Run;
    RunChoosesAnother(cal, ss, more, inst, camp);
  }

  lemma {:induction false} ChoiceStays(cal: Calendar, ss: seq<Step>, more: seq<Step>, inst: Id)
    requires var s := Run(Initial(), cal, ss); inst in s.deciding && s.deciding[inst].chosen.Some?
    requires forall s | s in more :: !Ends(s, inst)
    ensures var s, t := Run(Initial(), cal, ss), Run(Initial(), cal, ss + more);
      inst in t.deciding && t.deciding[inst] == s.deciding[inst]
  {
    if more == [] {
      assert ss + more == ss;
    } else {
      var n := |more| - 1;
      assert forall s | s in more[..n] :: s in more;
      assert more[n] in more;
      ChoiceStays(cal, ss, more[..n], inst);
      assert (ss + more)[..|ss + more| - 1] == ss + more[..n];
      ChoiceIsDone(cal, ss + more[..n], inst);
      ChosenStepStays(Run(Initial(), cal, ss + more[..n]), cal, more[n], inst);
    }
  }

  lemma ChoiceIsDone(cal: Calendar, ss: seq<Step>, inst: Id)
    requires var s := Run(Initial(), cal, ss); inst in s.deciding && s.deciding[inst].chosen.Some?
    ensures Run(Initial(), cal, ss).deciding[inst].candidates == []
  {
    EveryRunKeepsInv(cal, ss);
    assert DecidingOk(Run(Initial(), cal, ss), cal, inst);
  }

  lemma ChosenStepStays(db: Db, cal: Calendar, s: Step, inst: Id)
    requires inst in db.deciding && db.deciding[inst].chosen.Some? && db.deciding[inst].candidates == []
      && !Ends(s, inst)
    ensures var t := Apply(db, cal, s); inst in t.deciding && t.deciding[inst] == db.deciding[inst]
  {
    hide Apply, Eligible, Recent;
    DecisionMoves(db, cal, s, inst);
    if s == DecideLook(inst) { OwnLook(db, cal, inst); }
  }

  /**
   Exactly what a decision already under way misses: it reserves the suppressed campaign if and only if it had chosen
   it when the suppression was stored.
   */
  lemma {:induction false} ChosenBeforeIsReserved(cal: Calendar, ss: seq<Step>, more: seq<Step>, inst: Id, camp: Id,
      id: Id)
    requires var s := Run(Initial(), cal, ss);
      (inst, camp) in s.suppressions && inst in s.deciding && s.deciding[inst].began < s.suppressions[(inst, camp)]
    requires forall s | s in more :: !Ends(s, inst)
    requires DecideCommitStep(Run(Initial(), cal, ss + more), inst, id).1 == Reserve(id)
    ensures var chosen := Run(Initial(), cal, ss).deciding[inst].chosen;
      Reserves(Run(Initial(), cal, ss + more), inst, id, camp) <==> chosen.Some? && chosen.value.camp == camp
  {
    RunChoosesAnother(cal, ss, more, inst, camp);
    var s := Run(Initial(), cal, ss);
    if s.deciding[inst].chosen.Some? { ChoiceStays(cal, ss, more, inst); }
    BeganStays(cal, ss, more, inst);
    hide Run;
  }

  lemma {:induction false} BeganStays(cal: Calendar, ss: seq<Step>, more: seq<Step>, inst: Id)
    requires inst in Run(Initial(), cal, ss).deciding && forall s | s in more :: !Ends(s, inst)
    ensures var s, t := Run(Initial(), cal, ss), Run(Initial(), cal, ss + more);
      inst in t.deciding && t.deciding[inst].began == s.deciding[inst].began
  {
    if more == [] {
      assert ss + more == ss;
    } else {
      var n := |more| - 1;
      assert forall s | s in more[..n] :: s in more;
      assert more[n] in more;
      BeganStays(cal, ss, more[..n], inst);
      assert (ss + more)[..|ss + more| - 1] == ss + more[..n];
      hide Apply, Eligible, Recent;
      DecisionMoves(Run(Initial(), cal, ss + more[..n]), cal, more[n], inst);
      if more[n] == DecideLook(inst) { OwnLook(Run(Initial(), cal, ss + more[..n]), cal, inst); }
    }
  }

  // ---------------------------------------------------------------- a decision that misses a suppression

  const DAY: int := 86400000

  /** Days of the same length, for the run below. */
  const PLAIN: Calendar := Calendar((z: Zone, t: int) => t - t % DAY, (z: Zone, t: int) => t - t % DAY + DAY)

  const CONFIG := Config({Ios}, Foreground, "UTC", 0, 10 * DAY, 60, 2, 2, 0)
  const SHOWN := Campaign(Published, 1, 0, CONFIG, [])

  function Ask(key: Id): Request { Request(key, key, Foreground, true) }

  function Hide(occurredAt: Option<int>): EventRow { EventRow(HideToday, "", occurredAt) }

  /** The campaign is published four minutes before midnight. */
  const OPENING: seq<Step> := [Tick(DAY - 240000), Register(0, Ios), Create(0, 0, CONFIG), Publish(0, 1, {Ios})]

  function Opened(now: int): Db {
    Db(now, map[0 := Installation(Ios, false)], map[0 := SHOWN], map[(0, 1) := Publication(0, CONFIG)],
       map[], map[], map[], map[], {})
  }

  /** A first delivery is reserved, authorized, presented, hidden for the day and dismissed. */
  const FIRST: seq<Step> := [
    DecideBegin(0, Ask(1), [0]), DecideLook(0), DecideCommit(0, 1), Authorize(0, 1),
    Report(0, 1, 1, EventRow(PresentedKind, "", None), true), Report(0, 1, 2, Hide(None), true),
    Report(0, 1, 3, EventRow(Dismiss, "", None), true)]

  function FirstDelivery(st: DeliveryState, at: int): Delivery {
    if st.Reserved? then Delivery(0, 0, 1, 1, 1, Foreground, st, at + RESERVE_MS, None, at)
    else Delivery(0, 0, 1, 1, 1, Foreground, st, at + AUTHORIZED_MS, Some(at), at)
  }

  /** After midnight a decision chooses the campaign, a hide of after midnight is stored, and the decision commits. */
  const SECOND: seq<Step> := [
    Tick(DAY + 90000), DecideBegin(0, Ask(2), [0]), DecideLook(0), Report(0, 1, 4, Hide(Some(DAY + 1000)), true)]

  /** The states a run passes through, from the first to the last. */
  predicate Passes(ss: seq<Step>, states: seq<Db>) {
    |states| == |ss| + 1 && forall i | 0 <= i < |ss| :: Apply(states[i], PLAIN, ss[i]) == states[i + 1]
  }

  lemma {:induction false} PassesRuns(ss: seq<Step>, states: seq<Db>)
    requires Passes(ss, states)
    ensures Run(states[0], PLAIN, ss) == states[|ss|]
  {
    hide Apply;
    if ss != [] {
      var n := |ss| - 1;
      assert Passes(ss[..n], states[..n + 1]);
      PassesRuns(ss[..n], states[..n + 1]);
    }
  }

  lemma {:induction false} Opens()
    ensures Run(Initial(), PLAIN, OPENING) == Opened(DAY - 240000)
  {
    var a := Initial().(now := DAY - 240000);
    var b := a.(installations := map[0 := Installation(Ios, false)]);
    var c := b.(campaigns := map[0 := Campaign(Draft, 1, 0, CONFIG, [])]);
    assert Apply(Initial(), PLAIN, OPENING[0]) == a;
    assert Apply(a, PLAIN, OPENING[1]) == b && Apply(b, PLAIN, OPENING[2]) == c;
    assert Apply(c, PLAIN, OPENING[3]) == Opened(DAY - 240000);
    hide Apply, Opened, Run;
    PassesRuns(OPENING, [Initial(), a, b, c, Opened(DAY - 240000)]);
  }

  /** What the list of campaigns read by a decision holds here. */
  lemma OneCandidate(db: Db)
    requires db.campaigns == map[0 := SHOWN]
    ensures Candidates(db, [0]) == [Candidate(0, SHOWN)]
  {
    assert [0][1..] == [];
  }

  function Deciding1(db: Db, request: Request, looked: bool): Db {
    PutDeciding(db, 0, if looked then Deciding(request, db.now, [], Some(Candidate(0, SHOWN)))
                       else Deciding(request, db.now, [Candidate(0, SHOWN)], None))
  }

  lemma {:induction false} FirstBegins(at: int)
    requires 0 <= at < 10 * DAY
    ensures Apply(Opened(at), PLAIN, DecideBegin(0, Ask(1), [0])) == Deciding1(Opened(at), Ask(1), false)
  {
    OneCandidate(Opened(at));
    hide Candidates;
    assert Requested(Opened(at), 0, 1) == {};
  }

  lemma {:induction false} FirstChooses(at: int)
    requires 0 <= at < 10 * DAY
    ensures Apply(Deciding1(Opened(at), Ask(1), false), PLAIN, DecideLook(0)) == Deciding1(Opened(at), Ask(1), true)
  {
    var db := Deciding1(Opened(at), Ask(1), false);
    assert AuthIds(db, 0, 0) == {} && AuthSince(db, 0, 0, PLAIN.dayStart("UTC", at)) == {};
    assert Eligible(db, PLAIN, 0, Ios, db.deciding[0], Candidate(0, SHOWN)) && !Recent(db, 0, at);
    hide Eligible, Recent;
  }

  const PRESENTED := EventRow(PresentedKind, "", None)
  const DISMISSED := EventRow(Dismiss, "", None)

  function With(db: Db, st: DeliveryState, at: int, events: map<(Id, Id), EventRow>,
      suppressions: map<(Id, Id), int>): Db {
    db.(deliveries := map[1 := FirstDelivery(st, at)], events := events, suppressions := suppressions)
  }

  lemma {:induction false} FirstIsReserved(at: int)
    requires 0 <= at < 9 * DAY
    ensures Apply(Deciding1(Opened(at), Ask(1), true), PLAIN, DecideCommit(0, 1))
      == With(Opened(at), Reserved, at, map[], map[])
  {
  }

  lemma {:induction false} FirstIsAuthorized(at: int)
    requires 0 <= at < 9 * DAY
    ensures var db := Opened(at);
      Apply(With(db, Reserved, at, map[], map[]), PLAIN, Authorize(0, 1)) == With(db, Authorized, at, map[], map[])
  {
  }

  /** An accepted report, once what it stores is known. */
  lemma Reports(db: Db, eventId: Id, row: EventRow, events: map<(Id, Id), EventRow>, suppressions: map<(Id, Id), int>)
    requires 1 in db.deliveries && db.deliveries[1].inst == 0 && (1, eventId) !in db.events
    requires EventAccepted(db, db.deliveries[1], 1, row, true)
    requires InsertEvent(db, 1, eventId, row) == events && Suppress(db, PLAIN, db.deliveries[1], row) == suppressions
    requires 0 in db.deciding ==> (0, db.deliveries[1].camp) in db.suppressions
    ensures Apply(db, PLAIN, Report(0, 1, eventId, row, true))
      == db.(events := events, suppressions := suppressions,
             deliveries := db.deliveries[1 := db.deliveries[1].(state := NextState(db.deliveries[1], db.now,
               row.kind))])
  {
    hide EventAccepted, InsertEvent, Suppress, NextState;
  }

  lemma {:induction false} FirstIsPresented(at: int)
    requires 0 <= at < 9 * DAY
    ensures var db := Opened(at);
      Apply(With(db, Authorized, at, map[], map[]), PLAIN, Report(0, 1, 1, PRESENTED, true))
        == With(db, Presented, at, map[(1, 1) := PRESENTED], map[])
  {
    var db := With(Opened(at), Authorized, at, map[], map[]);
    assert EventsOf(db, 1) == {};
    Reports(db, 1, PRESENTED, map[(1, 1) := PRESENTED], map[]);
  }

  lemma {:induction false} FirstIsHidden()
    ensures var at := DAY - 240000; var db := Opened(at);
      Apply(With(db, Presented, at, map[(1, 1) := PRESENTED], map[]), PLAIN, Report(0, 1, 2, Hide(None), true))
        == With(db, Presented, at, map[(1, 1) := PRESENTED, (1, 2) := Hide(None)], map[(0, 0) := DAY])
  {
    var at := DAY - 240000;
    var db := With(Opened(at), Presented, at, map[(1, 1) := PRESENTED], map[]);
    assert EventsOf(db, 1) == {(1, 1)};
    assert PLAIN.dayEnd("UTC", at) == DAY;
    Reports(db, 2, Hide(None), db.events[(1, 2) := Hide(None)], map[(0, 0) := DAY]);
  }

  lemma {:induction false} FirstIsDismissed()
    ensures var at := DAY - 240000; var db := Opened(at);
      var events, until := map[(1, 1) := PRESENTED, (1, 2) := Hide(None)], map[(0, 0) := DAY];
      Apply(With(db, Presented, at, events, until), PLAIN, Report(0, 1, 3, DISMISSED, true))
        == With(db, Completed, at, events[(1, 3) := DISMISSED], until)
  {
    var at := DAY - 240000;
    var events := map[(1, 1) := PRESENTED, (1, 2) := Hide(None)];
    var db := With(Opened(at), Presented, at, events, map[(0, 0) := DAY]);
    assert EventsOf(db, 1) == {(1, 1), (1, 2)};
    assert PresentedStored(db, 1) by { assert (1, 1) in events && events[(1, 1)] == PRESENTED; }
    hide EventsOf, PresentedStored;
    Reports(db, 3, DISMISSED, db.events[(1, 3) := DISMISSED], map[(0, 0) := DAY]);
  }

  const FIRST_EVENTS: map<(Id, Id), EventRow> := map[(1, 1) := PRESENTED, (1, 2) := Hide(None), (1, 3) := DISMISSED]

  /** After the first delivery, with the campaign suppressed until `until`. */
  function AfterFirst(now: int, until: int): Db {
    With(Opened(now), Completed, DAY - 240000, FIRST_EVENTS, map[(0, 0) := until])
  }

  lemma {:induction false} SecondBegins()
    ensures var db := AfterFirst(DAY + 90000, DAY);
      Apply(db, PLAIN, DecideBegin(0, Ask(2), [0])) == Deciding1(db, Ask(2), false)
  {
    var db := AfterFirst(DAY + 90000, DAY);
    OneCandidate(db);
    hide Candidates;
    assert Requested(db, 0, 2) == {};
  }

  lemma {:induction false} SecondChooses()
    ensures var db := AfterFirst(DAY + 90000, DAY);
      Apply(Deciding1(db, Ask(2), false), PLAIN, DecideLook(0)) == Deciding1(db, Ask(2), true)
  {
    var db := Deciding1(AfterFirst(DAY + 90000, DAY), Ask(2), false);
    var d := db.deciding[0];
    assert AuthIds(db, 0, 0) == {1};
    assert AuthSince(db, 0, 0, PLAIN.dayStart("UTC", DAY + 90000)) == {};
    assert Eligible(db, PLAIN, 0, Ios, d, Candidate(0, SHOWN)) && !Recent(db, 0, d.began);
    hide Eligible, Recent;
  }

  lemma {:induction false} SecondIsHidden()
    ensures var now := DAY + 90000;
      Apply(Deciding1(AfterFirst(now, DAY), Ask(2), true), PLAIN, SECOND[3])
        == Deciding1(AfterFirst(now, 2 * DAY), Ask(2), true)
  {
    var row := Hide(Some(DAY + 1000));
    var db := Deciding1(AfterFirst(DAY + 90000, DAY), Ask(2), true);
    assert EventsOf(db, 1) == {(1, 1), (1, 2), (1, 3)};
    assert PresentedStored(db, 1) by { assert (1, 1) in db.events && db.events[(1, 1)] == PRESENTED; }
    assert (1, 2) in db.events && db.events[(1, 2)].kind == row.kind;
    assert PLAIN.dayEnd("UTC", DAY + 1000) == 2 * DAY;
    hide EventsOf, PresentedStored;
    Reports(db, 4, row, db.events, map[(0, 0) := 2 * DAY]);
  }

  lemma {:induction false} FirstRunsTo(at: int, hidden: Db, dismissed: Db)
    requires at == DAY - 240000
    requires hidden == With(Opened(at), Presented, at, map[(1, 1) := PRESENTED, (1, 2) := Hide(None)],
      map[(0, 0) := DAY])
    requires Apply(hidden, PLAIN, FIRST[6]) == dismissed
    ensures Run(Opened(at), PLAIN, FIRST) == dismissed
  {
    var db := Opened(at);
    FirstBegins(at);
    FirstChooses(at);
    FirstIsReserved(at);
    FirstIsAuthorized(at);
    FirstIsPresented(at);
    FirstIsHidden();
    hide Apply, Run, Opened, Deciding1, With, Ask, Hide;
    PassesRuns(FIRST, [
      db, Deciding1(db, Ask(1), false), Deciding1(db, Ask(1), true), With(db, Reserved, at, map[], map[]),
      With(db, Authorized, at, map[], map[]), With(db, Presented, at, map[(1, 1) := PRESENTED], map[]), hidden,
        dismissed]);
  }

  lemma {:induction false} FirstRuns()
    ensures Run(Opened(DAY - 240000), PLAIN, FIRST) == AfterFirst(DAY - 240000, DAY)
  {
    var at := DAY - 240000;
    FirstIsDismissed();
    hide Apply, Run, Opened;
    FirstRunsTo(at, With(Opened(at), Presented, at, map[(1, 1) := PRESENTED, (1, 2) := Hide(None)], map[(0, 0) := DAY]),
      AfterFirst(at, DAY));
  }

  lemma {:induction false} SecondRuns()
    ensures Run(AfterFirst(DAY - 240000, DAY), PLAIN, SECOND)
      == Deciding1(AfterFirst(DAY + 90000, 2 * DAY), Ask(2), true)
  {
    var db := AfterFirst(DAY + 90000, DAY);
    assert Apply(AfterFirst(DAY - 240000, DAY), PLAIN, SECOND[0]) == db;
    SecondBegins();
    SecondChooses();
    SecondIsHidden();
    hide Apply, Run, Opened, Deciding1, With, AfterFirst;
    PassesRuns(SECOND, [
      AfterFirst(DAY - 240000, DAY), db, Deciding1(db, Ask(2), false), Deciding1(db, Ask(2), true),
        Deciding1(AfterFirst(DAY + 90000, 2 * DAY), Ask(2), true)]);
  }

  /**
   The gap is real: in this run the campaign is suppressed to the end of the day, and the decision that had already
   chosen it reserves it all the same.
   */
  lemma {:induction false} HideCanBeMissed()
    ensures var s := Run(Initial(), PLAIN, OPENING + FIRST + SECOND);
      && (0, 0) in s.suppressions && s.suppressions[(0, 0)] > s.now
      && 0 in s.deciding && s.deciding[0].began < s.suppressions[(0, 0)]
      && Reserves(s, 0, 2, 0)
  {
    Opens();
    FirstRuns();
    SecondRuns();
    RunConcat(Initial(), PLAIN, OPENING, FIRST);
    RunConcat(Initial(), PLAIN, OPENING + FIRST, SECOND);
    hide Run;
  }
}
