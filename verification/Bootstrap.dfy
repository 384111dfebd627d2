/** First-time setup: one locked row that is unclaimed, claimed under a lease, and in the end secured for ever. */
module Bootstrap {
  import opened Wrappers

  const CLAIM_TTL_MS: nat := 15 * 60_000

  type Token = nat
  type Cookie = nat
  type Key = nat

  /** What the request hash covers; hashes are taken to be injective and stand for what they hash. */
  datatype Request = Request(workspace: string, app: string, email: string, owner: string, timezone: string)
  datatype Result = Result(tenant: nat, app: nat, member: nat, securedAt: nat)

  datatype Stage = Unclaimed | Claimed | Secured

  datatype Row = Row(
    stage: Stage, token: Option<Token>, tokenVersion: nat, session: Option<Cookie>, expires: Option<nat>,
    key: Option<Key>, request: Option<Request>, result: Option<Result>)

  /** The row if there is one, the workspaces created, the clock, and the cookies handed out. */
  datatype State = State(row: Option<Row>, workspaces: seq<Result>, now: nat, issued: set<Cookie>)

  datatype Op =
    | Ensure(token: Option<Token>)
    | Claim(presented: Token, cookie: Cookie)
    | Setup(session: Option<Cookie>, key: Key, request: Request, tenant: nat, app: nat, member: nat, fails: bool)
    | Extend(holder: Option<Cookie>)
    | ReadResult(reader: Option<Cookie>, readKey: Key)
    | Tick(amount: nat)

  datatype Reply =
    | Done | Lease(cookie: Cookie, until: nat) | Extended(until: nat) | Completed(result: Result, replayed: bool)
    | NotFound | Forbidden | Unauthorized | Conflict | Gone | RolledBack

  function NewRow(): Row { Row(Unclaimed, None, 0, None, None, None, None, None) }

  predicate Unexpired(row: Row, now: nat) { row.expires.Some? && row.expires.value > now }

  /** The cookie holds a lease on the setup. */
  predicate HoldsLease(s: State, c: Cookie) {
    s.row.Some? && s.row.value.stage == Claimed && s.row.value.session == Some(c) && Unexpired(s.row.value, s.now)
  }

  function EnsureStep(s: State, token: Option<Token>): (State, Reply) {
    var row := if s.row.Some? then s.row.value else NewRow();
    if row.stage != Secured && token.Some? && row.token != token then
      (s.(row := Some(row.(token := token, tokenVersion := row.tokenVersion + 1, stage := Unclaimed, session := None,
        expires := None))), Done)
    else (s.(row := Some(row)), Done)
  }

  function ClaimStep(s: State, presented: Token, cookie: Cookie): (State, Reply) {
    if s.row.None? then (s, NotFound)
    else
      var row := s.row.value;
      if row.stage == Secured then (s, Gone)
      else if row.token.None? then (s, Forbidden)
      else if row.token != Some(presented) then (s, Unauthorized)
      else if row.stage == Claimed && Unexpired(row, s.now) then (s, Conflict)
      else
        var until := s.now + CLAIM_TTL_MS;
        (s.(row := Some(row.(stage := Claimed, session := Some(cookie), expires := Some(until))),
          issued := s.issued + {cookie}),
         Lease(cookie, until))
  }

  function SetupStep(s: State, session: Option<Cookie>, key: Key, request: Request, made: Result,
      fails: bool): (State, Reply) {
    if session.None? then (s, Unauthorized)
    else if s.row.None? then (s, NotFound)
    else
      var row := s.row.value;
      var holder := row.session == session;
      if row.stage == Secured then
        if holder && row.key == Some(key) && Unexpired(row, s.now) && row.result.Some? then
          if row.request != Some(request) then (s, Conflict) else (s, Completed(row.result.value, true))
        else (s, Gone)
      else if row.stage != Claimed || !holder then (s, Unauthorized)
      else if !Unexpired(row, s.now) then (s, Unauthorized)
      else if fails then (s, RolledBack)
      else
        (s.(row := Some(row.(stage := Secured, token := None, key := Some(key), request := Some(request),
          result := Some(made))),
            workspaces := s.workspaces + [made]),
         Completed(made, false))
  }

  function ExtendStep(s: State, holder: Option<Cookie>): (State, Reply) {
    if holder.None? || s.row.None? || s.row.value.stage != Claimed
      || s.row.value.session != holder then (s, Unauthorized)
    else if !Unexpired(s.row.value, s.now) then (s, Unauthorized)
    else
      var until := s.now + CLAIM_TTL_MS;
      (s.(row := Some(s.row.value.(expires := Some(until)))), Extended(until))
  }

  function ReadStep(s: State, reader: Option<Cookie>, key: Key): (State, Reply) {
    if reader.None? then (s, Unauthorized)
    else if s.row.None? || s.row.value.stage != Secured then (s, NotFound)
    else if s.row.value.session != reader || s.row.value.key != Some(key) then (s, Unauthorized)
    else if !Unexpired(s.row.value, s.now) || s.row.value.result.None? then (s, Gone)
    else (s, Completed(s.row.value.result.value, true))
  }

  /** Cookies are random: one that was handed out before is not drawn again. */
  predicate Enabled(s: State, op: Op) { op.Claim? ==> op.cookie !in s.issued }

  function Step(s: State, op: Op): (State, Reply) {
    if !Enabled(s, op) then (s, Done)
    else match op
      case Ensure(token) => EnsureStep(s, token)
      case Claim(presented, cookie) => ClaimStep(s, presented, cookie)
      case Setup(session, key, request, tenant, app, member, fails) =>
        SetupStep(s, session, key, request, Result(tenant, app, member, s.now), fails)
      case Extend(holder) => ExtendStep(s, holder)
      case ReadResult(reader, key) => ReadStep(s, reader, key)
      case Tick(amount) => (s.(now := s.now + amount), Done)
  }

  function Initial(): State { State(None, [], 0, {}) }

  function Run(s: State, ops: seq<Op>): State {
    if ops == [] then s else Step(Run(s, ops[..|ops| - 1]), ops[|ops| - 1]).0
  }

  // ---------------------------------------------------------------- what every run keeps

  predicate Inv(s: State) {
    match s.row
    case None => s.workspaces == []
    case Some(row) =>
      && (if row.stage == Secured then row.token == None && row.result.Some? && row.key.Some? && row.request.Some?
        && s.workspaces == [row.result.value]
          else s.workspaces == [] && row.key == None && row.result == None)
      && (row.session.Some? ==> row.session.value in s.issued && row.expires.Some?)
      && (row.stage == Unclaimed ==> row.session == None)
      && (row.stage != Unclaimed ==> row.session.Some?)
      && (row.expires.Some? ==> row.expires.value <= s.now + CLAIM_TTL_MS)
  }

  lemma StepKeepsInv(s: State, op: Op)
    requires Inv(s)
    ensures Inv(Step(s, op).0)
  {}

  lemma {:induction false} EveryRunKeepsInv(ops: seq<Op>)
    ensures Inv(Run(Initial(), ops))
  {
    if ops != [] {
      EveryRunKeepsInv(ops[..|ops| - 1]);
      StepKeepsInv(Run(Initial(), ops[..|ops| - 1]), ops[|ops| - 1]);
    }
  }

  lemma {:induction false} RunConcat(s: State, ops: seq<Op>, more: seq<Op>)
    ensures Run(s, ops + more) == Run(Run(s, ops), more)
  {
    if more == [] {
      assert ops + more == ops;
    } else {
      assert (ops + more)[..|ops + more| - 1] == ops + more[..|more| - 1];
      RunConcat(s, ops, more[..|more| - 1]);
    }
  }

  predicate IsSecured(s: State) { s.row.Some? && s.row.value.stage == Secured }

  /** At most one workspace is ever created, and there is one exactly when the installation is secured. */
  lemma OneWorkspace(ops: seq<Op>)
    ensures var s := Run(Initial(), ops);
      |s.workspaces| <= 1 && (|s.workspaces| == 1 <==> IsSecured(s))
  {
    EveryRunKeepsInv(ops);
  }

  /** Once secured, the row and the workspaces never change again. */
  lemma {:induction false} SecuredIsForever(s: State, ops: seq<Op>)
    requires IsSecured(s)
    ensures Run(s, ops).row == s.row && Run(s, ops).workspaces == s.workspaces && Run(s, ops).now >= s.now
  {
    if ops != [] { SecuredIsForever(s, ops[..|ops| - 1]); }
  }

  /** A cookie that once lost the session never gets it back. */
  lemma {:induction false} LostSessionsStayLost(s: State, ops: seq<Op>, c: Cookie)
    requires Inv(s) && c in s.issued && (s.row.Some? ==> s.row.value.session != Some(c))
    ensures var t := Run(s, ops);
      Inv(t) && c in t.issued && (t.row.Some? ==> t.row.value.session != Some(c))
  {
    if ops != [] {
      LostSessionsStayLost(s, ops[..|ops| - 1], c);
      StepKeepsInv(Run(s, ops[..|ops| - 1]), ops[|ops| - 1]);
    }
  }

  /**
   A cookie superseded by a rotation or a later claim never again completes, replays, extends or reads
   anything, whatever happens in between, and creates nothing.
   */
  lemma SupersededCookiesAreUseless(ops: seq<Op>, more: seq<Op>, c: Cookie, op: Op)
    requires var s := Run(Initial(), ops); c in s.issued && (s.row.Some? ==> s.row.value.session != Some(c))
    requires (op.Setup? && op.session == Some(c)) || (op.Extend? && op.holder == Some(c))
      || (op.ReadResult? && op.reader == Some(c))
    ensures var t := Run(Initial(), ops + more);
      Step(t, op).0 == t && !Step(t, op).1.Completed? && !Step(t, op).1.Extended?
  {
    EveryRunKeepsInv(ops);
    RunConcat(Initial(), ops, more);
    LostSessionsStayLost(Run(Initial(), ops), more, c);
  }

  /** A lease that ran out is not extended, so its holder never sets anything up. */
  lemma {:induction false} ExpiredLeasesStayExpired(s: State, ops: seq<Op>, c: Cookie)
    requires Inv(s) && c in s.issued && !HoldsLease(s, c) && !IsSecured(s)
    ensures !HoldsLease(Run(s, ops), c)
    ensures IsSecured(Run(s, ops)) ==> Run(s, ops).row.value.session != Some(c)
  {
    if ops != [] {
      var init := Run(s, ops[..|ops| - 1]);
      ExpiredLeasesStayExpired(s, ops[..|ops| - 1], c);
      IssuedStay(s, ops[..|ops| - 1], c);
      SecuredHasHolder(s, ops[..|ops| - 1], c);
    }
  }

  lemma {:induction false} IssuedStay(s: State, ops: seq<Op>, c: Cookie)
    requires c in s.issued
    ensures c in Run(s, ops).issued
  {
    if ops != [] { IssuedStay(s, ops[..|ops| - 1], c); }
  }

  lemma {:induction false} SecuredHasHolder(s: State, ops: seq<Op>, c: Cookie)
    requires Inv(s)
    ensures Inv(Run(s, ops))
  {
    if ops != [] {
      SecuredHasHolder(s, ops[..|ops| - 1], c);
      StepKeepsInv(Run(s, ops[..|ops| - 1]), ops[|ops| - 1]);
    }
  }

  /** A lease is held against everyone: until it runs out only a new setup token or the setup itself ends it. */
  lemma LeaseIsExclusive(s: State, c: Cookie, op: Op)
    requires Inv(s) && HoldsLease(s, c)
    ensures forall d :: HoldsLease(s, d) ==> d == c
    ensures op.Claim? ==> Step(s, op).0 == s && !Step(s, op).1.Lease?
    ensures var t := Step(s, op).0;
      HoldsLease(t, c)
      || (op.Ensure? && op.token.Some? && op.token != s.row.value.token)
      || (op.Tick? && s.now + op.amount >= s.row.value.expires.value)
      || (op.Setup? && op.session == Some(c) && Step(s, op).1.Completed?)
  {}

  /** Who completes the setup holds the lease, and no lease outlives its quarter of an hour. */
  lemma OnlyTheHolderCompletes(ops: seq<Op>, op: Op)
    ensures var s := Run(Initial(), ops);
      op.Setup? && Step(s, op).1.Completed? && !Step(s, op).1.replayed ==>
        op.session.Some? && HoldsLease(s, op.session.value) && s.workspaces == []
    ensures var s := Run(Initial(), ops);
      s.row.Some? && s.row.value.expires.Some?
      ==> s.row.value.expires.value <= s.now + CLAIM_TTL_MS
  {
    EveryRunKeepsInv(ops);
  }

  /**
   After a completed setup, the same cookie, key and request get the stored result as long as the lease would
   have lasted, and any other setup request gets none.
   */
  lemma ReplaysReturnTheStoredResult(ops: seq<Op>, op: Op, more: seq<Op>, again: Op)
    requires op.Setup? && again.Setup?
    requires var s := Run(Initial(), ops); Step(s, op).1.Completed? && !Step(s, op).1.replayed
    ensures var s := Run(Initial(), ops);
      var done := Step(s, op);
      var later := Run(done.0, more);
      && (Step(later, again).1.Completed? <==>
            again.session == op.session && again.key == op.key && again.request == op.request
              && Unexpired(done.0.row.value, later.now))
      && (Step(later, again).1.Completed? ==> Step(later, again).1 == Completed(done.1.result, true))
      && Step(later, again).0 == later && later.workspaces == [done.1.result]
  {
    EveryRunKeepsInv(ops);
    var s := Run(Initial(), ops);
    StepKeepsInv(s, op);
    SecuredIsForever(Step(s, op).0, more);
  }

  // ---------------------------------------------------------------- the service

  class Installation {
    var row: Option<Row>
    var workspaces: seq<Result>
    var issued: set<Cookie>

    function View(now: nat): State
      reads this
    {
      State(row, workspaces, now, issued)
    }

    constructor ()
      ensures View(0) == Initial()
    {
      row, workspaces, issued := None, [], {};
    }

    method EnsureInstallation(setupToken: Option<Token>, now: nat)
      modifies this
      ensures View(now) == EnsureStep(old(View(now)), setupToken).0
    {
      if row.None? { row := Some(NewRow()); }
      var r := row.value;
      if r.stage != Secured && setupToken.Some? {
        if r.token != setupToken {
          row := Some(r.(token := setupToken, tokenVersion := r.tokenVersion + 1, stage := Unclaimed, session := None,
            expires := None));
        }
      }
    }

    method ClaimLease(presented: Token, cookie: Cookie, now: nat) returns (reply: Reply)
      modifies this
      ensures (View(now), reply) == ClaimStep(old(View(now)), presented, cookie)
    {
      if row.None? { return NotFound; }
      var r := row.value;
      if r.stage == Secured { return Gone; }
      if r.token.None? { return Forbidden; }
      if r.token != Some(presented) { return Unauthorized; }
      if r.stage == Claimed && r.expires.Some? && r.expires.value > now { return Conflict; }
      var until := now + CLAIM_TTL_MS;
      row := Some(r.(stage := Claimed, session := Some(cookie), expires := Some(until)));
      issued := issued + {cookie};
      return Lease(cookie, until);
    }

    method CompleteSetup(cookie: Option<Cookie>, key: Key, request: Request, made: Result, fails: bool, now: nat)
        returns (reply: Reply)
      modifies this
      ensures (View(now), reply) == SetupStep(old(View(now)), cookie, key, request, made, fails)
    {
      if cookie.None? { return Unauthorized; }
      if row.None? { return NotFound; }
      var r := row.value;
      var holder := r.session == cookie;
      if r.stage == Secured {
        if holder && r.key == Some(key) && r.expires.Some? && r.expires.value > now && r.result.Some? {
          if r.request != Some(request) { return Conflict; }
          return Completed(r.result.value, true);
        }
        return Gone;
      }
      if r.stage != Claimed || !holder { return Unauthorized; }
      if r.expires.None? || r.expires.value <= now { return Unauthorized; }
      workspaces := workspaces + [made];
      if fails {
        workspaces := workspaces[..|workspaces| - 1];
        return RolledBack;
      }
      row := Some(r.(stage := Secured, token := None, key := Some(key), request := Some(request),
        result := Some(made)));
      return Completed(made, false);
    }

    method ExtendLease(cookie: Option<Cookie>, now: nat) returns (reply: Reply)
      modifies this
      ensures (View(now), reply) == ExtendStep(old(View(now)), cookie)
    {
      if cookie.None? { return Unauthorized; }
      if row.None? || row.value.stage != Claimed || row.value.session != cookie { return Unauthorized; }
      if row.value.expires.None? || row.value.expires.value <= now { return Unauthorized; }
      var until := now + CLAIM_TTL_MS;
      row := Some(row.value.(expires := Some(until)));
      return Extended(until);
    }

    method SetupResult(cookie: Option<Cookie>, key: Key, now: nat) returns (reply: Reply)
      ensures (View(now), reply) == ReadStep(View(now), cookie, key)
    {
      if cookie.None? { return Unauthorized; }
      if row.None? || row.value.stage != Secured { return NotFound; }
      if row.value.session != cookie || row.value.key != Some(key) { return Unauthorized; }
      if row.value.expires.None? || row.value.expires.value <= now || row.value.result.None? { return Gone; }
      return Completed(row.value.result.value, true);
    }
  }
}
