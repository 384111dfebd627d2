/**
 The send loop's protocol for ONE tenant and idempotency key, as a state machine whose steps are single
 Redis commands and single outside calls. Any number of workers interleave; a worker may crash between
 any two steps. An event that is not enabled leaves the state alone, so every event sequence is a run.
 */
module SendProtocol {
  import opened Wrappers

  const MAX_SEND_ATTEMPTS: nat := 5
  const BACKOFF_BASE: int := 30
  const BACKOFF_CAP: int := 900

  datatype FailureClass = Retryable | RateLimited | PermanentContent | InvalidTarget | CredentialAuth | Unclassified

  /** What follows `failed|` in a marker and what a failed row carries. */
  datatype FailureTag = CredentialMissing | Direct(kind: FailureClass) | Exhausted(kind: FailureClass)

  datatype Record = Record(failureId: nat, messageId: string, kind: FailureClass, attempts: nat, at: int)

  /** The value under the idempotency key. */
  datatype Marker = Lease(token: nat) | Sent(provider: string) | Failed(tag: FailureTag) | Pending(record: Record)

  datatype Status = SentRow(provider: string) | FailedRow(tag: FailureTag)
  datatype Row = Row(messageId: string, status: Status)
  datatype Outcome = Retry | Ack(row: Option<Row>)

  datatype Job = Job(messageId: string)

  datatype ResolveReply = ResolveError | NotFound | Found
  datatype SendReply = Delivered(provider: string) | Refused(kind: FailureClass, retryAfter: int)

  /** What the outside world would answer at a step; a step reads only the part it asks for. */
  datatype Answer = Answer(resolve: ResolveReply, send: SendReply, stored: bool, logReadable: bool)

  /** Where a handler stands: the next command it will issue. */
  datatype Pc =
    | CheckBackoff
    | Acquire
    | ReadMarker
    | CheckLog(row: Row)
    | ReadAttempts
    | Resolving
    | Sending
    | WriteSent(provider: string)
    | WriteFailed(tag: FailureTag, afterSend: bool)
    | CountAttempt(kind: FailureClass, retryAfter: int, afterSend: bool)
    | WriteRetryAt(at: int)
    | DropLease
    | ClearCounters(row: Row)
    | InstallPending(record: Record)
    | Persisting(record: Record)
    | Committing(record: Record)
    | Finished(outcome: Outcome)

  datatype Handler = Handler(job: Job, now: int, token: nat, pc: Pc)

  datatype World = World(
    idem: Option<Marker>,
    attempts: nat,
    retryAt: Option<int>,
    log: set<Row>,
    dlq: seq<Record>,            // what the dead-letter store accepted, in order
    workers: map<nat, Handler>,
    nextId: nat,                 // UUIDs: every id drawn is new
    persistCalls: seq<Record>,   // every call to the dead-letter store, accepted or not
    installed: Option<Record>,   // the record the pending marker was installed with
    sends: nat,                  // provider calls
    lost: nat,                   // crashes between a provider call and the next Redis write
    commits: nat)                // successful compare-and-set from pending to terminal

  datatype Event =
    | Start(w: nat, job: Job, now: int)
    | Step(w: nat, answer: Answer)
    | Crash(w: nat)
    | ExpireLease
    | Flush(rows: set<Row>)

  function Initial(): World {
    World(None, 0, None, {}, [], map[], 0, [], None, 0, 0, 0)
  }

  function Backoff(attempt: nat): int {
    if attempt <= 1 then BACKOFF_BASE
    else if attempt == 2 then 2 * BACKOFF_BASE
    else if attempt == 3 then 4 * BACKOFF_BASE
    else if attempt == 4 then 8 * BACKOFF_BASE
    else if attempt == 5 then 16 * BACKOFF_BASE
    else BACKOFF_CAP
  }

  predicate Transient(c: FailureClass) { c.Retryable? || c.RateLimited? }

  /** The field checks of finishDLQ. */
  predicate RecordReadable(r: Record) {
    r.messageId != "" && r.attempts >= MAX_SEND_ATTEMPTS && Transient(r.kind)
  }

  /** The commands between winning the lease and giving it up. */
  predicate Holding(pc: Pc) {
    pc.ReadAttempts? || pc.Resolving? || pc.Sending? || pc.WriteSent? || pc.WriteFailed? || pc.CountAttempt?
    || pc.WriteRetryAt? || pc.DropLease? || pc.InstallPending?
  }

  /** A provider call has returned and nothing was written since. */
  predicate AfterSend(pc: Pc) {
    pc.WriteSent? || (pc.WriteFailed? && pc.afterSend) || (pc.CountAttempt? && pc.afterSend)
  }

  /** Live handlers finish within their lease: a lease lapses only once nobody works under it. */
  predicate LeaseOrphaned(s: World) {
    s.idem.Some? && s.idem.value.Lease?
    && forall w | w in s.workers :: !(Holding(s.workers[w].pc) && s.workers[w].token == s.idem.value.token)
  }

  predicate Enabled(s: World, e: Event) {
    match e
    case Start(w, job, now) => (w !in s.workers || s.workers[w].pc.Finished?) && job.messageId != ""
    case Step(w, _) => w in s.workers && !s.workers[w].pc.Finished?
    case Crash(w) => w in s.workers && !s.workers[w].pc.Finished?
    case ExpireLease => LeaseOrphaned(s)
    case Flush(_) => true
  }

  function Goto(s: World, w: nat, pc: Pc): World
    requires w in s.workers
  {
    s.(workers := s.workers[w := s.workers[w].(pc := pc)])
  }

  function ReadMarkerStep(s: World, w: nat): World
    requires w in s.workers
  {
    match s.idem
    case None => Goto(s, w, Finished(Retry))
    case Some(Pending(r)) => Goto(s, w, if RecordReadable(r) then Persisting(r) else Finished(Retry))
    case Some(Sent(p)) => Goto(s, w, CheckLog(Row(s.workers[w].job.messageId, SentRow(p))))
    case Some(Failed(t)) => Goto(s, w, CheckLog(Row(s.workers[w].job.messageId, FailedRow(t))))
    case Some(Lease(_)) => Goto(s, w, Finished(Retry))
  }

  function NewRecord(s: World, h: Handler, kind: FailureClass, attempts: nat): Record {
    Record(s.nextId, h.job.messageId, kind, attempts, h.now)
  }

  /** The same message has a row of the same status. */
  predicate Logged(log: set<Row>, row: Row) {
    exists r | r in log :: r.messageId == row.messageId && r.status.SentRow? == row.status.SentRow?
  }

  /** A step of w changes no handler but w's own, and of that one only where it stands. */
  predicate OnlyMoves(s: World, t: World, w: nat) {
    w in s.workers && w in t.workers && t.workers == s.workers[w := s.workers[w].(pc := t.workers[w].pc)]
  }

  /** The commands before the lease is won: back-off check, SETNX, and reading a marker that was already there. */
  function EntryStep(s: World, w: nat, a: Answer): (t: World)
    requires w in s.workers
    ensures OnlyMoves(s, t, w)
  {
    var h := s.workers[w];
    match h.pc
    case CheckBackoff =>
      Goto(s, w, if s.retryAt.Some? && h.now < s.retryAt.value then Finished(Retry) else Acquire)
    case Acquire =>
      if s.idem.None? then Goto(s.(idem := Some(Lease(h.token))), w, ReadAttempts)
      else Goto(s, w, ReadMarker)
    case ReadMarker => ReadMarkerStep(s, w)
    case CheckLog(row) =>
      Goto(s, w, Finished(Ack(if a.logReadable && Logged(s.log, row) then None else Some(row))))
    case _ => s
  }

  /** Under the lease, up to and including the provider call. */
  function CallStep(s: World, w: nat, a: Answer): (t: World)
    requires w in s.workers
    ensures OnlyMoves(s, t, w)
  {
    var h := s.workers[w];
    match h.pc
    case ReadAttempts =>
      if s.attempts >= MAX_SEND_ATTEMPTS then
        Goto(s.(nextId := s.nextId + 1), w, InstallPending(NewRecord(s, h, Retryable, s.attempts)))
      else Goto(s, w, Resolving)
    case Resolving =>
      Goto(s, w, match a.resolve
                 case ResolveError => CountAttempt(Retryable, 0, false)
                 case NotFound => WriteFailed(CredentialMissing, false)
                 case Found => Sending)
    case Sending =>
      Goto(s.(sends := s.sends + 1), w,
           match a.send
           case Delivered(p) => WriteSent(p)
           case Refused(c, after) => if Transient(c) then CountAttempt(c, after, true)
             else WriteFailed(Direct(c), true))
    case _ => s
  }

  /** Under the lease, the writes that end the attempt. */
  function WriteStep(s: World, w: nat): (t: World)
    requires w in s.workers
    ensures OnlyMoves(s, t, w)
  {
    var h := s.workers[w];
    match h.pc
    case WriteSent(p) =>
      Goto(s.(idem := Some(Sent(p))), w, ClearCounters(Row(h.job.messageId, SentRow(p))))
    case WriteFailed(t, _) =>
      Goto(s.(idem := Some(Failed(t))), w, ClearCounters(Row(h.job.messageId, FailedRow(t))))
    case CountAttempt(c, after, _) =>
      var n := s.attempts + 1;
      if n >= MAX_SEND_ATTEMPTS then
        Goto(s.(attempts := n, nextId := s.nextId + 1), w, InstallPending(NewRecord(s, h, c, n)))
      else
        Goto(s.(attempts := n), w, WriteRetryAt(h.now + if after <= 0 then Backoff(n) else after))
    case WriteRetryAt(at) => Goto(s.(retryAt := Some(at)), w, DropLease)
    case DropLease => Goto(s.(idem := None), w, Finished(Retry))
    case InstallPending(r) =>
      if s.idem == Some(Lease(h.token)) then
        Goto(s.(idem := Some(Pending(r)), installed := Some(r)), w, if RecordReadable(r) then Persisting(r)
          else Finished(Retry))
      else Goto(s, w, Finished(Retry))
    case _ => s
  }

  /** After the lease: clearing counters, and finishing a pending dead letter. */
  function TailStep(s: World, w: nat, a: Answer): (t: World)
    requires w in s.workers
    ensures OnlyMoves(s, t, w)
  {
    match s.workers[w].pc
    case ClearCounters(row) => Goto(s.(attempts := 0, retryAt := None), w, Finished(Ack(Some(row))))
    case Persisting(r) =>
      var called := s.(persistCalls := s.persistCalls + [r]);
      if a.stored then Goto(called.(dlq := s.dlq + [r]), w, Committing(r)) else Goto(called, w, Finished(Retry))
    case Committing(r) =>
      if s.idem == Some(Pending(r)) then
        Goto(s.(idem := Some(Failed(Exhausted(r.kind))), attempts := 0, retryAt := None, commits := s.commits + 1), w,
             Finished(Ack(Some(Row(r.messageId, FailedRow(Exhausted(r.kind)))))))
      else Goto(s, w, Finished(Retry))
    case _ => s
  }

  predicate Entering(pc: Pc) { pc.CheckBackoff? || pc.Acquire? || pc.ReadMarker? || pc.CheckLog? }
  predicate Calling(pc: Pc) { pc.ReadAttempts? || pc.Resolving? || pc.Sending? }
  predicate Tailing(pc: Pc) { pc.ClearCounters? || pc.Persisting? || pc.Committing? }

  /** One command of worker w, in the order handleOne issues them. */
  function Advance(s: World, w: nat, a: Answer): (t: World)
    requires w in s.workers
    ensures OnlyMoves(s, t, w)
  {
    var pc := s.workers[w].pc;
    if Entering(pc) then EntryStep(s, w, a)
    else if Calling(pc) then CallStep(s, w, a)
    else if Tailing(pc) then TailStep(s, w, a)
    else WriteStep(s, w)
  }

  function Apply(s: World, e: Event): World {
    if !Enabled(s, e) then s
    else match e
      case Start(w, job, now) =>
        s.(workers := s.workers[w := Handler(job, now, s.nextId, CheckBackoff)], nextId := s.nextId + 1)
      case Step(w, a) => Advance(s, w, a)
      case Crash(w) =>
        s.(workers := map v | v in s.workers && v != w :: s.workers[v],
           lost := s.lost + if AfterSend(s.workers[w].pc) then 1 else 0)
      case ExpireLease => s.(idem := None)
      case Flush(rows) => s.(log := s.log + rows)
  }

  function Run(s: World, es: seq<Event>): World {
    if es == [] then s else Apply(Run(s, es[..|es| - 1]), es[|es| - 1])
  }

  // ---------------------------------------------------------------- the invariant

  predicate Settled(s: World) { s.idem.Some? && !s.idem.value.Lease? }

  predicate Terminal(s: World) { s.idem.Some? && (s.idem.value.Sent? || s.idem.value.Failed?) }

  /** A row agrees with the terminal marker of its key. */
  predicate Agrees(s: World, row: Row) {
    match row.status
    case SentRow(p) => s.idem == Some(Sent(p))
    case FailedRow(t) => s.idem == Some(Failed(t))
  }

  /** The lease under the key is this handler's own. */
  predicate Mine(s: World, h: Handler) { s.idem == Some(Lease(h.token)) }

  /** The row is the message's own, or the row of the record its key was dead-lettered with. */
  predicate RowFor(s: World, job: Job, row: Row) {
    row.messageId == job.messageId
    || (s.installed.Some? && row == Row(s.installed.value.messageId, FailedRow(Exhausted(s.installed.value.kind))))
  }

  /** What holds of one handler, wherever it stands. */
  predicate Good(s: World, h: Handler) {
    h.token < s.nextId && h.job.messageId != "" &&
    match h.pc
    case CheckBackoff => !Mine(s, h)
    case Acquire => !Mine(s, h)
    case ReadMarker => true
    case CheckLog(row) => Agrees(s, row) && row.messageId == h.job.messageId
    case ReadAttempts => Mine(s, h)
    case Resolving => Mine(s, h) && s.attempts < MAX_SEND_ATTEMPTS
    case Sending => Mine(s, h) && s.attempts < MAX_SEND_ATTEMPTS
    case WriteSent(_) => Mine(s, h) && s.attempts < MAX_SEND_ATTEMPTS
    case WriteFailed(t, _) => Mine(s, h) && s.attempts < MAX_SEND_ATTEMPTS && !t.Exhausted?
    case CountAttempt(c, _, _) => Mine(s, h) && s.attempts < MAX_SEND_ATTEMPTS && Transient(c)
    case WriteRetryAt(_) => Mine(s, h)
    case DropLease => Mine(s, h)
    case ClearCounters(row) => Agrees(s, row) && row.messageId == h.job.messageId
    case InstallPending(r) => Mine(s, h) && RecordReadable(r)
    case Persisting(r) => s.installed == Some(r)
    case Committing(r) => s.installed == Some(r) && r in s.dlq
    case Finished(Retry) => true
    case Finished(Ack(Some(row))) => Agrees(s, row) && RowFor(s, h.job, row)
    case Finished(Ack(None)) => Terminal(s) && exists r | r in s.log :: r.messageId == h.job.messageId
  }

  /** What holds of the shared keys and stores. */
  predicate Shared(s: World) {
    && s.attempts <= MAX_SEND_ATTEMPTS
    && s.sends <= MAX_SEND_ATTEMPTS + s.lost
    && (s.idem.Some? && s.idem.value.Lease? ==> s.idem.value.token < s.nextId)
    && s.commits <= 1
    && (s.commits == 1 ==> s.installed.Some? && s.installed.value in s.dlq
                           && s.idem == Some(Failed(Exhausted(s.installed.value.kind))))
    && (s.commits == 0 ==> s.installed.None? || s.idem == Some(Pending(s.installed.value)))
    && (s.installed.Some? ==> RecordReadable(s.installed.value))
    && (s.idem.Some? && s.idem.value.Pending? ==> s.installed == Some(s.idem.value.record) && s.commits == 0)
    && (s.idem.Some? && s.idem.value.Failed? && s.idem.value.tag.Exhausted? ==> s.commits == 1)
    && (forall r | r in s.persistCalls :: s.installed == Some(r))
    && (forall r | r in s.dlq :: s.installed == Some(r))
  }

  /** Before the key is settled, every provider call but one in flight is in the counter or lost to a crash. */
  predicate Accounted(s: World) {
    !Settled(s) ==>
      && s.sends <= s.attempts + s.lost + 1
      && (s.sends == s.attempts + s.lost + 1 ==> exists w | w in s.workers :: AfterSend(s.workers[w].pc))
  }

  predicate DistinctTokens(s: World) {
    forall v, w | v in s.workers && w in s.workers && v != w :: s.workers[v].token != s.workers[w].token
  }

  predicate Inv(s: World) {
    && Shared(s)
    && Accounted(s)
    && DistinctTokens(s)
    && (forall w | w in s.workers :: Good(s, s.workers[w]))
  }

  lemma {:induction false} EntryKeeps(s: World, w: nat, a: Answer)
    requires Inv(s) && Enabled(s, Step(w, a)) && Entering(s.workers[w].pc)
    ensures Shared(EntryStep(s, w, a)) && Good(EntryStep(s, w, a), EntryStep(s, w, a).workers[w])
  {
    assert Good(s, s.workers[w]);
  }

  lemma {:induction false} CallKeeps(s: World, w: nat, a: Answer)
    requires Inv(s) && Enabled(s, Step(w, a)) && Calling(s.workers[w].pc)
    ensures Shared(CallStep(s, w, a)) && Good(CallStep(s, w, a), CallStep(s, w, a).workers[w])
  {
    assert Good(s, s.workers[w]);
  }

  lemma {:induction false} WriteKeeps(s: World, w: nat, a: Answer)
    requires Inv(s) && Enabled(s, Step(w, a)) && (Holding(s.workers[w].pc) && !Calling(s.workers[w].pc))
    ensures Shared(WriteStep(s, w)) && Good(WriteStep(s, w), WriteStep(s, w).workers[w])
  {
    assert Good(s, s.workers[w]);
  }

  lemma {:induction false} TailKeeps(s: World, w: nat, a: Answer)
    requires Inv(s) && Enabled(s, Step(w, a)) && Tailing(s.workers[w].pc)
    ensures Shared(TailStep(s, w, a)) && Good(TailStep(s, w, a), TailStep(s, w, a).workers[w])
  {
    assert Good(s, s.workers[w]);
  }

  function InFlight(pc: Pc): int { if AfterSend(pc) then 1 else 0 }

  /** Provider calls of this step are covered by the counter or still in flight. */
  lemma {:induction false} StepBalance(s: World, w: nat, a: Answer)
    requires Enabled(s, Step(w, a)) && Good(s, s.workers[w]) && !Settled(Advance(s, w, a))
    ensures var t := Advance(s, w, a);
      && !Settled(s)
      && t.lost == s.lost
      && t.sends - t.attempts - InFlight(t.workers[w].pc) <= s.sends - s.attempts - InFlight(s.workers[w].pc)
      && (AfterSend(t.workers[w].pc) ==> Mine(s, s.workers[w]))
  {
  }

  lemma {:induction false} StepKeepsAccount(s: World, w: nat, a: Answer)
    requires Inv(s) && Enabled(s, Step(w, a))
    ensures Accounted(Advance(s, w, a))
  {
    var t := Advance(s, w, a);
    if !Settled(t) {
      StepBalance(s, w, a);
      if s.sends == s.attempts + s.lost + 1 {
        var v :| v in s.workers && AfterSend(s.workers[v].pc);
        assert Good(s, s.workers[v]);
        assert v in t.workers;
      }
      assert w in t.workers;
    }
  }

  /** What a handler may rely on while another one takes a step. */
  predicate Undisturbed(s: World, t: World, h: Handler) {
    && s.nextId <= t.nextId
    && t.log == s.log
    && (Mine(s, h) ==> t.idem == s.idem && t.attempts == s.attempts && t.retryAt == s.retryAt)
    && (!Mine(s, h) ==> !Mine(t, h))
    && (Terminal(s) ==> t.idem == s.idem)
    && (s.installed.Some? ==> t.installed == s.installed)
    && (forall r | r in s.dlq :: r in t.dlq)
  }

  lemma {:induction false} StepLeavesOthers(s: World, w: nat, a: Answer, v: nat)
    requires Inv(s) && Enabled(s, Step(w, a)) && v in s.workers && v != w
    ensures Undisturbed(s, Advance(s, w, a), s.workers[v])
  {
    hide Shared, Accounted, Undisturbed, Advance;
    assert Good(s, s.workers[w]);
    StepUndisturbs(s, w, a, s.workers[v]);
  }

  lemma {:induction false} StepUndisturbs(s: World, w: nat, a: Answer, h: Handler)
    requires Shared(s) && Enabled(s, Step(w, a)) && Good(s, s.workers[w]) && h.token != s.workers[w].token
    ensures Undisturbed(s, Advance(s, w, a), h)
  {
    hide RowFor, RecordReadable;
  }

  lemma {:induction false} UndisturbedStaysGood(s: World, t: World, h: Handler)
    requires Good(s, h) && Undisturbed(s, t, h)
    ensures Good(t, h)
  {
  }

  lemma {:induction false} StepKeepsInv(s: World, w: nat, a: Answer)
    requires Inv(s) && Enabled(s, Step(w, a))
    ensures Inv(Apply(s, Step(w, a)))
  {
    var pc, t := s.workers[w].pc, Apply(s, Step(w, a));
    assert Shared(t) && Good(t, t.workers[w]) by {
      if Entering(pc) { EntryKeeps(s, w, a); }
      else if Calling(pc) { CallKeeps(s, w, a); }
      else if Tailing(pc) { TailKeeps(s, w, a); }
      else { WriteKeeps(s, w, a); }
    }
    assert Accounted(t) by { StepKeepsAccount(s, w, a); }
    forall v | v in s.workers && v != w ensures Good(t, t.workers[v]) {
      assert Good(s, s.workers[v]);
      StepLeavesOthers(s, w, a, v);
      UndisturbedStaysGood(s, t, s.workers[v]);
    }
  }

  lemma {:induction false} CrashKeepsInv(s: World, w: nat)
    requires Inv(s) && Enabled(s, Crash(w))
    ensures Inv(Apply(s, Crash(w)))
  {
    var t := Apply(s, Crash(w));
    assert Good(s, s.workers[w]);
    if !Settled(s) && t.sends == t.attempts + t.lost + 1 {
      var v :| v in s.workers && AfterSend(s.workers[v].pc);
      assert v in t.workers;
    }
    forall v | v in t.workers ensures Good(t, t.workers[v]) {
      assert Good(s, s.workers[v]);
    }
  }

  lemma {:induction false} ExpireKeepsInv(s: World)
    requires Inv(s) && Enabled(s, ExpireLease)
    ensures Inv(Apply(s, ExpireLease))
  {
    var t := Apply(s, ExpireLease);
    forall v | v in s.workers ensures Good(t, t.workers[v]) {
      assert Good(s, s.workers[v]);
    }
  }

  lemma {:induction false} StartKeepsInv(s: World, w: nat, job: Job, now: int)
    requires Inv(s) && Enabled(s, Start(w, job, now))
    ensures Inv(Apply(s, Start(w, job, now)))
  {
    var t := Apply(s, Start(w, job, now));
    forall v | v in t.workers ensures Good(t, t.workers[v]) {
      if v != w { assert Good(s, s.workers[v]); }
    }
    if !Settled(s) && s.sends == s.attempts + s.lost + 1 {
      var v :| v in s.workers && AfterSend(s.workers[v].pc);
      assert t.workers[v] == s.workers[v];
    }
    forall v | v in s.workers && v != w ensures t.workers[v].token != t.workers[w].token {
      assert Good(s, s.workers[v]);
    }
  }

  lemma {:induction false} FlushKeepsInv(s: World, rows: set<Row>)
    requires Inv(s)
    ensures Inv(Apply(s, Flush(rows)))
  {
    var t := Apply(s, Flush(rows));
    forall v | v in s.workers ensures Good(t, t.workers[v]) {
      assert Good(s, s.workers[v]);
    }
  }

  lemma {:induction false} ApplyKeepsInv(s: World, e: Event)
    requires Inv(s)
    ensures Inv(Apply(s, e))
  {
    if Enabled(s, e) {
      match e
      case Start(w, job, now) => StartKeepsInv(s, w, job, now);
      case Step(w, a) => StepKeepsInv(s, w, a);
      case Crash(w) => CrashKeepsInv(s, w);
      case ExpireLease => ExpireKeepsInv(s);
      case Flush(rows) => FlushKeepsInv(s, rows);
    }
  }

  /** Every reachable state, over any number of workers, redeliveries, crashes and lapsed leases. */
  lemma {:induction false} EveryRunKeepsInv(es: seq<Event>)
    ensures Inv(Run(Initial(), es))
  {
    if es != [] {
      EveryRunKeepsInv(es[..|es| - 1]);
      ApplyKeepsInv(Run(Initial(), es[..|es| - 1]), es[|es| - 1]);
    }
  }

  lemma {:induction false} RunStep(s: World, es: seq<Event>, e: Event)
    ensures Run(s, es + [e]) == Apply(Run(s, es), e)
  {
    assert (es + [e])[..|es + [e]| - 1] == es;
  }

  lemma {:induction false} RunConcat(s: World, es: seq<Event>, more: seq<Event>)
    ensures Run(s, es + more) == Run(Run(s, es), more)
  {
    if more == [] {
      assert es + more == es;
    } else {
      var n := |more| - 1;
      assert (es + more)[..|es + more| - 1] == es + more[..n];
      RunConcat(s, es, more[..n]);
    }
  }

  // ---------------------------------------------------------------- the theorems

  /** The provider is called at most MAX_SEND_ATTEMPTS times, plus once per crash between a call and its next write. */
  lemma {:induction false} RetryBudget(es: seq<Event>)
    ensures Run(Initial(), es).sends <= MAX_SEND_ATTEMPTS + Run(Initial(), es).lost
  {
    EveryRunKeepsInv(es);
  }

  /** At most one worker is between winning the lease and giving it up, and the key then holds its lease. */
  lemma {:induction false} LeaseExclusion(es: seq<Event>, v: nat, w: nat)
    requires var s := Run(Initial(), es);
      v in s.workers && w in s.workers && Holding(s.workers[v].pc) && Holding(s.workers[w].pc)
    ensures v == w
    ensures Run(Initial(), es).idem == Some(Lease(Run(Initial(), es).workers[w].token))
  {
    EveryRunKeepsInv(es);
    var s := Run(Initial(), es);
    assert Good(s, s.workers[v]) && Good(s, s.workers[w]);
  }

  /** What a settled key may still do: nothing, or move its pending record to the matching terminal marker. */
  predicate SettledAs(s: World, t: World) {
    && Settled(t)
    && t.sends == s.sends
    && (t.idem == s.idem
        || (s.idem.Some? && s.idem.value.Pending? && t.idem == Some(Failed(Exhausted(s.idem.value.record.kind)))))
    && (s.installed.Some? ==> t.installed == s.installed)
  }

  lemma {:induction false} SettledStep(s: World, e: Event)
    requires Inv(s) && Settled(s)
    ensures SettledAs(s, Apply(s, e))
  {
    if e.Step? && Enabled(s, e) {
      assert Good(s, s.workers[e.w]);
      assert !Holding(s.workers[e.w].pc);
    }
  }

  /** Once a key is sent, failed or dlq_pending, no run calls the provider again and the verdict never changes. */
  lemma {:induction false} SettledForever(es: seq<Event>, more: seq<Event>)
    requires Settled(Run(Initial(), es))
    ensures SettledAs(Run(Initial(), es), Run(Initial(), es + more))
  {
    if more == [] {
      assert es + more == es;
    } else {
      var n := |more| - 1;
      SettledForever(es, more[..n]);
      assert (es + more)[..|es + more| - 1] == es + more[..n];
      EveryRunKeepsInv(es);
      EveryRunKeepsInv(es + more[..n]);
      SettledStep(Run(Initial(), es + more[..n]), more[n]);
      var s, t := Run(Initial(), es), Run(Initial(), es + more[..n]);
      assert s.idem.value.Pending? ==> s.installed == Some(s.idem.value.record);
    }
  }

  /**
   All writes to the dead-letter store carry one record (so one FailureID); the pending marker becomes
   terminal at most once; it has become terminal exactly when the key reads failed|<class>_exhausted; and
   by then the record is in the store.
   */
  lemma {:induction false} OneDeadLetter(es: seq<Event>)
    ensures var s := Run(Initial(), es);
      && (forall i, j | 0 <= i < |s.persistCalls| && 0 <= j < |s.persistCalls| ::
        s.persistCalls[i] == s.persistCalls[j])
      && s.commits <= 1
      && (s.commits == 1 <==> s.idem.Some? && s.idem.value.Failed? && s.idem.value.tag.Exhausted?)
      && (s.commits == 1 ==> s.installed.Some? && s.installed.value in s.dlq)
  {
    EveryRunKeepsInv(es);
    var s := Run(Initial(), es);
    forall i, j | 0 <= i < |s.persistCalls| && 0 <= j < |s.persistCalls|
      ensures s.persistCalls[i] == s.persistCalls[j]
    {
      assert s.persistCalls[i] in s.persistCalls && s.persistCalls[j] in s.persistCalls;
    }
  }

  /** A pending marker is never stuck: whoever reads it passes the field checks and retries the persistence. */
  lemma {:induction false} PendingIsResumable(es: seq<Event>, w: nat, a: Answer)
    requires var s := Run(Initial(), es);
      w in s.workers && s.workers[w].pc == ReadMarker && s.idem.Some? && s.idem.value.Pending?
    ensures var s := Run(Initial(), es);
      Apply(s, Step(w, a)).workers[w].pc == Persisting(s.idem.value.record)
  {
    EveryRunKeepsInv(es);
  }

  /**
   Any two acknowledged results of one key, however far apart, carry the same verdict: never one worker logging
   `sent` and another `failed`. An exhausted verdict is acknowledged only after the dead letter was stored.
   */
  lemma {:induction false} AcknowledgedVerdicts(es: seq<Event>, more: seq<Event>, v: nat, w: nat, rv: Row, rw: Row)
    requires var s := Run(Initial(), es); v in s.workers && s.workers[v].pc == Finished(Ack(Some(rv)))
    requires var t := Run(Initial(), es + more); w in t.workers && t.workers[w].pc == Finished(Ack(Some(rw)))
    ensures rv.status == rw.status
    ensures rv.status.FailedRow? && rv.status.tag.Exhausted? ==>
      exists r | r in Run(Initial(), es).dlq :: r.kind == rv.status.tag.kind
  {
    EveryRunKeepsInv(es);
    EveryRunKeepsInv(es + more);
    var s, t := Run(Initial(), es), Run(Initial(), es + more);
    assert Good(s, s.workers[v]) && Good(t, t.workers[w]);
    SettledForever(es, more);
  }

  lemma {:induction false} RowlessAck(es: seq<Event>, w: nat)
    requires var s := Run(Initial(), es); w in s.workers && s.workers[w].pc == Finished(Ack(None))
    ensures var s := Run(Initial(), es); exists r | r in s.log :: r.messageId == s.workers[w].job.messageId
  {
    EveryRunKeepsInv(es);
    assert Good(Run(Initial(), es), Run(Initial(), es).workers[w]);
  }
}
