/**
 handleOne, command by command, over a store whose keys other workers change between any two commands. Every
 command is one step of SendProtocol, so whatever holds of all its runs holds at every point of this code.
 */
module SendWorker {
  import opened Wrappers
  import opened SendProtocol

  /** The part of a schedule that belongs to workers other than w. */
  function Others(w: nat, es: seq<Event>): seq<Event> {
    if es == [] then []
    else
      var e := es[|es| - 1];
      var rest := Others(w, es[..|es| - 1]);
      if (e.Start? || e.Step? || e.Crash?) && e.w == w then rest else rest + [e]
  }

  lemma {:induction false} OthersLeaveMe(s: World, w: nat, es: seq<Event>)
    ensures var t := Run(s, Others(w, es));
      && (w in t.workers <==> w in s.workers)
      && (w in s.workers ==> t.workers[w] == s.workers[w])
      && s.log <= t.log
      && (forall r | r in s.dlq :: r in t.dlq)
  {
    if es != [] {
      var e := es[|es| - 1];
      var rest := Others(w, es[..|es| - 1]);
      OthersLeaveMe(s, w, es[..|es| - 1]);
      if Others(w, es) != rest {
        assert Others(w, es)[..|rest| + 1 - 1] == rest;
        var t := Run(s, rest);
        if e.Step? && Enabled(t, e) { StepKeepsStores(t, e.w, e.answer); }
      }
    }
  }

  /** While w works under its lease, nobody else moves the key, its counter or its back-off. */
  lemma {:induction false} OthersRespectLease(h: seq<Event>, w: nat, es: seq<Event>)
    requires var s := Run(Initial(), h); w in s.workers && Holding(s.workers[w].pc)
    ensures KeysUntouched(Run(Initial(), h), Run(Run(Initial(), h), Others(w, es)))
  {
    if es != [] {
      var e := es[|es| - 1];
      var rest := Others(w, es[..|es| - 1]);
      OthersRespectLease(h, w, es[..|es| - 1]);
      if Others(w, es) != rest {
        assert Others(w, es)[..|rest| + 1 - 1] == rest;
        RunConcat(Initial(), h, rest);
        EveryRunKeepsInv(h + rest);
        OthersLeaveMe(Run(Initial(), h), w, es[..|es| - 1]);
        OtherRespectsLease(Run(Initial(), h + rest), w, e);
      }
    }
  }

  predicate KeysUntouched(s: World, t: World) {
    t.idem == s.idem && t.attempts == s.attempts && t.retryAt == s.retryAt
  }

  lemma {:induction false} OtherRespectsLease(s: World, w: nat, e: Event)
    requires Inv(s) && w in s.workers && Holding(s.workers[w].pc)
    requires !((e.Start? || e.Step? || e.Crash?) && e.w == w)
    ensures KeysUntouched(s, Apply(s, e))
  {
    hide Shared, Accounted, RowFor, RecordReadable, Advance;
    assert Good(s, s.workers[w]);
    if e.Step? && Enabled(s, e) { StepLeavesOthers(s, e.w, e.answer, w); }
  }

  // ---------------------------------------------------------------- provider calls of one worker

  predicate IsCall(s: World, w: nat, e: Event) {
    e.Step? && e.w == w && w in s.workers && s.workers[w].pc == Sending
  }

  /** How often w called the provider. */
  function CallsOf(w: nat, h: seq<Event>): nat {
    if h == [] then 0
    else CallsOf(w, h[..|h| - 1]) + if IsCall(Run(Initial(), h[..|h| - 1]), w, h[|h| - 1]) then 1 else 0
  }

  lemma {:induction false} OneMoreEvent(w: nat, h: seq<Event>, e: Event)
    ensures CallsOf(w, h + [e]) == CallsOf(w, h) + if IsCall(Run(Initial(), h), w, e) then 1 else 0
  {
    assert (h + [e])[..|h + [e]| - 1] == h;
  }

  lemma {:induction false} OthersCallForThemselves(w: nat, h: seq<Event>, es: seq<Event>)
    ensures CallsOf(w, h + Others(w, es)) == CallsOf(w, h)
  {
    if es == [] {
      assert h + Others(w, es) == h;
    } else {
      var e := es[|es| - 1];
      var rest := Others(w, es[..|es| - 1]);
      OthersCallForThemselves(w, h, es[..|es| - 1]);
      if Others(w, es) != rest {
        assert h + Others(w, es) == (h + rest) + [e];
        OneMoreEvent(w, h + rest, e);
      }
    }
  }

  // ---------------------------------------------------------------- what lasts

  /** The log and the dead-letter store only grow, and an installed record stays. */
  lemma {:induction false} ApplyGrows(s: World, e: Event)
    requires Inv(s)
    ensures s.log <= Apply(s, e).log
    ensures forall r | r in s.dlq :: r in Apply(s, e).dlq
    ensures s.installed.Some? ==> Apply(s, e).installed == s.installed
  {
    if e.Step? && Enabled(s, e) {
      StepKeepsStores(s, e.w, e.answer);
      assert Good(s, s.workers[e.w]);
    }
  }

  lemma {:induction false} InstalledStays(h: seq<Event>, later: seq<Event>)
    requires h <= later && Run(Initial(), h).installed.Some?
    ensures Run(Initial(), later).installed == Run(Initial(), h).installed
    decreases |later|
  {
    if |h| < |later| {
      var n := |later| - 1;
      InstalledStays(h, later[..n]);
      EveryRunKeepsInv(later[..n]);
      ApplyGrows(Run(Initial(), later[..n]), later[n]);
    } else {
      assert h == later;
    }
  }

  /** A key fenced with a record stays fenced with it until that record's own verdict. */
  lemma {:induction false} FenceStays(h: seq<Event>, later: seq<Event>, r: Record)
    requires h <= later && Run(Initial(), h).installed == Some(r)
    ensures var s := Run(Initial(), later);
      s.installed == Some(r) && (s.idem == Some(Pending(r)) || s.idem == Some(Failed(Exhausted(r.kind))))
  {
    InstalledStays(h, later);
    EveryRunKeepsInv(later);
  }

  // ---------------------------------------------------------------- the code

  function Slot(env: seq<seq<Event>>, k: nat): seq<Event> {
    if k < |env| then env[k] else []
  }

  lemma {:induction false} StepKeepsStores(s: World, w: nat, a: Answer)
    requires w in s.workers
    ensures Advance(s, w, a).log == s.log
    ensures forall r | r in s.dlq :: r in Advance(s, w, a).dlq
  {
  }

  /** Worker w's next command. */
  function Moved(hs: map<nat, Handler>, w: nat, pc: Pc): map<nat, Handler>
    requires w in hs
  {
    hs[w := hs[w].(pc := pc)]
  }

  /** Where handleOne goes after reading the marker of a key it did not win. */
  function AfterMarker(val: Option<Marker>, messageId: string): Pc {
    match val
    case Some(Pending(r)) => if RecordReadable(r) then Persisting(r) else Finished(Retry)
    case Some(Sent(p)) => CheckLog(Row(messageId, SentRow(p)))
    case Some(Failed(t)) => CheckLog(Row(messageId, FailedRow(t)))
    case _ => Finished(Retry)
  }

  function AfterResolve(reply: ResolveReply): Pc {
    match reply
    case ResolveError => CountAttempt(Retryable, 0, false)
    case NotFound => WriteFailed(CredentialMissing, false)
    case Found => Sending
  }

  function AfterProvider(reply: SendReply): Pc {
    match reply
    case Delivered(p) => WriteSent(p)
    case Refused(c, after) => if Transient(c) then CountAttempt(c, after, true) else WriteFailed(Direct(c), true)
  }

  function ExhaustedRow(r: Record): Row { Row(r.messageId, FailedRow(Exhausted(r.kind))) }

  /** What a dead letter of h says, apart from its fresh id. */
  predicate RecordOf(r: Record, h: Handler, kind: FailureClass, attempts: nat) {
    r == Record(r.failureId, h.job.messageId, kind, attempts, h.now)
  }


  class KeyStore {
    // the Redis keys of one tenant and idempotency key
    var idem: Option<Marker>
    var attempts: nat
    var retryAt: Option<int>
    // the message log and the dead-letter store
    var log: set<Row>
    var dlq: seq<Record>
    // every worker's place in handleOne, and the ids drawn so far
    var handlers: map<nat, Handler>
    var nextId: nat
    // what happened so far
    var persistCalls: seq<Record>
    var installed: Option<Record>
    var sends: nat
    var lost: nat
    var commits: nat
    ghost var history: seq<Event>

    function View(): World
      reads this
    {
      World(idem, attempts, retryAt, log, dlq, handlers, nextId, persistCalls, installed, sends, lost, commits)
    }

    ghost predicate Valid()
      reads this
    {
      View() == Run(Initial(), history)
    }

    ghost predicate Standing(w: nat, pc: Pc)
      reads this
    {
      Valid() && w in handlers && handlers[w].pc == pc
    }

    constructor ()
      ensures Valid() && history == []
    {
      idem, attempts, retryAt := None, 0, None;
      log, dlq, handlers, nextId := {}, [], map[], 0;
      persistCalls, installed, sends, lost, commits, history := [], None, 0, 0, 0, [];
    }

    /** The other workers run for a while. */
    method Interleave(w: nat, es: seq<Event>)
      requires Valid()
      modifies this
      ensures Valid() && old(history) <= history
      ensures w in handlers <==> w in old(handlers)
      ensures w in handlers ==> handlers[w] == old(handlers)[w]
      ensures w in handlers && Holding(handlers[w].pc) ==>
        idem == old(idem) && attempts == old(attempts) && retryAt == old(retryAt)
      ensures Terminal(old(View())) ==> idem == old(idem)
      ensures CallsOf(w, history) == CallsOf(w, old(history))
    {
      hide Holding, CallsOf, Others;
      var t := Run(View(), Others(w, es));
      if w in handlers && Holding(handlers[w].pc) { OthersRespectLease(history, w, es); }
      if Settled(View()) { SettledForever(history, Others(w, es)); }
      OthersCallForThemselves(w, history, es);
      OthersLeaveMe(View(), w, es);
      RunConcat(Initial(), history, Others(w, es));
      Adopt(t);
      history := history + Others(w, es);
    }

    /** Bookkeeping: the store as the world t has it. */
    method Adopt(t: World)
      modifies this
      ensures View() == t && history == old(history)
    {
      idem, attempts, retryAt := t.idem, t.attempts, t.retryAt;
      log, dlq, handlers, nextId := t.log, t.dlq, t.workers, t.nextId;
      persistCalls, installed, sends, lost, commits := t.persistCalls, t.installed, t.sends, t.lost, t.commits;
    }

    /** One command of w happened, and w now stands at pc. */
    ghost predicate Went(h: seq<Event>, hs: map<nat, Handler>, w: nat, a: Answer, pc: Pc)
      reads this
    {
      && w in hs && history == h + [Step(w, a)] && handlers == Moved(hs, w, pc)
      && CallsOf(w, history) == CallsOf(w, h) + if hs[w].pc == Sending then 1 else 0
    }

    /** Closes a command: the history grows by the step just taken. */
    ghost method Note(before: World, e: Event)
      requires before == Run(Initial(), history) && View() == Apply(before, e)
      modifies this`history
      ensures Valid() && history == old(history) + [e]
      ensures forall w :: CallsOf(w, history) == CallsOf(w, old(history)) + if IsCall(before, w, e) then 1 else 0
    {
      RunStep(Initial(), history, e);
      forall w ensures CallsOf(w, history + [e]) == CallsOf(w, history) + if IsCall(before, w, e) then 1 else 0 {
        OneMoreEvent(w, history, e);
      }
      history := history + [e];
    }

    method Begin(w: nat, job: Job, now: int)
      requires Valid() && job.messageId != "" && (w in handlers ==> handlers[w].pc.Finished?)
      modifies this
      ensures Standing(w, CheckBackoff) && handlers[w] == Handler(job, now, old(nextId), CheckBackoff)
      ensures old(history) <= history && log == old(log) && dlq == old(dlq)
      ensures CallsOf(w, history) == CallsOf(w, old(history))
    {
      hide Run, CallsOf;
      ghost var before := View();
      handlers := handlers[w := Handler(job, now, nextId, CheckBackoff)];
      nextId := nextId + 1;
      Note(before, Start(w, job, now));
    }

    /** GET of the back-off key. */
    method GetRetryAt(w: nat, a: Answer) returns (ts: Option<int>)
      requires Standing(w, CheckBackoff)
      modifies this
      ensures Valid() && ts == old(retryAt)
      ensures Went(old(history), old(handlers), w, a,
                   if ts.Some? && old(handlers)[w].now < ts.value then Finished(Retry) else Acquire)
    {
      hide Run, CallsOf;
      ghost var before := View();
      ts := retryAt;
      handlers := Moved(handlers, w, if ts.Some? && handlers[w].now < ts.value then Finished(Retry) else Acquire);
      Note(before, Step(w, a));
    }

    /** SET NX of the lease. */
    method SetNX(w: nat, a: Answer) returns (acquired: bool)
      requires Standing(w, Acquire)
      modifies this
      ensures Valid() && acquired == old(idem).None? && attempts == old(attempts)
      ensures Went(old(history), old(handlers), w, a, if acquired then ReadAttempts else ReadMarker)
    {
      hide Run, CallsOf;
      ghost var before := View();
      acquired := idem.None?;
      if acquired { idem := Some(Lease(handlers[w].token)); }
      handlers := Moved(handlers, w, if acquired then ReadAttempts else ReadMarker);
      Note(before, Step(w, a));
    }

    /** GET of the marker. */
    method GetMarker(w: nat, a: Answer) returns (val: Option<Marker>)
      requires Standing(w, ReadMarker)
      modifies this
      ensures Valid() && val == old(idem)
      ensures Went(old(history), old(handlers), w, a, AfterMarker(val, old(handlers)[w].job.messageId))
    {
      hide Run, CallsOf;
      ghost var before := View();
      val := idem;
      handlers := Moved(handlers, w, AfterMarker(val, handlers[w].job.messageId));
      Note(before, Step(w, a));
    }

    /** alreadyLogged: a failing query counts as "no row". */
    method AlreadyLogged(w: nat, row: Row, a: Answer) returns (logged: bool)
      requires Standing(w, CheckLog(row))
      modifies this
      ensures Valid() && Went(old(history), old(handlers), w, a, Finished(Ack(if logged then None else Some(row))))
      ensures logged <==> a.logReadable && Logged(old(log), row)
      ensures log == old(log) && dlq == old(dlq)
    {
      hide Run, CallsOf;
      ghost var before := View();
      logged := a.logReadable && Logged(log, row);
      handlers := Moved(handlers, w, Finished(Ack(if logged then None else Some(row))));
      Note(before, Step(w, a));
    }

    /** GET of the attempt counter. */
    method GetAttempts(w: nat, a: Answer) returns (n: nat, r: Record)
      requires Standing(w, ReadAttempts)
      modifies this
      ensures Valid() && n == attempts == old(attempts) && idem == old(idem) && retryAt == old(retryAt)
      ensures RecordOf(r, old(handlers)[w], Retryable, n)
      ensures Went(old(history), old(handlers), w, a, if n >= MAX_SEND_ATTEMPTS then InstallPending(r) else Resolving)
    {
      hide Run, CallsOf;
      ghost var before := View();
      n := attempts;
      r := NewRecord(View(), handlers[w], Retryable, n);
      if n >= MAX_SEND_ATTEMPTS {
        nextId := nextId + 1;
        handlers := Moved(handlers, w, InstallPending(r));
      } else {
        handlers := Moved(handlers, w, Resolving);
      }
      Note(before, Step(w, a));
    }

    method ResolveCredentials(w: nat, a: Answer) returns (reply: ResolveReply)
      requires Standing(w, Resolving)
      modifies this
      ensures Valid() && reply == a.resolve && idem == old(idem) && attempts == old(attempts) && retryAt == old(retryAt)
      ensures Went(old(history), old(handlers), w, a, AfterResolve(reply))
    {
      hide Run, CallsOf;
      ghost var before := View();
      reply := a.resolve;
      handlers := Moved(handlers, w, AfterResolve(reply));
      Note(before, Step(w, a));
    }

    /** The provider call. */
    method Send(w: nat, a: Answer) returns (reply: SendReply)
      requires Standing(w, Sending)
      modifies this
      ensures Valid() && reply == a.send && sends == old(sends) + 1
      ensures Went(old(history), old(handlers), w, a, AfterProvider(reply))
    {
      hide Run, CallsOf;
      ghost var before := View();
      reply := a.send;
      sends := sends + 1;
      handlers := Moved(handlers, w, AfterProvider(reply));
      Note(before, Step(w, a));
    }

    /** SET of a terminal marker. */
    method SetTerminal(w: nat, m: Marker, row: Row, a: Answer)
      requires Valid() && w in handlers
      requires match handlers[w].pc
               case WriteSent(p) => m == Sent(p) && row == Row(handlers[w].job.messageId, SentRow(p))
               case WriteFailed(t, _) => m == Failed(t) && row == Row(handlers[w].job.messageId, FailedRow(t))
               case _ => false
      modifies this
      ensures Standing(w, ClearCounters(row)) && idem == Some(m)
      ensures Went(old(history), old(handlers), w, a, ClearCounters(row))
    {
      hide Run, CallsOf;
      ghost var before := View();
      idem := Some(m);
      handlers := Moved(handlers, w, ClearCounters(row));
      Note(before, Step(w, a));
    }

    /** DEL of the attempt counter and the back-off key. */
    method DelCounters(w: nat, row: Row, a: Answer)
      requires Standing(w, ClearCounters(row))
      modifies this
      ensures Valid() && idem == old(idem) && attempts == 0 && retryAt == None
      ensures Went(old(history), old(handlers), w, a, Finished(Ack(Some(row))))
    {
      hide Run, CallsOf;
      ghost var before := View();
      attempts, retryAt := 0, None;
      handlers := Moved(handlers, w, Finished(Ack(Some(row))));
      Note(before, Step(w, a));
    }

    /** INCR of the attempt counter. */
    method Incr(w: nat, c: FailureClass, after: int, sent: bool, a: Answer) returns (n: nat, r: Record)
      requires Standing(w, CountAttempt(c, after, sent))
      modifies this
      ensures Valid() && n == attempts == old(attempts) + 1 && idem == old(idem)
      ensures RecordOf(r, old(handlers)[w], c, n)
      ensures Went(old(history), old(handlers), w, a,
                   if n >= MAX_SEND_ATTEMPTS then InstallPending(r)
                   else WriteRetryAt(old(handlers)[w].now + if after <= 0 then Backoff(n) else after))
    {
      hide Run, CallsOf;
      ghost var before := View();
      n := attempts + 1;
      r := NewRecord(View(), handlers[w], c, n);
      if n >= MAX_SEND_ATTEMPTS {
        nextId := nextId + 1;
        handlers := Moved(handlers, w, InstallPending(r));
      } else {
        handlers := Moved(handlers, w, WriteRetryAt(handlers[w].now + if after <= 0 then Backoff(n) else after));
      }
      attempts := n;
      Note(before, Step(w, a));
    }

    /** SET of the back-off key. */
    method SetRetryAt(w: nat, at: int, a: Answer)
      requires Standing(w, WriteRetryAt(at))
      modifies this
      ensures Valid() && retryAt == Some(at) && attempts == old(attempts)
      ensures Went(old(history), old(handlers), w, a, DropLease)
    {
      hide Run, CallsOf;
      ghost var before := View();
      retryAt := Some(at);
      handlers := Moved(handlers, w, DropLease);
      Note(before, Step(w, a));
    }

    /** DEL of the lease. */
    method DelLease(w: nat, a: Answer)
      requires Standing(w, DropLease)
      modifies this
      ensures Valid() && idem == None && attempts == old(attempts) && retryAt == old(retryAt)
      ensures Went(old(history), old(handlers), w, a, Finished(Retry))
    {
      hide Run, CallsOf;
      ghost var before := View();
      idem := None;
      handlers := Moved(handlers, w, Finished(Retry));
      Note(before, Step(w, a));
    }

    /** The compare-and-set from this handler's lease to a pending marker. */
    method MarkPending(w: nat, r: Record, a: Answer) returns (ok: bool)
      requires Standing(w, InstallPending(r))
      modifies this
      ensures Valid() && ok == (old(idem) == Some(Lease(old(handlers)[w].token)))
      ensures if ok then idem == Some(Pending(r)) && installed == Some(r) else idem == old(idem)
      ensures Went(old(history), old(handlers), w, a, if ok
        && RecordReadable(r) then Persisting(r) else Finished(Retry))
    {
      hide Run, CallsOf;
      ghost var before := View();
      ok := idem == Some(Lease(handlers[w].token));
      if ok {
        idem, installed := Some(Pending(r)), Some(r);
        handlers := Moved(handlers, w, if RecordReadable(r) then Persisting(r) else Finished(Retry));
      } else {
        handlers := Moved(handlers, w, Finished(Retry));
      }
      Note(before, Step(w, a));
    }

    /** The handler's DLQ call. */
    method Persist(w: nat, r: Record, a: Answer) returns (ok: bool)
      requires Standing(w, Persisting(r))
      modifies this
      ensures Valid() && ok == a.stored && idem == old(idem)
      ensures dlq == if ok then old(dlq) + [r] else old(dlq)
      ensures Went(old(history), old(handlers), w, a, if ok then Committing(r) else Finished(Retry))
    {
      hide Run, CallsOf;
      ghost var before := View();
      ok := a.stored;
      persistCalls := persistCalls + [r];
      if ok {
        dlq := dlq + [r];
        handlers := Moved(handlers, w, Committing(r));
      } else {
        handlers := Moved(handlers, w, Finished(Retry));
      }
      Note(before, Step(w, a));
    }

    /** The compare-and-set from the pending marker to the terminal one, clearing both counters. */
    method CommitDLQ(w: nat, r: Record, a: Answer) returns (ok: bool)
      requires Standing(w, Committing(r))
      modifies this
      ensures Valid() && ok == (old(idem) == Some(Pending(r)))
      ensures if ok then idem == Some(Failed(Exhausted(r.kind))) && attempts == 0 && retryAt == None
              else idem == old(idem) && attempts == old(attempts) && retryAt == old(retryAt)
      ensures Went(old(history), old(handlers), w, a, if ok then Finished(Ack(Some(ExhaustedRow(r))))
        else Finished(Retry))
    {
      hide Run, Apply, CallsOf;
      ghost var before := View();
      ok := idem == Some(Pending(r));
      var row := ExhaustedRow(r);
      CommitIs(before, w, r, a);
      if ok {
        idem := Some(Failed(Exhausted(r.kind)));
        attempts, retryAt, commits := 0, None, commits + 1;
      }
      handlers := Moved(handlers, w, if ok then Finished(Ack(Some(row))) else Finished(Retry));
      Note(before, Step(w, a));
    }

    /** The handler of w returned: its place records what it returned. */
    ghost predicate Returned(w: nat, row: Option<Row>, retry: bool)
      reads this
    {
      && Valid() && w in handlers
      && handlers[w].pc == Finished(if retry then Retry else Ack(row))
      && (retry ==> row == None)
    }

    /** The key is fenced with r: pending still, or settled with r's verdict. */
    ghost predicate FencedWith(r: Record)
      reads this
    {
      installed == Some(r) && (idem == Some(Pending(r)) || idem == Some(Failed(Exhausted(r.kind))))
    }

    /** The key is fenced with a dead letter of h's message, of this class and after this many attempts. */
    ghost predicate DeadLettered(h: Handler, kind: FailureClass, n: nat)
      reads this
    {
      installed.Some? && RecordOf(installed.value, h, kind, n) && FencedWith(installed.value)
    }

    /** A worker between winning the lease and giving it up holds it. */
    lemma OwnLease(w: nat)
      requires Valid() && w in handlers && Holding(handlers[w].pc)
      ensures idem == Some(Lease(handlers[w].token))
    {
      EveryRunKeepsInv(history);
      assert Good(View(), handlers[w]);
    }

    /** What is acknowledged is the verdict under the key. */
    lemma AcknowledgedHere(w: nat, row: Option<Row>)
      requires Valid() && w in handlers && handlers[w].pc == Finished(Ack(row))
      ensures Terminal(View()) && (row.Some? ==> Agrees(View(), row.value))
    {
      EveryRunKeepsInv(history);
      assert Good(View(), handlers[w]);
    }

    /** resumeDLQ / finishDLQ: check the record, persist it, then commit. */
    method ResumeDLQ(w: nat, r: Record, a: Answer, env: seq<seq<Event>>) returns (row: Option<Row>, retry: bool)
      requires Valid() && w in handlers
      requires handlers[w].pc == (if RecordReadable(r) then Persisting(r) else Finished(Retry))
      modifies this
      ensures Returned(w, row, retry) && old(history) <= history && handlers[w].job == old(handlers)[w].job
      ensures CallsOf(w, history) == CallsOf(w, old(history))
      ensures !retry ==> row == Some(ExhaustedRow(r)) && idem == Some(Failed(Exhausted(r.kind)))
    {
      hide CallsOf, RecordReadable, Run, View, Valid, Holding;
      row, retry := None, true;
      if !RecordReadable(r) { return; }
      Interleave(w, Slot(env, 0));
      var stored := Persist(w, r, a);
      if !stored { return; }
      Interleave(w, Slot(env, 1));
      var committed := CommitDLQ(w, r, a);
      if !committed { return; }
      row, retry := Some(ExhaustedRow(r)), false;
    }

    /** startDLQ / beginDLQ: fence the key with a pending marker, then resume it. A lease that is held is replaced. */
    method StartDLQ(w: nat, r: Record, a: Answer, env: seq<seq<Event>>) returns (row: Option<Row>, retry: bool)
      requires Standing(w, InstallPending(r))
      modifies this
      ensures Returned(w, row, retry) && old(history) <= history && handlers[w].job == old(handlers)[w].job
      ensures CallsOf(w, history) == CallsOf(w, old(history))
      ensures old(idem) == Some(Lease(old(handlers)[w].token)) ==> FencedWith(r)
      ensures !retry ==> row == Some(ExhaustedRow(r))
    {
      hide Run, CallsOf, RecordReadable;
      Interleave(w, Slot(env, 2));
      var marked := MarkPending(w, r, a);
      if !marked { return None, true; }
      ghost var h := history;
      row, retry := ResumeDLQ(w, r, a, env);
      FenceStays(h, history, r);
    }

    /** retryFail: count the attempt, then back off and drop the lease, or start the dead letter. */
    method RetryFail(w: nat, c: FailureClass, after: int, sent: bool, a: Answer, env: seq<seq<Event>>)
      returns (row: Option<Row>, retry: bool)
      requires Standing(w, CountAttempt(c, after, sent))
      modifies this
      ensures Returned(w, row, retry) && old(history) <= history && handlers[w].job == old(handlers)[w].job
      ensures CallsOf(w, history) == CallsOf(w, old(history))
      ensures var n := old(attempts) + 1; var h := old(handlers)[w];
        if n < MAX_SEND_ATTEMPTS then
          retry && idem == None && attempts == n && retryAt == Some(h.now + if after <= 0 then Backoff(n) else after)
        else DeadLettered(h, c, n)
    {
      hide Run, View, Valid, CallsOf, Backoff;
      Interleave(w, Slot(env, 3));
      var now := handlers[w].now;
      var n, r := Incr(w, c, after, sent, a);
      if n >= MAX_SEND_ATTEMPTS {
        OwnLease(w);
        row, retry := StartDLQ(w, r, a, env);
        assert DeadLettered(old(handlers)[w], c, n);
        return;
      }
      var delay := after;
      if delay <= 0 { delay := Backoff(n); }
      BackOff(w, now + delay, a, env);
      return None, true;
    }

    /** Publish when to come back, then give the lease up. */
    method BackOff(w: nat, at: int, a: Answer, env: seq<seq<Event>>)
      requires Standing(w, WriteRetryAt(at))
      modifies this
      ensures Returned(w, None, true) && old(history) <= history && handlers[w].job == old(handlers)[w].job
      ensures CallsOf(w, history) == CallsOf(w, old(history))
      ensures idem == None && attempts == old(attempts) && retryAt == Some(at)
    {
      hide Run, View, Valid, CallsOf;
      Interleave(w, Slot(env, 4));
      SetRetryAt(w, at, a);
      Interleave(w, Slot(env, 5));
      DelLease(w, a);
    }

    /** Commit a terminal marker and clear the counters (the success path and commitFailed). */
    method Settle(w: nat, m: Marker, settled: Row, a: Answer, env: seq<seq<Event>>)
        returns (row: Option<Row>, retry: bool)
      requires Valid() && w in handlers
      requires match handlers[w].pc
               case WriteSent(p) => m == Sent(p) && settled == Row(handlers[w].job.messageId, SentRow(p))
               case WriteFailed(t, _) => m == Failed(t) && settled == Row(handlers[w].job.messageId, FailedRow(t))
               case _ => false
      modifies this
      ensures Returned(w, row, retry) && old(history) <= history && handlers[w].job == old(handlers)[w].job
      ensures CallsOf(w, history) == CallsOf(w, old(history))
      ensures !retry && row == Some(settled)
      ensures idem == Some(m) && attempts == 0 && retryAt == None
    {
      hide Run, Valid, CallsOf, Holding;
      Interleave(w, Slot(env, 6));
      SetTerminal(w, m, settled, a);
      Interleave(w, Slot(env, 7));
      DelCounters(w, settled, a);
      return Some(settled), false;
    }

    /**
     The path of a handler that did not win the lease: report what the key already says. It never calls the
     provider, and what it acknowledges is the verdict under the key.
     */
    method Duplicate(w: nat, a: Answer, env: seq<seq<Event>>) returns (row: Option<Row>, retry: bool)
      requires Standing(w, ReadMarker)
      modifies this
      ensures Returned(w, row, retry) && old(history) <= history && handlers[w].job == old(handlers)[w].job
      ensures CallsOf(w, history) == CallsOf(w, old(history))
      ensures !retry ==> Terminal(View()) && (row.Some? ==> Agrees(View(), row.value))
    {
      hide Run, View, Valid, CallsOf, RecordReadable, Holding, Terminal, Agrees;
      Interleave(w, Slot(env, 8));
      var messageId := handlers[w].job.messageId;
      var val := GetMarker(w, a);
      row, retry := None, true;
      match val {
        case Some(Pending(r)) =>
          row, retry := ResumeDLQ(w, r, a, env);
        case Some(Sent(p)) =>
          row, retry := Relog(w, Row(messageId, SentRow(p)), a, env);
        case Some(Failed(t)) =>
          row, retry := Relog(w, Row(messageId, FailedRow(t)), a, env);
        case Some(Lease(_)) =>
        case None =>
      }
      if !retry { AcknowledgedHere(w, row); }
    }

    /** Write the row again unless it is already there. */
    method Relog(w: nat, settled: Row, a: Answer, env: seq<seq<Event>>) returns (row: Option<Row>, retry: bool)
      requires Standing(w, CheckLog(settled))
      modifies this
      ensures Returned(w, row, retry) && old(history) <= history && handlers[w].job == old(handlers)[w].job
      ensures CallsOf(w, history) == CallsOf(w, old(history))
      ensures !retry && row == if a.logReadable && Logged(log, settled) then None else Some(settled)
    {
      hide Run, View, Valid, CallsOf, Holding, Logged;
      Interleave(w, Slot(env, 9));
      var logged := AlreadyLogged(w, settled, a);
      return if logged then None else Some(settled), false;
    }

    /** The provider call and what its answer leads to. */
    method Call(w: nat, job: Job, a: Answer, env: seq<seq<Event>>) returns (row: Option<Row>, retry: bool)
      requires Standing(w, Sending) && handlers[w].job == job
      modifies this
      ensures Returned(w, row, retry) && handlers[w].job == job && old(history) <= history
      ensures CallsOf(w, history) == CallsOf(w, old(history)) + 1
      ensures a.send.Delivered? ==> !retry && idem == Some(Sent(a.send.provider))
    {
      hide Run, View, Valid, CallsOf, Holding, DeadLettered, Transient;
      Interleave(w, Slot(env, 14));
      var reply := Send(w, a);
      match reply
      case Delivered(p) =>
        row, retry := Settle(w, Sent(p), Row(job.messageId, SentRow(p)), a, env);
      case Refused(c, after) =>
        if Transient(c) {
          row, retry := RetryFail(w, c, after, true, a, env);
        } else {
          row, retry := Settle(w, Failed(Direct(c)), Row(job.messageId, FailedRow(Direct(c))), a, env);
        }
    }

    /** With budget left: the credentials, then the call. */
    method Proceed(w: nat, job: Job, a: Answer, env: seq<seq<Event>>) returns (row: Option<Row>, retry: bool)
      requires Standing(w, Resolving) && handlers[w].job == job
      modifies this
      ensures Returned(w, row, retry) && handlers[w].job == job && old(history) <= history
      ensures CallsOf(w, history) == CallsOf(w, old(history)) + if a.resolve.Found? then 1 else 0
      ensures a.resolve.NotFound? ==> !retry && idem == Some(Failed(CredentialMissing))
    {
      hide Run, View, Valid, CallsOf, Slot, Holding, DeadLettered;
      Interleave(w, Slot(env, 13));
      var resolved := ResolveCredentials(w, a);
      if resolved.ResolveError? {
        row, retry := RetryFail(w, Retryable, 0, false, a, env);
        return;
      }
      if resolved.NotFound? {
        row, retry := Settle(w, Failed(CredentialMissing), Row(job.messageId, FailedRow(CredentialMissing)), a, env);
        return;
      }
      row, retry := Call(w, job, a, env);
    }

    /**
     From winning the lease to returning. The provider is called once exactly when the budget is not exhausted
     and the credentials are there; an exhausted budget is dead-lettered.
     */
    method Attempt(w: nat, job: Job, a: Answer, env: seq<seq<Event>>) returns (row: Option<Row>, retry: bool)
      requires Standing(w, ReadAttempts) && handlers[w].job == job
      modifies this
      ensures Returned(w, row, retry) && handlers[w].job == job && old(history) <= history
      ensures CallsOf(w, history) == CallsOf(w, old(history))
                                     + if old(attempts) < MAX_SEND_ATTEMPTS && a.resolve.Found? then 1 else 0
      ensures old(attempts) >= MAX_SEND_ATTEMPTS ==> DeadLettered(old(handlers)[w], Retryable, old(attempts))
    {
      hide Run, View, Valid, CallsOf, Slot, Apply, Advance, RecordReadable;
      Interleave(w, Slot(env, 12));
      var prior, exhausted := GetAttempts(w, a);
      if prior >= MAX_SEND_ATTEMPTS {
        OwnLease(w);
        row, retry := StartDLQ(w, exhausted, a, env);
        assert DeadLettered(old(handlers)[w], Retryable, prior);
        return;
      }
      row, retry := Proceed(w, job, a, env);
    }

    /**
     handleOne. `a` answers every outside call it makes, `env` is what other workers do before each of its
     commands. Everything it does to the store is a run of the protocol, it ends having returned, and it calls
     the provider at most once.
     */
    method HandleOne(w: nat, parsed: Option<Job>, now: int, a: Answer, env: seq<seq<Event>>)
      returns (row: Option<Row>, retry: bool)
      requires Valid() && (w in handlers ==> handlers[w].pc.Finished?)
      requires parsed.Some? ==> parsed.value.messageId != ""
      modifies this
      ensures Valid() && old(history) <= history
      ensures parsed.None? ==> row == None && !retry && history == old(history) && View() == old(View())
      ensures parsed.Some? ==> Returned(w, row, retry) && handlers[w].job == parsed.value
      ensures CallsOf(w, history) <= CallsOf(w, old(history)) + 1
    {
      hide Run, View, Valid, CallsOf, Slot, Apply, Advance, RecordReadable;
      if parsed.None? { return None, false; }
      Begin(w, parsed.value, now);
      row, retry := Work(w, parsed.value, now, a, env);
    }

    /** handleOne after parsing: wait out a back-off, then try for the lease. */
    method Work(w: nat, job: Job, now: int, a: Answer, env: seq<seq<Event>>) returns (row: Option<Row>, retry: bool)
      requires Standing(w, CheckBackoff) && handlers[w].job == job && handlers[w].now == now
      modifies this
      ensures Returned(w, row, retry) && handlers[w].job == job && old(history) <= history
      ensures CallsOf(w, history) <= CallsOf(w, old(history)) + 1
    {
      hide Run, View, Valid, CallsOf, Slot, Apply, Advance, RecordReadable, Holding,
        DeadLettered, Terminal, Agrees;
      Interleave(w, Slot(env, 10));
      var ts := GetRetryAt(w, a);
      if ts.Some? && now < ts.value { return None, true; }
      Interleave(w, Slot(env, 11));
      var acquired := SetNX(w, a);
      if !acquired {
        row, retry := Duplicate(w, a, env);
        return;
      }
      row, retry := Attempt(w, job, a, env);
    }

    /** The batch's insert into message_log. */
    method Flush(rows: set<Row>)
      requires Valid()
      modifies this
      ensures Valid() && history == old(history) + [Event.Flush(rows)] && log == old(log) + rows
      ensures handlers == old(handlers)
    {
      hide Run, CallsOf;
      ghost var before := View();
      log := log + rows;
      Note(before, Event.Flush(rows));
    }
  }

  /** The committing step, as one update of the world. */
  lemma {:induction false} CommitIs(s: World, w: nat, r: Record, a: Answer)
    requires w in s.workers && s.workers[w].pc == Committing(r)
    ensures Apply(s, Step(w, a)) ==
      if s.idem == Some(Pending(r)) then
        s.(idem := Some(Failed(Exhausted(r.kind))), attempts := 0, retryAt := None, commits := s.commits + 1,
           workers := Moved(s.workers, w, Finished(Ack(Some(Row(r.messageId, FailedRow(Exhausted(r.kind))))))))
      else s.(workers := Moved(s.workers, w, Finished(Retry)))
  {
    hide EntryStep, CallStep, WriteStep;
  }
}
