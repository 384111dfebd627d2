/**
 What handleOne amounts to when nobody interferes: a table from the keys it finds to the keys and the
 outcome it leaves. The step-by-step protocol, run by one worker to its end, is proved to equal it.
 */
module SendSolo {
  import opened Wrappers
  import opened SendProtocol

  datatype Keys = Keys(idem: Option<Marker>, attempts: nat, retryAt: Option<int>)

  /** `calls` provider calls were made; `records` is what was offered to the dead-letter store. */
  datatype Result = Result(keys: Keys, outcome: Outcome, calls: nat, records: seq<Record>)

  function KeysOf(s: World): Keys { Keys(s.idem, s.attempts, s.retryAt) }

  /** A terminal verdict clears the counters. */
  function Verdict(m: Marker, row: Row, calls: nat, records: seq<Record>): Result {
    Result(Keys(Some(m), 0, None), Ack(Some(row)), calls, records)
  }

  /** The record is fenced in; if it cannot be stored the fence stays and the message is retried. */
  function DeadLetter(k: Keys, r: Record, stored: bool, calls: nat): Result {
    if stored then Verdict(Failed(Exhausted(r.kind)), Row(r.messageId, FailedRow(Exhausted(r.kind))), calls, [r])
    else Result(k.(idem := Some(Pending(r))), Retry, calls, [r])
  }

  /** One more counted failure: the last one is dead-lettered, the others wait. */
  function Failing(k: Keys, id: nat, job: Job, now: int, kind: FailureClass, after: int, stored: bool,
      calls: nat): Result {
    var n := k.attempts + 1;
    if n >= MAX_SEND_ATTEMPTS then
      DeadLetter(k.(attempts := n), Record(id, job.messageId, kind, n, now), stored, calls)
    else
      Result(Keys(None, n, Some(now + if after > 0 then after else Backoff(n))), Retry, calls, [])
  }

  /** The verdict is known: write the row again unless the log has it. */
  function Repeat(k: Keys, row: Row, logged: bool): Result {
    Result(k, Ack(if logged then None else Some(row)), 0, [])
  }

  function Alone(k: Keys, id: nat, job: Job, now: int, log: set<Row>, a: Answer): Result {
    if k.retryAt.Some? && now < k.retryAt.value then Result(k, Retry, 0, [])
    else match k.idem
      case Some(Lease(_)) => Result(k, Retry, 0, [])
      case Some(Sent(p)) =>
        var row := Row(job.messageId, SentRow(p)); Repeat(k, row, a.logReadable && Logged(log, row))
      case Some(Failed(t)) =>
        var row := Row(job.messageId, FailedRow(t)); Repeat(k, row, a.logReadable && Logged(log, row))
      case Some(Pending(r)) => DeadLetter(k, r, a.stored, 0)
      case None =>
        if k.attempts >= MAX_SEND_ATTEMPTS then
          DeadLetter(k, Record(id, job.messageId, Retryable, k.attempts, now), a.stored, 0)
        else match a.resolve
          case ResolveError => Failing(k, id, job, now, Retryable, 0, a.stored, 0)
          case NotFound => Verdict(Failed(CredentialMissing), Row(job.messageId, FailedRow(CredentialMissing)), 0, [])
          case Found =>
            match a.send
            case Delivered(p) => Verdict(Sent(p), Row(job.messageId, SentRow(p)), 1, [])
            case Refused(c, after) =>
              if Transient(c) then Failing(k, id, job, now, c, after, a.stored, 1)
              else Verdict(Failed(Direct(c)), Row(job.messageId, FailedRow(Direct(c))), 1, [])
  }

  /** How many commands a handler still has to issue, at most. */
  function Rank(pc: Pc): nat {
    match pc
    case CheckBackoff => 11
    case Acquire => 10
    case ReadMarker => 9
    case ReadAttempts => 8
    case Resolving => 7
    case Sending => 6
    case WriteSent(_) => 5
    case WriteFailed(_, _) => 5
    case CountAttempt(_, _, _) => 5
    case InstallPending(_) => 4
    case Persisting(_) => 3
    case WriteRetryAt(_) => 3
    case Committing(_) => 2
    case DropLease => 2
    case ClearCounters(_) => 2
    case CheckLog(_) => 2
    case Finished(_) => 0
  }

  lemma {:induction false} EveryCommandProgresses(s: World, w: nat, a: Answer)
    requires w in s.workers && !s.workers[w].pc.Finished?
    ensures Rank(Advance(s, w, a).workers[w].pc) < Rank(s.workers[w].pc)
  {
  }

  /** Worker w runs to its end, undisturbed. */
  function Solo(s: World, w: nat, a: Answer): (t: World)
    requires w in s.workers
    ensures w in t.workers && t.workers[w].pc.Finished?
    decreases Rank(s.workers[w].pc)
  {
    if s.workers[w].pc.Finished? then s
    else
      EveryCommandProgresses(s, w, a);
      Solo(Advance(s, w, a), w, a)
  }

  /** The end of a solo run, as a result relative to the world it began in. */
  predicate Ends(s: World, t: World, w: nat, r: Result) {
    && w in t.workers && t.workers[w].pc == Finished(r.outcome)
    && KeysOf(t) == r.keys
    && t.sends == s.sends + r.calls
    && t.persistCalls == s.persistCalls + r.records
  }

  lemma {:induction false} SoloPersists(s: World, w: nat, a: Answer, r: Record)
    requires w in s.workers && s.workers[w].pc == Persisting(r) && s.idem == Some(Pending(r))
    ensures Ends(s, Solo(s, w, a), w, DeadLetter(KeysOf(s), r, a.stored, 0))
  {
    var t := Advance(s, w, a);
    if a.stored {
      var u := Advance(t, w, a);
      assert Solo(t, w, a) == Solo(u, w, a) == u;
    }
  }

  lemma {:induction false} SoloInstalls(s: World, w: nat, a: Answer, r: Record)
    requires w in s.workers && s.workers[w].pc == InstallPending(r) && Mine(s, s.workers[w]) && RecordReadable(r)
    ensures Ends(s, Solo(s, w, a), w, DeadLetter(KeysOf(s), r, a.stored, 0))
  {
    SoloPersists(Advance(s, w, a), w, a, r);
  }

  lemma {:induction false} SoloBacksOff(s: World, w: nat, a: Answer, at: int)
    requires w in s.workers && s.workers[w].pc == WriteRetryAt(at)
    ensures Ends(s, Solo(s, w, a), w, Result(Keys(None, s.attempts, Some(at)), Retry, 0, []))
  {
    var t := Advance(s, w, a);
    var u := Advance(t, w, a);
    assert Solo(t, w, a) == Solo(u, w, a) == u;
  }

  /** The step that counts a failure, as one update of the world. */
  lemma {:induction false} CountStep(s: World, w: nat, a: Answer)
    requires w in s.workers && s.workers[w].pc.CountAttempt?
    ensures var h := s.workers[w]; var n := s.attempts + 1; var t := Advance(s, w, a);
      && KeysOf(t) == KeysOf(s).(attempts := n) && t.sends == s.sends && t.persistCalls == s.persistCalls
      && w in t.workers
      && t.workers[w] == h.(pc :=
           if n >= MAX_SEND_ATTEMPTS then InstallPending(NewRecord(s, h, h.pc.kind, n))
           else WriteRetryAt(h.now + if h.pc.retryAfter > 0 then h.pc.retryAfter else Backoff(n)))
    ensures Solo(s, w, a) == Solo(Advance(s, w, a), w, a)
  {
  }

  lemma {:induction false} SoloCounts(s: World, w: nat, a: Answer)
    requires w in s.workers && s.workers[w].pc.CountAttempt? && Mine(s, s.workers[w])
    requires Transient(s.workers[w].pc.kind) && s.workers[w].job.messageId != ""
    ensures var h := s.workers[w];
      Ends(s, Solo(s, w, a), w, Failing(KeysOf(s), s.nextId, h.job, h.now, h.pc.kind, h.pc.retryAfter, a.stored, 0))
  {
    hide Advance, Solo, Backoff;
    var h, n, t := s.workers[w], s.attempts + 1, Advance(s, w, a);
    CountStep(s, w, a);
    if n >= MAX_SEND_ATTEMPTS {
      SoloInstalls(t, w, a, NewRecord(s, h, h.pc.kind, n));
    } else {
      SoloBacksOff(t, w, a, t.workers[w].pc.at);
    }
  }

  lemma {:induction false} SoloSettles(s: World, w: nat, a: Answer, m: Marker, row: Row)
    requires w in s.workers
    requires match s.workers[w].pc
             case WriteSent(p) => m == Sent(p) && row == Row(s.workers[w].job.messageId, SentRow(p))
             case WriteFailed(t, _) => m == Failed(t) && row == Row(s.workers[w].job.messageId, FailedRow(t))
             case _ => false
    ensures Ends(s, Solo(s, w, a), w, Verdict(m, row, 0, []))
  {
    var t := Advance(s, w, a);
    var u := Advance(t, w, a);
    assert Solo(t, w, a) == Solo(u, w, a) == u;
  }

  /** The provider's answer costs one call and decides where the handler goes. */
  lemma {:induction false} CallTaken(s: World, w: nat, a: Answer)
    requires w in s.workers && s.workers[w].pc == Sending
    ensures var t := Advance(s, w, a);
      && w in t.workers && t.workers[w] == s.workers[w].(pc := t.workers[w].pc)
      && KeysOf(t) == KeysOf(s) && t.sends == s.sends + 1 && t.persistCalls == s.persistCalls && t.nextId == s.nextId
      && t.workers[w].pc == match a.send
         case Delivered(p) => WriteSent(p)
         case Refused(c, after) => if Transient(c) then CountAttempt(c, after, true) else WriteFailed(Direct(c), true)
    ensures Solo(s, w, a) == Solo(Advance(s, w, a), w, a)
  {
  }

  lemma {:induction false} SoloCalls(s: World, w: nat, a: Answer)
    requires w in s.workers && s.workers[w].pc == Sending && Mine(s, s.workers[w]) && s.workers[w].job.messageId != ""
    requires s.retryAt.Some? ==> s.workers[w].now >= s.retryAt.value
    requires s.attempts < MAX_SEND_ATTEMPTS && a.resolve == Found
    ensures var h := s.workers[w];
      Ends(s, Solo(s, w, a), w, Alone(KeysOf(s).(idem := None), s.nextId, h.job, h.now, s.log, a))
  {
    hide Advance, Solo;
    CallTaken(s, w, a);
    var h := s.workers[w];
    var t := Advance(s, w, a);
    match a.send
    case Delivered(p) => SoloSettles(t, w, a, Sent(p), Row(h.job.messageId, SentRow(p)));
    case Refused(c, _) =>
      if Transient(c) { SoloCounts(t, w, a); }
      else { SoloSettles(t, w, a, Failed(Direct(c)), Row(h.job.messageId, FailedRow(Direct(c)))); }
  }

  /** Reading the budget and resolving the credentials move the handler; at most a record id is drawn. */
  lemma {:induction false} PreparationTaken(s: World, w: nat, a: Answer)
    requires w in s.workers && (s.workers[w].pc == ReadAttempts || s.workers[w].pc == Resolving)
    ensures var h := s.workers[w]; var t := Advance(s, w, a);
      && w in t.workers && t == s.(workers := t.workers, nextId := t.nextId)
        && t.workers[w] == h.(pc := t.workers[w].pc)
      && (h.pc == Resolving || s.attempts < MAX_SEND_ATTEMPTS ==> t.nextId == s.nextId)
      && t.workers[w].pc == (
        if h.pc == ReadAttempts then
          if s.attempts >= MAX_SEND_ATTEMPTS then InstallPending(NewRecord(s, h, Retryable, s.attempts)) else Resolving
        else match a.resolve
          case ResolveError => CountAttempt(Retryable, 0, false)
          case NotFound => WriteFailed(CredentialMissing, false)
          case Found => Sending)
    ensures Solo(s, w, a) == Solo(Advance(s, w, a), w, a)
  {
  }

  lemma {:induction false} SoloHolds(s: World, w: nat, a: Answer)
    requires w in s.workers && s.workers[w].pc == ReadAttempts && Mine(s, s.workers[w])
      && s.workers[w].job.messageId != ""
    requires s.retryAt.Some? ==> s.workers[w].now >= s.retryAt.value
    ensures var h := s.workers[w];
      Ends(s, Solo(s, w, a), w, Alone(KeysOf(s).(idem := None), s.nextId, h.job, h.now, s.log, a))
  {
    hide Advance, Solo, Backoff;
    var h := s.workers[w];
    var t := Advance(s, w, a);
    PreparationTaken(s, w, a);
    if s.attempts >= MAX_SEND_ATTEMPTS {
      SoloInstalls(t, w, a, t.workers[w].pc.record);
    } else {
      var u := Advance(t, w, a);
      PreparationTaken(t, w, a);
      match a.resolve
      case ResolveError => SoloCounts(u, w, a);
      case NotFound => SoloSettles(u, w, a, Failed(CredentialMissing),
        Row(h.job.messageId, FailedRow(CredentialMissing)));
      case Found => SoloCalls(u, w, a);
    }
  }

  lemma {:induction false} SoloReads(s: World, w: nat, a: Answer)
    requires w in s.workers && s.workers[w].pc == ReadMarker && s.idem.Some?
    requires s.idem.value.Pending? ==> RecordReadable(s.idem.value.record)
    requires s.retryAt.Some? ==> s.workers[w].now >= s.retryAt.value
    ensures var h := s.workers[w];
      Ends(s, Solo(s, w, a), w, Alone(KeysOf(s), s.nextId, h.job, h.now, s.log, a))
  {
    var t := Advance(s, w, a);
    if s.idem.value.Pending? {
      SoloPersists(t, w, a, s.idem.value.record);
    } else if !s.idem.value.Lease? {
      var u := Advance(t, w, a);
      assert Solo(t, w, a) == Solo(u, w, a) == u;
    }
  }

  /**
   From every reachable world, a worker that starts on a message and is left alone ends exactly as the
   table says.
   */
  lemma {:induction false} AloneIsHandleOne(es: seq<Event>, w: nat, job: Job, now: int, a: Answer)
    requires Enabled(Run(Initial(), es), Start(w, job, now))
    ensures var s := Run(Initial(), es); var t := Apply(s, Start(w, job, now));
      Ends(s, Solo(t, w, a), w, Alone(KeysOf(s), t.nextId, job, now, s.log, a))
  {
    EveryRunKeepsInv(es);
    var s := Run(Initial(), es);
    var t := Apply(s, Start(w, job, now));
    var u := Advance(t, w, a);
    if u.workers[w].pc == Acquire {
      var v := Advance(u, w, a);
      assert Solo(t, w, a) == Solo(u, w, a) == Solo(v, w, a);
      if s.idem.None? { SoloHolds(v, w, a); } else { SoloReads(v, w, a); }
    }
  }
}
