/** The retry budget of SendProtocol is attained: runs that meet the bound with equality. */
module SendBudget {
  import opened Wrappers
  import opened SendProtocol

  const REFUSED := Answer(Found, Refused(Retryable, 1), true, true)

  /** Winning the lease. */
  function LeaseEvents(now: int): seq<Event> { [Start(0, Job("m"), now), Step(0, REFUSED), Step(0, REFUSED)] }

  /** Under the lease, up to and including the provider call. */
  function CallEvents(now: int): seq<Event> {
    LeaseEvents(now) + [Step(0, REFUSED), Step(0, REFUSED), Step(0, REFUSED)]
  }

  /** A worker calls the provider and dies before the attempt is counted; its lease lapses. */
  function LostCall(): seq<Event> { CallEvents(0) + [Crash(0), ExpireLease] }

  /** A counted attempt: refused, then counted, backed off, lease dropped. */
  function CountedCall(now: int): seq<Event> {
    CallEvents(now) + [Step(0, REFUSED), Step(0, REFUSED), Step(0, REFUSED)]
  }

  function LostCalls(k: nat): seq<Event> {
    if k == 0 then [] else LostCalls(k - 1) + LostCall()
  }

  function CountedCalls(n: nat): seq<Event> {
    if n == 0 then [] else CountedCalls(n - 1) + CountedCall(10 * n)
  }

  lemma Chain(s: World, e1: Event, s1: World, e2: Event, s2: World, e3: Event, s3: World)
    requires Apply(s, e1) == s1 && Apply(s1, e2) == s2 && Apply(s2, e3) == s3
    ensures Run(s, [e1, e2, e3]) == s3 && Run(s, [e1, e2]) == s2
  {
    RunStep(s, [], e1);
    assert [] + [e1] == [e1];
    RunStep(s, [e1], e2);
    assert [e1] + [e2] == [e1, e2];
    RunStep(s, [e1, e2], e3);
    assert [e1, e2] + [e3] == [e1, e2, e3];
  }

  predicate ReadyForWorkerZero(s: World, now: int) {
    && s.idem.None? && s.attempts < MAX_SEND_ATTEMPTS
    && (s.retryAt.Some? ==> s.retryAt.value <= now)
    && (0 in s.workers ==> s.workers[0].pc.Finished?)
  }

  /** Worker 0 moved on, nothing else changed. */
  function MovedTo(s: World, pc: Pc): World
    requires 0 in s.workers
  {
    s.(workers := s.workers[0 := s.workers[0].(pc := pc)])
  }

  lemma Starts(s: World, now: int)
    requires ReadyForWorkerZero(s, now)
    ensures Apply(s, Start(0, Job("m"), now)) ==
      s.(workers := s.workers[0 := Handler(Job("m"), now, s.nextId, CheckBackoff)], nextId := s.nextId + 1)
  {
  }

  lemma PassesBackoff(s: World)
    requires 0 in s.workers && s.workers[0].pc == CheckBackoff
    requires s.retryAt.Some? ==> s.retryAt.value <= s.workers[0].now
    ensures Apply(s, Step(0, REFUSED)) == MovedTo(s, Acquire)
  {
  }

  lemma WinsLease(s: World)
    requires 0 in s.workers && s.workers[0].pc == Acquire && s.idem.None?
    ensures Apply(s, Step(0, REFUSED)) == MovedTo(s, ReadAttempts).(idem := Some(Lease(s.workers[0].token)))
  {
  }

  lemma HasBudget(s: World)
    requires 0 in s.workers && s.workers[0].pc == ReadAttempts && s.attempts < MAX_SEND_ATTEMPTS
    ensures Apply(s, Step(0, REFUSED)) == MovedTo(s, Resolving)
  {
  }

  lemma Resolves(s: World)
    requires 0 in s.workers && s.workers[0].pc == Resolving
    ensures Apply(s, Step(0, REFUSED)) == MovedTo(s, Sending)
  {
  }

  lemma IsRefused(s: World)
    requires 0 in s.workers && s.workers[0].pc == Sending
    ensures Apply(s, Step(0, REFUSED)) == MovedTo(s, CountAttempt(Retryable, 1, true)).(sends := s.sends + 1)
  {
  }

  lemma LeaseRuns(s: World, now: int)
    requires ReadyForWorkerZero(s, now)
    ensures Run(s, LeaseEvents(now)) ==
      s.(idem := Some(Lease(s.nextId)), nextId := s.nextId + 1,
         workers := s.workers[0 := Handler(Job("m"), now, s.nextId, ReadAttempts)])
  {
    hide Apply, Run;
    var s1 := s.(workers := s.workers[0 := Handler(Job("m"), now, s.nextId, CheckBackoff)], nextId := s.nextId + 1);
    var s2 := MovedTo(s1, Acquire);
    var s3 := MovedTo(s2, ReadAttempts).(idem := Some(Lease(s.nextId)));
    Starts(s, now);
    PassesBackoff(s1);
    WinsLease(s2);
    Chain(s, Start(0, Job("m"), now), s1, Step(0, REFUSED), s2, Step(0, REFUSED), s3);
    assert s1.workers[0].token == s.nextId;
    assert s3.workers == s.workers[0 := Handler(Job("m"), now, s.nextId, ReadAttempts)];
  }

  lemma {:induction false} CallFromLease(t: World)
    requires 0 in t.workers && t.workers[0].pc == ReadAttempts && t.attempts < MAX_SEND_ATTEMPTS
    ensures Run(t, [Step(0, REFUSED), Step(0, REFUSED), Step(0, REFUSED)])
         == MovedTo(t, CountAttempt(Retryable, 1, true)).(sends := t.sends + 1)
  {
    var e := Step(0, REFUSED);
    var s1 := MovedTo(t, Resolving);
    var s2 := MovedTo(s1, Sending);
    var s3 := MovedTo(s2, CountAttempt(Retryable, 1, true)).(sends := t.sends + 1);
    HasBudget(t);
    Resolves(s1);
    IsRefused(s2);
    Chain(t, e, s1, e, s2, e, s3);
    assert s3.workers == MovedTo(t, CountAttempt(Retryable, 1, true)).workers;
  }

  lemma CallRuns(s: World, now: int)
    requires ReadyForWorkerZero(s, now)
    ensures Run(s, CallEvents(now)) ==
      s.(idem := Some(Lease(s.nextId)), sends := s.sends + 1, nextId := s.nextId + 1,
         workers := s.workers[0 := Handler(Job("m"), now, s.nextId, CountAttempt(Retryable, 1, true))])
  {
    hide Run, LeaseEvents;
    LeaseRuns(s, now);
    RunConcat(s, LeaseEvents(now), [Step(0, REFUSED), Step(0, REFUSED), Step(0, REFUSED)]);
    var t := Run(s, LeaseEvents(now));
    CallFromLease(t);
    assert t.workers[0 := t.workers[0].(pc := CountAttempt(Retryable, 1, true))]
        == s.workers[0 := Handler(Job("m"), now, s.nextId, CountAttempt(Retryable, 1, true))];
  }

  lemma LostCallRuns(s: World)
    requires s.idem.None? && s.attempts < MAX_SEND_ATTEMPTS && s.retryAt.None? && s.workers == map[]
    ensures Run(s, LostCall()) == s.(sends := s.sends + 1, lost := s.lost + 1, nextId := s.nextId + 1)
  {
    CallRuns(s, 0);
    RunConcat(s, CallEvents(0), [Crash(0), ExpireLease]);
    var t := Run(s, CallEvents(0));
    var u := Apply(t, Crash(0));
    assert u.workers == map[];
    Chain(t, Crash(0), u, ExpireLease, Apply(u, ExpireLease), Flush({}), Apply(Apply(u, ExpireLease), Flush({})));
  }

  lemma CountedCallRuns(s: World, now: int)
    requires ReadyForWorkerZero(s, now)
    ensures Counted(s, Run(s, CountedCall(now)), now)
  {
    CallRuns(s, now);
    RunConcat(s, CallEvents(now), [Step(0, REFUSED), Step(0, REFUSED), Step(0, REFUSED)]);
    CountedCallEnds(Run(s, CallEvents(now)));
  }

  predicate Counted(s: World, t: World, now: int) {
    && t.sends == s.sends + 1 && t.lost == s.lost && t.attempts == s.attempts + 1
    && (t.attempts < MAX_SEND_ATTEMPTS ==> t.idem.None? && t.retryAt == Some(now + 1)
                                           && 0 in t.workers && t.workers[0].pc.Finished?)
  }

  lemma Counts(t: World)
    requires 0 in t.workers && t.workers[0].pc == CountAttempt(Retryable, 1, true)
    ensures t.attempts + 1 < MAX_SEND_ATTEMPTS ==>
      Apply(t, Step(0, REFUSED)) == MovedTo(t, WriteRetryAt(t.workers[0].now + 1)).(attempts := t.attempts + 1)
    ensures t.attempts + 1 == MAX_SEND_ATTEMPTS ==>
      Apply(t, Step(0, REFUSED)) ==
        MovedTo(t, InstallPending(NewRecord(t, t.workers[0], Retryable, t.attempts + 1))).(attempts := t.attempts + 1,
          nextId := t.nextId + 1)
  {
  }

  lemma BacksOff(t: World, at: int)
    requires 0 in t.workers && t.workers[0].pc == WriteRetryAt(at)
    ensures Apply(t, Step(0, REFUSED)) == MovedTo(t, DropLease).(retryAt := Some(at))
  {
  }

  lemma Drops(t: World)
    requires 0 in t.workers && t.workers[0].pc == DropLease
    ensures Apply(t, Step(0, REFUSED)) == MovedTo(t, Finished(Retry)).(idem := None)
  {
  }

  /** Installing and persisting a record calls no provider and leaves the counter. */
  lemma KeepsCounts(t: World)
    requires 0 in t.workers && (t.workers[0].pc.InstallPending? || t.workers[0].pc.Persisting?
      || t.workers[0].pc.Finished?)
    ensures var u := Apply(t, Step(0, REFUSED));
      && u.sends == t.sends && u.lost == t.lost && u.attempts == t.attempts
      && 0 in u.workers && (t.workers[0].pc.InstallPending? ==>
        u.workers[0].pc.Persisting?
        || u.workers[0].pc.Finished?)
  {
  }

  lemma CountedCallEnds(t: World)
    requires 0 in t.workers && t.workers[0].pc == CountAttempt(Retryable, 1, true) && t.attempts < MAX_SEND_ATTEMPTS
    requires t.sends > 0
    ensures Counted(t.(sends := t.sends - 1), Run(t, [Step(0, REFUSED), Step(0, REFUSED), Step(0, REFUSED)]),
      t.workers[0].now)
  {
    var e, h := Step(0, REFUSED), t.workers[0];
    Counts(t);
    if t.attempts + 1 < MAX_SEND_ATTEMPTS {
      var t1 := MovedTo(t, WriteRetryAt(h.now + 1)).(attempts := t.attempts + 1);
      var t2 := MovedTo(t1, DropLease).(retryAt := Some(h.now + 1));
      BacksOff(t1, h.now + 1);
      Drops(t2);
      Chain(t, e, t1, e, t2, e, MovedTo(t2, Finished(Retry)).(idem := None));
    } else {
      var r := NewRecord(t, h, Retryable, t.attempts + 1);
      var t1 := MovedTo(t, InstallPending(r)).(attempts := t.attempts + 1, nextId := t.nextId + 1);
      var t2 := Apply(t1, e);
      KeepsCounts(t1);
      KeepsCounts(t2);
      Chain(t, e, t1, e, t2, e, Apply(t2, e));
    }
  }

  lemma {:induction false} LostCallsRun(k: nat)
    ensures Run(Initial(), LostCalls(k)) == Initial().(sends := k, lost := k, nextId := k)
  {
    if k > 0 {
      LostCallsRun(k - 1);
      RunConcat(Initial(), LostCalls(k - 1), LostCall());
      LostCallRuns(Run(Initial(), LostCalls(k - 1)));
    }
  }

  lemma {:induction false} CountedCallsRun(s: World, n: nat)
    requires s.idem.None? && s.attempts == 0 && s.retryAt.None? && s.workers == map[] && n <= MAX_SEND_ATTEMPTS
    ensures var t := Run(s, CountedCalls(n));
      && t.sends == s.sends + n && t.lost == s.lost && t.attempts == n
      && (n < MAX_SEND_ATTEMPTS ==> t.idem.None? && (t.retryAt.Some? ==> t.retryAt.value <= 10 * n + 1)
                                    && (0 in t.workers ==> t.workers[0].pc.Finished?))
  {
    if n > 0 {
      CountedCallsRun(s, n - 1);
      RunConcat(s, CountedCalls(n - 1), CountedCall(10 * n));
      CountedCallRuns(Run(s, CountedCalls(n - 1)), 10 * n);
    }
  }

  /** RetryBudget cannot be improved: for every number of such crashes some run meets it with equality. */
  lemma RetryBudgetIsTight(k: nat)
    ensures exists es :: Run(Initial(), es).lost == k && Run(Initial(), es).sends == MAX_SEND_ATTEMPTS + k
  {
    LostCallsRun(k);
    var s := Run(Initial(), LostCalls(k));
    CountedCallsRun(s, MAX_SEND_ATTEMPTS);
    RunConcat(Initial(), LostCalls(k), CountedCalls(MAX_SEND_ATTEMPTS));
  }
}
