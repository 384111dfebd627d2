/** The load generator's schedule, queue, workers and books. */
module LoadAccounting {
  import opened Arithmetic

  const SECOND := 1_000_000_000
  const INT64_MAX := 0x7fff_ffff_ffff_ffff

  // ---------------------------------------------------------------- the schedule

  function ScheduleOffset(sequence: nat, rate: nat): nat
    requires rate > 0
  {
    sequence / rate * SECOND + sequence % rate * SECOND / rate
  }

  lemma DivBelow(n: nat, d: nat, q: nat)
    requires d > 0 && n < q * d
    ensures n / d < q
  {
    DivBounds(n, d);
    ProductGrows(q, n / d, d);
  }

  lemma Distribute(a: nat, b: nat, k: nat)
    ensures (a + b) * k == a * k + b * k
  {}

  lemma {:induction false} SplitQuotient(s: nat, d: nat, k: nat)
    requires d > 0
    ensures s / d * k + s % d * k / d == s * k / d
  {
    DivBounds(s, d);
    var q, r := s / d, s % d;
    assert s == q * d + r;
    Distribute(q * d, r, k);
    var small := r * k / d;
    DivBounds(r * k, d);
    Distribute(q * k, small, d);
    assert q * d * k == q * k * d;
    FloorOf(s * k, d, q * k + small);
  }

  /** The split form equals the plain quotient. */
  lemma {:induction false} OffsetIsTheQuotient(sequence: nat, rate: nat)
    requires 0 < rate <= SECOND
    ensures ScheduleOffset(sequence, rate) == sequence * SECOND / rate
    ensures sequence % rate * SECOND <= INT64_MAX
  {
    SplitQuotient(sequence, rate, SECOND);
    var r := sequence % rate;
    assert r < SECOND;
  }

  /** The number of requests of a run: rate times duration, rounded half up. */
  function Planned(rate: nat, durationNs: nat): nat { (2 * (rate * durationNs) + SECOND) / (2 * SECOND) }

  lemma LastBeforeTheEnd(sequence: nat, rate: nat, durationNs: nat)
    requires sequence < Planned(rate, durationNs)
    ensures sequence * SECOND < durationNs * rate
  {
    var work := rate * durationNs;
    DivBounds(2 * work + SECOND, 2 * SECOND);
    assert (sequence + 1) * (2 * SECOND) <= 2 * work + SECOND;
  }

  /** Every scheduled request starts inside the window, and later requests never start earlier. */
  lemma {:induction false} OffsetsLieInTheWindow(sequence: nat, rate: nat, durationNs: nat)
    requires 0 < rate <= SECOND && sequence < Planned(rate, durationNs)
    ensures ScheduleOffset(sequence, rate) < durationNs
    ensures ScheduleOffset(sequence, rate) <= ScheduleOffset(sequence + 1, rate)
  {
    OffsetIsTheQuotient(sequence, rate);
    OffsetIsTheQuotient(sequence + 1, rate);
    LastBeforeTheEnd(sequence, rate, durationNs);
    DivBelow(sequence * SECOND, rate, durationNs);
    DivGrows(sequence * SECOND, (sequence + 1) * SECOND, rate);
  }

  lemma WholeSeconds(sequence: nat, rate: nat)
    requires rate > 0
    ensures sequence / rate * SECOND <= ScheduleOffset(sequence, rate)
  {
    var rest: nat := sequence % rate * SECOND;
    var part: nat := rest / rate;
  }

  /** In a run whose duration fits in 64 bits, so do both products of the split form and their sum. */
  lemma {:induction false} OffsetsStayIn64Bits(sequence: nat, rate: nat, durationNs: nat)
    requires 0 < rate <= SECOND && sequence < Planned(rate, durationNs) && durationNs <= INT64_MAX
    ensures sequence / rate * SECOND <= INT64_MAX && sequence % rate * SECOND <= INT64_MAX
    ensures ScheduleOffset(sequence, rate) <= INT64_MAX
  {
    OffsetsLieInTheWindow(sequence, rate, durationNs);
    OffsetIsTheQuotient(sequence, rate);
    WholeSeconds(sequence, rate);
    hide Planned, ScheduleOffset;
  }

  // ---------------------------------------------------------------- what becomes of each request

  datatype Fate =
    | Pending | Dropped | Queued | Working | Accepted(inWindow: bool) | HttpError | NetworkError | ResponseError

  predicate IsOutcome(f: Fate) { f.Accepted? || f.HttpError? || f.NetworkError? || f.ResponseError? }

  datatype Counters = Counters(
    scheduled: nat, enqueued: nat, dropped: nat, started: nat,
    accepted: nat, acceptedInWindow: nat, httpErrors: nat, networkErrors: nat, responseErrors: nat)

  datatype Tenant = Tenant(
    expected: nat, started: nat, accepted: nat, inWindow: nat, networkErrors: nat, httpErrors: nat, responseErrors: nat)

  datatype Load = Load(fates: seq<Fate>, next: nat, open: bool, queue: seq<nat>, counters: Counters,
    tenants: seq<Tenant>)

  datatype Config = Config(capacity: nat, concurrency: nat, tenantCount: nat)

  datatype Event =
    | Schedule(onTime: bool)
    | CloseQueue
    | Take
    | Finish(sequence: nat, outcome: Fate)

  /** How many requests of tenant t of n have this fate. */
  function Tally(fates: seq<Fate>, f: Fate, n: nat, t: nat): nat
    requires n > 0
  {
    if fates == [] then 0
    else
      var last := |fates| - 1;
      Tally(fates[..last], f, n, t) + if fates[last] == f && last % n == t then 1 else 0
  }

  function Total(fates: seq<Fate>, f: Fate): nat { Tally(fates, f, 1, 0) }

  function DropFrom(fates: seq<Fate>, next: nat): seq<Fate> {
    seq(|fates|, i requires 0 <= i < |fates| => if i < next then fates[i] else Dropped)
  }

  /** The share of tenant t of n when requests go round. */
  function Quota(expected: nat, n: nat, t: nat): nat
    requires n > 0
  {
    expected / n + if t < expected % n then 1 else 0
  }

  function Count(c: Counters, outcome: Fate): Counters {
    match outcome
    case Accepted(inWindow) => c.(accepted := c.accepted + 1,
      acceptedInWindow := c.acceptedInWindow + if inWindow then 1 else 0)
    case HttpError => c.(httpErrors := c.httpErrors + 1)
    case NetworkError => c.(networkErrors := c.networkErrors + 1)
    case ResponseError => c.(responseErrors := c.responseErrors + 1)
    case _ => c
  }

  function CountTenant(r: Tenant, kind: Fate): Tenant {
    match kind
    case Working => r.(started := r.started + 1)
    case Accepted(inWindow) => r.(accepted := r.accepted + 1, inWindow := r.inWindow + if inWindow then 1 else 0)
    case HttpError => r.(httpErrors := r.httpErrors + 1)
    case NetworkError => r.(networkErrors := r.networkErrors + 1)
    case ResponseError => r.(responseErrors := r.responseErrors + 1)
    case _ => r
  }

  /** Without a tenant list there is nothing to record. */
  function RecordTenant(tenants: seq<Tenant>, sequence: nat, kind: Fate): seq<Tenant> {
    if tenants == [] then tenants
    else tenants[sequence % |tenants| := CountTenant(tenants[sequence % |tenants|], kind)]
  }

  function NewTenants(n: nat, expected: nat): seq<Tenant> {
    seq(n, t requires 0 <= t < n => Tenant(Quota(expected, n, t), 0, 0, 0, 0, 0, 0))
  }

  function Start(expected: nat, tenantCount: nat): Load {
    Load(seq(expected, _ => Pending), 0, true, [], Counters(0, 0, 0, 0, 0, 0, 0, 0, 0),
      NewTenants(tenantCount, expected))
  }

  predicate Enabled(cfg: Config, s: Load, e: Event) {
    match e
    case Schedule(_) => s.open && s.next < |s.fates|
    case CloseQueue => s.open && s.next >= |s.fates|
    case Take => s.queue != [] && s.queue[0] < |s.fates| && Total(s.fates, Working) < cfg.concurrency
    case Finish(sequence, outcome) => sequence < |s.fates| && s.fates[sequence] == Working && IsOutcome(outcome)
  }

  function Step(cfg: Config, s: Load, e: Event): Load {
    if !Enabled(cfg, s, e) then s
    else match e
      case Schedule(onTime) =>
        var c, n := s.counters, s.next;
        if !onTime then
          s.(fates := DropFrom(s.fates, n), next := |s.fates|,
             counters := c.(scheduled := c.scheduled + (|s.fates| - n), dropped := c.dropped + (|s.fates| - n)))
        else if |s.queue| < cfg.capacity then
          s.(fates := s.fates[n := Queued], next := n + 1, queue := s.queue + [n],
             counters := c.(scheduled := c.scheduled + 1, enqueued := c.enqueued + 1))
        else
          s.(fates := s.fates[n := Dropped], next := n + 1,
            counters := c.(scheduled := c.scheduled + 1, dropped := c.dropped + 1))
      case CloseQueue => s.(open := false)
      case Take =>
        var sequence := s.queue[0];
        s.(fates := s.fates[sequence := Working], queue := s.queue[1..],
           counters := s.counters.(started := s.counters.started + 1),
             tenants := RecordTenant(s.tenants, sequence, Working))
      case Finish(sequence, outcome) =>
        s.(fates := s.fates[sequence := outcome], counters := Count(s.counters, outcome),
          tenants := RecordTenant(s.tenants, sequence, outcome))
  }

  function Run(cfg: Config, s: Load, es: seq<Event>): Load {
    if es == [] then s else Step(cfg, Run(cfg, s, es[..|es| - 1]), es[|es| - 1])
  }

  /** The queue is closed and drained and no worker is busy. */
  predicate Finished(s: Load) {
    !s.open && s.queue == [] && forall i | 0 <= i < |s.fates| :: s.fates[i] != Working
  }

  // ---------------------------------------------------------------- counting

  lemma {:induction false} TallyUpdate(fates: seq<Fate>, i: nat, x: Fate, f: Fate, n: nat, t: nat)
    requires n > 0 && i < |fates|
    ensures Tally(fates[i := x], f, n, t) + (if fates[i] == f && i % n == t then 1 else 0)
         == Tally(fates, f, n, t) + (if x == f && i % n == t then 1 else 0)
    decreases |fates|
  {
    var last := |fates| - 1;
    if i < last {
      assert fates[i := x][..last] == fates[..last][i := x];
      TallyUpdate(fates[..last], i, x, f, n, t);
    } else {
      assert fates[i := x][..last] == fates[..last];
    }
  }

  lemma {:induction false} TallyAll(fates: seq<Fate>)
    ensures Total(fates, Pending) + Total(fates, Dropped) + Total(fates, Queued) + Total(fates, Working)
      + Total(fates, Accepted(true)) + Total(fates, Accepted(false)) + Total(fates, HttpError)
        + Total(fates, NetworkError)
      + Total(fates, ResponseError) == |fates|
  {
    if fates != [] {
      TallyAll(fates[..|fates| - 1]);
      assert (|fates| - 1) % 1 == 0;
    }
  }

  lemma {:induction false} TallyNone(fates: seq<Fate>, f: Fate, n: nat, t: nat)
    requires n > 0 && forall i | 0 <= i < |fates| :: fates[i] != f
    ensures Tally(fates, f, n, t) == 0
  {
    if fates != [] { TallyNone(fates[..|fates| - 1], f, n, t); }
  }

  /** Dropping the rest touches only requests that were pending. */
  lemma {:induction false} TallyDrop(fates: seq<Fate>, next: nat, f: Fate, n: nat, t: nat)
    requires n > 0 && f != Pending && f != Dropped && forall i | next <= i < |fates| :: fates[i] == Pending
    ensures Tally(DropFrom(fates, next), f, n, t) == Tally(fates, f, n, t)
  {
    if fates != [] {
      var last := |fates| - 1;
      assert DropFrom(fates, next)[..last] == DropFrom(fates[..last], next);
      TallyDrop(fates[..last], next, f, n, t);
    }
  }

  /** The round-robin shares are the numbers of requests assigned. */
  lemma {:induction false} QuotaCounts(expected: nat, n: nat, t: nat)
    requires t < n
    ensures Tally(seq(expected, _ => Pending), Pending, n, t) == Quota(expected, n, t)
  {
    var fates := seq(expected, _ => Pending);
    if expected == 0 {
      assert Quota(0, n, t) == 0 by { DivBounds(0, n); }
    } else {
      assert fates[..expected - 1] == seq(expected - 1, _ => Pending);
      QuotaCounts(expected - 1, n, t);
      QuotaGrows(expected - 1, n, t);
    }
  }

  lemma {:induction false} QuotaGrows(k: nat, n: nat, t: nat)
    requires t < n
    ensures Quota(k + 1, n, t) == Quota(k, n, t) + if k % n == t then 1 else 0
  {
    DivBounds(k, n);
    var q, r := k / n, k % n;
    if r + 1 < n {
      FloorOf(k + 1, n, q);
      DivBounds(k + 1, n);
    } else {
      assert (q + 1) * n == q * n + n;
      FloorOf(k + 1, n, q + 1);
      DivBounds(k + 1, n);
    }
  }

  // ---------------------------------------------------------------- the books balance at every moment

  function Ended(fates: seq<Fate>, n: nat, t: nat): nat
    requires n > 0
  {
    Tally(fates, Accepted(true), n, t) + Tally(fates, Accepted(false), n, t) + Tally(fates, HttpError, n, t)
    + Tally(fates, NetworkError, n, t) + Tally(fates, ResponseError, n, t)
  }

  predicate CountersMatch(c: Counters, fates: seq<Fate>) {
    && c.scheduled + Total(fates, Pending) == |fates|
    && c.dropped == Total(fates, Dropped)
    && c.enqueued == Total(fates, Queued) + Total(fates, Working) + Ended(fates, 1, 0)
    && c.started == Total(fates, Working) + Ended(fates, 1, 0)
    && c.accepted == Total(fates, Accepted(true)) + Total(fates, Accepted(false))
    && c.acceptedInWindow == Total(fates, Accepted(true))
    && c.httpErrors == Total(fates, HttpError) && c.networkErrors == Total(fates, NetworkError)
    && c.responseErrors == Total(fates, ResponseError)
  }

  predicate TenantMatches(r: Tenant, fates: seq<Fate>, n: nat, t: nat)
    requires n > 0
  {
    && r.expected == Quota(|fates|, n, t)
    && r.started == Tally(fates, Working, n, t) + Ended(fates, n, t)
    && r.accepted == Tally(fates, Accepted(true), n, t) + Tally(fates, Accepted(false), n, t)
    && r.inWindow == Tally(fates, Accepted(true), n, t)
    && r.httpErrors == Tally(fates, HttpError, n, t) && r.networkErrors == Tally(fates, NetworkError, n, t)
    && r.responseErrors == Tally(fates, ResponseError, n, t)
  }

  predicate TenantsMatch(tenants: seq<Tenant>, fates: seq<Fate>) {
    forall t | 0 <= t < |tenants| :: TenantMatches(tenants[t], fates, |tenants|, t)
  }

  predicate QueueMatches(s: Load) {
    && s.next <= |s.fates|
    && (forall i | 0 <= i < |s.fates| :: s.fates[i] == Pending <==> i >= s.next)
    && (forall k | 0 <= k < |s.queue| :: s.queue[k] < |s.fates| && s.fates[s.queue[k]] == Queued)
    && (forall k, l | 0 <= k < l < |s.queue| :: s.queue[k] != s.queue[l])
    && (forall i | 0 <= i < |s.fates| && s.fates[i] == Queued :: i in s.queue)
    && (!s.open ==> s.next == |s.fates|)
  }

  predicate Inv(s: Load) {
    CountersMatch(s.counters, s.fates) && TenantsMatch(s.tenants, s.fates) && QueueMatches(s)
  }

  /** One request moves from one fate to the next. */
  lemma MoveTallies(fates: seq<Fate>, i: nat, x: Fate, n: nat, t: nat)
    requires n > 0 && i < |fates| && x != fates[i]
    ensures forall f {:trigger Tally(fates[i := x], f, n, t)} ::
      Tally(fates[i := x], f, n, t) + (if fates[i] == f && i % n == t then 1 else 0)
        == Tally(fates, f, n, t) + (if x == f && i % n == t then 1 else 0)
  {
    forall f ensures Tally(fates[i := x], f, n, t) + (if fates[i] == f && i % n == t then 1 else 0)
         == Tally(fates, f, n, t) + (if x == f && i % n == t then 1 else 0) {
      TallyUpdate(fates, i, x, f, n, t);
    }
  }

  lemma {:induction false} TakeKeepsTenants(tenants: seq<Tenant>, fates: seq<Fate>, i: nat)
    requires TenantsMatch(tenants, fates) && i < |fates| && fates[i] == Queued
    ensures TenantsMatch(RecordTenant(tenants, i, Working), fates[i := Working])
  {
    hide Tally, Quota;
    var n := |tenants|;
    forall t | 0 <= t < n ensures TenantMatches(RecordTenant(tenants, i, Working)[t], fates[i := Working], n, t) {
      MoveTallies(fates, i, Working, n, t);
      assert TenantMatches(tenants[t], fates, n, t);
    }
  }

  lemma {:induction false} FinishKeepsTenants(tenants: seq<Tenant>, fates: seq<Fate>, i: nat, outcome: Fate)
    requires TenantsMatch(tenants, fates) && i < |fates| && fates[i] == Working && IsOutcome(outcome)
    ensures TenantsMatch(RecordTenant(tenants, i, outcome), fates[i := outcome])
  {
    hide Tally, Quota;
    var n := |tenants|;
    forall t | 0 <= t < n ensures TenantMatches(RecordTenant(tenants, i, outcome)[t], fates[i := outcome], n, t) {
      MoveTallies(fates, i, outcome, n, t);
      assert TenantMatches(tenants[t], fates, n, t);
    }
  }

  /** Scheduling changes no tenant's row. */
  lemma ScheduleKeepsTenants(tenants: seq<Tenant>, fates: seq<Fate>, i: nat, x: Fate)
    requires TenantsMatch(tenants, fates) && i < |fates| && fates[i] == Pending && (x == Queued || x == Dropped)
    ensures TenantsMatch(tenants, fates[i := x])
  {
    hide Tally, Quota;
    var n := |tenants|;
    forall t | 0 <= t < n ensures TenantMatches(tenants[t], fates[i := x], n, t) {
      MoveTallies(fates, i, x, n, t);
      assert TenantMatches(tenants[t], fates, n, t);
    }
  }

  lemma DropKeepsTallies(fates: seq<Fate>, next: nat, n: nat, t: nat)
    requires n > 0 && next <= |fates| && forall i | next <= i < |fates| :: fates[i] == Pending
    ensures forall f | f != Pending && f != Dropped :: Tally(DropFrom(fates, next), f, n, t) == Tally(fates, f, n, t)
  {
    forall f | f != Pending && f != Dropped ensures Tally(DropFrom(fates, next), f, n, t) == Tally(fates, f, n, t) {
      TallyDrop(fates, next, f, n, t);
    }
  }

  lemma DropKeepsBooks(s: Load)
    requires Inv(s) && s.open && s.next < |s.fates|
    ensures var c, rest := s.counters, |s.fates| - s.next;
      && CountersMatch(c.(scheduled := c.scheduled + rest, dropped := c.dropped + rest), DropFrom(s.fates, s.next))
      && TenantsMatch(s.tenants, DropFrom(s.fates, s.next))
  {
    var after := DropFrom(s.fates, s.next);
    PendingTally(s.fates, s.next);
    TallyNone(after, Pending, 1, 0);
    TallyAll(s.fates);
    TallyAll(after);
    hide Tally, Quota, DropFrom;
    DropKeepsTallies(s.fates, s.next, 1, 0);
    forall t | 0 <= t < |s.tenants| ensures TenantMatches(s.tenants[t], after, |s.tenants|, t) {
      DropKeepsTallies(s.fates, s.next, |s.tenants|, t);
      assert TenantMatches(s.tenants[t], s.fates, |s.tenants|, t);
      DropLength(s.fates, s.next);
    }
    DropLength(s.fates, s.next);
  }

  lemma DropLength(fates: seq<Fate>, next: nat)
    ensures |DropFrom(fates, next)| == |fates|
  {}

  lemma {:induction false} PendingTally(fates: seq<Fate>, next: nat)
    requires next <= |fates| && forall i | 0 <= i < |fates| :: fates[i] == Pending <==> i >= next
    ensures Total(fates, Pending) == |fates| - next
    decreases |fates|
  {
    if next < |fates| {
      assert (|fates| - 1) % 1 == 0;
      PendingTally(fates[..|fates| - 1], next);
    } else {
      TallyNone(fates, Pending, 1, 0);
    }
  }

  lemma ScheduleKeepsCounters(c: Counters, fates: seq<Fate>, i: nat, x: Fate, d: Counters)
    requires CountersMatch(c, fates) && i < |fates| && fates[i] == Pending
    requires || (x == Queued && d == c.(scheduled := c.scheduled + 1, enqueued := c.enqueued + 1))
             || (x == Dropped && d == c.(scheduled := c.scheduled + 1, dropped := c.dropped + 1))
    ensures CountersMatch(d, fates[i := x])
  {
    MoveTallies(fates, i, x, 1, 0);
    hide Tally;
    assert i % 1 == 0;
  }

  lemma TakeKeepsCounters(c: Counters, fates: seq<Fate>, i: nat)
    requires CountersMatch(c, fates) && i < |fates| && fates[i] == Queued
    ensures CountersMatch(c.(started := c.started + 1), fates[i := Working])
  {
    MoveTallies(fates, i, Working, 1, 0);
    hide Tally;
    assert i % 1 == 0;
  }

  lemma FinishKeepsCounters(c: Counters, fates: seq<Fate>, i: nat, outcome: Fate)
    requires CountersMatch(c, fates) && i < |fates| && fates[i] == Working && IsOutcome(outcome)
    ensures CountersMatch(Count(c, outcome), fates[i := outcome])
  {
    MoveTallies(fates, i, outcome, 1, 0);
    hide Tally;
    assert i % 1 == 0;
  }

  lemma ScheduleKeepsInv(cfg: Config, s: Load, onTime: bool)
    requires Inv(s) && Enabled(cfg, s, Schedule(onTime))
    ensures Inv(Step(cfg, s, Schedule(onTime)))
  {
    hide CountersMatch, TenantsMatch, Tally;
    var t := Step(cfg, s, Schedule(onTime));
    if !onTime {
      DropKeepsBooks(s);
      assert QueueMatches(t);
    } else {
      var x := if |s.queue| < cfg.capacity then Queued else Dropped;
      ScheduleKeepsTenants(s.tenants, s.fates, s.next, x);
      ScheduleKeepsCounters(s.counters, s.fates, s.next, x, t.counters);
      assert QueueMatches(t);
    }
  }

  lemma TakeKeepsInv(cfg: Config, s: Load)
    requires Inv(s) && Enabled(cfg, s, Take)
    ensures Inv(Step(cfg, s, Take))
  {
    hide CountersMatch, TenantsMatch, Tally, RecordTenant;
    var t := Step(cfg, s, Take);
    TakeKeepsTenants(s.tenants, s.fates, s.queue[0]);
    TakeKeepsCounters(s.counters, s.fates, s.queue[0]);
    forall i | i in s.queue && i != s.queue[0] ensures i in t.queue {
      var k :| 0 <= k < |s.queue| && s.queue[k] == i;
      assert t.queue[k - 1] == i;
    }
  }

  lemma {:induction false} FinishKeepsInv(cfg: Config, s: Load, sequence: nat, outcome: Fate)
    requires Inv(s) && Enabled(cfg, s, Finish(sequence, outcome))
    ensures Inv(Step(cfg, s, Finish(sequence, outcome)))
  {
    hide CountersMatch, TenantsMatch, Tally, RecordTenant, Count;
    FinishKeepsTenants(s.tenants, s.fates, sequence, outcome);
    FinishKeepsCounters(s.counters, s.fates, sequence, outcome);
  }

  lemma StepKeepsInv(cfg: Config, s: Load, e: Event)
    requires Inv(s)
    ensures Inv(Step(cfg, s, e)) && |Step(cfg, s, e).fates| == |s.fates| && |Step(cfg, s, e).tenants| == |s.tenants|
  {
    hide CountersMatch, TenantsMatch, Tally, Count, CountTenant;
    if Enabled(cfg, s, e) {
      match e {
        case CloseQueue =>
        case Schedule(onTime) => ScheduleKeepsInv(cfg, s, onTime);
        case Take => TakeKeepsInv(cfg, s);
        case Finish(sequence, outcome) => FinishKeepsInv(cfg, s, sequence, outcome);
      }
    }
  }

  lemma StartInv(expected: nat, tenantCount: nat)
    ensures Inv(Start(expected, tenantCount))
  {
    var s := Start(expected, tenantCount);
    PendingTally(s.fates, 0);
    forall f, n: nat, t: nat | n > 0 && f != Pending ensures Tally(s.fates, f, n, t) == 0 {
      TallyNone(s.fates, f, n, t);
    }
    hide Tally, Quota;
  }

  lemma {:induction false} EveryRunKeepsInv(cfg: Config, expected: nat, es: seq<Event>)
    ensures var s := Run(cfg, Start(expected, cfg.tenantCount), es);
      Inv(s) && |s.fates| == expected && |s.tenants| == cfg.tenantCount
  {
    hide Inv, Step;
    if es == [] {
      StartInv(expected, cfg.tenantCount);
    } else {
      EveryRunKeepsInv(cfg, expected, es[..|es| - 1]);
      StepKeepsInv(cfg, Run(cfg, Start(expected, cfg.tenantCount), es[..|es| - 1]), es[|es| - 1]);
    }
  }

  // ---------------------------------------------------------------- theorems

  /**
   At the end of any run, cancelled and late ones included, every request has exactly one final fate and the
   counters say how many have which.
   */
  lemma FinishedRunsBalance(cfg: Config, expected: nat, es: seq<Event>)
    requires Finished(Run(cfg, Start(expected, cfg.tenantCount), es))
    ensures var s := Run(cfg, Start(expected, cfg.tenantCount), es);
      var c := s.counters;
      && c.scheduled == expected && c.scheduled == c.enqueued + c.dropped && c.enqueued == c.started
      && c.started == c.accepted + c.httpErrors + c.networkErrors + c.responseErrors
      && c.acceptedInWindow <= c.accepted
      && |s.fates| == expected && (forall i | 0 <= i < expected :: s.fates[i] == Dropped || IsOutcome(s.fates[i]))
      && CountersMatch(c, s.fates)
  {
    var s := Run(cfg, Start(expected, cfg.tenantCount), es);
    EveryRunKeepsInv(cfg, expected, es);
    hide Run, Step, TenantsMatch;
    forall i | 0 <= i < expected ensures s.fates[i] == Dropped || IsOutcome(s.fates[i]) {
      assert s.fates[i] != Queued;
    }
    TallyNone(s.fates, Pending, 1, 0);
    TallyNone(s.fates, Queued, 1, 0);
    TallyNone(s.fates, Working, 1, 0);
    TallyAll(s.fates);
  }

  /** Each tenant's row counts its own requests: those whose number leaves its index when divided by the tenants. */
  lemma TenantRowsBalance(cfg: Config, expected: nat, es: seq<Event>, t: nat)
    requires Finished(Run(cfg, Start(expected, cfg.tenantCount), es)) && t < cfg.tenantCount <= expected
    ensures var s := Run(cfg, Start(expected, cfg.tenantCount), es);
      && |s.tenants| == cfg.tenantCount
      && var r := s.tenants[t];
      && r.expected == Quota(expected, cfg.tenantCount, t) && r.expected > 0 && r.started <= r.expected
      && r.expected - r.started == Tally(s.fates, Dropped, cfg.tenantCount, t)
      && r.started == r.accepted + r.networkErrors + r.httpErrors + r.responseErrors && r.inWindow <= r.accepted
  {
    var s := Run(cfg, Start(expected, cfg.tenantCount), es);
    var n := cfg.tenantCount;
    EveryRunKeepsInv(cfg, expected, es);
    FinishedRunsBalance(cfg, expected, es);
    hide Run, Step;
    assert TenantMatches(s.tenants[t], s.fates, n, t);
    hide TenantsMatch, CountersMatch;
    TallyNone(s.fates, Working, n, t);
    ShareIsAll(s.fates, n, t);
    QuotaCounts(expected, n, t);
    QuotaPositive(expected, n, t);
  }

  lemma QuotaPositive(expected: nat, n: nat, t: nat)
    requires t < n <= expected
    ensures Quota(expected, n, t) > 0
  {
    DivBounds(expected, n);
  }

  lemma {:induction false} ShareIsAll(fates: seq<Fate>, n: nat, t: nat)
    requires n > t && forall i | 0 <= i < |fates| :: fates[i] == Dropped || IsOutcome(fates[i])
    ensures Tally(fates, Dropped, n, t) + Ended(fates, n, t) == Quota(|fates|, n, t)
  {
    if fates == [] {
      QuotaCounts(0, n, t);
    } else {
      ShareIsAll(fates[..|fates| - 1], n, t);
      QuotaGrows(|fates| - 1, n, t);
    }
  }

  /** The quotas of all tenants make up the whole run. */
  lemma {:induction false} QuotasSumUp(expected: nat, n: nat)
    requires n > 0
    ensures SumQuotas(expected, n, n) == expected
  {
    if expected == 0 {
      ZeroQuotas(n, n);
    } else {
      QuotasSumUp(expected - 1, n);
      DivBounds(expected - 1, n);
      SumGrows(expected - 1, n, n);
    }
  }

  function SumQuotas(expected: nat, n: nat, k: nat): nat
    requires n > 0
  {
    if k == 0 then 0 else SumQuotas(expected, n, k - 1) + Quota(expected, n, k - 1)
  }

  lemma {:induction false} ZeroQuotas(n: nat, k: nat)
    requires n > 0
    ensures SumQuotas(0, n, k) == 0
  {
    DivBounds(0, n);
    if k > 0 { ZeroQuotas(n, k - 1); }
  }

  lemma {:induction false} SumGrows(expected: nat, n: nat, k: nat)
    requires 0 < n && k <= n
    ensures SumQuotas(expected + 1, n, k) == SumQuotas(expected, n, k) + if expected % n < k then 1 else 0
  {
    if k > 0 {
      SumGrows(expected, n, k - 1);
      QuotaGrows(expected, n, k - 1);
    }
  }

  // ---------------------------------------------------------------- the program

  datatype Violation =
    | ScheduleMismatch | GeneratorMismatch | QueueMismatch | RequestMismatch | WindowMismatch
    | TenantMismatch(tenant: nat)

  /** A step of a worker; the others are the producer's. */
  predicate OfWorker(e: Event) { e.Take? || e.Finish? }

  function OfWorkers(es: seq<Event>): seq<Event> {
    if es == [] then []
    else
      var rest := OfWorkers(es[..|es| - 1]);
      if OfWorker(es[|es| - 1]) then rest + [es[|es| - 1]] else rest
  }

  function OfProducer(es: seq<Event>): seq<Event> {
    if es == [] then []
    else
      var rest := OfProducer(es[..|es| - 1]);
      if OfWorker(es[|es| - 1]) then rest else rest + [es[|es| - 1]]
  }

  /** The first k requests are offered in time. */
  function Offers(k: nat): seq<Event> {
    if k == 0 then [] else Offers(k - 1) + [Schedule(true)]
  }

  function Slot(between: seq<seq<Event>>, k: nat): seq<Event> { if k < |between| then between[k] else [] }

  lemma {:induction false} RunConcat(cfg: Config, s: Load, es: seq<Event>, more: seq<Event>)
    ensures Run(cfg, s, es + more) == Run(cfg, Run(cfg, s, es), more)
  {
    if more == [] {
      assert es + more == es;
    } else {
      assert (es + more)[..|es + more| - 1] == es + more[..|more| - 1];
      RunConcat(cfg, s, es, more[..|more| - 1]);
    }
  }

  lemma RunStep(cfg: Config, s: Load, es: seq<Event>, e: Event)
    ensures Run(cfg, s, es + [e]) == Step(cfg, Run(cfg, s, es), e)
    ensures OfProducer(es + [e]) == if OfWorker(e) then OfProducer(es) else OfProducer(es) + [e]
  {
    assert (es + [e])[..|es + [e]| - 1] == es;
  }

  lemma {:induction false} WorkersAreNotProducer(es: seq<Event>, more: seq<Event>)
    ensures OfProducer(es + OfWorkers(more)) == OfProducer(es)
  {
    if more == [] {
      assert es + OfWorkers(more) == es;
    } else {
      WorkersAreNotProducer(es, more[..|more| - 1]);
      if OfWorker(more[|more| - 1]) {
        var rest := OfWorkers(more[..|more| - 1]);
        assert es + OfWorkers(more) == (es + rest) + [more[|more| - 1]];
        assert ((es + rest) + [more[|more| - 1]])[..|es + rest|] == es + rest;
      }
    }
  }

  lemma WorkerStepLeavesProducer(cfg: Config, s: Load, e: Event)
    requires OfWorker(e)
    ensures var t := Step(cfg, s, e); t.next == s.next && t.open == s.open && |t.fates| == |s.fates|
  {
    hide RecordTenant, Count, Total;
  }

  /** Workers move neither the producer nor the queue's state. */
  lemma {:induction false} WorkersLeaveProducer(cfg: Config, s: Load, es: seq<Event>)
    ensures var t := Run(cfg, s, OfWorkers(es)); t.next == s.next && t.open == s.open && |t.fates| == |s.fates|
  {
    hide Run, Step;
    if es == [] {
      NothingYet(cfg, s);
    } else {
      WorkersLeaveProducer(cfg, s, es[..|es| - 1]);
      var rest, e := OfWorkers(es[..|es| - 1]), es[|es| - 1];
      if OfWorker(e) {
        RunStep(cfg, s, rest, e);
        WorkerStepLeavesProducer(cfg, Run(cfg, s, rest), e);
      }
    }
  }

  class LoadGenerator {
    const cfg: Config
    var counters: Counters
    var queue: seq<nat>
    var tenants: seq<Tenant>
    // the evidence: how far the producer is, and what became of each request
    var next: nat
    var open: bool
    var fates: seq<Fate>

    function View(): Load
      reads this
    {
      Load(fates, next, open, queue, counters, tenants)
    }

    constructor (cfg: Config, expected: nat)
      ensures this.cfg == cfg && View() == Start(expected, cfg.tenantCount)
    {
      this.cfg := cfg;
      counters, queue := Counters(0, 0, 0, 0, 0, 0, 0, 0, 0), [];
      next, open, fates, tenants := 0, true, seq(expected, _ => Pending), [];
      new;
      for t := 0 to cfg.tenantCount
        invariant |tenants| == t && View() == Start(expected, cfg.tenantCount).(tenants := tenants)
        invariant forall u | 0 <= u < t :: tenants[u] == NewTenants(cfg.tenantCount, expected)[u]
      {
        var share := expected / cfg.tenantCount;
        if t < expected % cfg.tenantCount { share := share + 1; }
        tenants := tenants + [Tenant(share, 0, 0, 0, 0, 0, 0)];
      }
    }

    /** Offer a request to the bounded queue; without a free place it is dropped. */
    method TryEnqueue(sequence: nat) returns (enqueued: bool)
      requires open && sequence == next < |fates|
      modifies this
      ensures enqueued == (|old(queue)| < cfg.capacity)
      ensures View() == Step(cfg, old(View()), Schedule(true))
    {
      counters := counters.(scheduled := counters.scheduled + 1);
      enqueued := |queue| < cfg.capacity;
      if enqueued {
        queue, counters := queue + [sequence], counters.(enqueued := counters.enqueued + 1);
      } else {
        counters := counters.(dropped := counters.dropped + 1);
      }
      fates, next := fates[sequence := if enqueued then Queued else Dropped], next + 1;
    }

    /** The request is late or the run cancelled: it and all later ones are dropped. */
    method DropRemaining()
      requires open && next < |fates|
      modifies this
      ensures View() == Step(cfg, old(View()), Schedule(false))
    {
      var remaining := |fates| - next;
      counters := counters.(scheduled := counters.scheduled + remaining, dropped := counters.dropped + remaining);
      fates, next := DropFrom(fates, next), |fates|;
    }

    method RecordForTenant(sequence: nat, kind: Fate)
      modifies this`tenants
      ensures tenants == RecordTenant(old(tenants), sequence, kind)
    {
      if |tenants| == 0 { return; }
      var i := sequence % |tenants|;
      tenants := tenants[i := CountTenant(tenants[i], kind)];
    }

    /** A worker receives the oldest request. */
    method TakeJob() returns (sequence: nat)
      requires Enabled(cfg, View(), Take)
      modifies this
      ensures sequence == old(queue)[0] && View() == Step(cfg, old(View()), Take)
    {
      hide Total, RecordTenant;
      sequence := queue[0];
      fates, queue := fates[sequence := Working], queue[1..];
      RecordForTenant(sequence, Working);
      counters := counters.(started := counters.started + 1);
    }

    /** A worker counts the outcome of its request. */
    method FinishJob(sequence: nat, outcome: Fate)
      requires Enabled(cfg, View(), Finish(sequence, outcome))
      modifies this
      ensures View() == Step(cfg, old(View()), Finish(sequence, outcome))
    {
      hide RecordTenant;
      match outcome {
        case ResponseError => counters := counters.(responseErrors := counters.responseErrors + 1);
        case NetworkError => counters := counters.(networkErrors := counters.networkErrors + 1);
        case Accepted(inWindow) =>
          counters := counters.(accepted := counters.accepted + 1);
          if inWindow { counters := counters.(acceptedInWindow := counters.acceptedInWindow + 1); }
        case HttpError => counters := counters.(httpErrors := counters.httpErrors + 1);
        case _ =>
      }
      fates := fates[sequence := outcome];
      RecordForTenant(sequence, outcome);
    }

    /** The workers go on for a while. */
    method Workers(es: seq<Event>, ghost start: Load, ghost steps: seq<Event>) returns (ghost longer: seq<Event>)
      requires View() == Run(cfg, start, steps)
      modifies this
      ensures longer == steps + OfWorkers(es) && View() == Run(cfg, start, longer)
      ensures next == old(next) && open == old(open) && |fates| == |old(fates)|
    {
      hide Run;
      RunConcat(cfg, start, steps, OfWorkers(es));
      WorkersLeaveProducer(cfg, View(), es);
      longer := steps + OfWorkers(es);
      var t := Run(cfg, View(), OfWorkers(es));
      fates, next, open, queue, counters, tenants := t.fates, t.next, t.open, t.queue, t.counters, t.tenants;
    }

    /**
     The producer, with the workers running between its steps: each request waits for its time and is offered to the
     queue; the first that comes late or after a cancellation drops itself and all later ones. Then the queue is closed.
     */
    method Produce(onTime: seq<bool>, between: seq<seq<Event>>) returns (late: nat, ghost steps: seq<Event>)
      requires open && next == 0 && |onTime| == |fates|
      modifies this
      ensures View() == Run(cfg, old(View()), steps) && !open && next == |fates| == |onTime|
      ensures late <= |onTime| && (late < |onTime| ==> !onTime[late]) && forall j | 0 <= j < late :: onTime[j]
      ensures OfProducer(steps) == Offers(late) + (if late < |onTime| then [Schedule(false)] else []) + [CloseQueue]
    {
      hide Run, OfProducer, OfWorkers;
      ghost var start := View();
      steps := [];
      NothingYet(cfg, start);
      var sequence := 0;
      while sequence < |onTime| && onTime[sequence]
        invariant sequence == next <= |onTime| == |fates| && open && View() == Run(cfg, start, steps)
        invariant forall j | 0 <= j < sequence :: onTime[j]
        invariant OfProducer(steps) == Offers(sequence)
      {
        WorkersAreNotProducer(steps, Slot(between, sequence));
        steps := Workers(Slot(between, sequence), start, steps);
        RunStep(cfg, start, steps, Schedule(true));
        var accepted := TryEnqueue(sequence);
        steps := steps + [Schedule(true)];
        sequence := sequence + 1;
      }
      late := sequence;
      if sequence < |onTime| {
        RunStep(cfg, start, steps, Schedule(false));
        DropRemaining();
        steps := steps + [Schedule(false)];
      }
      WorkersAreNotProducer(steps, Slot(between, sequence));
      steps := Workers(Slot(between, sequence), start, steps);
      RunStep(cfg, start, steps, CloseQueue);
      open := false;
      steps := steps + [CloseQueue];
    }

    /** A whole run: produce, close, let the workers drain the queue. What it reports when they are done balances. */
    static method RunLoad(cfg: Config, onTime: seq<bool>, between: seq<seq<Event>>, drain: seq<Event>)
      returns (counters: Counters, tenants: seq<Tenant>, done: bool)
      ensures done ==> Balanced(counters, |onTime|)
      ensures done && cfg.tenantCount <= |onTime| ==> forall t | 0 <= t < |tenants| :: TenantBalanced(tenants[t])
    {
      hide Run, Balanced, TenantBalanced, Start;
      var g := new LoadGenerator(cfg, |onTime|);
      ghost var start := g.View();
      StartFates(|onTime|, cfg.tenantCount);
      var late, steps := g.Produce(onTime, between);
      ghost var longer := g.Workers(drain, start, steps);
      done := g.queue == [] && forall i | 0 <= i < |g.fates| :: g.fates[i] != Working;
      counters, tenants := g.counters, g.tenants;
      if done { FinishedRunsPassTheGates(cfg, |onTime|, longer); }
    }
  }

  lemma NothingYet(cfg: Config, s: Load)
    ensures Run(cfg, s, []) == s && OfProducer([]) == Offers(0) == []
  {}

  lemma StartFates(expected: nat, tenantCount: nat)
    ensures var s := Start(expected, tenantCount); s.open && s.next == 0 && |s.fates| == expected
  {}

  predicate Balanced(c: Counters, expected: nat) {
    && c.scheduled == expected && c.scheduled == c.enqueued + c.dropped && c.enqueued == c.started
    && c.started == c.accepted + c.httpErrors + c.networkErrors + c.responseErrors && c.acceptedInWindow <= c.accepted
  }

  predicate TenantBalanced(r: Tenant) {
    r.expected != 0 && r.started <= r.expected && r.inWindow <= r.accepted
    && r.started == r.accepted + r.networkErrors + r.httpErrors + r.responseErrors
  }

  /** The accounting gates of the evaluation. */
  method EvaluateAccounting(c: Counters, expected: nat, tenants: seq<Tenant>) returns (violations: seq<Violation>)
    ensures violations == [] <==> Balanced(c, expected) && forall t | 0 <= t < |tenants| :: TenantBalanced(tenants[t])
  {
    violations := [];
    if c.scheduled != expected { violations := violations + [ScheduleMismatch]; }
    if c.scheduled != c.enqueued + c.dropped { violations := violations + [GeneratorMismatch]; }
    if c.enqueued != c.started { violations := violations + [QueueMismatch]; }
    if c.started != c.accepted + c.httpErrors + c.networkErrors + c.responseErrors {
      violations := violations + [RequestMismatch];
    }
    if c.acceptedInWindow > c.accepted { violations := violations + [WindowMismatch]; }
    for t := 0 to |tenants|
      invariant violations == [] <==> Balanced(c, expected) && forall u | 0 <= u < t :: TenantBalanced(tenants[u])
    {
      var r := tenants[t];
      if r.expected == 0 || r.started > r.expected || r.inWindow > r.accepted
         || r.started != r.accepted + r.networkErrors + r.httpErrors + r.responseErrors {
        violations := violations + [TenantMismatch(t)];
      }
    }
  }

  /** The accounting gates never fire on a finished run; those of the tenants when the run covers every tenant. */
  lemma FinishedRunsPassTheGates(cfg: Config, expected: nat, es: seq<Event>)
    requires Finished(Run(cfg, Start(expected, cfg.tenantCount), es))
    ensures var s := Run(cfg, Start(expected, cfg.tenantCount), es);
      && Balanced(s.counters, expected)
      && (cfg.tenantCount <= expected ==> forall t | 0 <= t < |s.tenants| :: TenantBalanced(s.tenants[t]))
  {
    var s := Run(cfg, Start(expected, cfg.tenantCount), es);
    FinishedRunsBalance(cfg, expected, es);
    EveryRunKeepsInv(cfg, expected, es);
    if cfg.tenantCount <= expected {
      forall t | 0 <= t < |s.tenants| ensures TenantBalanced(s.tenants[t]) {
        TenantRowsBalance(cfg, expected, es, t);
      }
    }
  }
}
