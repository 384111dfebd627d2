/**
 The token bucket script and the layered check on top of it. Amounts of tokens are real numbers; times are
 whole milliseconds.
 */
module TokenBucket {
  import opened Wrappers

  datatype Bucket = Bucket(tokens: real, ts: int)
  datatype Decision = Decision(allowed: bool, remaining: int, retryMs: int)
  datatype Limit = Limit(rate: real, burst: real)

  predicate ValidLimit(l: Limit) { l.rate > 0.0 && l.burst >= 0.0 }

  function Ceil(x: real): int { -((-x).Floor) }

  function Min(x: real, y: real): real { if x < y then x else y }

  /** What `ms` milliseconds add. */
  function Refill(l: Limit, ms: int): real { ms as real / 1000.0 * l.rate }

  /** The tokens at `now`; a key that does not exist is a full bucket. */
  function Available(l: Limit, stored: Option<Bucket>, now: int): real {
    match stored
    case None => l.burst
    case Some(b) => Min(l.burst, b.tokens + Refill(l, now - b.ts))
  }

  function Decide(l: Limit, stored: Option<Bucket>, now: int, cost: real): (Bucket, Decision)
    requires ValidLimit(l)
  {
    var tokens := Available(l, stored, now);
    if tokens >= cost then (Bucket(tokens - cost, now), Decision(true, (tokens - cost).Floor, 0))
    else (Bucket(tokens, now), Decision(false, tokens.Floor, Ceil((cost - tokens) / l.rate * 1000.0)))
  }

  /** How long an idle key is kept. */
  function KeepMs(l: Limit): int
    requires ValidLimit(l)
  {
    var twice := Ceil(l.burst / l.rate * 2000.0);
    if twice > 60000 then twice else 60000
  }

  // ---------------------------------------------------------------- one key over time

  /** A request, and whether the idle key was evicted before it. */
  datatype Request = Request(now: int, cost: real, evicted: bool)

  function After(l: Limit, stored: Option<Bucket>, r: Request): Bucket
    requires ValidLimit(l)
  {
    Decide(l, if r.evicted then None else stored, r.now, r.cost).0
  }

  function Answer(l: Limit, stored: Option<Bucket>, r: Request): Decision
    requires ValidLimit(l)
  {
    Decide(l, if r.evicted then None else stored, r.now, r.cost).1
  }

  function State(l: Limit, rs: seq<Request>): Option<Bucket>
    requires ValidLimit(l)
  {
    if rs == [] then None else Some(After(l, State(l, rs[..|rs| - 1]), rs[|rs| - 1]))
  }

  /** Time does not run backwards, costs are not negative, and only keys idle for their time are evicted. */
  predicate Plausible(l: Limit, rs: seq<Request>)
    requires ValidLimit(l)
  {
    && (forall i | 0 <= i < |rs| :: rs[i].cost >= 0.0)
    && (forall i | 0 < i < |rs| ::
      rs[i - 1].now <= rs[i].now
      && (rs[i].evicted ==> rs[i].now - rs[i - 1].now >= KeepMs(l)))
  }

  function Decisions(l: Limit, rs: seq<Request>): seq<Decision>
    requires ValidLimit(l)
  {
    if rs == [] then [] else Decisions(l, rs[..|rs| - 1]) + [Answer(l, State(l, rs[..|rs| - 1]), rs[|rs| - 1])]
  }

  function Kept(rs: seq<Request>): seq<Request> {
    seq(|rs|, i requires 0 <= i < |rs| => rs[i].(evicted := false))
  }

  lemma {:induction false} CeilIs(x: real, n: int)
    ensures x <= Ceil(x) as real < x + 1.0
    ensures n as real >= x <==> n >= Ceil(x)
  {}

  lemma {:induction false} RefillGrows(l: Limit, ms: int)
    requires ValidLimit(l) && ms >= 0
    ensures Refill(l, ms) >= 0.0
  {}

  lemma {:induction false} RefillAdds(l: Limit, a: int, b: int)
    ensures Refill(l, a + b) == Refill(l, a) + Refill(l, b)
  {
    assert (a + b) as real == a as real + b as real;
    assert (a as real + b as real) / 1000.0 * l.rate == a as real / 1000.0 * l.rate + b as real / 1000.0 * l.rate;
  }

  lemma {:induction false} PlausiblePrefix(l: Limit, rs: seq<Request>)
    requires ValidLimit(l) && Plausible(l, rs) && rs != []
    ensures Plausible(l, rs[..|rs| - 1])
  {
    var init := rs[..|rs| - 1];
    forall i | 0 < i < |init| ensures init[i - 1].now <= init[i].now
      && (init[i].evicted ==> init[i].now - init[i - 1].now >= KeepMs(l)) {
      assert init[i] == rs[i] && init[i - 1] == rs[i - 1];
    }
  }

  /** The stored amount always lies between nothing and the burst. */
  lemma {:induction false} TokensStayInRange(l: Limit, rs: seq<Request>)
    requires ValidLimit(l) && Plausible(l, rs)
    ensures State(l, rs).Some? <==> rs != []
    ensures rs != [] ==> 0.0 <= State(l, rs).value.tokens <= l.burst && State(l, rs).value.ts == rs[|rs| - 1].now
  {
    if rs != [] {
      var n := |rs| - 1;
      PlausiblePrefix(l, rs);
      TokensStayInRange(l, rs[..n]);
      if n > 0 {
        assert rs[n - 1].now <= rs[n].now;
        RefillGrows(l, rs[n].now - rs[n - 1].now);
      }
    }
  }

  predicate InRange(l: Limit, b: Bucket) { 0.0 <= b.tokens <= l.burst }

  /** The bucket can pay for the time the clock went back; a clock that went on costs nothing. */
  predicate Covers(l: Limit, b: Bucket, now: int) { Refill(l, b.ts - now) <= b.tokens }

  /** One request leaves the amount in range exactly when the bucket covers the step of the clock. */
  lemma {:induction false} InRangeIffCovered(l: Limit, b: Bucket, now: int, cost: real)
    requires ValidLimit(l) && InRange(l, b) && cost >= 0.0
    ensures InRange(l, Decide(l, Some(b), now, cost).0) <==> Covers(l, b, now)
  {
    RefillAdds(l, b.ts - now, now - b.ts);
    NoTimeNoTokens(l);
    hide Refill;
  }

  /** Every clock step of the requests is paid for by the bucket it finds. */
  predicate AllCovered(l: Limit, rs: seq<Request>)
    requires ValidLimit(l)
  {
    forall k | 0 < k < |rs| && !rs[k].evicted :: State(l, rs[..k]).Some?
      && Covers(l, State(l, rs[..k]).value, rs[k].now)
  }

  predicate AllInRange(l: Limit, rs: seq<Request>)
    requires ValidLimit(l)
  {
    forall k | 0 < k <= |rs| :: State(l, rs[..k]).Some? && InRange(l, State(l, rs[..k]).value)
  }

  lemma {:induction false} OneMoreInRange(l: Limit, rs: seq<Request>)
    requires ValidLimit(l) && rs != []
    ensures AllInRange(l, rs) <==> AllInRange(l, rs[..|rs| - 1]) && InRange(l, State(l, rs).value)
  {
    hide State, InRange;
    var init := rs[..|rs| - 1];
    assert forall k | 0 <= k <= |init| :: init[..k] == rs[..k];
    assert rs[..|rs|] == rs;
    assert State(l, rs).Some? by { StateIsSome(l, rs); }
  }

  lemma {:induction false} StateIsSome(l: Limit, rs: seq<Request>)
    requires ValidLimit(l)
    ensures State(l, rs) == if rs == [] then None else Some(After(l, State(l, rs[..|rs| - 1]), rs[|rs| - 1]))
  {
    hide After;
  }

  lemma {:induction false} OneMoreCovered(l: Limit, rs: seq<Request>)
    requires ValidLimit(l) && |rs| > 1
    ensures var n := |rs| - 1;
      AllCovered(l, rs) <==> AllCovered(l, rs[..n]) && (rs[n].evicted || Covers(l, State(l, rs[..n]).value, rs[n].now))
  {
    hide State, Covers;
    var n := |rs| - 1;
    var init := rs[..n];
    assert forall k | 0 <= k <= n :: init[..k] == rs[..k];
    assert forall k | 0 <= k < n :: init[k] == rs[k];
    StateIsSome(l, init);
  }

  /**
   Over any requests, with clocks that may go back, the amount never leaves its range exactly when every step of
   the clock is covered: going back costs what going on would have brought.
   */
  lemma {:induction false} RunsStayInRangeIffCovered(l: Limit, rs: seq<Request>)
    requires ValidLimit(l) && forall r | r in rs :: r.cost >= 0.0
    ensures AllInRange(l, rs) <==> AllCovered(l, rs)
  {
    if rs != [] {
      var n := |rs| - 1;
      RunsStayInRangeIffCovered(l, rs[..n]);
      OneMoreInRange(l, rs);
      StateIsSome(l, rs);
      StateIsSome(l, rs[..n]);
      if n > 0 { OneMoreCovered(l, rs); }
      assert rs[n] in rs;
      if n > 0 && !rs[n].evicted && AllInRange(l, rs[..n]) {
        assert rs[..n][..n] == rs[..n];
        InRangeIffCovered(l, State(l, rs[..n]).value, rs[n].now, rs[n].cost);
      }
      hide AllInRange, AllCovered, State, Covers, Refill;
    }
  }

  /** A full bucket emptied at second 1 owes ten tokens once another clock says second 0. */
  lemma {:induction false} BackwardClocksOverdraw()
    ensures State(Limit(10.0, 1.0), [Request(1000, 1.0, false), Request(0, 1.0, false)]) == Some(Bucket(-10.0, 0))
  {
    var l, first := Limit(10.0, 1.0), Request(1000, 1.0, false);
    assert [first, Request(0, 1.0, false)][..1] == [first];
    assert State(l, [first]) == Some(Bucket(0.0, 1000)) by { assert [first][..0] == []; }
    assert Refill(l, -1000) == -10.0;
  }

  // ---------------------------------------------------------------- how much gets through

  /** The cost admitted by requests i..j-1. */
  function Admitted(l: Limit, rs: seq<Request>, i: nat, j: nat): real
    requires ValidLimit(l) && i <= j <= |rs|
  {
    if i == j then 0.0
    else Admitted(l, rs, i, j - 1) + if Answer(l, State(l, rs[..j - 1]), rs[j - 1]).allowed then rs[j - 1].cost else 0.0
  }

  lemma {:induction false} PlausibleTake(l: Limit, rs: seq<Request>, k: nat)
    requires ValidLimit(l) && Plausible(l, rs) && k <= |rs|
    ensures Plausible(l, rs[..k])
  {
    var init := rs[..k];
    forall i | 0 < i < k ensures init[i - 1].now <= init[i].now
      && (init[i].evicted ==> init[i].now - init[i - 1].now >= KeepMs(l)) {
      assert init[i] == rs[i] && init[i - 1] == rs[i - 1];
    }
  }

  /** An evicted key would have been full again. */
  lemma {:induction false} EvictionFindsFull(l: Limit, b: Bucket, now: int)
    requires ValidLimit(l) && b.tokens >= 0.0 && now - b.ts >= KeepMs(l)
    ensures Available(l, Some(b), now) == Available(l, None, now)
  {
    var ms := now - b.ts;
    CeilIs(l.burst / l.rate * 2000.0, ms);
    assert ms as real >= l.burst / l.rate * 2000.0;
    EnoughTime(l, ms as real);
  }

  lemma {:induction false} EnoughTime(l: Limit, ms: real)
    requires ValidLimit(l) && ms >= l.burst / l.rate * 2000.0
    ensures ms / 1000.0 * l.rate >= l.burst
  {
    var x := l.burst / l.rate;
    assert x * l.rate == l.burst;
    assert x >= 0.0;
    assert ms / 1000.0 >= x;
    assert (ms / 1000.0 - x) * l.rate >= 0.0;
  }

  /** What a request leaves and what it takes make up what it found. */
  lemma {:induction false} LeftAndTaken(l: Limit, stored: Option<Bucket>, r: Request)
    requires ValidLimit(l)
    ensures After(l, stored, r).tokens + (if Answer(l, stored, r).allowed then r.cost else 0.0)
         == Available(l, if r.evicted then None else stored, r.now)
  {
    hide Refill;
  }

  /** What passed since request i, and what is left, come from one burst and the time since. */
  lemma {:induction false} PassedAndLeft(l: Limit, rs: seq<Request>, i: nat, j: nat)
    requires ValidLimit(l) && Plausible(l, rs) && i < j <= |rs|
    ensures State(l, rs[..j]).Some?
    ensures Admitted(l, rs, i, j) + State(l, rs[..j]).value.tokens <= l.burst + Refill(l, rs[j - 1].now - rs[i].now)
    decreases j
  {
    hide Refill, KeepMs, After, Answer;
    var k := j - 1;
    var r := rs[k];
    assert rs[..j][..k] == rs[..k] && rs[..j][k] == r;
    PlausibleTake(l, rs, k);
    TokensStayInRange(l, rs[..k]);
    var stored := State(l, rs[..k]);
    LeftAndTaken(l, stored, r);
    if k == i {
      NoTimeNoTokens(l);
      assert Admitted(l, rs, i, i) == 0.0;
    } else {
      PassedAndLeft(l, rs, i, k);
      RefillAdds(l, rs[k - 1].now - rs[i].now, r.now - rs[k - 1].now);
      assert stored.value.ts == rs[k - 1].now && rs[k - 1].now <= r.now;
      RefillGrows(l, r.now - rs[k - 1].now);
      if r.evicted { EvictionFindsFull(l, stored.value, r.now); }
    }
  }

  /** In any stretch of requests no more is admitted than the burst and what the time between them refills. */
  lemma {:induction false} AdmissionIsBounded(l: Limit, rs: seq<Request>, i: nat, j: nat)
    requires ValidLimit(l) && Plausible(l, rs) && i < j <= |rs|
    ensures Admitted(l, rs, i, j) <= l.burst + Refill(l, rs[j - 1].now - rs[i].now)
  {
    PassedAndLeft(l, rs, i, j);
    PlausibleTake(l, rs, j);
    TokensStayInRange(l, rs[..j]);
  }

  /** Evictions of idle keys change no decision. */
  lemma {:induction false} EvictionsDoNotMatter(l: Limit, rs: seq<Request>)
    requires ValidLimit(l) && Plausible(l, rs)
    ensures State(l, Kept(rs)) == State(l, rs) && Decisions(l, Kept(rs)) == Decisions(l, rs)
  {
    if rs != [] {
      var n := |rs| - 1;
      PlausiblePrefix(l, rs);
      EvictionsDoNotMatter(l, rs[..n]);
      assert Kept(rs)[..n] == Kept(rs[..n]);
      EvictionIsUnseen(l, rs);
      hide Plausible, After, Answer;
    }
  }

  lemma {:induction false} EvictionIsUnseen(l: Limit, rs: seq<Request>)
    requires ValidLimit(l) && Plausible(l, rs) && rs != []
    ensures var stored, r := State(l, rs[..|rs| - 1]), rs[|rs| - 1];
      After(l, stored, r.(evicted := false)) == After(l, stored, r)
        && Answer(l, stored, r.(evicted := false)) == Answer(l, stored, r)
  {
    hide Refill;
    var n := |rs| - 1;
    PlausiblePrefix(l, rs);
    TokensStayInRange(l, rs[..n]);
    if n > 0 && rs[n].evicted {
      assert rs[n].now - rs[n - 1].now >= KeepMs(l);
      EvictionFindsFull(l, State(l, rs[..n]).value, rs[n].now);
    }
  }

  /**
   After a rejection the same request, alone, is admitted exactly when it does not cost more than a burst and
   the reported wait has passed.
   */
  lemma {:induction false} RetryAfterIsExact(l: Limit, stored: Option<Bucket>, now: int, cost: real, later: int)
    requires ValidLimit(l) && later >= now
    requires !Decide(l, stored, now, cost).1.allowed
    ensures var (b, d) := Decide(l, stored, now, cost);
      Decide(l, Some(b), later, cost).1.allowed <==> cost <= l.burst && later - now >= d.retryMs
  {
    var tokens := Available(l, stored, now);
    var wait := (cost - tokens) / l.rate * 1000.0;
    CeilIs(wait, later - now);
    WaitFills(l, cost - tokens, later - now);
  }

  lemma {:induction false} WaitFills(l: Limit, missing: real, ms: int)
    requires ValidLimit(l)
    ensures Refill(l, ms) >= missing <==> ms as real >= missing / l.rate * 1000.0
  {
    var x := missing / l.rate;
    assert x * l.rate == missing;
    var y := ms as real / 1000.0;
    assert (y - x) * l.rate == y * l.rate - missing;
    assert y >= x <==> ms as real >= x * 1000.0;
    SignOfProduct(y - x, l.rate);
  }

  lemma {:induction false} SignOfProduct(x: real, y: real)
    requires y > 0.0
    ensures x * y >= 0.0 <==> x >= 0.0
  {}

  // ---------------------------------------------------------------- layers

  datatype Layer = Layer(name: string, key: string, limit: Limit)
  datatype Verdict = Verdict(allowed: bool, limit: real, remaining: int, retryAfterSec: int, layer: string)

  function Stored(buckets: map<string, Bucket>, key: string): Option<Bucket> {
    if key in buckets then Some(buckets[key]) else None
  }

  /** The buckets after the layers were asked in turn. */
  function AfterLayers(buckets: map<string, Bucket>, layers: seq<Layer>, now: int): map<string, Bucket>
    requires forall l | l in layers :: ValidLimit(l.limit)
  {
    if layers == [] then buckets
    else
      var before := AfterLayers(buckets, layers[..|layers| - 1], now);
      var l := layers[|layers| - 1];
      assert l in layers;
      before[l.key := Decide(l.limit, Stored(before, l.key), now, 1.0).0]
  }

  /** What the i-th layer answers when it is its turn. */
  function LayerAnswer(buckets: map<string, Bucket>, layers: seq<Layer>, now: int, i: nat): Decision
    requires i < |layers| && forall l | l in layers :: ValidLimit(l.limit)
  {
    Decide(layers[i].limit, Stored(AfterLayers(buckets, layers[..i], now), layers[i].key), now, 1.0).1
  }

  function VerdictOf(l: Layer, d: Decision): Verdict {
    var seconds := Ceil(d.retryMs as real / 1000.0);
    Verdict(d.allowed, l.limit.rate, d.remaining, if seconds > 1 then seconds else 1, l.name)
  }

  /** Layers 0..k-1 admitted. */
  predicate AdmittedBy(buckets: map<string, Bucket>, layers: seq<Layer>, now: int, k: nat)
    requires k <= |layers| && forall l | l in layers :: ValidLimit(l.limit)
  {
    forall i | 0 <= i < k :: LayerAnswer(buckets, layers, now, i).allowed
  }

  /** The first layer with the fewest tokens left. */
  predicate Tightest(buckets: map<string, Bucket>, layers: seq<Layer>, now: int, k: nat, m: nat)
    requires m < k <= |layers| && forall l | l in layers :: ValidLimit(l.limit)
  {
    && (forall i | 0 <= i < k :: LayerAnswer(buckets, layers, now, m).remaining <= LayerAnswer(buckets, layers, now,
      i).remaining)
    && (forall i | 0 <= i < m :: LayerAnswer(buckets, layers, now, m).remaining < LayerAnswer(buckets, layers, now,
      i).remaining)
  }

  class RateLimiter {
    var buckets: map<string, Bucket>

    /** The script for one key. */
    method TakeTokens(key: string, limit: Limit, now: int, cost: real) returns (d: Decision)
      requires ValidLimit(limit)
      modifies this
      ensures buckets == old(buckets)[key := Decide(limit, Stored(old(buckets), key), now, cost).0]
      ensures d == Decide(limit, Stored(old(buckets), key), now, cost).1
    {
      var tokens, ts := limit.burst, now;
      if key in buckets { tokens, ts := buckets[key].tokens, buckets[key].ts; }
      NoTimeNoTokens(limit);
      hide Refill;
      tokens := Min(limit.burst, tokens + Refill(limit, now - ts));
      assert tokens == Available(limit, Stored(buckets, key), now);
      var allowed, retryMs := false, 0;
      if tokens >= cost {
        tokens, allowed := tokens - cost, true;
      } else {
        retryMs := Ceil((cost - tokens) / limit.rate * 1000.0);
      }
      buckets := buckets[key := Bucket(tokens, now)];
      d := Decision(allowed, tokens.Floor, retryMs);
    }

    /**
     The layers are asked in turn. The first that refuses ends the check; earlier ones keep what they took and
     later ones are not asked. When all admit, the answer is that of the tightest.
     */
    method Check(layers: seq<Layer>, now: int) returns (verdict: Verdict, ghost asked: nat)
      requires forall l | l in layers :: ValidLimit(l.limit)
      modifies this
      ensures asked <= |layers| && buckets == AfterLayers(old(buckets), layers[..asked], now)
      ensures verdict.allowed <==> asked == |layers| && AdmittedBy(old(buckets), layers, now, asked)
      ensures !verdict.allowed ==> (
        && asked > 0 && AdmittedBy(old(buckets), layers, now, asked - 1)
        && !LayerAnswer(old(buckets), layers, now, asked - 1).allowed
        && verdict == VerdictOf(layers[asked - 1], LayerAnswer(old(buckets), layers, now, asked - 1)))
      ensures verdict.allowed ==> if layers == [] then verdict == Verdict(true, 0.0, 0, 0, "none") else
        exists m | 0 <= m < |layers| :: Tightest(old(buckets), layers, now, |layers|, m)
          && verdict == VerdictOf(layers[m], LayerAnswer(old(buckets), layers, now, m))
    {
      hide Decide, VerdictOf, AfterLayers, LayerAnswer, Tightest, AdmittedBy;
      ghost var before := buckets;
      var tightest: Option<Verdict> := None;
      ghost var m := 0;
      asked := 0;
      NoLayersYet(before, layers, now);
      for i := 0 to |layers|
        invariant asked == i && buckets == AfterLayers(before, layers[..i], now)
        invariant AdmittedBy(before, layers, now, i)
        invariant i == 0 ==> tightest == None
        invariant i > 0 ==>
          m < i && Tightest(before, layers, now, i, m)
          && tightest == Some(VerdictOf(layers[m], LayerAnswer(before, layers, now, m)))
      {
        assert layers[i] in layers;
        OneMoreLayer(before, layers, now, i);
        if i > 0 { TightestStep(before, layers, now, i, m); }
        var d := TakeTokens(layers[i].key, layers[i].limit, now, 1.0);
        verdict := VerdictOf(layers[i], d);
        VerdictFields(layers[i], d);
        asked := i + 1;
        if !verdict.allowed { return; }
        if i > 0 { VerdictFields(layers[m], LayerAnswer(before, layers, now, m)); }
        if tightest == None || verdict.remaining < tightest.value.remaining {
          tightest, m := Some(verdict), i;
        }
      }
      if |layers| > 0 {
        VerdictFields(layers[m], LayerAnswer(before, layers, now, m));
        AdmittedAt(before, layers, now, m);
      }
      verdict := if tightest.Some? then tightest.value else Verdict(true, 0.0, 0, 0, "none");
    }
  }

  lemma {:induction false} NoLayersYet(buckets: map<string, Bucket>, layers: seq<Layer>, now: int)
    requires forall l | l in layers :: ValidLimit(l.limit)
    ensures AfterLayers(buckets, layers[..0], now) == buckets && AdmittedBy(buckets, layers, now, 0)
  {}

  lemma {:induction false} OneMoreLayer(buckets: map<string, Bucket>, layers: seq<Layer>, now: int, i: nat)
    requires i < |layers| && forall l | l in layers :: ValidLimit(l.limit)
    ensures var before := AfterLayers(buckets, layers[..i], now);
      && AfterLayers(buckets, layers[..i + 1], now)
        == before[layers[i].key := Decide(layers[i].limit, Stored(before, layers[i].key), now, 1.0).0]
      && LayerAnswer(buckets, layers, now, i) == Decide(layers[i].limit, Stored(before, layers[i].key), now, 1.0).1
    ensures AdmittedBy(buckets, layers, now, i + 1) <==>
      AdmittedBy(buckets, layers, now, i)
      && LayerAnswer(buckets, layers, now, i).allowed
    ensures i == 0 ==> Tightest(buckets, layers, now, 1, 0)
  {
    hide Decide;
    assert layers[..i + 1][..i] == layers[..i];
  }

  lemma {:induction false} AdmittedAt(buckets: map<string, Bucket>, layers: seq<Layer>, now: int, m: nat)
    requires m < |layers| && (forall l | l in layers :: ValidLimit(l.limit))
      && AdmittedBy(buckets, layers, now, |layers|)
    ensures LayerAnswer(buckets, layers, now, m).allowed
  {}

  lemma {:induction false} TightestStep(buckets: map<string, Bucket>, layers: seq<Layer>, now: int, i: nat, m: nat)
    requires m < i < |layers| && forall l | l in layers :: ValidLimit(l.limit)
    requires Tightest(buckets, layers, now, i, m)
    ensures if LayerAnswer(buckets, layers, now, i).remaining < LayerAnswer(buckets, layers, now, m).remaining
      then Tightest(buckets, layers, now, i + 1, i) else Tightest(buckets, layers, now, i + 1, m)
  {
    hide LayerAnswer;
  }

  lemma {:induction false} NoTimeNoTokens(l: Limit)
    ensures Refill(l, 0) == 0.0
  {}

  lemma {:induction false} VerdictFields(l: Layer, d: Decision)
    ensures VerdictOf(l, d).allowed == d.allowed && VerdictOf(l, d).remaining == d.remaining
  {}
}
