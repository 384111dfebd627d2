/** The load generator's logarithmic latency histogram. Durations are nanoseconds. */
module LatencyHistogram {
  import opened Arithmetic

  const MICROSECOND := 1000
  const LATENCY_LIMIT := 60_000_000_000
  const BUCKETS: nat := 18 * 1024

  function Pow2(k: nat): nat { if k == 0 then 1 else 2 * Pow2(k - 1) }

  function BitLength(n: nat): nat { if n == 0 then 0 else 1 + BitLength(n / 2) }

  function ShiftOf(us: nat): nat { if BitLength(us) > 11 then BitLength(us) - 11 else 0 }

  function LatencyIndex(us: nat): nat {
    var shift := ShiftOf(us);
    PowPositive(shift);
    shift * 1024 + us / Pow2(shift)
  }

  function UpperBoundMicros(index: nat): nat {
    if index < 2048 then index
    else
      PowPositive(index / 1024 - 1);
      (index % 1024 + 1025) * Pow2(index / 1024 - 1) - 1
  }

  function LatencyUpperBound(index: nat): nat { UpperBoundMicros(index) * MICROSECOND }

  /** Whole microseconds, rounded up. */
  function Micros(d: nat): nat { (d + MICROSECOND - 1) / MICROSECOND }

  function BucketOf(d: nat): nat { LatencyIndex(Micros(d)) }

  // ---------------------------------------------------------------- the bucket of one duration

  lemma {:induction false} PowPositive(k: nat)
    ensures Pow2(k) >= 1
  {
    if k > 0 { PowPositive(k - 1); }
  }

  lemma {:induction false} PowGrows(j: nat, k: nat)
    requires j <= k
    ensures Pow2(j) <= Pow2(k)
    decreases k
  {
    if j < k {
      PowGrows(j, k - 1);
      PowPositive(k - 1);
    }
  }

  lemma PowGrowsIf(j: nat, k: nat)
    ensures j <= k ==> Pow2(j) <= Pow2(k)
  {
    if j <= k { PowGrows(j, k); }
  }

  lemma {:induction false} BitLengthIs(n: nat)
    requires n > 0
    ensures BitLength(n) >= 1 && Pow2(BitLength(n) - 1) <= n < Pow2(BitLength(n))
  {
    if n > 1 { BitLengthIs(n / 2); }
  }

  lemma {:induction false} PowAdds(a: nat, b: nat)
    ensures Pow2(a + b) == Pow2(a) * Pow2(b)
  {
    if a > 0 { PowAdds(a - 1, b); }
  }

  /** Above 2047 microseconds the shift leaves eleven bits, the first of them set. */
  lemma ElevenBits(us: nat)
    requires ShiftOf(us) > 0
    ensures Pow2(ShiftOf(us)) >= 1 && 1024 <= us / Pow2(ShiftOf(us)) < 2048
  {
    var s := ShiftOf(us);
    BitLengthIs(us);
    PowAdds(10, s);
    PowAdds(11, s);
    assert Pow2(10) == 1024 by { assert Pow2(5) == 32; PowAdds(5, 5); }
    assert Pow2(11) == 2048;
    PowPositive(s);
    Quotient(us, Pow2(s), 1024, 2048);
  }

  lemma SmallIndex(us: nat)
    requires ShiftOf(us) == 0
    ensures us < 2048 && LatencyIndex(us) == us
  {
    if us > 0 {
      BitLengthIs(us);
      PowGrows(BitLength(us), 11);
      assert Pow2(11) == 2048 by { PowAdds(5, 6); assert Pow2(5) == 32 && Pow2(6) == 64; }
    }
    assert Pow2(0) == 1;
  }

  /** The bound of a duration's own bucket: not below the duration, and above it by less than one bucket width. */
  lemma BoundOfOwnBucket(us: nat)
    ensures us <= UpperBoundMicros(LatencyIndex(us)) < us + Pow2(ShiftOf(us))
    ensures ShiftOf(us) > 0 ==> 1024 * Pow2(ShiftOf(us)) <= us
  {
    var s := ShiftOf(us);
    if s == 0 {
      SmallIndex(us);
    } else {
      ElevenBits(us);
      var p, m := Pow2(s), us / Pow2(s);
      DivBounds(us, p);
      assert LatencyIndex(us) == s * 1024 + m;
      assert LatencyIndex(us) / 1024 - 1 == s && LatencyIndex(us) % 1024 + 1025 == m + 1;
      assert (m + 1) * p == m * p + p;
      assert 1024 * p <= m * p;
    }
  }

  /** Every duration up to the limit has a bucket. */
  lemma BucketInRange(d: nat)
    requires d <= LATENCY_LIMIT
    ensures BucketOf(d) < BUCKETS
  {
    var us := Micros(d);
    assert us <= 60_000_000;
    if ShiftOf(us) == 0 {
      SmallIndex(us);
    } else {
      ElevenBits(us);
      BitLengthIs(us);
      assert Pow2(26) == 67_108_864 by {
        assert Pow2(6) == 64;
        PowAdds(6, 6);
        PowAdds(12, 12);
        assert Pow2(26) == 4 * Pow2(24);
      }
      PowGrowsIf(26, BitLength(us) - 1);
    }
  }

  lemma BitLengthGrows(a: nat, b: nat)
    requires a <= b
    ensures BitLength(a) <= BitLength(b)
  {
    if a > 0 {
      BitLengthIs(a);
      BitLengthIs(b);
      PowGrowsIf(BitLength(b), BitLength(a) - 1);
    }
  }

  /** Longer durations never fall into earlier buckets. */
  lemma {:induction false} IndexGrows(a: nat, b: nat)
    requires a <= b
    ensures LatencyIndex(a) <= LatencyIndex(b)
  {
    BitLengthGrows(a, b);
    var s, t := ShiftOf(a), ShiftOf(b);
    assert s <= t;
    PowPositive(t);
    if s == t {
      DivGrows(a, b, Pow2(t));
    } else {
      ElevenBits(b);
      if s == 0 { SmallIndex(a); } else { ElevenBits(a); }
    }
  }

  lemma {:induction false} BucketGrows(a: nat, b: nat)
    requires a <= b
    ensures BucketOf(a) <= BucketOf(b)
  {
    IndexGrows(Micros(a), Micros(b));
  }

  /** The bound of a duration's bucket is at least the duration and at most 1/1024 of it and a microsecond above it. */
  lemma BoundIsClose(d: nat)
    ensures d <= LatencyUpperBound(BucketOf(d))
    ensures 1024 * LatencyUpperBound(BucketOf(d)) <= 1025 * d + 1024 * MICROSECOND
  {
    var us := Micros(d);
    BoundOfOwnBucket(us);
    assert 1000 * us >= d && 1000 * us <= d + 999;
  }

  // ---------------------------------------------------------------- counting samples

  /** Samples that fit the histogram and lie in buckets before i. */
  function Below(samples: seq<nat>, i: nat): nat {
    if samples == [] then 0
    else
      var d := samples[|samples| - 1];
      Below(samples[..|samples| - 1], i) + if d <= LATENCY_LIMIT && BucketOf(d) < i then 1 else 0
  }

  function InBucket(samples: seq<nat>, i: nat): nat {
    if samples == [] then 0
    else
      var d := samples[|samples| - 1];
      InBucket(samples[..|samples| - 1], i) + if d <= LATENCY_LIMIT && BucketOf(d) == i then 1 else 0
  }

  function Overflowing(samples: seq<nat>): nat {
    if samples == [] then 0
    else Overflowing(samples[..|samples| - 1]) + if samples[|samples| - 1] > LATENCY_LIMIT then 1 else 0
  }

  function Shorter(samples: seq<nat>, d: nat): nat {
    if samples == [] then 0 else Shorter(samples[..|samples| - 1], d) + if samples[|samples| - 1] < d then 1 else 0
  }

  function NotLonger(samples: seq<nat>, d: nat): nat {
    if samples == [] then 0 else NotLonger(samples[..|samples| - 1], d) + if samples[|samples| - 1] <= d then 1 else 0
  }

  /** d is the rank-th smallest sample. */
  predicate IsRanked(samples: seq<nat>, rank: nat, d: nat) {
    d in samples && Shorter(samples, d) < rank <= NotLonger(samples, d)
  }

  lemma {:induction false} ShorterIs(samples: seq<nat>, d: nat)
    ensures Shorter(samples, d) == if d == 0 then 0 else NotLonger(samples, d - 1)
    ensures NotLonger(samples, d) > Shorter(samples, d) ==> d in samples
    ensures (forall x | x in samples :: x <= d) ==> NotLonger(samples, d) == |samples|
  {
    if samples != [] {
      var init := samples[..|samples| - 1];
      ShorterIs(init, d);
      assert samples == init + [samples[|samples| - 1]];
      assert samples[|samples| - 1] in samples && forall x | x in init :: x in samples;
    }
  }

  /** For every rank from 1 to the number of samples there is a sample of that rank. */
  lemma {:induction false} SomeSampleIsRanked(samples: seq<nat>, rank: nat, d: nat) returns (r: nat)
    requires 1 <= rank <= |samples| && (NotLonger(samples, d) >= rank || forall x | x in samples :: x <= d)
    ensures IsRanked(samples, rank, r)
    decreases d
  {
    ShorterIs(samples, d);
    if Shorter(samples, d) < rank {
      r := d;
    } else {
      r := SomeSampleIsRanked(samples, rank, d - 1);
    }
  }

  lemma {:induction false} BelowStep(samples: seq<nat>, i: nat)
    ensures Below(samples, i + 1) == Below(samples, i) + InBucket(samples, i)
  {
    hide BucketOf;
    if samples != [] { BelowStep(samples[..|samples| - 1], i); }
  }

  lemma {:induction false} BelowNothing(samples: seq<nat>)
    ensures Below(samples, 0) == 0
  {
    hide BucketOf;
    if samples != [] { BelowNothing(samples[..|samples| - 1]); }
  }

  lemma {:induction false} BelowGrows(samples: seq<nat>, i: nat, j: nat)
    requires i <= j
    ensures Below(samples, i) <= Below(samples, j)
  {
    hide BucketOf;
    if samples != [] { BelowGrows(samples[..|samples| - 1], i, j); }
  }

  /** Everything is counted: in a bucket, or as overflow. */
  lemma {:induction false} NothingIsLost(samples: seq<nat>)
    ensures Below(samples, BUCKETS) + Overflowing(samples) == |samples|
  {
    hide BucketOf;
    if samples != [] {
      NothingIsLost(samples[..|samples| - 1]);
      if samples[|samples| - 1] <= LATENCY_LIMIT { BucketInRange(samples[|samples| - 1]); }
    }
  }

  lemma {:induction false} EarlierBucketsAreShorter(samples: seq<nat>, d: nat)
    ensures Below(samples, BucketOf(d)) <= Shorter(samples, d)
    ensures d <= LATENCY_LIMIT ==> NotLonger(samples, d) <= Below(samples, BucketOf(d) + 1)
    ensures d > LATENCY_LIMIT ==> Below(samples, BUCKETS) <= Shorter(samples, d)
  {
    hide BucketOf;
    if samples != [] {
      var x := samples[|samples| - 1];
      EarlierBucketsAreShorter(samples[..|samples| - 1], d);
      if x >= d { BucketGrows(d, x); } else { BucketGrows(x, d); }
    }
  }

  /** The first bucket at which the running count reaches the rank is the bucket of the rank-th smallest sample. */
  lemma {:induction false} RankedBucket(samples: seq<nat>, rank: nat, d: nat, i: nat)
    requires IsRanked(samples, rank, d) && d <= LATENCY_LIMIT
    requires Below(samples, i) < rank <= Below(samples, i + 1)
    ensures i == BucketOf(d)
  {
    hide BucketOf;
    EarlierBucketsAreShorter(samples, d);
    if i < BucketOf(d) { BelowGrows(samples, i + 1, BucketOf(d)); }
    if i > BucketOf(d) { BelowGrows(samples, BucketOf(d) + 1, i); }
  }

  /** A reported percentile is conservative and, unless the sample overflowed, close. */
  predicate Reports(samples: seq<nat>, rank: nat, max: nat, result: nat) {
    result <= max
    && forall d | d in samples && IsRanked(samples, rank, d) ::
         d <= result && (d <= LATENCY_LIMIT ==> 1024 * result <= 1025 * d + 1024 * MICROSECOND)
  }

  function CeilDiv(n: nat, d: nat): nat
    requires d > 0
  {
    (n + d - 1) / d
  }

  // ---------------------------------------------------------------- the recorder

  class LatencyRecorder {
    var counts: array<nat>
    var count: nat
    var overflow: nat
    var max: nat
    ghost var samples: seq<nat>

    ghost predicate Valid()
      reads this, counts
    {
      && counts.Length == BUCKETS
      && (forall i | 0 <= i < BUCKETS :: counts[i] == InBucket(samples, i))
      && count == |samples| && overflow == Overflowing(samples)
      && (forall d | d in samples :: d <= max) && (samples == [] ==> max == 0) && (samples != [] ==> max in samples)
    }

    constructor ()
      ensures Valid() && samples == [] && fresh(counts)
    {
      counts := new nat[BUCKETS](_ => 0);
      count, overflow, max, samples := 0, 0, 0, [];
    }

    method Record(duration: int)
      requires Valid()
      modifies this, counts
      ensures Valid() && counts == old(counts)
      ensures samples == old(samples) + [if duration < 0 then 0 else duration]
    {
      hide BucketOf, LatencyIndex, ShiftOf, InBucket, Overflowing;
      var d: nat := if duration < 0 then 0 else duration;
      ghost var before := samples;
      samples := samples + [d];
      OneMoreSample(before, d);
      count := count + 1;
      max := if d > max then d else max;
      if d > LATENCY_LIMIT {
        overflow := overflow + 1;
        return;
      }
      BucketInRange(d);
      MicrosBucket(d);
      var us := (d + MICROSECOND - 1) / MICROSECOND;
      counts[LatencyIndex(us)] := counts[LatencyIndex(us)] + 1;
    }

    /** The p-th percentile for p == numerator/denominator. */
    method Percentile(numerator: nat, denominator: nat) returns (result: nat)
      requires Valid() && denominator > 0
      ensures count > 0 ==> Reports(samples, CeilDiv(numerator * count, denominator), max, result)
      ensures count == 0 ==> result == 0
    {
      hide BucketOf, LatencyUpperBound, Reports, CeilDiv;
      if count == 0 { return 0; }
      var rank := CeilDiv(numerator * count, denominator);
      var seen := 0;
      BelowNothing(samples);
      for i := 0 to BUCKETS
        invariant seen == Below(samples, i) && (i > 0 ==> seen < rank)
      {
        BelowStep(samples, i);
        seen := seen + counts[i];
        if seen >= rank {
          result := if LatencyUpperBound(i) < max then LatencyUpperBound(i) else max;
          FoundReports(samples, rank, max, i);
          return;
        }
      }
      OverflowReports(samples, rank, max);
      result := max;
    }
  }

  lemma OneMoreSample(samples: seq<nat>, d: nat)
    ensures Overflowing(samples + [d]) == Overflowing(samples) + if d > LATENCY_LIMIT then 1 else 0
    ensures forall i {:trigger InBucket(samples + [d], i)} ::
      InBucket(samples + [d], i) == InBucket(samples, i) + if d <= LATENCY_LIMIT && BucketOf(d) == i then 1 else 0
  {
    hide BucketOf;
    assert (samples + [d])[..|samples|] == samples;
  }

  lemma MicrosBucket(d: nat)
    ensures BucketOf(d) == LatencyIndex((d + MICROSECOND - 1) / MICROSECOND)
  {}

  lemma {:induction false} FoundReports(samples: seq<nat>, rank: nat, max: nat, i: nat)
    requires (i > 0 ==> Below(samples, i) < rank) && rank <= Below(samples, i + 1)
    requires forall d | d in samples :: d <= max
    ensures Reports(samples, rank, max, if LatencyUpperBound(i) < max then LatencyUpperBound(i) else max)
  {
    hide BucketOf, LatencyUpperBound;
    forall d | d in samples && IsRanked(samples, rank, d)
      ensures d <= LatencyUpperBound(i) || d > LATENCY_LIMIT
      ensures d <= LATENCY_LIMIT ==> 1024 * LatencyUpperBound(i) <= 1025 * d + 1024 * MICROSECOND
      ensures d <= LATENCY_LIMIT
    {
      BelowNothing(samples);
      EarlierBucketsAreShorter(samples, d);
      if d > LATENCY_LIMIT {
        OverflowIsLate(samples, rank, d, i + 1);
        assert false;
      }
      RankedBucket(samples, rank, d, i);
      BoundIsClose(d);
    }
  }

  lemma OverflowIsLate(samples: seq<nat>, rank: nat, d: nat, i: nat)
    requires d > LATENCY_LIMIT && Shorter(samples, d) < rank
    ensures rank > Below(samples, i)
  {
    hide BucketOf;
    EarlierBucketsAreShorter(samples, d);
    BelowEnds(samples, i);
  }

  lemma {:induction false} BelowEnds(samples: seq<nat>, i: nat)
    ensures Below(samples, i) <= Below(samples, BUCKETS)
  {
    hide BucketOf;
    if samples != [] {
      BelowEnds(samples[..|samples| - 1], i);
      if samples[|samples| - 1] <= LATENCY_LIMIT { BucketInRange(samples[|samples| - 1]); }
    }
  }

  lemma OverflowReports(samples: seq<nat>, rank: nat, max: nat)
    requires Below(samples, BUCKETS) < rank && forall d | d in samples :: d <= max
    ensures Reports(samples, rank, max, max)
  {
    hide BucketOf;
    forall d | d in samples && IsRanked(samples, rank, d) ensures d > LATENCY_LIMIT {
      EarlierBucketsAreShorter(samples, d);
      if d <= LATENCY_LIMIT {
        BucketInRange(d);
        BelowGrows(samples, BucketOf(d) + 1, BUCKETS);
      }
    }
  }
}
