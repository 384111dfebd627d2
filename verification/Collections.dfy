/** Sequences without repeats, and the sizes of finite sets. */
module Collections {
  predicate Distinct<T(==)>(s: seq<T>) {
    forall i, j | 0 <= i < j < |s| :: s[i] != s[j]
  }

  function Elements<T>(s: seq<T>): set<T> { set x | x in s }

  /** A sequence is without repeats exactly when it is as long as its set of elements. */
  lemma {:induction false} SizeMeansDistinct<T>(s: seq<T>)
    ensures |Elements(s)| <= |s|
    ensures |Elements(s)| == |s| <==> Distinct(s)
  {
    if s != [] {
      var n := |s| - 1;
      SizeMeansDistinct(s[..n]);
      assert s == s[..n] + [s[n]];
      assert Elements(s) == Elements(s[..n]) + {s[n]};
      if s[n] in s[..n] {
        assert Elements(s) == Elements(s[..n]);
        var k :| 0 <= k < n && s[k] == s[n];
      }
    }
  }

  lemma {:induction false} SubsetSize<T>(a: set<T>, b: set<T>)
    requires a <= b
    ensures |a| <= |b|
    ensures |a| == |b| ==> a == b
  {
    if x :| x in a {
      SubsetSize(a - {x}, b - {x});
    } else if |a| == |b| {
      assert a == {} == b;
    }
  }

  /** Pigeonhole: a sequence longer than the set it draws from repeats itself. */
  lemma Pigeonhole<T>(s: seq<T>, pool: set<T>) returns (i: nat, j: nat)
    requires Elements(s) <= pool && |s| > |pool|
    ensures i < j < |s| && s[i] == s[j]
  {
    SizeMeansDistinct(s);
    SubsetSize(Elements(s), pool);
    i, j :| 0 <= i < j < |s| && s[i] == s[j];
  }
}
