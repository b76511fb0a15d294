/**
  Reference semantics of the sort that `GsplatSortPass.Dispatch` asks the GPU for: an 8-bit
  least-significant-digit radix sort of (key, payload) pairs over 32-bit keys, ascending, in four
  passes. Each pass is a stable counting sort on the digit `(key >> shift) & 255`, here written
  `(key / 256^p) % 256` for pass `p` (shift `8 * p`), which is the same number for an unsigned key.
  The reduce-then-scan kernels (Upsweep, Scan, Downsweep) compute this permutation in parallel;
  the model states the permutation they compute, not how.
*/
module RadixSort {
  import opened Ints
  import opened Sequences

  /** Number of digit passes for a 32-bit key (KEY_BITS / DEVICE_RADIX_SORT_BITS). */
  const Passes: nat := 4

  /** A key and the payload that travels with it (the payload is a primitive index). */
  datatype Entry = Entry(key: uint32, payload: uint32)

  /** `256^p`: the weight of digit `p`. */
  function Base(p: nat): (b: nat)
    ensures b >= 1
  {
    if p == 0 then 1 else 256 * Base(p - 1)
  }

  /** The digit a pass with radix shift `8 * p` sorts on. */
  function Digit(key: nat, p: nat): (d: nat)
    ensures d < 256
  {
    (key / Base(p)) % 256
  }

  /** The key restricted to its lowest `p` digits. */
  function Low(key: nat, p: nat): nat
  {
    key % Base(p)
  }

  lemma LowBound(key: nat, p: nat)
    ensures Low(key, p) < Base(p)
  {
  }

  /** The lowest `p + 1` digits are digit `p` above the lowest `p` digits. */
  lemma {:induction false} LowStep(key: nat, p: nat)
    ensures Low(key, p + 1) == Digit(key, p) * Base(p) + Low(key, p)
  {
    var b := Base(p);
    var q, r := key / b, key % b;
    var q1, d := q / 256, q % 256;
    assert key == q * b + r;
    assert q == q1 * 256 + d;
    assert key == q1 * (256 * b) + (d * b + r) by {
      calc {
        key;
        q * b + r;
        (q1 * 256 + d) * b + r;
        q1 * 256 * b + d * b + r;
      }
    }
    MulMono(255, d, b);
    assert 0 <= d * b + r < 256 * b;
    DivModUnique(key, 256 * b, q1, d * b + r);
  }

  lemma {:induction false} FullKey(key: uint32)
    ensures Base(Passes) == TwoTo32
    ensures Low(key, Passes) == key
  {
    assert Base(1) == 256;
    assert Base(2) == 65536;
    assert Base(3) == 16777216;
    assert Base(4) == 0x1_0000_0000;
  }

  /** `s` is ascending in its entries' lowest `p` digits. */
  ghost predicate SortedBy(s: seq<Entry>, p: nat)
  {
    forall i, j :: 0 <= i < j < |s| ==> Low(s[i].key, p) <= Low(s[j].key, p)
  }

  /** `s` is ascending in its keys. */
  ghost predicate Ascending(s: seq<Entry>)
  {
    forall i, j :: 0 <= i < j < |s| ==> s[i].key <= s[j].key
  }

  /** The entries of `s` whose digit `p` is `d`, in their order in `s`. */
  function Bucket(s: seq<Entry>, p: nat, d: nat): (b: seq<Entry>)
    ensures forall x :: x in b ==> x in s && Digit(x.key, p) == d
    ensures |b| <= |s|
  {
    if s == [] then []
    else (if Digit(s[0].key, p) == d then [s[0]] else []) + Bucket(s[1..], p, d)
  }

  /** The entries of `s` whose digit `p` is at least `d`, in their order in `s`. */
  function AtLeast(s: seq<Entry>, p: nat, d: nat): (b: seq<Entry>)
    ensures forall x :: x in b ==> x in s && Digit(x.key, p) >= d
  {
    if s == [] then []
    else (if Digit(s[0].key, p) >= d then [s[0]] else []) + AtLeast(s[1..], p, d)
  }

  /** Buckets `d`, `d + 1`, ..., 255 of a counting sort on digit `p`, concatenated. */
  function CollectFrom(s: seq<Entry>, p: nat, d: nat): (c: seq<Entry>)
    ensures forall x :: x in c ==> x in s && Digit(x.key, p) >= d
    decreases 256 - d
  {
    if d >= 256 then [] else Bucket(s, p, d) + CollectFrom(s, p, d + 1)
  }

  /** One pass: the stable counting sort of `s` on digit `p`. */
  function Pass(s: seq<Entry>, p: nat): seq<Entry>
  {
    CollectFrom(s, p, 0)
  }

  /** `step` applied at stages `p`, `p + 1`, ..., `n - 1` in turn. */
  function Iterate<T>(step: (T, nat) -> T, x: T, p: nat, n: nat): T
    decreases n - p
  {
    if p >= n then x else Iterate(step, step(x, p), p + 1, n)
  }

  /** The full sort: passes 0, 1, 2, 3 (radix shifts 0, 8, 16, 24) applied in turn. */
  function Sort(s: seq<Entry>): seq<Entry>
  {
    Iterate(Pass, s, 0, Passes)
  }

  lemma {:induction false} BucketSorted(s: seq<Entry>, p: nat, d: nat)
    requires SortedBy(s, p)
    ensures SortedBy(Bucket(s, p, d), p)
  {
    if s != [] {
      var rest := Bucket(s[1..], p, d);
      assert SortedBy(s[1..], p);
      BucketSorted(s[1..], p, d);
      if Digit(s[0].key, p) == d {
        forall y | y in rest
          ensures Low(s[0].key, p) <= Low(y.key, p)
        {
          var k :| 0 <= k < |s[1..]| && s[1..][k] == y;
          assert s[k + 1] == y;
        }
        assert Bucket(s, p, d) == [s[0]] + rest;
      }
    }
  }

  lemma SortedConcat(a: seq<Entry>, b: seq<Entry>, p: nat)
    requires SortedBy(a, p) && SortedBy(b, p)
    requires forall x, y :: x in a && y in b ==> Low(x.key, p) <= Low(y.key, p)
    ensures SortedBy(a + b, p)
  {
    var c := a + b;
    forall i, j | 0 <= i < j < |c|
      ensures Low(c[i].key, p) <= Low(c[j].key, p)
    {
      if j < |a| {
        assert c[i] == a[i] && c[j] == a[j];
      } else if i >= |a| {
        assert c[i] == b[i - |a|] && c[j] == b[j - |a|];
      } else {
        assert c[i] in a && c[j] in b;
      }
    }
  }

  /** A bucket of a sorted input is sorted one digit further up, below the next bucket's range. */
  lemma {:induction false} BucketLifted(s: seq<Entry>, p: nat, d: nat)
    requires SortedBy(s, p) && d < 256
    ensures SortedBy(Bucket(s, p, d), p + 1)
    ensures forall x :: x in Bucket(s, p, d) ==>
      d * Base(p) <= Low(x.key, p + 1) < (d + 1) * Base(p)
  {
    var bucket := Bucket(s, p, d);
    BucketSorted(s, p, d);
    forall x | x in bucket
      ensures Low(x.key, p + 1) == d * Base(p) + Low(x.key, p)
    {
      LowStep(x.key, p);
    }
    forall x | x in bucket
      ensures d * Base(p) <= Low(x.key, p + 1) < (d + 1) * Base(p)
    {
      LowBound(x.key, p);
      assert (d + 1) * Base(p) == d * Base(p) + Base(p);
    }
    forall i, j | 0 <= i < j < |bucket|
      ensures Low(bucket[i].key, p + 1) <= Low(bucket[j].key, p + 1)
    {
      assert bucket[i] in bucket && bucket[j] in bucket;
    }
  }

  /** Collecting buckets `d..255` of a sorted input yields a sequence sorted one digit further up. */
  lemma {:induction false} CollectSorted(s: seq<Entry>, p: nat, d: nat)
    requires SortedBy(s, p) && d <= 256
    ensures SortedBy(CollectFrom(s, p, d), p + 1)
    ensures forall x :: x in CollectFrom(s, p, d) ==> d * Base(p) <= Low(x.key, p + 1)
    decreases 256 - d
  {
    if d < 256 {
      var bucket, rest := Bucket(s, p, d), CollectFrom(s, p, d + 1);
      CollectSorted(s, p, d + 1);
      BucketLifted(s, p, d);
      forall x, y | x in bucket && y in rest
        ensures Low(x.key, p + 1) <= Low(y.key, p + 1)
      {
      }
      SortedConcat(bucket, rest, p + 1);
      forall x | x in CollectFrom(s, p, d)
        ensures d * Base(p) <= Low(x.key, p + 1)
      {
        if x in rest {
          MulMono(d + 1, d, Base(p));
        }
      }
    }
  }

  lemma {:induction false} AtLeastZero(s: seq<Entry>, p: nat)
    ensures AtLeast(s, p, 0) == s
  {
    if s != [] {
      AtLeastZero(s[1..], p);
      assert s == [s[0]] + s[1..];
    }
  }

  lemma {:induction false} AtLeastNothing(s: seq<Entry>, p: nat)
    ensures AtLeast(s, p, 256) == []
  {
    if s != [] {
      AtLeastNothing(s[1..], p);
    }
  }

  lemma {:induction false} AtLeastSplit(s: seq<Entry>, p: nat, d: nat)
    ensures multiset(AtLeast(s, p, d)) == multiset(Bucket(s, p, d)) + multiset(AtLeast(s, p, d + 1))
  {
    if s != [] {
      AtLeastSplit(s[1..], p, d);
    }
  }

  lemma {:induction false} CollectMultiset(s: seq<Entry>, p: nat, d: nat)
    requires d <= 256
    ensures multiset(CollectFrom(s, p, d)) == multiset(AtLeast(s, p, d))
    decreases 256 - d
  {
    if d == 256 {
      AtLeastNothing(s, p);
    } else {
      CollectMultiset(s, p, d + 1);
      AtLeastSplit(s, p, d);
    }
  }

  /** A pass only reorders its input. */
  lemma PassMultiset(s: seq<Entry>, p: nat)
    ensures multiset(Pass(s, p)) == multiset(s)
  {
    CollectMultiset(s, p, 0);
    AtLeastZero(s, p);
  }

  /** One pass permutes its input and sorts it one digit further up. */
  lemma PassCorrect(s: seq<Entry>, p: nat)
    requires SortedBy(s, p)
    ensures SortedBy(Pass(s, p), p + 1)
    ensures multiset(Pass(s, p)) == multiset(s)
  {
    CollectSorted(s, p, 0);
    AtLeastZero(s, p);
    PassMultiset(s, p);
  }

  /** Every sequence is sorted on zero digits. */
  lemma SortedByNothing(s: seq<Entry>)
    ensures SortedBy(s, 0)
  {
    forall i | 0 <= i < |s|
      ensures Low(s[i].key, 0) == 0
    {
    }
  }

  /** Iterating a step that keeps `measure` keeps `measure`. */
  lemma {:induction false} IterateKeeps<T, M>(step: (T, nat) -> T, measure: T -> M, x: T, p: nat, n: nat)
    requires forall y: T, q: nat :: measure(step(y, q)) == measure(y)
    ensures measure(Iterate(step, x, p, n)) == measure(x)
    decreases n - p
  {
    if p < n {
      IterateKeeps(step, measure, step(x, p), p + 1, n);
    }
  }

  /** The last stage of an iteration is one more step. */
  lemma {:induction false} IterateLast<T>(step: (T, nat) -> T, x: T, p: nat, n: nat)
    requires p <= n
    ensures Iterate(step, x, p, n + 1) == step(Iterate(step, x, p, n), n)
    decreases n - p
  {
    if p < n {
      IterateLast(step, step(x, p), p + 1, n);
    }
  }

  /** Iterating a step that carries `inv` from each stage to the next reaches `inv` at the last stage. */
  lemma {:induction false} IterateAdvances<T>(step: (T, nat) -> T, inv: (T, nat) -> bool, x: T, p: nat, n: nat)
    requires p <= n && inv(x, p)
    requires forall y: T, q: nat :: q < n && inv(y, q) ==> inv(step(y, q), q + 1)
    ensures inv(Iterate(step, x, p, n), n)
    decreases n - p
  {
    if p < n {
      IterateAdvances(step, inv, step(x, p), p + 1, n);
    }
  }

  /** After the four passes the entries are sorted on all four digits. */
  lemma SortSorted(s: seq<Entry>)
    ensures SortedBy(Sort(s), Passes)
  {
    forall y: seq<Entry>, q: nat | q < Passes && SortedBy(y, q)
      ensures SortedBy(Pass(y, q), q + 1)
    {
      PassCorrect(y, q);
    }
    SortedByNothing(s);
    IterateAdvances(Pass, (y, q) => SortedBy(y, q), s, 0, Passes);
  }

  /** The four passes only reorder the entries. */
  lemma SortPermutes(s: seq<Entry>)
    ensures multiset(Sort(s)) == multiset(s)
  {
    forall y: seq<Entry>, q: nat
      ensures multiset(Pass(y, q)) == multiset(y)
    {
      PassMultiset(y, q);
    }
    IterateKeeps(Pass, (y: seq<Entry>) => multiset(y), s, 0, Passes);
  }

  /** Four stable digit passes leave the keys ascending and the entries a permutation of the input. */
  lemma SortCorrect(s: seq<Entry>)
    ensures Ascending(Sort(s))
    ensures multiset(Sort(s)) == multiset(s)
    ensures |Sort(s)| == |s|
  {
    var r := Sort(s);
    SortSorted(s);
    SortPermutes(s);
    forall i, j | 0 <= i < j < |r|
      ensures r[i].key <= r[j].key
    {
      FullKey(r[i].key);
      FullKey(r[j].key);
    }
    assert |r| == |multiset(r)| == |multiset(s)| == |s|;
  }

  /** The lowest `p` digits of `key`, least significant first. */
  function Digits(key: nat, p: nat): (ds: seq<nat>)
    ensures |ds| == p
  {
    if p == 0 then [] else Digits(key, p - 1) + [Digit(key, p - 1)]
  }

  /** Keys with the same lowest `p` digits agree below `256^p`. */
  lemma {:induction false} DigitsLow(k1: nat, k2: nat, p: nat)
    requires Digits(k1, p) == Digits(k2, p)
    ensures Low(k1, p) == Low(k2, p)
  {
    if p > 0 {
      var q := p - 1;
      assert Digits(k1, q) == Digits(k1, p)[..q] && Digit(k1, q) == Digits(k1, p)[q];
      assert Digits(k2, q) == Digits(k2, p)[..q] && Digit(k2, q) == Digits(k2, p)[q];
      DigitsLow(k1, k2, q);
      LowStep(k1, q);
      LowStep(k2, q);
    }
  }

  /** Two 32-bit keys are equal exactly when their four digits are. */
  lemma KeyDigits(k1: uint32, k2: uint32)
    ensures Digits(k1, Passes) == Digits(k2, Passes) <==> k1 == k2
  {
    FullKey(k1);
    FullKey(k2);
    if Digits(k1, Passes) == Digits(k2, Passes) {
      DigitsLow(k1, k2, Passes);
    }
  }

  /** The lowest `p + 1` digits are `v + [d]` exactly when the lowest `p` are `v` and digit `p` is `d`. */
  lemma DigitsSplit(key: nat, p: nat, v: seq<nat>, d: nat)
    ensures Digits(key, p + 1) == v + [d] <==> Digits(key, p) == v && Digit(key, p) == d
  {
    var ds := Digits(key, p + 1);
    assert ds == Digits(key, p) + [Digit(key, p)];
    if ds == v + [d] {
      assert ds[..p] == Digits(key, p) && ds[..p] == v;
      assert ds[p] == Digit(key, p) && ds[p] == d;
    }
  }

  /** The entries of `s` whose lowest `p` digits are `v`, in their order in `s`. */
  function WithLow(s: seq<Entry>, p: nat, v: seq<nat>): (w: seq<Entry>)
    ensures forall x :: x in w ==> x in s && Digits(x.key, p) == v
  {
    if s == [] then []
    else (if Digits(s[0].key, p) == v then [s[0]] else []) + WithLow(s[1..], p, v)
  }

  /** The entries of `s` whose key is `v`, in their order in `s`. */
  function WithKey(s: seq<Entry>, v: uint32): (w: seq<Entry>)
    ensures forall x :: x in w ==> x in s && x.key == v
  {
    if s == [] then []
    else (if s[0].key == v then [s[0]] else []) + WithKey(s[1..], v)
  }

  lemma {:induction false} BucketAppend(a: seq<Entry>, b: seq<Entry>, p: nat, d: nat)
    ensures Bucket(a + b, p, d) == Bucket(a, p, d) + Bucket(b, p, d)
    decreases |a|
  {
    if a != [] {
      var head := if Digit(a[0].key, p) == d then [a[0]] else [];
      assert (a + b)[0] == a[0] && (a + b)[1..] == a[1..] + b;
      BucketAppend(a[1..], b, p, d);
      AppendAssoc(head, Bucket(a[1..], p, d), Bucket(b, p, d));
    } else {
      assert a + b == b;
    }
  }

  lemma {:induction false} WithLowAppend(a: seq<Entry>, b: seq<Entry>, p: nat, v: seq<nat>)
    ensures WithLow(a + b, p, v) == WithLow(a, p, v) + WithLow(b, p, v)
    decreases |a|
  {
    if a != [] {
      var head := if Digits(a[0].key, p) == v then [a[0]] else [];
      assert (a + b)[0] == a[0] && (a + b)[1..] == a[1..] + b;
      WithLowAppend(a[1..], b, p, v);
      AppendAssoc(head, WithLow(a[1..], p, v), WithLow(b, p, v));
    } else {
      assert a + b == b;
    }
  }

  lemma {:induction false} WithLowNone(a: seq<Entry>, p: nat, v: seq<nat>)
    requires forall x :: x in a ==> Digits(x.key, p) != v
    ensures WithLow(a, p, v) == []
    decreases |a|
  {
    if a != [] {
      WithLowNone(a[1..], p, v);
    }
  }

  lemma BucketOne(x: Entry, p: nat, d: nat)
    ensures Bucket([x], p, d) == if Digit(x.key, p) == d then [x] else []
  {
    assert [x][1..] == [];
  }

  lemma WithLowOne(x: Entry, p: nat, v: seq<nat>)
    ensures WithLow([x], p, v) == if Digits(x.key, p) == v then [x] else []
  {
    assert [x][1..] == [];
  }

  /** Selecting on `p + 1` digits is selecting on `p` digits, then taking one bucket. */
  lemma {:induction false} WithLowStep(s: seq<Entry>, p: nat, v: seq<nat>, d: nat)
    ensures WithLow(s, p + 1, v + [d]) == Bucket(WithLow(s, p, v), p, d)
    decreases |s|
  {
    if s != [] {
      var x := s[0];
      var head := if Digits(x.key, p) == v then [x] else [];
      DigitsSplit(x.key, p, v, d);
      WithLowStep(s[1..], p, v, d);
      BucketAppend(head, WithLow(s[1..], p, v), p, d);
      BucketOne(x, p, d);
    }
  }

  /** When the entries with lowest `p + 1` digits `w` all have digit `d`, bucket `d` holds them all, in order. */
  lemma {:induction false} WithLowBucketed(y: seq<Entry>, p: nat, d: nat, w: seq<nat>)
    requires forall x :: x in y && Digits(x.key, p + 1) == w ==> Digit(x.key, p) == d
    ensures WithLow(Bucket(y, p, d), p + 1, w) == WithLow(y, p + 1, w)
    decreases |y|
  {
    if y != [] {
      var x := y[0];
      assert x in y;
      var inBucket := if Digit(x.key, p) == d then [x] else [];
      WithLowBucketed(y[1..], p, d, w);
      WithLowAppend(inBucket, Bucket(y[1..], p, d), p + 1, w);
      WithLowOne(x, p + 1, w);
    }
  }

  /** Bucket `c` holds the entries with lowest `p + 1` digits `w` when `c` is their digit `d`, and none otherwise. */
  lemma BucketWithLow(y: seq<Entry>, p: nat, c: nat, w: seq<nat>, d: nat)
    requires forall x :: x in y && Digits(x.key, p + 1) == w ==> Digit(x.key, p) == d
    ensures WithLow(Bucket(y, p, c), p + 1, w) == if c == d then WithLow(y, p + 1, w) else []
  {
    if c == d {
      WithLowBucketed(y, p, d, w);
    } else {
      WithLowNone(Bucket(y, p, c), p + 1, w);
    }
  }

  /** Bucket `c` followed by buckets `c + 1..255` holds what bucket `d` holds when `c <= d`, and nothing otherwise. */
  lemma JoinCases(here: seq<Entry>, later: seq<Entry>, all: seq<Entry>, c: nat, d: nat)
    requires here == if c == d then all else []
    requires later == if c + 1 <= d then all else []
    ensures here + later == if c <= d then all else []
  {
    if c == d {
      assert here + later == here + [];
    } else {
      assert here + later == [] + later;
    }
  }

  /**
    When the entries with lowest `p + 1` digits `w` all have digit `d`, collecting buckets `c..255`
    keeps them all, in order, if `c <= d`, and none otherwise.
  */
  lemma {:induction false} CollectWithLow(y: seq<Entry>, p: nat, c: nat, w: seq<nat>, d: nat)
    requires c <= 256
    requires forall x :: x in y && Digits(x.key, p + 1) == w ==> Digit(x.key, p) == d
    ensures WithLow(CollectFrom(y, p, c), p + 1, w) == if c <= d then WithLow(y, p + 1, w) else []
    decreases 256 - c
  {
    if c == 256 {
      CollectNone(y, p, w, d);
    } else {
      CollectWithLow(y, p, c + 1, w, d);
      CollectStep(y, p, c, w, d);
    }
  }

  /** Past the last bucket nothing is collected, and no entry has a digit that large. */
  lemma CollectNone(y: seq<Entry>, p: nat, w: seq<nat>, d: nat)
    requires forall x :: x in y && Digits(x.key, p + 1) == w ==> Digit(x.key, p) == d
    ensures WithLow(CollectFrom(y, p, 256), p + 1, w) == if 256 <= d then WithLow(y, p + 1, w) else []
  {
    if 256 <= d {
      WithLowNone(y, p + 1, w);
    }
  }

  /** One more bucket in front of buckets `c + 1..255` extends the selection as `CollectWithLow` states. */
  lemma CollectStep(y: seq<Entry>, p: nat, c: nat, w: seq<nat>, d: nat)
    requires c < 256
    requires forall x :: x in y && Digits(x.key, p + 1) == w ==> Digit(x.key, p) == d
    requires WithLow(CollectFrom(y, p, c + 1), p + 1, w) == if c + 1 <= d then WithLow(y, p + 1, w) else []
    ensures WithLow(CollectFrom(y, p, c), p + 1, w) == if c <= d then WithLow(y, p + 1, w) else []
  {
    WithLowAppend(Bucket(y, p, c), CollectFrom(y, p, c + 1), p + 1, w);
    BucketWithLow(y, p, c, w, d);
    JoinCases(WithLow(Bucket(y, p, c), p + 1, w), WithLow(CollectFrom(y, p, c + 1), p + 1, w), WithLow(y, p + 1, w), c, d);
  }

  /** A pass is stable: entries with equal lowest `p + 1` digits keep their relative order. */
  lemma PassStable(y: seq<Entry>, p: nat, w: seq<nat>)
    ensures WithLow(Pass(y, p), p + 1, w) == WithLow(y, p + 1, w)
  {
    var d := if |w| == p + 1 then w[p] else 0;
    forall x | x in y && Digits(x.key, p + 1) == w
      ensures Digit(x.key, p) == d
    {
      assert Digits(x.key, p + 1)[p] == Digit(x.key, p);
    }
    CollectWithLow(y, p, 0, w, d);
  }

  /** `y` orders the entries of `s` with equal lowest `p` digits as `s` does. */
  ghost predicate StableFrom(y: seq<Entry>, s: seq<Entry>, p: nat)
  {
    forall v :: WithLow(y, p, v) == WithLow(s, p, v)
  }

  /** After a pass on digit `q`, the entries with lowest `q + 1` digits `v + [d]` are in the order of `s`. */
  lemma StableExtend(y: seq<Entry>, s: seq<Entry>, q: nat, v: seq<nat>, d: nat)
    requires StableFrom(y, s, q)
    ensures WithLow(Pass(y, q), q + 1, v + [d]) == WithLow(s, q + 1, v + [d])
  {
    PassStable(y, q, v + [d]);
    WithLowStep(y, q, v, d);
    WithLowStep(s, q, v, d);
    assert WithLow(y, q, v) == WithLow(s, q, v);
  }

  /** A pass on digit `q` carries stability on the lowest `q` digits to the lowest `q + 1`. */
  lemma PassKeepsStable(y: seq<Entry>, s: seq<Entry>, q: nat, q1: nat)
    requires q1 == q + 1
    requires StableFrom(y, s, q)
    ensures StableFrom(Pass(y, q), s, q1)
  {
    forall w: seq<nat>
      ensures WithLow(Pass(y, q), q1, w) == WithLow(s, q1, w)
    {
      if |w| == q1 {
        var v, d := w[..q], w[q];
        assert w == v + [d];
        StableExtend(y, s, q, v, d);
      } else {
        PassStable(y, q, w);
        WithLowNone(y, q1, w);
        WithLowNone(s, q1, w);
      }
    }
  }

  /** Selecting on all four digits of `v` is selecting on the key `v`. */
  lemma {:induction false} WithLowKey(s: seq<Entry>, v: uint32)
    ensures WithLow(s, Passes, Digits(v, Passes)) == WithKey(s, v)
    decreases |s|
  {
    if s != [] {
      KeyDigits(s[0].key, v);
      WithLowKey(s[1..], v);
    }
  }

  /** Entries with equal keys leave the four passes in their input order. */
  lemma SortStable(s: seq<Entry>, v: uint32)
    ensures WithKey(Sort(s), v) == WithKey(s, v)
  {
    forall y: seq<Entry>, q: nat | q < Passes && StableFrom(y, s, q)
      ensures StableFrom(Pass(y, q), s, q + 1)
    {
      PassKeepsStable(y, s, q, q + 1);
    }
    IterateAdvances(Pass, (y, q) => StableFrom(y, s, q), s, 0, Passes);
    WithLowKey(Sort(s), v);
    WithLowKey(s, v);
  }

  /** The first entry of a sequence is selected by its own key. */
  lemma WithKeyHead(s: seq<Entry>)
    requires s != []
    ensures WithKey(s, s[0].key) != []
  {
  }

  /** The first entry of `a` is in every sequence with the same entries of each key. */
  lemma HeadIn(a: seq<Entry>, b: seq<Entry>)
    requires a != []
    requires forall v: uint32 :: WithKey(a, v) == WithKey(b, v)
    ensures a[0] in b
  {
    var x := a[0];
    assert WithKey(a, x.key)[0] == x;
    assert WithKey(b, x.key) == WithKey(a, x.key);
  }

  /** An ascending sequence starts with a smallest key. */
  lemma AscendingFirst(s: seq<Entry>, x: Entry)
    requires Ascending(s) && x in s
    ensures s[0].key <= x.key
  {
    var i :| 0 <= i < |s| && s[i] == x;
  }

  /** Two nonempty ascending sequences with the same entries of each key start with the same entry. */
  lemma HeadsEqual(a: seq<Entry>, b: seq<Entry>)
    requires a != [] && b != []
    requires Ascending(a) && Ascending(b)
    requires forall v: uint32 :: WithKey(a, v) == WithKey(b, v)
    ensures a[0] == b[0]
  {
    HeadIn(a, b);
    HeadIn(b, a);
    AscendingFirst(b, a[0]);
    AscendingFirst(a, b[0]);
    var x := a[0];
    assert WithKey(a, x.key) == WithKey(b, x.key);
    assert WithKey(a, x.key)[0] == x;
    assert WithKey(b, x.key)[0] == b[0];
  }

  /** Dropping the first entry drops it from the entries of its key and leaves the others. */
  lemma WithKeyTail(s: seq<Entry>, v: uint32)
    requires s != []
    ensures WithKey(s[1..], v) == if s[0].key == v then WithKey(s, v)[1..] else WithKey(s, v)
  {
    if s[0].key == v {
      assert WithKey(s, v) == [s[0]] + WithKey(s[1..], v);
    }
  }

  /** Dropping an equal first entry keeps the entries of each key equal. */
  lemma WithKeyTails(a: seq<Entry>, b: seq<Entry>)
    requires a != [] && b != [] && a[0] == b[0]
    requires forall v: uint32 :: WithKey(a, v) == WithKey(b, v)
    ensures forall v: uint32 :: WithKey(a[1..], v) == WithKey(b[1..], v)
  {
    forall v: uint32
      ensures WithKey(a[1..], v) == WithKey(b[1..], v)
    {
      WithKeyTail(a, v);
      WithKeyTail(b, v);
    }
  }

  /** Two ascending sequences whose entries of each key come in the same order are equal. */
  lemma {:induction false} AscendingUnique(a: seq<Entry>, b: seq<Entry>)
    requires Ascending(a) && Ascending(b)
    requires forall v: uint32 :: WithKey(a, v) == WithKey(b, v)
    ensures a == b
    decreases |a| + |b|
  {
    if a == [] && b != [] {
      WithKeyHead(b);
      assert false;
    } else if a != [] && b == [] {
      WithKeyHead(a);
      assert false;
    } else if a != [] {
      HeadsEqual(a, b);
      WithKeyTails(a, b);
      AscendingUnique(a[1..], b[1..]);
      assert a == [a[0]] + a[1..] && b == [b[0]] + b[1..];
    }
  }

  /** Sorting an already ascending sequence again changes nothing. */
  lemma SortIdempotent(s: seq<Entry>)
    requires Ascending(s)
    ensures Sort(s) == s
  {
    SortCorrect(s);
    forall v: uint32
      ensures WithKey(Sort(s), v) == WithKey(s, v)
    {
      SortStable(s, v);
    }
    AscendingUnique(Sort(s), s);
  }

  /** Keys and payloads zipped as the buffers `b_sort` / `b_sortPayload` hold them. */
  function Zip(keys: seq<uint32>, payload: seq<uint32>): (s: seq<Entry>)
    requires |keys| == |payload|
    ensures |s| == |keys|
    ensures forall i :: 0 <= i < |s| ==> s[i] == Entry(keys[i], payload[i])
  {
    seq(|keys|, i requires 0 <= i < |keys| => Entry(keys[i], payload[i]))
  }

  /** The keys of `s`, in order. */
  function Keys(s: seq<Entry>): (keys: seq<uint32>)
    ensures |keys| == |s| && forall i :: 0 <= i < |s| ==> keys[i] == s[i].key
  {
    seq(|s|, i requires 0 <= i < |s| => s[i].key)
  }

  /** The payloads of `s`, in order. */
  function Payloads(s: seq<Entry>): (payload: seq<uint32>)
    ensures |payload| == |s| && forall i :: 0 <= i < |s| ==> payload[i] == s[i].payload
  {
    seq(|s|, i requires 0 <= i < |s| => s[i].payload)
  }

  /** Splitting entries into a key buffer and a payload buffer loses nothing: zipping them back gives `s`. */
  lemma Unzip(s: seq<Entry>)
    ensures Zip(Keys(s), Payloads(s)) == s
  {
  }

  /** Zipping a key buffer with a payload buffer loses nothing: the keys and payloads come back out. */
  lemma ZipSplit(keys: seq<uint32>, payload: seq<uint32>)
    requires |keys| == |payload|
    ensures Keys(Zip(keys, payload)) == keys && Payloads(Zip(keys, payload)) == payload
  {
  }

  lemma PayloadsAppend(a: seq<Entry>, b: seq<Entry>)
    ensures Payloads(a + b) == Payloads(a) + Payloads(b)
  {
  }

  /** Rearranging entries rearranges their payloads the same way. */
  lemma {:induction false} PayloadsMultiset(a: seq<Entry>, b: seq<Entry>)
    requires multiset(a) == multiset(b)
    ensures multiset(Payloads(a)) == multiset(Payloads(b))
    decreases |a|
  {
    if a == [] {
      assert |multiset(b)| == 0;
    } else {
      var x := a[0];
      assert x in multiset(b);
      var i :| 0 <= i < |b| && b[i] == x;
      var rest := b[..i] + b[i + 1..];
      assert b == b[..i] + [x] + b[i + 1..];
      assert a == [x] + a[1..];
      assert multiset(b) == multiset(b[..i]) + multiset{x} + multiset(b[i + 1..]);
      assert multiset(a) == multiset{x} + multiset(a[1..]);
      assert multiset(rest) == multiset(b[..i]) + multiset(b[i + 1..]);
      assert multiset(rest) == multiset(b) - multiset{x};
      assert multiset(a[1..]) == multiset(a) - multiset{x};
      PayloadsMultiset(a[1..], rest);
      PayloadsAppend([x], a[1..]);
      PayloadsAppend(b[..i], b[i + 1..]);
      PayloadsAppend(b[..i] + [x], b[i + 1..]);
      PayloadsAppend(b[..i], [x]);
    }
  }

  /** The payload `0, 1, ..., n - 1` that `InitPayload` writes. */
  function Iota(n: nat): (s: seq<uint32>)
    requires n <= TwoTo32
    ensures |s| == n && forall i :: 0 <= i < n ==> s[i] == i
  {
    seq(n, i requires 0 <= i < n => i)
  }

  lemma {:induction false} DistinctPayloadsOnce(s: seq<Entry>, x: Entry)
    requires forall i, j :: 0 <= i < j < |s| ==> s[i].payload != s[j].payload
    ensures multiset(s)[x] <= 1
  {
    if s != [] {
      DistinctPayloadsOnce(s[1..], x);
      assert s == [s[0]] + s[1..];
      if s[0] == x {
        assert x !in s[1..];
      }
    }
  }

  lemma TwiceCounted(s: seq<Entry>, i: nat, j: nat)
    requires i < j < |s| && s[i] == s[j]
    ensures multiset(s)[s[i]] >= 2
  {
    assert s == s[..j] + s[j..];
    assert s[i] in s[..j];
    assert s[j..][0] == s[j];
    assert multiset(s) == multiset(s[..j]) + multiset(s[j..]);
  }

  /** `e`'s payload is an index of `keys` whose key `e` carries. */
  predicate PairedWith(e: Entry, keys: seq<uint32>)
  {
    e.payload < |keys| && e.key == keys[e.payload]
  }

  /**
    Sorting keys paired with the identity payload: the result is as long as the input, its keys
    ascend, every payload names the primitive whose key it sits with, no payload repeats, and every
    index `0..n-1` appears, so the payload is a permutation of `0..n-1` ordered by key.
  */
  lemma {:induction false} SortIdentityPayload(keys: seq<uint32>)
    requires |keys| <= TwoTo32
    ensures var out := Sort(Zip(keys, Iota(|keys|)));
      |out| == |keys| && Ascending(out) && OrderOf(keys, out)
  {
    var input := Zip(keys, Iota(|keys|));
    SortCorrect(input);
    IdentityPermutation(keys, Sort(input));
  }

  /**
    `out` lists primitive indices of `keys`: each payload names the primitive whose key it carries,
    no index repeats, and every index `0..|keys|-1` appears.
  */
  ghost predicate OrderOf(keys: seq<uint32>, out: seq<Entry>)
  {
    && (forall i :: 0 <= i < |out| ==> PairedWith(out[i], keys))
    && (forall i, j :: 0 <= i < j < |out| ==> out[i].payload != out[j].payload)
    && (forall v: uint32 :: v < |keys| ==> Entry(keys[v], v) in out)
  }

  /** Any rearrangement of the identity-payload pairs carries each index exactly once, with its key. */
  lemma IdentityPermutation(keys: seq<uint32>, out: seq<Entry>)
    requires |keys| <= TwoTo32
    requires multiset(out) == multiset(Zip(keys, Iota(|keys|)))
    ensures OrderOf(keys, out)
  {
    var input := Zip(keys, Iota(|keys|));
    forall i | 0 <= i < |out|
      ensures PairedWith(out[i], keys)
    {
      assert out[i] in multiset(input);
    }
    forall i, j | 0 <= i < j < |out|
      ensures out[i].payload != out[j].payload
    {
      if out[i].payload == out[j].payload {
        assert out[i] in multiset(input) && out[j] in multiset(input);
        assert out[i] == out[j];
        TwiceCounted(out, i, j);
        DistinctPayloadsOnce(input, out[i]);
      }
    }
    forall v: uint32 | v < |keys|
      ensures Entry(keys[v], v) in out
    {
      assert input[v] in multiset(out);
    }
  }

  /** Sorting never separates a key from its payload: each output pair is an input pair. */
  lemma SortKeepsPairs(keys: seq<uint32>, payload: seq<uint32>)
    requires |keys| == |payload|
    ensures var out := Sort(Zip(keys, payload));
      && |out| == |keys|
      && forall i :: 0 <= i < |out| ==> out[i] in Zip(keys, payload)
  {
    var input := Zip(keys, payload);
    var out := Sort(input);
    SortCorrect(input);
    forall i | 0 <= i < |out|
      ensures out[i] in input
    {
      assert out[i] in multiset(input);
    }
  }
}
