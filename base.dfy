/** Failure-compatible wrappers used for the error paths of the model. */
module Wrappers {

  datatype Option<+T> = None | Some(value: T)

  datatype Result<+R, +E> = Success(value: R) | Failure(error: E)
}

/** Fixed-width integers of the C# source and the C# arithmetic that differs from Dafny's. */
module Ints {

  const TwoTo31: int := 0x8000_0000
  const TwoTo32: int := 0x1_0000_0000

  type byte = x: int | 0 <= x < 256
  type uint32 = x: int | 0 <= x < 0x1_0000_0000

  /** C# `/` on `int`: the quotient is truncated toward zero (Dafny's `/` is Euclidean). */
  function TruncDiv(a: int, b: int): (q: int)
    requires b > 0
    ensures a >= 0 ==> q == a / b
    ensures a < 0 ==> q == -((-a) / b)
    ensures q * b <= a || a < 0
    ensures a < 0 ==> q <= 0 && q * b >= a
  {
    if a >= 0 then a / b else -((-a) / b)
  }

  /** The C# cast `(int)x` of a `uint`: the bit pattern is kept, so values of 2^31 and above wrap negative. */
  function AsInt32(x: uint32): (r: int)
    ensures -TwoTo31 <= r < TwoTo31
    ensures (r + TwoTo32) % TwoTo32 == x
    ensures x < TwoTo31 ==> r == x
  {
    if x < TwoTo31 then x else x - TwoTo32
  }

  /** C# `int` arithmetic (unchecked): the mathematical result wrapped into the 32-bit range. */
  function WrapInt32(x: int): (r: int)
    ensures -TwoTo31 <= r < TwoTo31
    ensures (r - x) % TwoTo32 == 0
    ensures -TwoTo31 <= x < TwoTo31 ==> r == x
  {
    (x + TwoTo31) % TwoTo32 - TwoTo31
  }

  /** Quotient and remainder are determined by any decomposition `a == q * m + r` with `0 <= r < m`. */
  lemma DivModUnique(a: int, m: int, q: int, r: int)
    requires m > 0 && 0 <= r < m && a == q * m + r
    ensures a / m == q && a % m == r
  {
    var q', r' := a / m, a % m;
    assert a == q' * m + r';
    assert (q - q') * m == r' - r;
    if q > q' {
      assert (q - q') * m >= m by { MulMono(q - q', 1, m); }
    } else if q < q' {
      assert (q' - q) * m >= m by { MulMono(q' - q, 1, m); }
    }
  }

  /** One more row of `b`, stated once so that proofs with much else in scope need not find it. */
  lemma MulSucc(a: int, b: int)
    ensures (a + 1) * b == a * b + b
  {
  }

  lemma MulMono(a: int, b: int, m: int)
    requires a >= b && m >= 0
    ensures a * m >= b * m
  {
    assert a * m - b * m == (a - b) * m;
  }
}

/** Facts about sequences that several proofs share. */
module Sequences {

  /** Concatenation regrouped, stated once so that callers need not prove it by extensionality. */
  lemma AppendAssoc<T>(a: seq<T>, b: seq<T>, c: seq<T>)
    ensures a + b + c == a + (b + c)
  {
  }
}
