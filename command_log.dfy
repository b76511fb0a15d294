/** Views of a recorded command list: the dispatches it issues and the radix shifts it sets. */
module CommandLog {
  import opened Graphics
  import opened Sequences

  /** The shader property that carries the digit shift of a radix-sort pass. */
  const RadixShiftId := "e_radixShift"

  /** The kernel and group count of a dispatch command; nothing for other commands. */
  function DispatchOf(c: Command): seq<(int, int)>
  {
    if c.DispatchCompute? then [(c.kernel, c.groups)] else []
  }

  /** The value a command gives `e_radixShift`; nothing for other commands. */
  function ShiftOf(c: Command): seq<int>
  {
    if c.SetComputeInt? && c.name == RadixShiftId then [c.value] else []
  }

  /** The kernel and group count of every dispatch in a command list, in order. */
  function Dispatches(cmds: seq<Command>): seq<(int, int)>
  {
    FlatMap(cmds, DispatchOf)
  }

  /** The values a command list gives `e_radixShift`, in order. */
  function RadixShifts(cmds: seq<Command>): seq<int>
  {
    FlatMap(cmds, ShiftOf)
  }

  /** `f` applied to every element of `s`, the results concatenated. */
  function FlatMap<T, U>(s: seq<T>, f: T -> seq<U>): seq<U>
  {
    if s == [] then [] else f(s[0]) + FlatMap(s[1..], f)
  }

  lemma {:induction false} FlatMapAppend<T, U>(a: seq<T>, b: seq<T>, f: T -> seq<U>)
    ensures FlatMap(a + b, f) == FlatMap(a, f) + FlatMap(b, f)
  {
    if a == [] {
      assert a + b == b;
    } else {
      var ab := a + b;
      assert ab[0] == a[0];
      assert ab[1..] == a[1..] + b;
      FlatMapAppend(a[1..], b, f);
      assert FlatMap(ab, f) == f(a[0]) + FlatMap(a[1..] + b, f);
      assert FlatMap(a, f) == f(a[0]) + FlatMap(a[1..], f);
    }
  }

  lemma FlatMapOne<T, U>(a: T, f: T -> seq<U>)
    ensures FlatMap([a], f) == f(a)
  {
    assert [a][1..] == [];
  }

  lemma FlatMapThree<T, U>(a: T, b: T, c: T, f: T -> seq<U>)
    ensures FlatMap([a, b, c], f) == f(a) + f(b) + f(c)
  {
    FlatMapOne(a, f);
    FlatMapOne(b, f);
    FlatMapOne(c, f);
    assert [a, b, c] == [a] + [b] + [c];
    FlatMapAppend([a], [b], f);
    FlatMapAppend([a] + [b], [c], f);
  }

  lemma FlatMapFive<T, U>(a: T, b: T, c: T, d: T, e: T, f: T -> seq<U>)
    ensures FlatMap([a, b, c, d, e], f) == f(a) + f(b) + f(c) + f(d) + f(e)
  {
    FlatMapThree(a, b, c, f);
    FlatMapOne(d, f);
    FlatMapOne(e, f);
    assert [a, b, c, d, e] == [a, b, c] + [d] + [e];
    FlatMapAppend([a, b, c], [d], f);
    FlatMapAppend([a, b, c] + [d], [e], f);
  }

  lemma {:induction false} FlatMapNone<T, U>(s: seq<T>, f: T -> seq<U>)
    requires forall i :: 0 <= i < |s| ==> f(s[i]) == []
    ensures FlatMap(s, f) == []
  {
    if s != [] {
      FlatMapNone(s[1..], f);
    }
  }

  /** `s` repeated `n` times. */
  function Repeat<T>(s: seq<T>, n: nat): (r: seq<T>)
    ensures |r| == n * |s|
  {
    if n == 0 then [] else Repeat(s, n - 1) + s
  }

  lemma RepeatFour<T>(s: seq<T>)
    ensures Repeat(s, 4) == s + s + s + s
  {
    assert Repeat(s, 1) == s by { assert Repeat(s, 0) == []; }
    assert Repeat(s, 2) == s + s;
    assert Repeat(s, 3) == s + s + s;
  }

  /** `step` applied to `g` and each element of `s` in turn. */
  function Fold<S, T>(step: (S, T) -> S, g: S, s: seq<T>): S
    decreases |s|
  {
    if s == [] then g else Fold(step, step(g, s[0]), s[1..])
  }

  lemma {:induction false} FoldAppend<S, T>(step: (S, T) -> S, g: S, a: seq<T>, b: seq<T>)
    ensures Fold(step, g, a + b) == Fold(step, Fold(step, g, a), b)
    decreases |a|
  {
    if a == [] {
      assert a + b == b;
    } else {
      assert (a + b)[0] == a[0];
      assert (a + b)[1..] == a[1..] + b;
      FoldAppend(step, step(g, a[0]), a[1..], b);
    }
  }

  lemma FoldOne<S, T>(step: (S, T) -> S, g: S, a: T)
    ensures Fold(step, g, [a]) == step(g, a)
  {
    assert [a][1..] == [];
  }

  lemma FoldTwo<S, T>(step: (S, T) -> S, g: S, a: T, b: T)
    ensures Fold(step, g, [a, b]) == step(step(g, a), b)
  {
    assert [a, b] == [a] + [b];
    FoldAppend(step, g, [a], [b]);
    FoldOne(step, g, a);
    FoldOne(step, step(g, a), b);
  }

  lemma FoldThree<S, T>(step: (S, T) -> S, g: S, a: T, b: T, c: T)
    ensures Fold(step, g, [a, b, c]) == step(step(step(g, a), b), c)
  {
    assert [a, b, c] == [a, b] + [c];
    FoldAppend(step, g, [a, b], [c]);
    FoldTwo(step, g, a, b);
    FoldOne(step, step(step(g, a), b), c);
  }

  lemma FoldFour<S, T>(step: (S, T) -> S, g: S, a: T, b: T, c: T, d: T)
    ensures Fold(step, g, [a, b, c, d]) == step(step(step(step(g, a), b), c), d)
  {
    assert [a, b, c, d] == [a, b, c] + [d];
    FoldAppend(step, g, [a, b, c], [d]);
    FoldThree(step, g, a, b, c);
    FoldOne(step, step(step(step(g, a), b), c), d);
  }

  lemma FoldFive<S, T>(step: (S, T) -> S, g: S, a: T, b: T, c: T, d: T, e: T)
    ensures Fold(step, g, [a, b, c, d, e]) == step(step(step(step(step(g, a), b), c), d), e)
  {
    assert [a, b, c, d, e] == [a, b, c, d] + [e];
    FoldAppend(step, g, [a, b, c, d], [e]);
    FoldFour(step, g, a, b, c, d);
    FoldOne(step, step(step(step(step(g, a), b), c), d), e);
  }
}
