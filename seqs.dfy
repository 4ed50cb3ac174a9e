/** Sequence helpers: repetition (registrations that accumulate) and occurrence counting. */
module Seqs {

  /** `s` written out `n` times, one copy after another. */
  function Repeat<T>(s: seq<T>, n: nat): (r: seq<T>)
  {
    if n == 0 then [] else Repeat(s, n - 1) + s
  }

  /** How many times `x` occurs in `s`. */
  function Count<T(==)>(s: seq<T>, x: T): (c: nat)
    ensures c <= |s|
    ensures c == 0 <==> x !in s
  {
    if s == [] then 0
    else
      assert s == s[..|s| - 1] + [s[|s| - 1]];
      Count(s[..|s| - 1], x) + (if s[|s| - 1] == x then 1 else 0)
  }

  lemma {:induction false} CountConcat<T>(a: seq<T>, b: seq<T>, x: T)
    ensures Count(a + b, x) == Count(a, x) + Count(b, x)
    decreases |b|
  {
    if b != [] {
      var b' := b[..|b| - 1];
      assert (a + b)[..|a + b| - 1] == a + b';
      CountConcat(a, b', x);
    } else {
      assert a + b == a;
    }
  }

  lemma {:induction false} CountRepeat<T>(s: seq<T>, n: nat, x: T)
    ensures Count(Repeat(s, n), x) == n * Count(s, x)
  {
    if n > 0 {
      var c := Count(s, x);
      CountRepeat(s, n - 1, x);
      CountConcat(Repeat(s, n - 1), s, x);
      assert (n - 1) * c + c == n * c;
    }
  }
}
