/** Small shared vocabulary: an optional value and prefixes of sequences. */
module Basics {

  datatype Option<T> = None | Some(value: T)

  function Min(a: int, b: int): (m: int)
    ensures m <= a && m <= b && (m == a || m == b)
  {
    if a <= b then a else b
  }

  /** The first `n` elements of `s`, or all of `s` when it is shorter
      (JavaScript's `s.slice(0, n)`). */
  function Take<T>(s: seq<T>, n: nat): (r: seq<T>)
    ensures |r| == Min(|s|, n)
    ensures r <= s
  {
    if |s| <= n then s else s[..n]
  }

  /** Once `s` holds at least `n` elements, nothing appended later shows in its first `n`. */
  lemma TakeStable<T>(s: seq<T>, later: seq<T>, n: nat)
    requires |s| >= n
    ensures Take(s + later, n) == Take(s, n)
  {
    assert (s + later)[..n] == s[..n];
  }
}
