/** Small value types shared by every module. */
module Common {

  datatype Option<+T> = None | Some(value: T)

  datatype Result<+T, +E> = Ok(value: T) | Err(error: E)

  /** Identifiers are opaque text; the empty string is the "absent" id the code tests for. */
  type Id = string

  /** Instants on one time line; durations are differences of instants. */
  type Time = int

  /** Number of times `x` occurs in `s`. */
  ghost function Count<T>(s: seq<T>, x: T): nat {
    if s == [] then 0 else Count(s[..|s| - 1], x) + (if s[|s| - 1] == x then 1 else 0)
  }

  lemma CountAppend<T>(s: seq<T>, y: T, x: T)
    ensures Count(s + [y], x) == Count(s, x) + (if x == y then 1 else 0)
  {
    assert (s + [y])[..|s|] == s;
  }

  lemma MulMonotone(a: int, b: int, d: nat)
    requires a <= b
    ensures a * d <= b * d
  {
  }

  lemma QuotientBound(k: int, d: nat, x: int)
    requires d > 0 && k * d <= x
    ensures k <= x / d
  {
    if x / d + 1 <= k {
      MulMonotone(x / d + 1, k, d);
    }
  }

  /** Rounds up, for counting sweeps. */
  function CeilDiv(n: nat, d: nat): (q: nat)
    requires d > 0
    ensures (q - 1) * d < n <= q * d
  {
    (n + d - 1) / d
  }
}
