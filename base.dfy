/** Small shared vocabulary: an optional value, bytes, powers of two and sequence reversal. */
module Base {

  /** The conventional optional value (Rust's Option). */
  datatype Option<T> = None | Some(value: T)

  /** Rust's u8, as a number. */
  newtype byte = x: int | 0 <= x < 0x100

  /** Rust's u16, as a number: transaction IDs and ports. */
  newtype u16 = x: int | 0 <= x < 0x1_0000

  function Min(a: nat, b: nat): (m: nat)
    ensures m <= a && m <= b && (m == a || m == b)
  {
    if a <= b then a else b
  }

  /** 2 to the power n. */
  function Pow2(n: nat): (r: nat)
    ensures r >= 1
  {
    if n == 0 then 1 else 2 * Pow2(n - 1)
  }

  lemma {:induction false} Pow2StrictlyIncreasing(a: nat, b: nat)
    requires a < b
    ensures Pow2(a) < Pow2(b)
  {
    if a + 1 < b {
      Pow2StrictlyIncreasing(a, b - 1);
    }
  }

  /** Powers of two compare exactly as their exponents do. */
  lemma Pow2Ordered(a: nat, b: nat)
    ensures Pow2(a) < Pow2(b) <==> a < b
    ensures Pow2(a) == Pow2(b) <==> a == b
  {
    if a < b {
      Pow2StrictlyIncreasing(a, b);
    } else if b < a {
      Pow2StrictlyIncreasing(b, a);
    }
  }

  /** The sequence in reverse order, peeling elements off the back. */
  function Reversed<T>(s: seq<T>): (r: seq<T>)
    ensures |r| == |s|
  {
    if s == [] then [] else [s[|s| - 1]] + Reversed(s[..|s| - 1])
  }

  lemma {:induction false} ReversedAt<T>(s: seq<T>, k: nat)
    requires k < |s|
    ensures Reversed(s)[k] == s[|s| - 1 - k]
  {
    if k > 0 {
      ReversedAt(s[..|s| - 1], k - 1);
    }
  }

  /** Reversal also peels off the front: the first element ends up last. */
  lemma {:induction false} ReversedFront<T>(s: seq<T>)
    requires s != []
    ensures Reversed(s) == Reversed(s[1..]) + [s[0]]
  {
    var r, t := Reversed(s), Reversed(s[1..]) + [s[0]];
    forall k | 0 <= k < |s|
      ensures r[k] == t[k]
    {
      ReversedAt(s, k);
      if k < |s| - 1 {
        ReversedAt(s[1..], k);
      }
    }
  }
}
