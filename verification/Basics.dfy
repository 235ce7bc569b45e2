/** Bytes, memory copies, powers of two and division, shared by the models. */
module Basics {
  type Byte = b: int | 0 <= b < 256

  /** memcpy of `data` to index `at`. */
  function Overwrite(mem: seq<Byte>, at: nat, data: seq<Byte>): (r: seq<Byte>)
    requires at + |data| <= |mem|
    ensures |r| == |mem|
  {
    mem[..at] + data + mem[at + |data|..]
  }

  function Pow2(n: nat): (p: nat)
    ensures p > 0
  {
    if n == 0 then 1 else 2 * Pow2(n - 1)
  }

  lemma MulBounds(d: int, e: int)
    requires d > 0
    ensures e >= 1 ==> d * e >= d
    ensures e <= -1 ==> d * e <= -d
  {
  }

  lemma MulMinus(d: int, a: int, b: int)
    ensures d * (a - b) == d * a - d * b
  {
  }

  /** Division with remainder is unique. */
  lemma DivModUnique(v: int, d: int, q: int, r: int)
    requires d > 0 && v == d * q + r && 0 <= r < d
    ensures v / d == q && v % d == r
  {
    MulMinus(d, v / d, q);
    MulBounds(d, v / d - q);
  }

  lemma WrapOnce(x: nat, n: nat)
    requires x < 2 * n
    ensures x % n == if x < n then x else x - n
  {
    if x < n {
      DivModUnique(x, n, 0, x);
    } else {
      DivModUnique(x, n, 1, x - n);
    }
  }
}
