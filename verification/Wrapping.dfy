/** Unsigned 32-bit counters and masks, as C computes them (sections 6.2.5 and
    6.5.10 of ISO/IEC 9899:2011). The rings of the io_uring server index their
    slots with `counter & mask` and measure their fill with `tail - head`, both on
    counters that wrap around. */
module Wrapping {
  const TWO32: int := 0x1_0000_0000

  type uint32 = x: int | 0 <= x < TWO32

  function Add32(a: uint32, b: nat): uint32 { (a + b) % TWO32 }

  function Sub32(a: uint32, b: uint32): uint32 { (a - b) % TWO32 }

  function Pow2(k: nat): (p: nat)
    ensures p >= 1
  {
    if k == 0 then 1 else 2 * Pow2(k - 1)
  }

  // Bitwise AND of two non-negative values, bit by bit.
  function BitAnd(a: nat, b: nat): nat {
    if a == 0 || b == 0 then 0
    else (if a % 2 == 1 && b % 2 == 1 then 1 else 0) + 2 * BitAnd(a / 2, b / 2)
  }

  lemma {:induction false} MulBounds(d: int, n: int)
    requires d > 0
    ensures n >= 1 ==> d * n >= d
    ensures n <= -1 ==> d * n <= -d
  {
  }

  lemma {:induction false} DivModUnique(x: int, d: int, q: int, r: int)
    requires d > 0 && 0 <= r < d && x == d * q + r
    ensures x / d == q && x % d == r
  {
    var n := q - x / d;
    assert d * n == x % d - r;
    MulBounds(d, n);
    assert n == 0;
  }

  lemma {:induction false} ModAddMultiple(x: int, d: int, q: int)
    requires d > 0
    ensures (x + d * q) % d == x % d
  {
    DivModUnique(x + d * q, d, x / d + q, x % d);
  }

  // `x & (2^k - 1)` is `x mod 2^k`.
  lemma {:induction false} MaskIsModulo(x: nat, k: nat)
    ensures BitAnd(x, Pow2(k) - 1) == x % Pow2(k)
  {
    if k == 0 {
    } else if x == 0 {
    } else {
      MaskIsModulo(x / 2, k - 1);
      assert (Pow2(k) - 1) / 2 == Pow2(k - 1) - 1;
      assert k > 1 ==> (Pow2(k) - 1) % 2 == 1;
      ModuloByHalves(x, Pow2(k - 1));
    }
  }

  lemma {:induction false} ModuloByHalves(x: nat, half: nat)
    requires half > 0
    ensures x % (2 * half) == 2 * ((x / 2) % half) + x % 2
  {
    var q, r := (x / 2) / half, (x / 2) % half;
    assert x / 2 == half * q + r;
    assert 2 * (half * q) == (2 * half) * q;
    DivModUnique(x, 2 * half, q, 2 * r + x % 2);
  }

  lemma {:induction false} Pow2Divides(k: nat, n: nat)
    requires k <= n
    ensures Pow2(n) == Pow2(k) * Pow2(n - k)
  {
    if k < n { Pow2Divides(k, n - 1); }
  }

  lemma Pow2Of32()
    ensures Pow2(32) == TWO32
  {
    assert Pow2(8) == 256;
    Pow2Divides(8, 16);
    Pow2Divides(16, 32);
  }

  // The slot of a wrapped counter is the slot of the counter that never wraps:
  // masking commutes with reduction modulo 2^32.
  lemma {:induction false} SlotIgnoresWrap(n: nat, k: nat)
    requires k <= 32
    ensures BitAnd(n % TWO32, Pow2(k) - 1) == n % Pow2(k)
  {
    MaskIsModulo(n % TWO32, k);
    Pow2Of32();
    Pow2Divides(k, 32);
    ModuloOfModulo(n, Pow2(k), Pow2(32 - k));
  }

  lemma {:induction false} ModuloOfModulo(n: nat, p: nat, q: nat)
    requires p > 0 && q > 0 && p * q > 0
    ensures (n % (p * q)) % p == n % p
  {
    var t := n / (p * q);
    MulAssociates(p, q, t);
    assert n == p * (q * t) + n % (p * q);
    ModAddMultiple(n % (p * q), p, q * t);
  }

  lemma MulAssociates(a: int, b: int, c: int)
    ensures (a * b) * c == a * (b * c)
  {
  }

  // `tail - head` in 32 bits is the true distance, however often the counters
  // have wrapped, as long as that distance itself fits in 32 bits.
  lemma {:induction false} DistanceIgnoresWrap(head: nat, tail: nat)
    requires head <= tail < head + TWO32
    ensures Sub32(tail % TWO32, head % TWO32) == tail - head
  {
    var q := head / TWO32 - tail / TWO32;
    assert tail % TWO32 - head % TWO32 == (tail - head) + TWO32 * q;
    ModAddMultiple(tail - head, TWO32, q);
    DivModUnique(tail - head, TWO32, 0, tail - head);
  }

  lemma {:induction false} AddIgnoresWrap(n: nat, b: nat)
    ensures Add32(n % TWO32, b) == (n + b) % TWO32
  {
    assert n % TWO32 + b == (n + b) + TWO32 * (-(n / TWO32));
    ModAddMultiple(n + b, TWO32, -(n / TWO32));
  }

  // Counters less than a full turn apart fall into different slots.
  lemma {:induction false} DistinctSlots(i: nat, j: nat, entries: nat)
    requires i < j < i + entries
    ensures i % entries != j % entries
  {
    if i % entries == j % entries {
      assert j - i == entries * (j / entries - i / entries);
      MulBounds(entries, j / entries - i / entries);
    }
  }
}
