/** Big-endian bit strings, and the arithmetic of a shift register that keeps only its low 32 bits. */
module Bits {

  type byte = b: nat | b < 256

  function Pow2(n: nat): (p: nat)
    ensures p >= 1
  {
    if n == 0 then 1 else 2 * Pow2(n - 1)
  }

  /** The low n bits of v, most significant first. */
  function LowBits(v: nat, n: nat): (r: seq<bool>)
    ensures |r| == n
  {
    if n == 0 then [] else LowBits(v / 2, n - 1) + [v % 2 == 1]
  }

  /** A sequence of n-bit digits as one bit string. */
  function DigitBits(digits: seq<nat>, n: nat): seq<bool> {
    if digits == [] then [] else DigitBits(digits[..|digits| - 1], n) + LowBits(digits[|digits| - 1], n)
  }

  lemma OneMore(n: nat, k: nat)
    requires k > 0
    ensures n * k == n * (k - 1) + n
  {
  }

  lemma {:induction false} DigitBitsLength(digits: seq<nat>, n: nat)
    ensures |DigitBits(digits, n)| == n * |digits|
  {
    hide LowBits;
    if digits != [] {
      DigitBitsLength(digits[..|digits| - 1], n);
      OneMore(n, |digits|);
    }
  }

  lemma PowersUsed()
    ensures Pow2(0) == 1 && Pow2(1) == 2 && Pow2(2) == 4 && Pow2(3) == 8 && Pow2(4) == 16
    ensures Pow2(5) == 32 && Pow2(6) == 64 && Pow2(7) == 128 && Pow2(8) == 256
  {
  }

  lemma {:induction false} LowBitsIgnoreHigh(v: nat, k: nat, n: nat)
    ensures LowBits(v + k * Pow2(n), n) == LowBits(v, n)
  {
    if n > 0 {
      var w := v + k * Pow2(n);
      assert w == v + 2 * (k * Pow2(n - 1));
      assert w / 2 == v / 2 + k * Pow2(n - 1) && w % 2 == v % 2;
      LowBitsIgnoreHigh(v / 2, k, n - 1);
    }
  }

  lemma {:induction false} Pow2Adds(m: nat, n: nat)
    ensures Pow2(m + n) == Pow2(m) * Pow2(n)
  {
    if m > 0 {
      Pow2Adds(m - 1, n);
    }
  }

  lemma Regroup(q: nat, a: nat, b: nat, c: nat)
    requires c == a * b
    ensures q * c == q * a * b
  {
  }

  lemma DivMod(v: nat, p: nat, a: nat, b: nat)
    requires p >= 1 && p == a * b
    ensures v == v % p + v / p * a * b
  {
  }

  /** Wrapping to j bits does not touch the low n of them. */
  lemma ModKeepsLowBits(v: nat, j: nat, n: nat)
    requires n <= j
    ensures LowBits(v % Pow2(j), n) == LowBits(v, n)
  {
    Pow2Adds(j - n, n);
    ModKeeps(v, Pow2(j), j - n, n);
  }

  lemma ModKeeps(v: nat, p: nat, m: nat, n: nat)
    requires p >= 1 && p == Pow2(m) * Pow2(n)
    ensures LowBits(v % p, n) == LowBits(v, n)
  {
    hide LowBits, Pow2;
    DivMod(v, p, Pow2(m), Pow2(n));
    LowBitsIgnoreHigh(v % p, v / p * Pow2(m), n);
  }

  /** `v >>> n`. */
  function Shr(v: nat, n: nat): nat {
    if n == 0 then v else Shr(v / 2, n - 1)
  }

  lemma MultipleOutside(k: int, d: int)
    requires d >= 0
    ensures k >= 1 ==> k * d >= d
    ensures k <= -1 ==> k * d <= -d
  {
  }

  lemma QuotientIs(v: nat, d: nat, q: nat, r: nat)
    requires d > 0 && v == q * d + r && r < d
    ensures v / d == q && v % d == r
  {
    var k := q - v / d;
    assert k * d == v % d - r;
    MultipleOutside(k, d);
  }

  /** Halving first and dividing afterwards. */
  lemma HalfThenDivide(v: nat, p: nat)
    requires p >= 1
    ensures v / 2 / p == v / (2 * p)
  {
    var h := v / 2;
    var q, r := h / p, h % p;
    DivMod(h, p, p, 1);
    Regroup(q, 2, p, 2 * p);
    QuotientIs(v, 2 * p, q, 2 * r + v % 2);
  }

  lemma {:induction false} ShrDivides(v: nat, n: nat)
    ensures Shr(v, n) == v / Pow2(n)
  {
    if n > 0 {
      ShrDivides(v / 2, n - 1);
      HalfThenDivide(v, Pow2(n - 1));
    }
  }

  /** Shifting right by n splits off the low n bits. */
  lemma {:induction false} SplitLowBits(v: nat, m: nat, n: nat)
    ensures LowBits(v, m + n) == LowBits(Shr(v, n), m) + LowBits(v, n)
  {
    if n > 0 {
      SplitLowBits(v / 2, m, n - 1);
    }
  }

  lemma {:induction false} ShrUndoesShift(v: nat, x: nat, n: nat)
    requires x < Pow2(n)
    ensures Shr(v * Pow2(n) + x, n) == v
  {
    if n > 0 {
      ShrUndoesShift(v, x / 2, n - 1);
      HalfOfShifted(v, x, Pow2(n - 1));
    }
  }

  lemma HalfOfShifted(v: nat, x: nat, p: nat)
    ensures (v * (2 * p) + x) / 2 == v * p + x / 2
  {
    Regroup(v, p, 2, 2 * p);
    HalfOfEven(v * p, x);
  }

  lemma HalfOfEven(k: nat, x: nat)
    ensures (k * 2 + x) / 2 == k + x / 2
  {
  }

  /** Shifting left by n and filling in x appends the n bits of x. */
  lemma ShiftIn(v: nat, x: nat, m: nat, n: nat)
    requires x < Pow2(n)
    ensures LowBits(v * Pow2(n) + x, m + n) == LowBits(v, m) + LowBits(x, n)
  {
    hide LowBits, Pow2, Shr;
    SplitLowBits(v * Pow2(n) + x, m, n);
    ShrUndoesShift(v, x, n);
    LowBitsIgnoreHigh(x, v, n);
  }

  lemma {:induction false} ZeroBits(n: nat)
    ensures LowBits(0, n) == seq(n, _ => false)
  {
    if n > 0 {
      ZeroBits(n - 1);
    }
  }

  /** `v << 5` and `v << 8` on a 32-bit word: the top bits fall off. */
  function Shl5(v: nat): nat {
    v % 0x800_0000 * 32
  }

  function Shl8(v: nat): nat {
    v % 0x100_0000 * 256
  }

  lemma BigPowers()
    ensures Pow2(24) == 0x100_0000 && Pow2(27) == 0x800_0000 && Pow2(32) == 0x1_0000_0000
  {
    PowersUsed();
    Pow2Adds(8, 8);
    Pow2Adds(8, 16);
    Pow2Adds(3, 24);
    Pow2Adds(8, 24);
  }

  /** `(v << 5) | x`, seen through the m + 5 bits that are pending afterwards. */
  lemma PushSymbol(v: nat, x: nat, m: nat)
    requires m <= 27 && x < 32
    ensures LowBits(Shl5(v) + x, m + 5) == LowBits(v, m) + LowBits(x, 5)
  {
    hide LowBits, Pow2;
    PowersUsed();
    BigPowers();
    ShiftIn(v % Pow2(27), x, m, 5);
    ModKeepsLowBits(v, 27, m);
  }

  lemma PushByte(v: nat, x: nat, m: nat)
    requires m <= 24 && x < 256
    ensures LowBits(Shl8(v) + x, m + 8) == LowBits(v, m) + LowBits(x, 8)
  {
    hide LowBits, Pow2;
    PowersUsed();
    BigPowers();
    ShiftIn(v % Pow2(24), x, m, 8);
    ModKeepsLowBits(v, 24, m);
  }

  /** `v << n` for any n: doubled n times, the carry out of the word lost. */
  function Shl(v: nat, n: nat): nat
    decreases n
  {
    if n == 0 then v else Shl(v * 2 % 0x1_0000_0000, n - 1)
  }

  lemma DoubleKeepsPending(v: nat, m: nat)
    requires m < 32
    ensures LowBits(v * 2 % 0x1_0000_0000, m + 1) == LowBits(v, m) + [false]
  {
    BigPowers();
    ModKeepsLowBits(v * 2, 32, m + 1);
  }

  /** While m + n bits fit in the word, shifting keeps the m pending bits and appends n zeros. */
  lemma {:induction false} ShlPadsPending(v: nat, m: nat, n: nat)
    requires m + n <= 32
    ensures LowBits(Shl(v, n), m + n) == LowBits(v, m) + LowBits(0, n)
    decreases n
  {
    if n > 0 {
      DoubleKeepsPending(v, m);
      ShlPadsPending(v * 2 % 0x1_0000_0000, m + 1, n - 1);
      ZeroBits(n);
      ZeroBits(n - 1);
    }
  }

  /** `(v >>> m) & 31` takes the top five of m + 5 pending bits. */
  lemma TakeSymbol(v: nat, m: nat)
    ensures LowBits(v, m + 5) == LowBits(Shr(v, m) % 32, 5) + LowBits(v, m)
  {
    PowersUsed();
    SplitLowBits(v, 5, m);
    ModKeepsLowBits(Shr(v, m), 5, 5);
  }

  lemma TakeByte(v: nat, m: nat)
    ensures LowBits(v, m + 8) == LowBits(Shr(v, m) % 256, 8) + LowBits(v, m)
  {
    PowersUsed();
    SplitLowBits(v, 8, m);
    ModKeepsLowBits(Shr(v, m), 8, 8);
  }

  lemma {:induction false} LowBitsInjective(v: nat, w: nat, n: nat)
    requires v < Pow2(n) && w < Pow2(n) && LowBits(v, n) == LowBits(w, n)
    ensures v == w
  {
    if n > 0 {
      assert LowBits(v, n)[..n - 1] == LowBits(v / 2, n - 1) && LowBits(w, n)[..n - 1] == LowBits(w / 2, n - 1);
      assert LowBits(v, n)[n - 1] == (v % 2 == 1) && LowBits(w, n)[n - 1] == (w % 2 == 1);
      LowBitsInjective(v / 2, w / 2, n - 1);
    }
  }

  /** A string of n-bit digits is determined by its bits. */
  lemma {:induction false} DigitBitsInjective(a: seq<nat>, b: seq<nat>, n: nat)
    requires n > 0 && DigitBits(a, n) == DigitBits(b, n) && |a| == |b|
    requires forall k :: 0 <= k < |a| ==> a[k] < Pow2(n) && b[k] < Pow2(n)
    ensures a == b
  {
    if a != [] {
      var m := |a| - 1;
      DigitBitsLength(a[..m], n);
      DigitBitsLength(b[..m], n);
      assert DigitBits(a, n)[..n * m] == DigitBits(a[..m], n) && DigitBits(b, n)[..n * m] == DigitBits(b[..m], n);
      assert DigitBits(a, n)[n * m..] == LowBits(a[m], n) && DigitBits(b, n)[n * m..] == LowBits(b[m], n);
      DigitBitsInjective(a[..m], b[..m], n);
      LowBitsInjective(a[m], b[m], n);
    }
  }

  lemma DigitBitsSnoc(digits: seq<nat>, d: nat, n: nat)
    ensures DigitBits(digits + [d], n) == DigitBits(digits, n) + LowBits(d, n)
  {
  }

  /** The number that a bit string spells. */
  function Number(bits: seq<bool>): nat {
    if bits == [] then 0 else 2 * Number(bits[..|bits| - 1]) + if bits[|bits| - 1] then 1 else 0
  }

  lemma {:induction false} NumberSpells(bits: seq<bool>)
    ensures Number(bits) < Pow2(|bits|) && LowBits(Number(bits), |bits|) == bits
  {
    if bits != [] {
      NumberSpells(bits[..|bits| - 1]);
      assert Number(bits) / 2 == Number(bits[..|bits| - 1]);
    }
  }

  lemma OctetSnoc(bits: seq<bool>, n: nat, front: seq<byte>)
    requires 0 < 8 * n <= |bits| && DigitBits(front, 8) == bits[..8 * (n - 1)]
    ensures var last := bits[8 * (n - 1)..8 * n];
            Number(last) < 256 && DigitBits(front + [Number(last)], 8) == bits[..8 * n]
  {
    hide Number, LowBits, DigitBits;
    var last := bits[8 * (n - 1)..8 * n];
    PowersUsed();
    NumberSpells(last);
    DigitBitsSnoc(front, Number(last), 8);
    assert bits[..8 * n] == bits[..8 * (n - 1)] + last;
  }

  /** The first n bytes of a bit string. */
  function Octets(bits: seq<bool>, n: nat): (b: seq<byte>)
    requires 8 * n <= |bits|
    ensures |b| == n && DigitBits(b, 8) == bits[..8 * n]
  {
    if n == 0 then []
    else
      var front, last := Octets(bits, n - 1), bits[8 * (n - 1)..8 * n];
      OctetSnoc(bits, n, front);
      front + [Number(last)]
  }
}
