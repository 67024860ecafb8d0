/** Powers of two and the bit fields of a word, written as division and remainder. */
module Bits {
  function Pow2(n: nat): (r: nat)
    ensures r >= 1
  {
    if n == 0 then 1 else 2 * Pow2(n - 1)
  }

  // Products, quotients and remainders by repeated addition and subtraction: the solver then only
  // ever sees linear facts.  `MulIs` and `DivModIs` say they are `*`, `/` and `%`.

  function Mul(a: nat, b: nat): (r: nat) { if a == 0 then 0 else Mul(a - 1, b) + b }

  function Div(x: nat, d: nat): (r: nat)
    requires d > 0
  {
    if x < d then 0 else 1 + Div(x - d, d)
  }

  function Mod(x: nat, d: nat): (r: nat)
    requires d > 0
    ensures r < d
  {
    if x < d then x else Mod(x - d, d)
  }

  /** Bits `lo .. lo + width` of `x`: what `(x >> lo) & mask!(width)` computes. */
  function Field(x: nat, lo: nat, width: nat): (r: nat)
    ensures r < Pow2(width)
  {
    Mod(Div(x, Pow2(lo)), Pow2(width))
  }

  /** The low `width` bits of `x`. */
  function Low(x: nat, width: nat): (r: nat)
    ensures r < Pow2(width)
  {
    Mod(x, Pow2(width))
  }

  lemma {:induction false} Pow2Add(a: nat, b: nat)
    ensures Pow2(a + b) == Pow2(a) * Pow2(b)
  {
    if a > 0 {
      Pow2Add(a - 1, b);
      assert Pow2(a + b) == 2 * Pow2(a - 1 + b);
    }
  }

  lemma {:induction false} Pow2Monotone(a: nat, b: nat)
    requires a <= b
    ensures Pow2(a) <= Pow2(b)
  {
    if a < b { Pow2Monotone(a, b - 1); }
  }

  lemma Pow2StrictlyMonotone(a: nat, b: nat)
    requires a < b
    ensures 2 * Pow2(a) <= Pow2(b)
  {
    Pow2Monotone(a + 1, b);
  }

  /** 2^57, reached by squaring. */
  lemma Pow2Of57()
    ensures Pow2(57) == 0x200_0000_0000_0000
  {
    assert Pow2(1) == 2 && Pow2(2) == 4 && Pow2(3) == 8;
    Pow2Add(3, 3);
    assert Pow2(7) == 128;
    Pow2Add(7, 7);
    Pow2Add(14, 14);
    Pow2Add(28, 28);
    assert Pow2(57) == 2 * Pow2(56);
  }

  // ----- products of digits, on plain numbers -----

  lemma MulMonotone(a: nat, b: nat, d: nat)
    requires a <= b
    ensures a * d <= b * d
  {}

  /** A two-digit number below `b * d` has its digits below `b` and `d`, and conversely. */
  lemma DigitsFit(q: nat, r: nat, b: nat, d: nat)
    requires q < b && r < d
    ensures q * d + r < b * d
  {
    MulMonotone(q + 1, b, d);
    assert (q + 1) * d == q * d + d;
  }

  lemma DivModUnique(x: nat, d: nat, q: nat, r: nat)
    requires d > 0 && r < d && x == q * d + r
    ensures Div(x, d) == q && Mod(x, d) == r
  {
    DivModRecombine(x, d);
    SplitUnique(d, q, r, Div(x, d), Mod(x, d));
  }

  lemma DivModIs(x: nat, d: nat)
    requires d > 0
    ensures Div(x, d) == x / d && Mod(x, d) == x % d
  {
    DivModUnique(x, d, x / d, x % d);
  }

  lemma {:induction false} MulIs(a: nat, b: nat)
    ensures Mul(a, b) == a * b
  {
    if a > 0 {
      MulIs(a - 1, b);
      assert a * b == (a - 1) * b + b;
    }
  }

  /** Two digit strings of the same width agree exactly when both digits agree. */
  lemma SplitUnique(d: nat, q1: nat, r1: nat, q2: nat, r2: nat)
    requires r1 < d && r2 < d && q1 * d + r1 == q2 * d + r2
    ensures q1 == q2 && r1 == r2
  {
    if q1 < q2 {
      DigitsFit(q1, r1, q2, d);
    } else if q2 < q1 {
      DigitsFit(q2, r2, q1, d);
    }
  }

  lemma ThreeDigitsUnique(p: nat, s: nat, a1: nat, b1: nat, c1: nat, a2: nat, b2: nat, c2: nat)
    requires b1 < p && b2 < p && c1 < s && c2 < s
    ensures (a1 * p + b1) * s + c1 == (a2 * p + b2) * s + c2 <==> a1 == a2 && b1 == b2 && c1 == c2
  {
    if (a1 * p + b1) * s + c1 == (a2 * p + b2) * s + c2 {
      SplitUnique(s, a1 * p + b1, c1, a2 * p + b2, c2);
      SplitUnique(p, a1, b1, a2, b2);
    }
  }

  lemma Regroup(a: nat, b: nat, p: nat, s: nat)
    ensures (a * p + b) * s == a * (p * s) + b * s
  {
    assert (a * p + b) * s == (a * p) * s + b * s;
    assert (a * p) * s == a * (p * s);
  }

  lemma ThreeDigits(q: nat, f: nat, r: nat, a: nat, b: nat)
    requires f < b && r < a
    ensures (q * b + f) * a + r == q * (a * b) + (f * a + r)
    ensures f * a + r < a * b
  {
    Regroup(q, f, b, a);
    assert b * a == a * b;
    DigitsFit(f, r, b, a);
  }

  lemma {:induction false} DivModRecombine(x: nat, d: nat)
    requires d > 0
    ensures x == Div(x, d) * d + Mod(x, d)
  {
    if x >= d {
      DivModRecombine(x - d, d);
      assert (1 + Div(x - d, d)) * d == d + Div(x - d, d) * d;
    }
  }

  lemma ModOfDigits(x: nat, y: nat, r: nat, q: nat, f: nat, a: nat, b: nat)
    requires f < b && r < a && x == y * a + r && y == q * b + f && a * b > 0
    ensures Mod(x, a * b) == f * a + r
  {
    ThreeDigits(q, f, r, a, b);
    DivModUnique(x, a * b, q, f * a + r);
  }

  lemma ModOfProduct(x: nat, a: nat, b: nat)
    requires a > 0 && b > 0 && a * b > 0
    ensures Mod(x, a * b) == Mod(Div(x, a), b) * a + Mod(x, a)
  {
    DivModRecombine(x, a);
    DivModRecombine(Div(x, a), b);
    ModOfDigits(x, Div(x, a), Mod(x, a), Div(Div(x, a), b), Mod(Div(x, a), b), a, b);
  }

  // ----- multiples -----

  lemma MultipleIsAligned(k: nat, d: nat)
    requires d > 0
    ensures Mod(Mul(k, d), d) == 0
  {
    MulIs(k, d);
    DivModUnique(k * d, d, k, 0);
  }

  lemma AlignedIsMultiple(x: nat, d: nat)
    requires d > 0 && Mod(x, d) == 0
    ensures x == Mul(Div(x, d), d)
  {
    MulIs(Div(x, d), d);
    DivModRecombine(x, d);
  }

  lemma {:induction false} MulSum(a: nat, b: nat, d: nat)
    ensures Mul(a + b, d) == Mul(a, d) + Mul(b, d)
  {
    if b > 0 { MulSum(a, b - 1, d); }
  }

  lemma AlignedSum(x: nat, y: nat, d: nat)
    requires d > 0 && Mod(x, d) == 0 && Mod(y, d) == 0
    ensures Mod(x + y, d) == 0
  {
    AlignedIsMultiple(x, d);
    AlignedIsMultiple(y, d);
    MulSum(Div(x, d), Div(y, d), d);
    MultipleIsAligned(Div(x, d) + Div(y, d), d);
  }

  lemma {:induction false} MulPow2(q: nat, e: nat, a: nat)
    ensures Mul(q, Pow2(e + a)) == Mul(Mul(q, Pow2(e)), Pow2(a))
  {
    if q > 0 {
      MulPow2(q - 1, e, a);
      MulSum(Mul(q - 1, Pow2(e)), Pow2(e), Pow2(a));
      Pow2Add(e, a);
      MulIs(Pow2(e), Pow2(a));
    }
  }

  /** What is aligned to a power of two is aligned to every smaller one. */
  lemma CoarserAligned(x: nat, a: nat, b: nat)
    requires a <= b && Mod(x, Pow2(b)) == 0
    ensures Mod(x, Pow2(a)) == 0
  {
    var q := Div(x, Pow2(b));
    AlignedIsMultiple(x, Pow2(b));
    MulPow2(q, b - a, a);
    MultipleIsAligned(Mul(q, Pow2(b - a)), Pow2(a));
  }

  lemma LowOfSmall(x: nat, width: nat)
    requires x < Pow2(width)
    ensures Low(x, width) == x
  {
    DivModUnique(x, Pow2(width), 0, x);
  }

  // ----- bit fields -----

  /** Reading the low `lo + width` bits splits into the field above `lo` and the low `lo` bits. */
  lemma SplitField(x: nat, lo: nat, width: nat)
    ensures Low(x, lo + width) == Field(x, lo, width) * Pow2(lo) + Low(x, lo)
  {
    Pow2Add(lo, width);
    ModOfProduct(x, Pow2(lo), Pow2(width));
  }
}
