/** Words of 32 bits as numbers, with the operations of C on them: wrap-around
    multiplication, exclusive or, shift and rotation.  What matters is which of them
    can be undone. */
module Words {
  const TOP: nat := 0x1_0000_0000

  type Word = x: nat | x < TOP

  // ---------- Exclusive or and shift ----------

  function XorNat(a: nat, b: nat): nat
    decreases a + b
  {
    if a == 0 && b == 0 then 0 else 2 * XorNat(a / 2, b / 2) + if a % 2 == b % 2 then 0 else 1
  }

  function Shr(x: nat, n: nat): nat
    decreases n
  {
    if n == 0 then x else Shr(x / 2, n - 1)
  }

  lemma {:induction false} XorZero(a: nat)
    ensures XorNat(a, 0) == a && XorNat(0, a) == a
  {
    if a != 0 { XorZero(a / 2); }
  }

  lemma {:induction false} XorSelf(a: nat)
    ensures XorNat(a, a) == 0
  {
    if a != 0 { XorSelf(a / 2); }
  }

  lemma {:induction false} XorSwap(a: nat, b: nat)
    ensures XorNat(a, b) == XorNat(b, a)
    decreases a + b
  {
    if a != 0 || b != 0 { XorSwap(a / 2, b / 2); }
  }

  lemma XorHalf(a: nat, b: nat)
    ensures XorNat(a, b) / 2 == XorNat(a / 2, b / 2)
    ensures XorNat(a, b) % 2 == if a % 2 == b % 2 then 0 else 1
  {
    if a == 0 && b == 0 { assert XorNat(0, 0) == 0; }
  }

  lemma {:induction false} XorTwice(a: nat, b: nat)
    ensures XorNat(XorNat(a, b), b) == a
    decreases a + b
  {
    if a != 0 || b != 0 {
      XorTwice(a / 2, b / 2);
      XorHalf(a, b);
      XorHalf(XorNat(a, b), b);
    }
  }

  lemma {:induction false} XorShr(a: nat, b: nat, n: nat)
    ensures Shr(XorNat(a, b), n) == XorNat(Shr(a, n), Shr(b, n))
    decreases n
  {
    if n > 0 {
      XorHalf(a, b);
      XorShr(a / 2, b / 2, n - 1);
    }
  }

  lemma {:induction false} ShrShr(x: nat, m: nat, n: nat)
    ensures Shr(Shr(x, m), n) == Shr(x, m + n)
    decreases m
  {
    if m > 0 { ShrShr(x / 2, m - 1, n); }
  }

  function Pow2(n: nat): nat { if n == 0 then 1 else 2 * Pow2(n - 1) }

  lemma {:induction false} ShrNone(x: nat, n: nat)
    ensures Shr(x, n) == 0 <==> x < Pow2(n)
    decreases n
  {
    if n > 0 { ShrNone(x / 2, n - 1); }
  }

  lemma Pow2Top()
    ensures Pow2(32) == TOP && Pow2(31) == 0x8000_0000
  {
    assert Pow2(8) == 256;
    assert Pow2(16) == 65536;
    assert Pow2(24) == 0x100_0000;
    assert Pow2(31) == 0x8000_0000;
  }

  lemma ShrWord(x: Word, n: nat)
    requires n >= 32
    ensures Shr(x, n) == 0
  {
    hide Shr;
    Pow2Top();
    ShrNone(x, 32);
    ShrShr(x, 32, n - 32);
    ShrShr(0, n - 32, 0);
    ShrZero(n - 32);
  }

  lemma {:induction false} ShrZero(n: nat)
    ensures Shr(0, n) == 0
  {
    if n > 0 { ShrZero(n - 1); }
  }

  lemma XorWord(a: Word, b: Word)
    ensures XorNat(a, b) < TOP
  {
    hide Shr, XorNat;
    Pow2Top();
    XorShr(a, b, 32);
    ShrWord(a, 32);
    ShrWord(b, 32);
    XorZero(0);
    ShrNone(XorNat(a, b), 32);
  }

  function Xor(a: Word, b: Word): Word {
    XorWord(a, b);
    XorNat(a, b)
  }

  lemma XorInjective(x: Word, y: Word, z: Word)
    ensures Xor(x, z) == Xor(y, z) ==> x == y
    ensures Xor(z, x) == Xor(z, y) ==> x == y
  {
    hide XorNat;
    XorTwice(x, z);
    XorTwice(y, z);
    XorSwap(x, z);
    XorSwap(y, z);
  }

  lemma {:induction false} ShrLess(x: nat, n: nat)
    ensures Shr(x, n) <= x
    decreases n
  {
    if n > 0 { ShrLess(x / 2, n - 1); }
  }

  /** x ^= x >> n */
  function Fold(x: Word, n: nat): Word {
    ShrLess(x, n);
    Xor(x, Shr(x, n))
  }

  lemma FoldShr(x: Word, n: nat, m: nat)
    ensures Shr(Fold(x, n), m) == XorNat(Shr(x, m), Shr(x, n + m))
  {
    hide Shr, XorNat;
    XorShr(x, Shr(x, n), m);
    ShrShr(x, n, m);
  }

  /** A fold by 11 bits or more can be undone. */
  lemma FoldInjective(x: Word, y: Word, n: nat)
    requires n >= 11
    ensures Fold(x, n) == Fold(y, n) ==> x == y
  {
    if Fold(x, n) == Fold(y, n) {
      FoldBack(x, n);
      FoldBack(y, n);
    }
  }

  /** y ^ y >> n ^ y >> 2n */
  function Unfold(y: nat, n: nat): nat { XorNat(XorNat(y, Shr(y, n)), Shr(y, 2 * n)) }

  lemma FoldBack(x: Word, n: nat)
    requires n >= 11
    ensures Unfold(Fold(x, n), n) == x
  {
    hide Shr, XorNat;
    var y, a, b := Fold(x, n), Shr(x, n), Shr(x, 2 * n);
    FoldShr(x, n, n);
    FoldShr(x, n, 2 * n);
    assert n + n == 2 * n;
    ShrWord(x, n + 2 * n);
    XorZero(b);
    assert y == XorNat(x, a) && Shr(y, n) == XorNat(a, b) && Shr(y, 2 * n) == b;
    XorAssoc(XorNat(x, a), a, b);
    XorTwice(x, a);
    XorTwice(x, b);
  }

  lemma {:induction false} XorAssoc(a: nat, b: nat, c: nat)
    ensures XorNat(XorNat(a, b), c) == XorNat(a, XorNat(b, c))
    decreases a + b + c
  {
    if a != 0 || b != 0 || c != 0 {
      XorHalf(a, b);
      XorHalf(b, c);
      XorHalf(XorNat(a, b), c);
      XorHalf(a, XorNat(b, c));
      XorAssoc(a / 2, b / 2, c / 2);
    } else {
      XorZero(0);
    }
  }

  // ---------- Multiplication and rotation ----------

  function Times(x: Word, m: Word): Word { x * m % TOP }

  function Plus(x: Word, c: Word): Word { (x + c) % TOP }

  lemma PlusInjective(x: Word, y: Word, c: Word)
    ensures Plus(x, c) == Plus(y, c) ==> x == y
  {
  }

  /** A factor with an inverse can be undone. */
  lemma TimesInjective(x: Word, y: Word, m: Word, inv: Word)
    requires m * inv % TOP == 1
    ensures Times(x, m) == Times(y, m) ==> x == y
  {
    if Times(x, m) == Times(y, m) {
      TimesBack(x, m, inv);
      TimesBack(y, m, inv);
    }
  }

  lemma TimesBack(x: Word, m: Word, inv: Word)
    requires m * inv % TOP == 1
    ensures Times(Times(x, m), inv) == x
  {
    var p, q := x * m / TOP, m * inv / TOP;
    assert x * m == p * TOP + Times(x, m) && m * inv == q * TOP + 1;
    calc {
      Times(x, m) * inv;
      (x * m - p * TOP) * inv;
      x * (m * inv) - p * inv * TOP;
      x + (x * q - p * inv) * TOP;
    }
    Remainder(x, x * q - p * inv);
  }

  lemma Remainder(x: Word, k: int)
    ensures (x + k * TOP) % TOP == x
  {
  }

  /** Rotation to the left by 13 and by 15; the two parts share no bit. */
  function Rot13(x: Word): Word { x * 0x2000 % TOP + x / 0x8_0000 }

  function Rot15(x: Word): Word { x * 0x8000 % TOP + x / 0x2_0000 }

  lemma RotBack(x: Word)
    ensures x == Rot13(x) % 0x2000 * 0x8_0000 + Rot13(x) / 0x2000
  {
    var hi, lo := x / 0x8_0000, x % 0x8_0000;
    assert x == hi * 0x8_0000 + lo;
    SplitTop(hi, lo * 0x2000);
    Split13(lo, hi);
    assert x * 0x2000 == hi * TOP + lo * 0x2000;
  }

  lemma SplitTop(q: nat, r: Word)
    ensures (q * TOP + r) % TOP == r
  {
  }

  lemma Split13(q: nat, r: nat)
    requires r < 0x2000
    ensures (q * 0x2000 + r) / 0x2000 == q && (q * 0x2000 + r) % 0x2000 == r
  {
  }

  lemma RotInjective(x: Word, y: Word)
    ensures Rot13(x) == Rot13(y) ==> x == y
  {
    hide Rot13;
    RotBack(x);
    RotBack(y);
  }
}
