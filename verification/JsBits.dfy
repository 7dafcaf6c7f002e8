/** JavaScript's 32-bit operators on numbers, written out on unbounded integers, and what they come to. */
module JsBits {
  function Pow2(n: nat): (r: nat)
    ensures r > 0
  {
    if n == 0 then 1 else 2 * Pow2(n - 1)
  }

  const Word := 0x1_0000_0000

  function ToUint32(x: int): (r: nat)
    ensures r < Word
  {
    x % Word
  }

  function ToInt32(x: int): int
  {
    var u := ToUint32(x);
    if u < 0x8000_0000 then u else u - Word
  }

  /** The int32 of a number: congruent to it, with the sign in the upper half. */
  lemma Int32Means(x: int)
    ensures -0x8000_0000 <= ToInt32(x) < 0x8000_0000
    ensures (x - ToInt32(x)) % Word == 0
  {
    var u := x % Word;
    assert x == x / Word * Word + u;
    assert x - ToInt32(x) == (if u < 0x8000_0000 then x / Word else x / Word + 1) * Word;
    MultipleOfWord(if u < 0x8000_0000 then x / Word else x / Word + 1);
  }

  lemma MultipleOfWord(k: int)
    ensures k * Word % Word == 0
  {
  }

  /** The bits of two naturals, one by one. */
  function BitOr(x: nat, y: nat): nat
  {
    if x == 0 && y == 0 then 0 else 2 * BitOr(x / 2, y / 2) + if x % 2 == 1 || y % 2 == 1 then 1 else 0
  }

  function BitAnd(x: nat, y: nat): nat
  {
    if x == 0 || y == 0 then 0 else 2 * BitAnd(x / 2, y / 2) + if x % 2 == 1 && y % 2 == 1 then 1 else 0
  }

  /** `x << n`, `x >>> n`, `x | y`, `x & y`, `~x`. */
  function Shl(x: int, n: nat): int
  {
    ToInt32(ToInt32(x) * Pow2(n % 32))
  }

  function Ushr(x: int, n: nat): nat
  {
    Quotient(ToUint32(x), Pow2(n % 32))
  }

  function Quotient(a: nat, b: nat): (r: nat)
    requires b > 0
    ensures r <= a
  {
    DivIsNat(a, b);
    a / b
  }

  lemma DivIsNat(a: nat, b: nat)
    requires b > 0
    ensures 0 <= a / b <= a
  {
    if a / b > a {
      MulLe(b, a + 1, a / b);
      MulLe(a + 1, 1, b);
    }
  }

  lemma {:induction false} MulLe(m: nat, a: int, b: int)
    requires a <= b
    ensures m * a <= m * b
  {
    if m > 0 {
      MulLe(m - 1, a, b);
      assert m * a == (m - 1) * a + a && m * b == (m - 1) * b + b;
    }
  }

  function Or(x: int, y: int): int
  {
    ToInt32(BitOr(ToUint32(x), ToUint32(y)))
  }

  function And(x: int, y: int): int
  {
    ToInt32(BitAnd(ToUint32(x), ToUint32(y)))
  }

  function Not(x: int): int
  {
    -1 - ToInt32(x)
  }

  // ---- facts ------------------------------------------------------------------------------------

  lemma {:induction false} PowAdd(m: nat, n: nat)
    ensures Pow2(m + n) == Pow2(m) * Pow2(n)
  {
    if m > 0 {
      PowAdd(m - 1, n);
    }
  }

  lemma PowValues()
    ensures Pow2(0) == 1 && Pow2(8) == 0x100 && Pow2(16) == 0x1_0000 && Pow2(24) == 0x100_0000 && Pow2(32) == Word
  {
    assert Pow2(4) == 16 && Pow2(8) == 256;
    PowAdd(8, 8);
    PowAdd(16, 8);
    PowAdd(16, 16);
  }

  lemma {:induction false} PowMonotone(m: nat, n: nat)
    requires m <= n
    ensures Pow2(m) <= Pow2(n)
  {
    if m < n {
      PowMonotone(m, n - 1);
    }
  }

  /** Or-ing a multiple of 2^k with something smaller is adding. */
  lemma {:induction false} OrIsAdd(x: nat, y: nat, k: nat)
    requires x % Pow2(k) == 0 && y < Pow2(k)
    ensures BitOr(x, y) == x + y
    decreases k, x
  {
    if k == 0 {
      OrZero(x);
    } else {
      HalfOfMultiple(x, Pow2(k - 1));
      OrIsAdd(x / 2, y / 2, k - 1);
    }
  }

  lemma {:induction false} OrZero(x: nat)
    ensures BitOr(x, 0) == x
  {
    if x > 0 {
      OrZero(x / 2);
    }
  }

  lemma HalfOfMultiple(x: nat, p: nat)
    requires p > 0 && x % (2 * p) == 0
    ensures x % 2 == 0 && (x / 2) % p == 0
  {
    var q := x / (2 * p);
    assert x == 2 * p * q == 2 * (p * q);
    assert x / 2 == p * q;
    ModOfProduct(p, q);
  }

  lemma ModOfProduct(p: nat, q: nat)
    requires p > 0
    ensures (p * q) % p == 0
  {
    ModUnique(p * q, p, q, 0);
  }

  /** And-ing with the bits k..n-1 clears the low k bits. */
  lemma {:induction false} AndClears(x: nat, n: nat, k: nat)
    requires k <= n && x < Pow2(n)
    ensures Pow2(k) <= Pow2(n) && BitAnd(x, Pow2(n) - Pow2(k)) == x - x % Pow2(k)
    decreases n
  {
    assert Pow2(0) == 1;
    hide BitAnd, Pow2;
    PowMonotone(k, n);
    if k > 0 {
      PowMonotone(k - 1, n - 1);
      Doubles(n);
      Doubles(k);
      var p, q := Pow2(n - 1), Pow2(k - 1);
      AndClears(x / 2, n - 1, k - 1);
      OneBitMore(x, p, q);
    } else {
      AndKeeps(x, n);
    }
  }

  lemma Doubles(n: nat)
    requires n > 0
    ensures Pow2(n) == 2 * Pow2(n - 1) && Pow2(n - 1) > 0
  {
  }

  lemma OneBitMore(x: nat, p: nat, q: nat)
    requires 0 < q <= p && BitAnd(x / 2, p - q) == x / 2 - x / 2 % q
    ensures BitAnd(x, 2 * p - 2 * q) == x - x % (2 * q)
  {
    hide BitAnd;
    HalfMod(x, q);
    AndEven(x, p - q);
    var half, rest := x / 2, x / 2 % q;
    assert x == 2 * half + x % 2 && x - x % (2 * q) == 2 * (half - rest);
  }

  lemma AndEven(x: nat, y: nat)
    ensures BitAnd(x, 2 * y) == 2 * BitAnd(x / 2, y)
  {
    var z := 2 * y;
    assert z / 2 == y && z % 2 == 0 && (z == 0 <==> y == 0);
    if x == 0 || y == 0 {
      assert BitAnd(x, z) == 0 && BitAnd(x / 2, y) == 0;
    } else {
      assert BitAnd(x, z) == 2 * BitAnd(x / 2, z / 2);
    }
  }

  lemma HalfMod(x: nat, p: nat)
    requires p > 0
    ensures x % (2 * p) == 2 * ((x / 2) % p) + x % 2
  {
    var h := x / 2;
    var q, r := h / p, h % p;
    assert h == p * q + r;
    assert x == 2 * h + x % 2 == 2 * p * q + (2 * r + x % 2);
    assert 2 * r + x % 2 < 2 * p;
    ModUnique(x, 2 * p, q, 2 * r + x % 2);
  }

  lemma ModUnique(x: nat, m: nat, q: nat, r: nat)
    requires m > 0 && x == m * q + r && r < m
    ensures x % m == r && x / m == q
  {
    var q', r' := x / m, x % m;
    assert x == m * q' + r';
    if q' > q {
      MulLe(m, q + 1, q');
    } else if q' < q {
      MulLe(m, q' + 1, q);
    }
  }

  lemma {:induction false} AndKeeps(x: nat, n: nat)
    requires x < Pow2(n)
    ensures BitAnd(x, Pow2(n) - 1) == x
  {
    if n > 0 && x > 0 {
      AndKeeps(x / 2, n - 1);
      assert (Pow2(n) - 1) / 2 == Pow2(n - 1) - 1 && (Pow2(n) - 1) % 2 == 1;
    }
  }

  /** And-ing with 2^n - 1 keeps the low n bits. */
  lemma {:induction false} AndLow(x: nat, n: nat)
    ensures BitAnd(x, Pow2(n) - 1) == x % Pow2(n)
    decreases n
  {
    if n > 0 {
      AndLow(x / 2, n - 1);
      HalfMod(x, Pow2(n - 1));
      assert (Pow2(n) - 1) / 2 == Pow2(n - 1) - 1 && (Pow2(n) - 1) % 2 == 1;
    }
  }

  lemma {:induction false} AndBelow(x: nat, y: nat)
    ensures BitAnd(x, y) <= x
  {
    if x > 0 && y > 0 {
      AndBelow(x / 2, y / 2);
    }
  }

  lemma SmallIsItself(x: int)
    requires 0 <= x < Word
    ensures ToUint32(x) == x
  {
  }

  lemma SignedAndBack(x: int)
    ensures ToUint32(ToInt32(x)) == ToUint32(x)
  {
  }

  /** On unsigned values `|` is the or of the bits. */
  lemma OrOfBits(x: int, y: int)
    ensures Or(x, y) == ToInt32(BitOr(ToUint32(x), ToUint32(y)))
  {
  }

  /** Or-ing in something below what is there adds it. */
  lemma OrAdds(x: int, y: int, k: nat, p: nat)
    requires p == Pow2(k) && ToUint32(x) % p == 0 && ToUint32(y) < p && ToUint32(x) + ToUint32(y) < Word
    ensures ToUint32(Or(x, y)) == ToUint32(x) + ToUint32(y)
  {
    OrIsAdd(ToUint32(x), ToUint32(y), k);
    OrOfBits(x, y);
    hide ToUint32, ToInt32, Pow2, BitOr, Or;
    SignedAndBack(BitOr(ToUint32(x), ToUint32(y)));
    SmallIsItself(ToUint32(x) + ToUint32(y));
  }

  lemma ShlIsTimes(x: nat, n: nat)
    requires n < 32 && x * Pow2(n) < Word && x < 0x8000_0000
    ensures ToUint32(Shl(x, n)) == x * Pow2(n)
  {
    assert ToInt32(x) == x;
    hide ToInt32, ToUint32, Pow2, Shl;
    ShlIs(x, n);
    SignedAndBack(x * Pow2(n));
    SmallIsItself(x * Pow2(n));
  }

  lemma UshrIs(x: nat, n: nat)
    requires x < Word && n < 32
    ensures Ushr(x, n) == Quotient(x, Pow2(n))
  {
    assert n % 32 == n && ToUint32(x) == x;
    hide Pow2, ToUint32, Quotient;
  }

  /** The int32 -1 shifted left. */
  lemma AllOnesShifted(n: nat)
    requires n < 32 && Pow2(n) <= 0x8000_0000
    ensures ToUint32(Shl(Not(0), n)) == Word - Pow2(n)
  {
    hide Shl, Not, Pow2, ToInt32, ToUint32;
    MinusOne();
    ShlIs(-1, n);
    SignedAndBack(-1 * Pow2(n));
    NegativeWraps(Pow2(n));
  }

  lemma ShlIs(x: int, n: nat)
    requires n < 32 && ToInt32(x) == x
    ensures Shl(x, n) == ToInt32(x * Pow2(n))
  {
    hide ToInt32, Pow2;
    assert n % 32 == n;
  }

  lemma MinusOne()
    ensures Not(0) == -1 && ToInt32(-1) == -1
  {
  }

  lemma NegativeWraps(p: nat)
    requires 0 < p <= 0x8000_0000
    ensures ToUint32(-1 * p) == Word - p
  {
  }
}
