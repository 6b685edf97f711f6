/** The loader's narrowing conversions on bit patterns. Shifts and masks of the
    original are divisions and remainders by powers of two; `|` of disjoint fields
    is a sum. Exact values are integers, scaled so every binary32 value is one. */
module FloatConversion {

  const FP16_INFINITY: nat := 0x7C00
  const FP16_QUIET_NAN: nat := 0x7E00
  const FP32_INFINITY: nat := 0x7F80_0000
  // Bits of 65536.0, the first binary32 magnitude above every finite binary16.
  const FP32_65536: nat := 0x4780_0000

  function Pow2(n: nat): (p: nat)
    ensures p >= 1
  {
    if n == 0 then 1 else 2 * Pow2(n - 1)
  }

  function Magnitude32(bits: nat): nat { bits % 0x8000_0000 }

  function SignBit32(bits: nat): nat { if bits / 0x8000_0000 % 2 == 1 then 0x8000 else 0 }

  /** binary32 magnitude bits to binary16 magnitude bits, round to nearest even. */
  function RoundMagnitude(abs: nat): (h: nat)
    requires abs < 0x8000_0000
  {
    if abs > FP32_INFINITY then FP16_QUIET_NAN
    else if abs >= FP32_65536 then FP16_INFINITY
    else
      var exp32 := abs / 0x80_0000;
      if exp32 >= 113 then
        var rebased := abs - 112 * 0x80_0000;
        var lsb := rebased / 0x2000 % 2;
        (rebased + 0xFFF + lsb) / 0x2000
      else if exp32 >= 102 then
        var sig := 0x80_0000 + abs % 0x80_0000;
        var shift: nat := 126 - exp32;
        var q, rem := sig / Pow2(shift), sig % Pow2(shift);
        var halfway := Pow2(shift - 1);
        q + if rem > halfway || (rem == halfway && q % 2 != 0) then 1 else 0
      else 0
  }

  function Fp32BitsToFp16BitsRne(bits: nat): (h: nat)
    requires bits < 0x1_0000_0000
  {
    SignBit32(bits) + RoundMagnitude(Magnitude32(bits))
  }

  function Bf16BitsToFp32Bits(bits: nat): nat { bits * 0x1_0000 }

  function Bf16BitsToFp16BitsRne(bits: nat): (h: nat)
    requires bits < 0x1_0000
  {
    Fp32BitsToFp16BitsRne(Bf16BitsToFp32Bits(bits))
  }

  predicate Bf16OverflowsFp16(bits: nat) {
    0x4780 <= bits % 0x8000 <= 0x7F80
  }

  predicate IsNanFp16Bits(h: nat) { h % 0x8000 > FP16_INFINITY }

  predicate IsInfFp16Bits(h: nat) { h % 0x8000 == FP16_INFINITY }

  // ------------------------------------------------------------ exact values

  /** Value of finite binary32 magnitude bits, times 2^149. */
  function Value32(abs: nat): nat
    requires abs < FP32_INFINITY
  {
    var e, m := abs / 0x80_0000, abs % 0x80_0000;
    if e == 0 then m else (0x80_0000 + m) * Pow2(e - 1)
  }

  /** Value of binary16 magnitude bits, times 2^24. At the infinity encoding it is
      65536, the value rounding treats as the next one after 65504. */
  function Value16(h: nat): nat {
    var e, m := h / 0x400, h % 0x400;
    if e == 0 then m else (0x400 + m) * Pow2(e - 1)
  }

  /** On the binary32 scale. */
  function Scaled16(h: nat): nat { Value16(h) * Pow2(125) }

  function Distance(a: int, b: int): nat { if a >= b then a - b else b - a }

  /** `h` is the binary16 encoding nearest to `v`, the even one on a tie. */
  ghost predicate NearestEven(v: nat, h: nat) {
    && h <= FP16_INFINITY
    && forall k: nat :: k <= FP16_INFINITY && k != h ==> Better(v, h, k)
  }

  predicate Better(v: nat, h: nat, k: nat) {
    var dh, dk := Distance(Scaled16(h), v), Distance(Scaled16(k), v);
    dh < dk || (dh == dk && h % 2 == 0)
  }

  // -------------------------------------------------------------- the grid

  lemma {:induction false} Pow2Add(a: nat, b: nat)
    ensures Pow2(a + b) == Pow2(a) * Pow2(b)
  {
    if a > 0 {
      Pow2Add(a - 1, b);
      assert Pow2(a + b) == 2 * Pow2(a + b - 1);
    }
  }

  /** Neighbouring encodings: one step of the current binade, across carries too. */
  lemma GridStep(h: nat)
    ensures var e := h / 0x400; Value16(h + 1) == Value16(h) + if e == 0 then 1 else Pow2(e - 1)
  {
    var e, m := h / 0x400, h % 0x400;
    if m == 0x3FF {
      assert (h + 1) / 0x400 == e + 1 && (h + 1) % 0x400 == 0;
      if e > 0 {
        assert Pow2(e) == 2 * Pow2(e - 1);
      }
    } else {
      assert (h + 1) / 0x400 == e && (h + 1) % 0x400 == m + 1;
      if e > 0 {
        assert (0x400 + m + 1) * Pow2(e - 1) == (0x400 + m) * Pow2(e - 1) + Pow2(e - 1);
      }
    }
  }

  lemma {:induction false} GridIncreases(a: nat, b: nat)
    requires a <= b
    ensures Value16(b) >= Value16(a) + (b - a)
  {
    if a < b {
      GridIncreases(a, b - 1);
      GridStep(b - 1);
    }
  }

  lemma ScaledIncreases(a: nat, b: nat)
    requires a <= b
    ensures Scaled16(a) <= Scaled16(b) && (a < b ==> Scaled16(a) < Scaled16(b))
  {
    GridIncreases(a, b);
    MulMonotone(Value16(a), Value16(b), Pow2(125));
  }

  lemma MulMonotone(a: nat, b: nat, c: nat)
    requires a <= b && c > 0
    ensures a * c <= b * c && (a < b ==> a * c < b * c)
  {
    assert (b - a) * c >= 0;
    assert b * c == a * c + (b - a) * c;
  }

  /** `v` sits `r` of `d` parts of the way from encoding `t` to the next. */
  ghost predicate Between(v: nat, t: nat, r: nat, d: nat, u: nat) {
    r < d && v == Scaled16(t) + r * u && Scaled16(t + 1) == Scaled16(t) + d * u && u > 0
  }

  /** Rounding by remainder against half a step finds the nearest encoding. */
  lemma RoundsToNearest(v: nat, t: nat, r: nat, d: nat, u: nat, h: nat)
    requires Between(v, t, r, d, u) && t < FP16_INFINITY
    requires h == t + if 2 * r > d || (2 * r == d && t % 2 != 0) then 1 else 0
    ensures NearestEven(v, h)
  {
    hide Scaled16;
    assert r * u < d * u by { MulMonotone(r, d, u); }
    assert 2 * r > d ==> 2 * (r * u) > d * u by { if 2 * r > d { MulMonotone(d, 2 * r, u); } }
    assert 2 * r < d ==> 2 * (r * u) < d * u by { if 2 * r < d { MulMonotone(2 * r, d, u); } }
    assert 2 * r == d ==> 2 * (r * u) == d * u;
    forall k: nat | k <= FP16_INFINITY && k != h
      ensures Better(v, h, k)
    {
      if k <= t {
        ScaledIncreases(k, t);
      } else {
        ScaledIncreases(t + 1, k);
      }
    }
  }

  // ----------------------------------------------------- the three live cases

  /** A binary16 unit in the binade of binary32 exponent `e + 112`. */
  lemma Units(e: nat)
    requires e >= 1
    ensures Pow2(e - 1) * Pow2(125) == Pow2(e + 111) * 0x2000
  {
    Pow2Add(e + 111, 13);
    Pow2Add(e - 1, 125);
    assert Pow2(13) == 0x2000 by { SmallPow2(); }
  }

  lemma SmallPow2()
    ensures Pow2(12) == 0x1000 && Pow2(13) == 0x2000 && Pow2(14) == 0x4000
  {
    assert Pow2(3) == 8;
    assert Pow2(6) == 64;
    assert Pow2(9) == 512;
  }

  lemma Fields(abs: nat)
    requires 113 * 0x80_0000 <= abs < FP32_65536
    ensures var rebased: nat := abs - 112 * 0x80_0000;
            var t, e: nat, mt := rebased / 0x2000, abs / 0x80_0000 - 112, abs % 0x80_0000 / 0x2000;
            && t / 0x400 == e >= 1 && t % 0x400 == mt && t < FP16_INFINITY
            && abs % 0x80_0000 == mt * 0x2000 + rebased % 0x2000
  {
  }

  /** Mantissa `m` of 23 bits against its top 10 bits. */
  lemma MantissaSplit(mt: nat, r: nat, p: nat, c: nat, u: nat)
    requires p * c == u * 0x2000
    ensures (0x80_0000 + mt * 0x2000 + r) * u == (0x400 + mt) * p * c + r * u
  {
    calc {
      (0x80_0000 + mt * 0x2000 + r) * u;
      ((0x400 + mt) * 0x2000) * u + r * u;
      (0x400 + mt) * (u * 0x2000) + r * u;
      (0x400 + mt) * (p * c) + r * u;
      { assert (0x400 + mt) * (p * c) == (0x400 + mt) * p * c; }
      (0x400 + mt) * p * c + r * u;
    }
  }

  lemma GridUnit(a: nat, b: nat, p: nat, c: nat, u: nat)
    requires b == a + p && p * c == u * 0x2000
    ensures b * c == a * c + 0x2000 * u
  {
  }

  /** Binary32 exponents 113..142: truncating 13 mantissa bits lands on a grid point. */
  lemma NormalBetween(abs: nat)
    requires 113 * 0x80_0000 <= abs < FP32_65536
    ensures var rebased: nat := abs - 112 * 0x80_0000;
            Between(Value32(abs), rebased / 0x2000, rebased % 0x2000, 0x2000, Pow2(abs / 0x80_0000 - 1))
    ensures (abs - 112 * 0x80_0000) / 0x2000 < FP16_INFINITY
  {
    hide Pow2;
    var rebased: nat := abs - 112 * 0x80_0000;
    var t, r, e: nat := rebased / 0x2000, rebased % 0x2000, abs / 0x80_0000 - 112;
    var mt := abs % 0x80_0000 / 0x2000;
    Fields(abs);
    Units(e);
    GridStep(t);
    GridUnit(Value16(t), Value16(t + 1), Pow2(e - 1), Pow2(125), Pow2(e + 111));
    MantissaSplit(mt, r, Pow2(e - 1), Pow2(125), Pow2(e + 111));
  }

  /** The add-half-then-truncate trick is rounding by the dropped bits. */
  lemma NormalRounds(abs: nat)
    requires 113 * 0x80_0000 <= abs < FP32_65536
    ensures NearestEven(Value32(abs), RoundMagnitude(abs))
  {
    hide Value32, NearestEven, Between;
    var rebased: nat := abs - 112 * 0x80_0000;
    var t, r := rebased / 0x2000, rebased % 0x2000;
    NormalBetween(abs);
    var lsb := t % 2;
    assert (rebased + 0xFFF + lsb) / 0x2000 == t + if r + 0xFFF + lsb >= 0x2000 then 1 else 0;
    RoundsToNearest(Value32(abs), t, r, 0x2000, Pow2(abs / 0x80_0000 - 1), RoundMagnitude(abs));
  }

  lemma DivBelow(n: nat, d: nat, k: nat)
    requires d > 0 && n < k * d
    ensures n / d < k
  {
    var q := n / d;
    assert n == q * d + n % d;
    assert q >= k ==> q * d >= k * d;
  }

  lemma SubnormalUnit(exp32: nat)
    requires 102 <= exp32 < 113
    ensures Pow2(126 - exp32) * Pow2(exp32 - 1) == Pow2(125) && 0x100_0000 <= 0x400 * Pow2(126 - exp32)
  {
    hide Pow2;
    Pow2Add(126 - exp32, exp32 - 1);
    Pow2Add(14, 112 - exp32);
    SmallPow2();
    MulMonotone(1, Pow2(112 - exp32), 0x4000);
  }

  /** Binary32 exponents 102..112: the subnormal grid k * 2^-24, exactly. */
  lemma SubnormalBetween(abs: nat)
    requires 102 * 0x80_0000 <= abs < 113 * 0x80_0000
    ensures var exp32 := abs / 0x80_0000;
            var sig, shift: nat := 0x80_0000 + abs % 0x80_0000, 126 - exp32;
            && Between(Value32(abs), sig / Pow2(shift), sig % Pow2(shift), Pow2(shift), Pow2(exp32 - 1))
            && sig / Pow2(shift) < 0x400
  {
    hide Pow2;
    var exp32 := abs / 0x80_0000;
    var sig, d, u := 0x80_0000 + abs % 0x80_0000, Pow2(126 - exp32), Pow2(exp32 - 1);
    SubnormalUnit(exp32);
    DivBelow(sig, d, 0x400);
    SubnormalGrid(sig / d);
    QuotientTimes(sig, d, u);
  }

  lemma SubnormalGrid(q: nat)
    requires q < 0x400
    ensures Value16(q) == q && Value16(q + 1) == q + 1
  {
    GridStep(q);
  }

  lemma QuotientTimes(n: nat, d: nat, u: nat)
    requires d > 0
    ensures n * u == n / d * (d * u) + n % d * u
  {
    assert n == n / d * d + n % d;
    assert n / d * d * u == n / d * (d * u);
  }

  /** A tie with half a step is a tie with the whole step doubled. */
  lemma SubnormalMagnitude(abs: nat, t: nat, r: nat, d: nat)
    requires 102 * 0x80_0000 <= abs < 113 * 0x80_0000
    requires d == Pow2(126 - abs / 0x80_0000)
    requires t == (0x80_0000 + abs % 0x80_0000) / d && r == (0x80_0000 + abs % 0x80_0000) % d
    ensures RoundMagnitude(abs) == t + if 2 * r > d || (2 * r == d && t % 2 != 0) then 1 else 0
  {
    hide Pow2;
    Halves(126 - abs / 0x80_0000);
  }

  lemma SubnormalRounds(abs: nat)
    requires 102 * 0x80_0000 <= abs < 113 * 0x80_0000
    ensures NearestEven(Value32(abs), RoundMagnitude(abs)) && RoundMagnitude(abs) <= 0x400
  {
    hide Value32, NearestEven, Between, Pow2, RoundMagnitude;
    var exp32 := abs / 0x80_0000;
    var sig, shift: nat := 0x80_0000 + abs % 0x80_0000, 126 - exp32;
    SubnormalBetween(abs);
    SubnormalMagnitude(abs, sig / Pow2(shift), sig % Pow2(shift), Pow2(shift));
    RoundsToNearest(Value32(abs), sig / Pow2(shift), sig % Pow2(shift), Pow2(shift), Pow2(exp32 - 1), RoundMagnitude(abs));
  }

  lemma Halves(n: nat)
    requires n > 0
    ensures Pow2(n) == 2 * Pow2(n - 1)
  {
  }

  lemma TinyBound(abs: nat)
    requires abs < 102 * 0x80_0000
    ensures 2 * Value32(abs) < Pow2(125)
  {
    hide Pow2;
    var e, m := abs / 0x80_0000, abs % 0x80_0000;
    TinyPowers();
    if e > 0 {
      Pow2Monotone(e - 1, 100);
      MulMonotone(0x80_0000 + m, 0xFF_FFFF, Pow2(e - 1));
      MulMonotone(Pow2(e - 1), Pow2(100), 0xFF_FFFF);
    }
  }

  lemma TinyPowers()
    ensures Pow2(125) == 0x200_0000 * Pow2(100) && Pow2(100) >= 1
  {
    hide Pow2;
    Pow2Add(25, 100);
    Pow2Add(12, 13);
    SmallPow2();
  }

  /** Below 2^-25 everything is strictly nearest to zero. */
  lemma TinyRounds(abs: nat)
    requires abs < 102 * 0x80_0000
    ensures NearestEven(Value32(abs), 0)
  {
    hide Value32, Pow2;
    TinyBound(abs);
    SubnormalGrid(0);
    assert Scaled16(0) == 0 && Scaled16(1) == Pow2(125);
    hide Scaled16;
    forall k: nat | k <= FP16_INFINITY && k != 0
      ensures Better(Value32(abs), 0, k)
    {
      ScaledIncreases(1, k);
    }
  }

  // ------------------------------------------------------------ the theorems

  /** Every finite magnitude below 65536 converts to the nearest binary16, ties to
      even; from 65520 on that is infinity. */
  lemma RoundsToNearestEven(abs: nat)
    requires abs < FP32_65536
    ensures NearestEven(Value32(abs), RoundMagnitude(abs))
  {
    hide Value32, NearestEven;
    if abs >= 113 * 0x80_0000 {
      NormalRounds(abs);
    } else if abs >= 102 * 0x80_0000 {
      SubnormalRounds(abs);
    } else {
      TinyRounds(abs);
    }
  }

  /** Overflow: infinity exactly from 65520 (halfway past 65504) up to infinity itself. */
  lemma InfiniteExactlyFrom65520(abs: nat)
    requires abs < 0x8000_0000
    ensures RoundMagnitude(abs) == 0x7C00 <==> 0x477F_F000 <= abs <= 0x7F80_0000
    ensures if abs > 0x7F80_0000 then RoundMagnitude(abs) == 0x7E00 else RoundMagnitude(abs) <= 0x7C00
  {
    if 102 * 0x80_0000 <= abs < 113 * 0x80_0000 {
      SubnormalRounds(abs);
    }
  }

  /** Sign, infinities and NaN are those of the input. */
  lemma SignAndClassPreserved(bits: nat)
    requires bits < 0x1_0000_0000
    ensures var h := Fp32BitsToFp16BitsRne(bits);
            && h < 0x1_0000 && (h >= 0x8000 <==> bits >= 0x8000_0000)
            && h % 0x8000 == RoundMagnitude(Magnitude32(bits))
            && (IsNanFp16Bits(h) <==> Magnitude32(bits) > FP32_INFINITY)
            && (IsInfFp16Bits(h) <==> 0x477F_F000 <= Magnitude32(bits) <= FP32_INFINITY)
  {
    hide RoundMagnitude;
    InfiniteExactlyFrom65520(Magnitude32(bits));
  }

  /** Two encodings cannot both win: a tie between neighbours has one even side,
      and a tie across a third encoding loses to it. */
  lemma NoTwoWinners(v: nat, h: nat, k: nat)
    requires h < k
    ensures !(Better(v, h, k) && Better(v, k, h) && (k == h + 1 || Better(v, h, h + 1)))
  {
    ScaledIncreases(h, h + 1);
    ScaledIncreases(h + 1, k);
    hide Scaled16;
  }

  lemma NearestIsUnique(v: nat, h: nat, k: nat)
    requires NearestEven(v, h) && NearestEven(v, k)
    ensures h == k
  {
    hide Better;
    if h < k {
      NoTwoWinners(v, h, k);
    } else if k < h {
      NoTwoWinners(v, k, h);
    }
  }

  /** A larger value never rounds to a smaller one. */
  lemma NearestIsMonotone(v: nat, w: nat, h: nat, k: nat)
    requires v <= w && NearestEven(v, h) && NearestEven(w, k)
    ensures h <= k
  {
    hide Scaled16;
    if h > k {
      assert Better(v, h, k) && Better(w, k, h);
      ScaledIncreases(k, h);
      assert v == w;
      NearestIsUnique(v, h, k);
    }
  }

  lemma Binade(abs: nat)
    requires abs < FP32_INFINITY
    ensures var e := abs / 0x80_0000;
            && (e == 0 ==> Value32(abs) < 0x80_0000)
            && (e > 0 ==> 0x80_0000 * Pow2(e - 1) <= Value32(abs) < 0x80_0000 * Pow2(e))
  {
    var e, m := abs / 0x80_0000, abs % 0x80_0000;
    if e > 0 {
      MulMonotone(0x80_0000, 0x80_0000 + m, Pow2(e - 1));
      MulMonotone(0x80_0000 + m, 0x100_0000, Pow2(e - 1));
    }
  }

  lemma {:induction false} Pow2Monotone(a: nat, b: nat)
    requires a <= b
    ensures Pow2(a) <= Pow2(b)
  {
    if a < b {
      Pow2Monotone(a, b - 1);
    }
  }

  /** Magnitude bits order as the values they encode. */
  lemma ValueIncreases(a: nat, b: nat)
    requires a <= b < FP32_INFINITY
    ensures Value32(a) <= Value32(b) && (a < b ==> Value32(a) < Value32(b))
  {
    var ea, eb := a / 0x80_0000, b / 0x80_0000;
    if ea == eb {
      if ea > 0 {
        MulMonotone(0x80_0000 + a % 0x80_0000, 0x80_0000 + b % 0x80_0000, Pow2(ea - 1));
      }
    } else {
      Binade(a);
      Binade(b);
      hide Value32;
      Pow2Monotone(ea, eb - 1);
    }
  }

  /** The conversion is monotone on magnitudes, NaN aside. */
  lemma ConversionIsMonotone(a: nat, b: nat)
    requires a <= b <= FP32_INFINITY
    ensures RoundMagnitude(a) <= RoundMagnitude(b)
  {
    hide RoundMagnitude, Value32, NearestEven;
    InfiniteExactlyFrom65520(a);
    InfiniteExactlyFrom65520(b);
    if b < FP32_65536 {
      ValueIncreases(a, b);
      RoundsToNearestEven(a);
      RoundsToNearestEven(b);
      NearestIsMonotone(Value32(a), Value32(b), RoundMagnitude(a), RoundMagnitude(b));
    }
  }

  // Order of non-NaN bit patterns, both zeros alike.
  function Rank32(bits: nat): int { if bits >= 0x8000_0000 then 0 - Magnitude32(bits) else Magnitude32(bits) }
  function Rank16(h: nat): int { if h >= 0x8000 then 0 - h % 0x8000 else h % 0x8000 }

  /** The value of a finite pattern, times 2^149. */
  function Signed32(bits: nat): int
    requires Magnitude32(bits) < FP32_INFINITY
  {
    if bits >= 0x8000_0000 then 0 - Value32(Magnitude32(bits)) else Value32(Magnitude32(bits))
  }

  function Signed16(h: nat): int { if h >= 0x8000 then 0 - Scaled16(h % 0x8000) else Scaled16(h % 0x8000) }

  /** Ranks order patterns exactly as the values they encode. */
  lemma RankIsValueOrder(a: nat, b: nat)
    requires Magnitude32(a) < FP32_INFINITY && Magnitude32(b) < FP32_INFINITY
    ensures Rank32(a) <= Rank32(b) <==> Signed32(a) <= Signed32(b)
  {
    hide Value32;
    var x, y := Magnitude32(a), Magnitude32(b);
    ValueIncreases(0, x);
    ValueIncreases(0, y);
    assert Value32(0) == 0 by { ZeroIsZero(); }
    if x <= y {
      ValueIncreases(x, y);
    } else {
      ValueIncreases(y, x);
    }
  }

  lemma ZeroIsZero()
    ensures Value32(0) == 0 && Scaled16(0) == 0
  {
    hide Pow2;
  }

  lemma Rank16IsValueOrder(h: nat, k: nat)
    ensures Rank16(h) <= Rank16(k) <==> Signed16(h) <= Signed16(k)
  {
    hide Scaled16;
    var x, y := h % 0x8000, k % 0x8000;
    ScaledIncreases(0, x);
    ScaledIncreases(0, y);
    assert Scaled16(0) == 0 by { ZeroIsZero(); }
    if x <= y {
      ScaledIncreases(x, y);
    } else {
      ScaledIncreases(y, x);
    }
  }

  /** The conversion keeps the order of all non-NaN patterns, signs, zeros and infinities
      included: where the input's value does not decrease, neither does the result's. */
  lemma SignedConversionIsMonotone(a: nat, b: nat)
    requires a < 0x1_0000_0000 && b < 0x1_0000_0000
    requires Magnitude32(a) <= FP32_INFINITY && Magnitude32(b) <= FP32_INFINITY && Rank32(a) <= Rank32(b)
    ensures Signed16(Fp32BitsToFp16BitsRne(a)) <= Signed16(Fp32BitsToFp16BitsRne(b))
  {
    hide RoundMagnitude, Signed16, Fp32BitsToFp16BitsRne, Magnitude32, Rank16;
    ConvertedRank(a);
    ConvertedRank(b);
    RoundedZero();
    var x, y := Magnitude32(a), Magnitude32(b);
    if x <= y {
      ConversionIsMonotone(x, y);
    } else {
      ConversionIsMonotone(y, x);
    }
    Rank16IsValueOrder(Fp32BitsToFp16BitsRne(a), Fp32BitsToFp16BitsRne(b));
  }

  lemma ConvertedRank(bits: nat)
    requires bits < 0x1_0000_0000 && Magnitude32(bits) <= FP32_INFINITY
    ensures Rank16(Fp32BitsToFp16BitsRne(bits))
         == if bits >= 0x8000_0000 then 0 - RoundMagnitude(Magnitude32(bits)) else RoundMagnitude(Magnitude32(bits))
  {
    hide RoundMagnitude, Fp32BitsToFp16BitsRne;
    SignAndClassPreserved(bits);
  }

  lemma RoundedZero()
    ensures RoundMagnitude(0) == 0
  {
  }

  /** A value binary16 can hold converts to itself. */
  lemma ExactValuesKept(abs: nat, h: nat)
    requires abs < FP32_65536 && h < FP16_INFINITY && Value32(abs) == Scaled16(h)
    ensures RoundMagnitude(abs) == h
  {
    hide RoundMagnitude, Value32;
    RoundsToNearestEven(abs);
    forall k: nat | k <= FP16_INFINITY && k != h
      ensures Better(Value32(abs), h, k)
    {
      ScaledIncreases(if k < h then k else h, if k < h then h else k);
    }
    NearestIsUnique(Value32(abs), RoundMagnitude(abs), h);
  }

  // -------------------------------------------------------------- from BF16

  /** Value of finite BF16 magnitude bits, times 2^149, from their own eight exponent
      and seven fraction bits. */
  function ValueBf16(bits: nat): nat {
    var e, f := bits / 0x80 % 0x100, bits % 0x80;
    if e == 0 then f * 0x1_0000 else (0x80 + f) * 0x1_0000 * Pow2(e - 1)
  }

  /** Widening keeps sign, class and exact value. */
  lemma WideningIsExact(bits: nat)
    requires bits < 0x1_0000
    ensures var wide := Bf16BitsToFp32Bits(bits);
            && wide < 0x1_0000_0000
            && (wide >= 0x8000_0000 <==> bits / 0x8000 == 1)
            && (Magnitude32(wide) > FP32_INFINITY <==> bits % 0x8000 > 0x7F80)
            && (Magnitude32(wide) < FP32_65536 <==> bits % 0x8000 < 0x4780)
            && (bits % 0x8000 < 0x7F80 ==> Magnitude32(wide) < FP32_INFINITY && Value32(Magnitude32(wide)) == ValueBf16(bits))
  {
    hide Pow2;
    var wide := Bf16BitsToFp32Bits(bits);
    assert Magnitude32(wide) == bits % 0x8000 * 0x1_0000;
    if bits % 0x8000 < 0x7F80 {
      assert bits % 0x8000 * 0x1_0000 / 0x80_0000 == bits / 0x80 % 0x100;
      assert bits % 0x8000 * 0x1_0000 % 0x80_0000 == bits % 0x80 * 0x1_0000;
    }
  }

  /** What the loader makes of every BF16 element it accepts, and of those it does not:
      the nearest binary16 value, ties to even, under the element's own sign; NaN for
      NaN; infinity exactly where the element is refused. */
  lemma Bf16RoundsToNearestEven(bits: nat)
    requires bits < 0x1_0000
    ensures var h := Bf16BitsToFp16BitsRne(bits);
            && h < 0x1_0000 && (h >= 0x8000 <==> bits / 0x8000 == 1)
            && (bits % 0x8000 < 0x4780 ==> NearestEven(ValueBf16(bits), h % 0x8000) && h % 0x8000 < 0x7C00)
            && (0x4780 <= bits % 0x8000 <= 0x7F80 <==> h % 0x8000 == 0x7C00)
            && (bits % 0x8000 > 0x7F80 <==> h % 0x8000 == 0x7E00)
  {
    hide NearestEven, Value32, ValueBf16, RoundMagnitude;
    var wide := Bf16BitsToFp32Bits(bits);
    WideningIsExact(bits);
    SignAndClassPreserved(wide);
    InfiniteExactlyFrom65520(Magnitude32(wide));
    assert Magnitude32(wide) == bits % 0x8000 * 0x1_0000;
    if bits % 0x8000 < 0x4780 {
      RoundsToNearestEven(Magnitude32(wide));
    }
  }

  /** 65504 and 65536 on both scales. */
  lemma LargestFinite()
    ensures Scaled16(0x7BFF) == 0xFF_E000 * Pow2(141) && Value32(0x4780_0000) == 0x100_0000 * Pow2(141)
    ensures Value32(0x477F_0000) == 0xFF_0000 * Pow2(141)
  {
    hide Pow2;
    Pow2Add(29, 125);
    Pow2Add(141, 13);
    Pow2Add(1, 141);
    SmallPow2();
    assert Value16(0x7BFF) == 0x7FF * Pow2(29);
    assert Pow2(1) == 2 by { Pow2One(); }
    assert 0x7FF * Pow2(29) * Pow2(125) == 0x7FF * (Pow2(29) * Pow2(125));
  }

  lemma Pow2One()
    ensures Pow2(1) == 2
  {
  }

  /** The refusal test is the policy it implements: a magnitude above 65504, the
      largest finite binary16 value. */
  lemma OverflowMeansAbove65504(bits: nat)
    requires bits < 0x1_0000 && bits % 0x8000 < 0x7F80
    ensures Bf16OverflowsFp16(bits) <==> ValueBf16(bits) > Scaled16(0x7BFF)
  {
    hide Value32, ValueBf16, Scaled16, Pow2;
    WideningIsExact(bits);
    var mag := Magnitude32(Bf16BitsToFp32Bits(bits));
    assert mag == bits % 0x8000 * 0x1_0000;
    LargestFinite();
    if bits % 0x8000 >= 0x4780 {
      ValueIncreases(0x4780_0000, mag);
    } else {
      ValueIncreases(mag, 0x477F_0000);
    }
  }

  /** The loader refuses a BF16 element exactly when it would become infinite. */
  lemma OverflowIffInfinite(bits: nat)
    requires bits < 0x1_0000
    ensures Bf16OverflowsFp16(bits) <==> IsInfFp16Bits(Bf16BitsToFp16BitsRne(bits))
  {
    hide RoundMagnitude;
    var wide := Bf16BitsToFp32Bits(bits);
    SignAndClassPreserved(wide);
    assert Magnitude32(wide) == bits % 0x8000 * 0x1_0000;
  }
}
