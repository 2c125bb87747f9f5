/**
 * Integer-only loudness estimator: the RMS amplitude of a block of signed
 * 16-bit PCM samples, and its conversion to a pseudo-SPL decibel value
 * through a 4.4 fixed-point base-2 logarithm.
 */
module SoundLevel {
  import opened Types
  import opened Arith

  // ---------------------------------------------------------------------
  // Arithmetic helpers
  // ---------------------------------------------------------------------

  function Pow2(k: nat): (p: nat)
    ensures p >= 1
  {
    if k == 0 then 1 else 2 * Pow2(k - 1)
  }

  lemma {:induction false} Pow2Add(a: nat, b: nat)
    ensures Pow2(a + b) == Pow2(a) * Pow2(b)
  {
    if a > 0 {
      Pow2Add(a - 1, b);
      assert Pow2(a + b) == 2 * Pow2(a - 1 + b);
    }
  }

  lemma {:induction false} Pow2Mono(a: nat, b: nat)
    requires a <= b
    ensures Pow2(a) <= Pow2(b)
  {
    if a < b {
      Pow2Mono(a, b - 1);
    }
  }

  // ---------------------------------------------------------------------
  // RMS amplitude (sound_level_rms)
  // ---------------------------------------------------------------------

  /** Sum of the squared samples, accumulated from the front. */
  function SumSquares(s: seq<int16>): nat
  {
    if s == [] then 0 else SumSquares(s[..|s| - 1]) + Square(s[|s| - 1])
  }

  /** Mean square of a block (floor division); an empty block has mean square 0. */
  function MeanSquare(s: seq<int16>): nat
  {
    if |s| == 0 then 0 else SumSquares(s) / |s|
  }

  /** The square of a 16-bit sample is at most 2^30, so it fits an int32. */
  lemma SampleSquareBound(x: int16)
    ensures Square(x) <= 0x4000_0000
  {
    if x >= 0 {
      SquareMono(x, 0x8000);
    } else {
      var y: nat := 0 - (x as int);
      assert Square(x) == Square(y);
      SquareMono(y, 0x8000);
    }
  }

  lemma {:induction false} SumSquaresBound(s: seq<int16>)
    ensures SumSquares(s) <= |s| * 0x4000_0000
  {
    if s != [] {
      SumSquaresBound(s[..|s| - 1]);
      SampleSquareBound(s[|s| - 1]);
    }
  }

  lemma MeanSquareBound(s: seq<int16>)
    ensures MeanSquare(s) <= 0x4000_0000
  {
    if |s| > 0 {
      SumSquaresBound(s);
      DivBelow(SumSquares(s), |s|, 0x4000_0000);
    }
  }

  /** Reference integer square root, computed two bits at a time. */
  function FloorSqrt(n: nat): (r: nat)
    ensures Square(r) <= n < Square(r + 1)
  {
    if n == 0 then 0
    else
      var h := FloorSqrt(n / 4);
      SqrtDigit(n, h);
      var r := 2 * h;
      if Square(r + 1) <= n then r + 1 else r
  }

  /** From the floor square root h of n / 4, that of n is 2h or 2h + 1. */
  lemma SqrtDigit(n: nat, h: nat)
    requires Square(h) <= n / 4 < Square(h + 1)
    ensures Square(2 * h) <= n < Square(2 * h + 2)
  {
    var a, b := Square(h), Square(h + 1);
    assert 4 * a <= n;
    assert n < 4 * b;
    SquareDouble(h);
    SquareDouble(h + 1);
  }

  /** The floor square root is unique. */
  lemma FloorSqrtUnique(r: nat, n: nat)
    requires Square(r) <= n < Square(r + 1)
    ensures r == FloorSqrt(n)
  {
    var s := FloorSqrt(n);
    if r < s {
      SquareMono(r + 1, s);
    } else if s < r {
      SquareMono(s + 1, r);
    }
  }

  lemma FloorSqrtAtMost(n: nat, c: nat)
    requires n <= Square(c)
    ensures FloorSqrt(n) <= c
  {
    var r := FloorSqrt(n);
    if r > c {
      SquareMono(c + 1, r);
      SquareStep(c);
    }
  }

  /**
   * The RMS amplitude of a block: the floor square root of its mean square.
   * It reaches 0x8000 (for a block of -32768 samples), so the clamp to
   * UINT16_MAX never takes effect.
   */
  function BlockRms(samples: seq<int16>): (r: uint16)
    ensures Square(r) <= MeanSquare(samples) < Square(r + 1)
    ensures r <= 0x8000
  {
    MeanSquareBound(samples);
    FloorSqrtAtMost(MeanSquare(samples), 0x8000);
    FloorSqrt(MeanSquare(samples))
  }

  lemma BelowNextSquare(x: nat)
    ensures x < Square(x + 1)
  {
    assert (x + 1) * (x + 1) == x * x + 2 * x + 1;
  }

  /** One Newton step from y >= 1 never goes below the floor square root of x. */
  lemma NewtonStep(x: nat, y: nat)
    requires y >= 1
    ensures x < Square((y + x / y) / 2 + 1)
  {
    var q := x / y;
    var b := q + 1;
    var m := (y + q) / 2 + 1;
    assert x == q * y + x % y;
    assert x < y * b by {
      assert y * b == q * y + y;
    }
    assert y + b <= 2 * m;
    AmGm(y, b);
    SquareMono(y + b, 2 * m);
    SquareDouble(m);
  }

  /** Newton's iteration stops only once y*y <= x. */
  lemma NewtonStop(x: nat, y: nat)
    requires y >= 1 && (y + x / y) / 2 >= y
    ensures Square(y) <= x
  {
    var q := x / y;
    assert x == q * y + x % y;
    if y * y > x {
      if q >= y {
        MulLe(y, q, y);
      }
    }
  }

  /**
   * sound_level_rms: mean of squares in a 64-bit accumulator, then Newton's
   * integer square root started from the mean square itself.
   */
  method Rms(samples: seq<int16>) returns (r: uint16)
    requires |samples| < 0x1_0000_0000  // size_t is 32 bits wide on the target
    ensures r == BlockRms(samples)
  {
    if |samples| == 0 {
      return 0;
    }

    var sumSq: nat := 0;
    for i := 0 to |samples|
      invariant sumSq == SumSquares(samples[..i])
    {
      var s: int := samples[i];
      SampleSquareBound(samples[i]);
      assert Square(s) < 0x8000_0000;  // s * s is computed in int32 without overflow
      assert samples[..i + 1][..i] == samples[..i];
      sumSq := sumSq + Square(s);
    }
    assert samples[..|samples|] == samples;
    SumSquaresBound(samples);
    assert sumSq < 0x1_0000_0000_0000_0000;  // the uint64 accumulator never wraps

    var meanSq := sumSq / |samples|;
    assert meanSq == MeanSquare(samples);
    MeanSquareBound(samples);
    if meanSq == 0 {
      return 0;
    }
    var y := NewtonSqrt(meanSq);  // (uint32_t)mean_sq keeps the value: it is at most 2^30
    r := if y < UINT16_MAX then y else UINT16_MAX;
  }

  /**
   * The Newton iteration of sound_level_rms on uint32 values: start from x
   * itself and step to (y + x / y) / 2 while that strictly decreases.
   */
  method NewtonSqrt(x: nat) returns (y: nat)
    requires 1 <= x < 0x8000_0000
    ensures y == FloorSqrt(x)
  {
    y := x;
    BelowNextSquare(x);
    while true
      invariant 1 <= y <= x
      invariant x < Square(y + 1)
      decreases y
    {
      DivAtMost(x, y);
      assert y + x / y < 0x1_0000_0000;  // no uint32 overflow
      var next := (y + x / y) / 2;
      if next >= y {
        NewtonStop(x, y);
        break;
      }
      NewtonStep(x, y);
      y := next;
    }
    FloorSqrtUnique(y, x);
  }

  /** A full-scale negative block has RMS 0x8000, one above the documented 0..32767 range. */
  lemma {:induction false} FullScaleNegativeRms(s: seq<int16>)
    requires |s| > 0
    requires forall i :: 0 <= i < |s| ==> s[i] == -0x8000
    ensures BlockRms(s) == 0x8000
  {
    FullScaleSum(s);
    MulDivCancel(0x4000_0000, |s|);
    FloorSqrtUnique(0x8000, 0x4000_0000);
  }

  lemma {:induction false} FullScaleSum(s: seq<int16>)
    requires forall i :: 0 <= i < |s| ==> s[i] == -0x8000
    ensures SumSquares(s) == 0x4000_0000 * |s|
  {
    if s != [] {
      FullScaleSum(s[..|s| - 1]);
    }
  }

  /** A silent block has RMS 0. */
  lemma {:induction false} SilenceRms(s: seq<int16>)
    requires forall i :: 0 <= i < |s| ==> s[i] == 0
    ensures BlockRms(s) == 0
  {
    SilentSum(s);
  }

  lemma {:induction false} SilentSum(s: seq<int16>)
    requires forall i :: 0 <= i < |s| ==> s[i] == 0
    ensures SumSquares(s) == 0
  {
    if s != [] {
      SilentSum(s[..|s| - 1]);
    }
  }

  // ---------------------------------------------------------------------
  // 4.4 fixed-point log2 (ilog2_fixed4, log2_frac_lut)
  // ---------------------------------------------------------------------

  /** Position of the highest set bit of v. */
  function Log2Floor(v: nat): nat
    requires v >= 1
  {
    if v == 1 then 0 else 1 + Log2Floor(v / 2)
  }

  lemma {:induction false} Log2FloorBounds(v: nat)
    requires v >= 1
    ensures Pow2(Log2Floor(v)) <= v < Pow2(Log2Floor(v) + 1)
  {
    if v > 1 {
      Log2FloorBounds(v / 2);
    }
  }

  lemma {:induction false} Log2FloorUnique(v: nat, k: nat)
    requires v >= 1 && Pow2(k) <= v < Pow2(k + 1)
    ensures Log2Floor(v) == k
  {
    if k == 0 {
    } else {
      assert Pow2(k) == 2 * Pow2(k - 1);
      assert Pow2(k + 1) == 2 * Pow2(k);
      Log2FloorUnique(v / 2, k - 1);
    }
  }

  lemma {:induction false} Log2FloorMono(v: nat, w: nat)
    requires 1 <= v <= w
    ensures Log2Floor(v) <= Log2Floor(w)
  {
    if v > 1 {
      Log2FloorMono(v / 2, w / 2);
    }
  }

  /**
   * The leading five bits of v (its leading one and the four bits below it,
   * zero-padded on the right when v < 16), as a number in 16..31.
   */
  function Mantissa(v: nat): (m: nat)
    requires v >= 1
    ensures 16 <= m < 32
  {
    Log2FloorBounds(v);
    assert Pow2(Log2Floor(v) + 1) == 2 * Pow2(Log2Floor(v));
    MantissaRange(v, Pow2(Log2Floor(v)));
    v * 16 / Pow2(Log2Floor(v))
  }

  lemma MantissaRange(v: nat, p: nat)
    requires p >= 1 && p <= v < 2 * p
    ensures 16 <= v * 16 / p < 32
  {
    MulDivCancel(16, p);
    DivMono(16 * p, v * 16, p);
    DivMono(v * 16, 31 * p + (p - 1), p);
    DivUnique(31 * p + (p - 1), p, 31, p - 1);
  }

  /** The four bits just below the leading one of v. */
  function FracBits(v: nat): nat
    requires v >= 1
  {
    Mantissa(v) % 16
  }

  /** The 4.4 fixed-point log2 approximation: integer part in the high nibble, linear mantissa below. */
  function Log2Fixed4(v: uint16): (r: nat)
    ensures r <= 255
  {
    if v == 0 then 0
    else
      Log2FloorMono(v, 0xFFFF);
      Log2FloorUnique(0xFFFF, 15);
      16 * Log2Floor(v) + FracBits(v)
  }

  /** log2_frac_lut: the identity on 0..15. */
  const Log2FracLut: seq<nat> := [0, 1, 2, 3, 4, 5, 6, 7, 8, 9, 10, 11, 12, 13, 14, 15]

  /** (val >> (k - 4)) & 0x0F, for k >= 4 the position of the leading one, gives the fraction bits. */
  lemma FracBitsByRightShift(val: nat, k: nat)
    requires val >= 1 && k == Log2Floor(val) && k >= 4
    ensures (val / Pow2(k - 4)) % 16 == FracBits(val)
  {
    Pow2Add(4, k - 4);
    assert Pow2(4) == 16;
    DivDivCancel(val, 16, Pow2(k - 4));
  }

  /** (val << (4 - k)) & 0x0F, for k < 4 the position of the leading one, gives the fraction bits. */
  lemma FracBitsByLeftShift(val: nat, k: nat)
    requires val >= 1 && k == Log2Floor(val) && k < 4
    ensures (val * Pow2(4 - k)) % 16 == FracBits(val)
  {
    Pow2Add(4 - k, k);
    assert Pow2(4) == 16;
    var a, b := Pow2(4 - k), Pow2(k);
    assert a * b == 16;
    assert val * 16 == val * (a * b) == (val * a) * b;
    MulDivCancel(val * Pow2(4 - k), Pow2(k));
  }

  /**
   * ilog2_fixed4: shift a copy of val right until it reaches zero, counting
   * the shifts, then look up the next four bits.
   */
  method ILog2Fixed4(val: uint16) returns (r: uint16)
    ensures r == Log2Fixed4(val)
  {
    if val == 0 {
      return 0;
    }

    var intPart: nat := 0;
    var tmp: nat := val;
    while true
      invariant 1 <= tmp <= val
      invariant Log2Floor(val) == intPart + Log2Floor(tmp)
      decreases tmp
    {
      var shifted := tmp / 2;  // tmp >>= 1
      if shifted == 0 {
        break;
      }
      tmp := shifted;
      intPart := intPart + 1;
    }

    var fracBits: nat;
    if intPart >= 4 {
      fracBits := (val / Pow2(intPart - 4)) % 16;  // (val >> (int_part - 4)) & 0x0F
      FracBitsByRightShift(val, intPart);
    } else {
      fracBits := (val * Pow2(4 - intPart)) % 16;  // (val << (4 - int_part)) & 0x0F
      FracBitsByLeftShift(val, intPart);
    }
    ghost var spec := Log2Fixed4(val);
    // (int_part << 4) | lut[frac_bits]: the low nibble of int_part << 4 is zero
    r := intPart * 16 + Log2FracLut[fracBits];
  }

  /**
   * For v > 0 the high nibble of the fixed-point log is floor(log2 v) and the
   * low nibble f places v in the f-th sixteenth of its octave:
   * 2^k * (16 + f) <= 16 * v < 2^k * (17 + f).
   */
  lemma Log2Fixed4Meaning(v: uint16)
    requires v > 0
    ensures Pow2(Log2Fixed4(v) / 16) <= v < Pow2(Log2Fixed4(v) / 16 + 1)
    ensures Pow2(Log2Fixed4(v) / 16) * (16 + Log2Fixed4(v) % 16) <= 16 * v
    ensures 16 * v < Pow2(Log2Fixed4(v) / 16) * (17 + Log2Fixed4(v) % 16)
  {
    var k := Log2Floor(v);
    var p := Pow2(k);
    var m := Mantissa(v);
    Log2FloorBounds(v);
    assert Log2Fixed4(v) == 16 * k + (m - 16);
    assert Log2Fixed4(v) / 16 == k;
    assert Log2Fixed4(v) % 16 == m - 16;
    DivBracket(v * 16, p);
  }

  /** The fixed-point log2 is monotonically non-decreasing. */
  lemma Log2Fixed4Mono(v: uint16, w: uint16)
    requires v <= w
    ensures Log2Fixed4(v) <= Log2Fixed4(w)
  {
    if v > 0 {
      var kv, kw := Log2Floor(v), Log2Floor(w);
      var mv, mw := Mantissa(v), Mantissa(w);
      Log2FloorMono(v, w);
      assert Log2Fixed4(v) == 16 * kv + (mv - 16);
      assert Log2Fixed4(w) == 16 * kw + (mw - 16);
      if kv == kw {
        DivMono(v * 16, w * 16, Pow2(kv));
      }
    }
  }

  // ---------------------------------------------------------------------
  // Decibel conversion (sound_level_rms_to_db)
  // ---------------------------------------------------------------------

  function Clamp(x: int, lo: int, hi: int): int
  {
    if x < lo then lo else if x > hi then hi else x
  }

  /**
   * sound_level_rms_to_db: (log2(rms) - log2(32767)) in 4.4 fixed point,
   * times 6, arithmetic shift right by 4 (floor division: Dafny's / with a
   * positive divisor), plus 90, clamped to 0..90.
   */
  function RmsToDb(rms: uint16): (db: uint8)
    ensures db <= 90
  {
    if rms == 0 then 0
    else
      var log2Val := Log2Fixed4(rms);
      var log2Ref := Log2Fixed4(32767);
      var dbfsFixed := log2Val - log2Ref;  // both fit int16, so does the difference
      var db := (dbfsFixed * 6) / 16 + 90;
      Clamp(db, 0, 90)
  }

  /** The reference logarithm is 14*16 + 15 = 239 (not 240), so full scale maps to exactly 90. */
  lemma ReferenceLog()
    ensures Log2Fixed4(32767) == 239
    ensures RmsToDb(32767) == 90
  {
    assert Pow2(14) == 16384 && Pow2(15) == 32768;
    Log2FloorUnique(32767, 14);
  }

  /** The decibel value is monotonically non-decreasing in the RMS amplitude. */
  lemma RmsToDbMono(a: uint16, b: uint16)
    requires a <= b
    ensures RmsToDb(a) <= RmsToDb(b)
  {
    if a > 0 {
      Log2Fixed4Mono(a, b);
      ReferenceLog();
      var da := (Log2Fixed4(a) - 239) * 6;
      var db := (Log2Fixed4(b) - 239) * 6;
      assert da <= db;
      DivMono(da, db, 16);
    }
  }

  /** The lower clamp never takes effect: rms = 1 gives (0 - 239) * 6 >> 4 = -90, plus 90. */
  lemma RmsToDbUnclampedBelow(rms: uint16)
    requires rms > 0
    ensures RmsToDb(rms) == Clamp((Log2Fixed4(rms) - 239) * 6 / 16 + 90, 0, 90)
    ensures (Log2Fixed4(rms) - 239) * 6 / 16 + 90 >= 0
  {
    ReferenceLog();
    DivMono(-239 * 6, (Log2Fixed4(rms) - 239) * 6, 16);
  }

  /** The level of one audio block: the decibel value of its RMS amplitude. */
  function BlockLevel(samples: seq<int16>): (db: uint8)
    ensures db <= 90
  {
    RmsToDb(BlockRms(samples))
  }

  /** A silent block reads 0 dB. */
  lemma SilenceLevel(s: seq<int16>)
    requires forall i :: 0 <= i < |s| ==> s[i] == 0
    ensures BlockLevel(s) == 0
  {
    SilenceRms(s);
  }

  /** A block with the larger RMS amplitude never reads fewer decibels. */
  lemma BlockLevelMono(s: seq<int16>, t: seq<int16>)
    requires BlockRms(s) <= BlockRms(t)
    ensures BlockLevel(s) <= BlockLevel(t)
  {
    RmsToDbMono(BlockRms(s), BlockRms(t));
  }
}
