/**
  The platform layer's integer, bit and buffer utilities (game_platform.h): Min/Max, the
  checked truncations, power-of-two tests and alignment, bit scans, byte swapping, four-character
  codes, the (Base, Size) piece that buffers are consumed from, and the counters of the ticket mutex.

  Bytes and unsigned integers (u8, u32, uptr) are natural numbers below 2^8, 2^32 and 2^64, with the bitwise
  operations they need defined on natural numbers; the byte swaps and four-character codes work on
  bit patterns (bv16, bv32), whose wrap-around is the bit-vector's own.
*/
module Platform {

  type u8 = x: nat | x < 0x100
  type u16 = bv16

  const U32_LIMIT: nat := 0x1_0000_0000
  const UPTR_LIMIT: nat := 0x1_0000_0000_0000_0000

  /** An unsigned 32-bit value, as a number (the bit scans and the image loader). */
  type u32 = x: nat | x < U32_LIMIT

  /** The same width as a bit pattern (the byte swaps and four-character codes). */
  type bits32 = bv32

  /** An unsigned 64-bit (pointer-sized) value. */
  type uptr = x: nat | x < UPTR_LIMIT

  // ---------------------------------------------------------------------------------------------
  // Min / Max
  // ---------------------------------------------------------------------------------------------

  /** Min(A, B) is `A <= B ? A : B`: a lower bound of both that is one of them. */
  function Min(a: int, b: int): (r: int)
    ensures r <= a && r <= b
    ensures r == a || r == b
  {
    if a <= b then a else b
  }

  /** Max(A, B) is `A > B ? A : B`: an upper bound of both that is one of them. */
  function Max(a: int, b: int): (r: int)
    ensures r >= a && r >= b
    ensures r == a || r == b
  {
    if a > b then a else b
  }

  // ---------------------------------------------------------------------------------------------
  // Checked truncation
  // ---------------------------------------------------------------------------------------------

  /** `(u32)Value` on a u64: the identity on values that fit (the case the debug assertion
      demands), the value modulo 2^32 otherwise. */
  function SafeTruncateU64(value: uptr): (r: nat)
    ensures r < 0x1_0000_0000
    ensures value <= 0xFFFF_FFFF ==> r == value
    ensures (value - r) % 0x1_0000_0000 == 0
  {
    value % 0x1_0000_0000
  }

  /** `(u16)Value` on a u32. */
  function SafeTruncateU32(value: nat): (r: nat)
    requires value < 0x1_0000_0000
    ensures r < 0x1_0000
    ensures value <= 0xFFFF ==> r == value
    ensures (value - r) % 0x1_0000 == 0
  {
    value % 0x1_0000
  }

  /** `(u8)Value` on a u16. */
  function SafeTruncateU16(value: nat): (r: nat)
    requires value < 0x1_0000
    ensures r < 0x100
    ensures value <= 0xFF ==> r == value
    ensures (value - r) % 0x100 == 0
  {
    value % 0x100
  }

  // ---------------------------------------------------------------------------------------------
  // Bitwise arithmetic on pointer-sized values
  // ---------------------------------------------------------------------------------------------

  /** 2^n. */
  function Pow2(n: nat): (r: nat)
    ensures r >= 1
  {
    if n == 0 then 1 else 2 * Pow2(n - 1)
  }

  /** Bitwise and of two natural numbers, bit by bit from the least significant. */
  function And(x: nat, y: nat): (r: nat)
    ensures r <= x && r <= y
    decreases x
  {
    if x == 0 || y == 0 then 0
    else 2 * And(x / 2, y / 2) + (if x % 2 == 1 && y % 2 == 1 then 1 else 0)
  }

  /** `Value - 1` on a uptr: zero wraps around to the all-ones value. */
  function WrapDec(value: uptr): (r: uptr)
    ensures value > 0 ==> r == value - 1
    ensures value == 0 ==> r == UPTR_LIMIT - 1
  {
    (value + UPTR_LIMIT - 1) % UPTR_LIMIT
  }

  /** `~Value` on a uptr. */
  function Not(value: uptr): (r: uptr)
    ensures r + value == UPTR_LIMIT - 1
  {
    UPTR_LIMIT - 1 - value
  }

  /** `Value + Delta` on a uptr, modulo 2^64. */
  function WrapAdd(value: uptr, delta: uptr): (r: uptr)
    ensures value + delta < UPTR_LIMIT ==> r == value + delta
    ensures value + delta >= UPTR_LIMIT ==> r == value + delta - UPTR_LIMIT
  {
    (value + delta) % UPTR_LIMIT
  }

  /** x with its k low bits cleared. */
  function ClearLow(x: nat, k: nat): (r: nat)
    ensures r <= x && x - r < Pow2(k)
    decreases k
  {
    if k == 0 then x else 2 * ClearLow(x / 2, k - 1)
  }

  /** The value of the lowest set bit of a non-zero x. */
  function LowestBit(x: nat): (r: nat)
    requires x > 0
    ensures r <= x
    decreases x
  {
    if x % 2 == 1 then 1 else 2 * LowestBit(x / 2)
  }

  /** One step of And: the low bits and the rest. */
  lemma AndStep(x: nat, y: nat)
    ensures And(x, y) == 2 * And(x / 2, y / 2) + (if x % 2 == 1 && y % 2 == 1 then 1 else 0)
  {
  }

  lemma {:induction false} Pow2Monotone(k: nat, w: nat)
    requires k <= w
    ensures Pow2(k) <= Pow2(w)
    decreases w
  {
    if k < w {
      Pow2Monotone(k, w - 1);
    }
  }

  lemma {:induction false} Pow2Add(a: nat, b: nat)
    ensures Pow2(a + b) == Pow2(a) * Pow2(b)
    decreases a
  {
    if a > 0 {
      Pow2Add(a - 1, b);
    }
  }

  /** The word sizes: 2^32 and 2^64 are the u32 and uptr limits. */
  lemma Pow2Of64()
    ensures Pow2(32) == U32_LIMIT && Pow2(64) == UPTR_LIMIT
  {
    assert Pow2(2) == 4;
    Pow2Add(2, 2);
    Pow2Add(4, 4);
    assert Pow2(8) == 0x100;
    Pow2Add(8, 8);
    assert Pow2(16) == 0x1_0000;
    Pow2Add(16, 16);
    assert Pow2(32) == 0x1_0000_0000;
    Pow2Add(32, 32);
  }

  lemma {:induction false} MulAtLeast(d: nat, z: nat)
    requires z >= 1
    ensures d * z >= d
    decreases z
  {
    if z > 1 {
      MulAtLeast(d, z - 1);
      assert d * z == d * (z - 1) + d;
    }
  }

  /** p <= q scales to d * p <= d * q. */
  lemma MulMonotone(d: nat, p: nat, q: nat)
    requires p <= q
    ensures d * p <= d * q
  {
    if p < q {
      MulAtLeast(d, q - p);
      assert d * (q - p) == d * q - d * p;
    }
  }

  /** p < q leaves a gap of at least d between d * p and d * q. */
  lemma MulGap(d: nat, p: nat, q: nat)
    requires p < q
    ensures d * p + d <= d * q
  {
    MulAtLeast(d, q - p);
    assert d * (q - p) == d * q - d * p;
  }

  lemma MulMod(t: nat, d: nat)
    requires d > 0
    ensures (t * d) % d == 0 && (t * d) / d == t
  {
    var q := (t * d) / d;
    if q < t {
      MulGap(d, q, t);
    }
  }

  /** Two distinct multiples of d are at least d apart. */
  lemma MultipleGap(d: nat, m: nat, r: nat)
    requires d > 0 && m % d == 0 && r % d == 0 && m < r
    ensures m + d <= r
  {
    var p, q := m / d, r / d;
    assert m == d * p && r == d * q;
    if p >= q {
      MulMonotone(d, q, p);
    }
    MulGap(d, p, q);
  }

  /** x and its complement within w bits share no bit. */
  lemma {:induction false} AndComplementSelf(x: nat, w: nat)
    requires x < Pow2(w)
    ensures And(x, Pow2(w) - 1 - x) == 0
    decreases w
  {
    if x != 0 && Pow2(w) - 1 - x != 0 {
      assert w > 0;
      assert (Pow2(w) - 1 - x) / 2 == Pow2(w - 1) - 1 - x / 2;
      AndComplementSelf(x / 2, w - 1);
    }
  }

  /** x and its two's-complement negation within w bits share exactly x's lowest set bit. */
  lemma {:induction false} AndNegate(x: nat, w: nat)
    requires 0 < x < Pow2(w)
    ensures And(x, Pow2(w) - x) == LowestBit(x)
    decreases w
  {
    assert w > 0;
    if x % 2 == 1 {
      assert (Pow2(w) - x) / 2 == Pow2(w - 1) - 1 - x / 2;
      AndComplementSelf(x / 2, w - 1);
    } else {
      assert (Pow2(w) - x) / 2 == Pow2(w - 1) - x / 2;
      AndNegate(x / 2, w - 1);
    }
  }

  lemma {:induction false} AndAllOnes(x: nat, w: nat)
    requires x < Pow2(w)
    ensures And(x, Pow2(w) - 1) == x
    decreases w
  {
    if x != 0 {
      assert w > 0;
      assert (Pow2(w) - 1) / 2 == Pow2(w - 1) - 1;
      AndAllOnes(x / 2, w - 1);
    }
  }

  /** The mask of bits k .. w-1 of a w-bit word. */
  function HighMask(w: nat, k: nat): nat
    requires k <= w
    decreases k
  {
    if k == 0 then Pow2(w) - 1 else 2 * HighMask(w - 1, k - 1)
  }

  /** The mask of bits k .. w-1 is `~(2^k - 1)` within w bits. */
  lemma {:induction false} HighMaskValue(w: nat, k: nat)
    requires k <= w
    ensures Pow2(k) <= Pow2(w) && HighMask(w, k) == Pow2(w) - Pow2(k)
    decreases k
  {
    if k > 0 {
      HighMaskValue(w - 1, k - 1);
    }
  }

  /** Masking with bits k .. w-1 of a w-bit word clears the k low bits. */
  lemma {:induction false} AndHighMask(x: nat, w: nat, k: nat)
    requires x < Pow2(w) && k <= w
    ensures And(x, HighMask(w, k)) == ClearLow(x, k)
    decreases k
  {
    if k == 0 {
      AndAllOnes(x, w);
    } else {
      var h := HighMask(w - 1, k - 1);
      assert HighMask(w, k) == 2 * h;
      assert (2 * h) / 2 == h && (2 * h) % 2 == 0;
      assert x / 2 < Pow2(w - 1);
      AndStep(x, 2 * h);
      AndHighMask(x / 2, w - 1, k - 1);
    }
  }

  lemma {:induction false} ClearLowIsMultiple(x: nat, k: nat)
    ensures ClearLow(x, k) == (ClearLow(x, k) / Pow2(k)) * Pow2(k)
    ensures ClearLow(x, k) % Pow2(k) == 0
    decreases k
  {
    if k > 0 {
      ClearLowIsMultiple(x / 2, k - 1);
      var t := ClearLow(x / 2, k - 1) / Pow2(k - 1);
      assert ClearLow(x, k) == t * Pow2(k);
      MulMod(t, Pow2(k));
    }
  }

  lemma Pow2Even(k: nat)
    requires k > 0
    ensures Pow2(k) % 2 == 0 && Pow2(k) / 2 == Pow2(k - 1)
  {
  }

  /** A value is its own lowest set bit exactly when it is a power of two. */
  lemma {:induction false} LowestBitSelf(x: nat)
    requires x > 0
    ensures LowestBit(x) == x <==> exists k: nat :: x == Pow2(k)
    decreases x
  {
    if exists k: nat :: x == Pow2(k) {
      var k: nat :| x == Pow2(k);
      if k > 0 {
        Pow2Even(k);
        LowestBitSelf(x / 2);
        assert LowestBit(x / 2) == x / 2;
      }
    }
    if LowestBit(x) == x {
      if x % 2 == 1 {
        assert x == Pow2(0);
      } else {
        LowestBitSelf(x / 2);
        var k: nat :| x / 2 == Pow2(k);
        assert x == Pow2(k + 1);
      }
    }
  }

  // ---------------------------------------------------------------------------------------------
  // Powers of two and alignment (instantiated at the pointer-sized type)
  // ---------------------------------------------------------------------------------------------

  /** `(Value & ~(Value - 1)) == Value`. */
  predicate IsPow2(value: uptr) {
    And(value, Not(WrapDec(value))) == value
  }

  /** The mathematical notion the test decides for non-zero values. */
  ghost predicate IsPowerOfTwo(value: uptr) {
    exists k: nat :: k < 64 && value == Pow2(k)
  }

  /** On a non-zero value the test compares the value with its lowest set bit. */
  lemma IsPow2ByLowestBit(value: uptr)
    requires value > 0
    ensures IsPow2(value) <==> LowestBit(value) == value
  {
    Pow2Of64();
    assert Not(WrapDec(value)) == Pow2(64) - value;
    AndNegate(value, 64);
  }

  lemma PowerOfTwoBelowLimit(k: nat)
    requires Pow2(k) < UPTR_LIMIT
    ensures k < 64
  {
    Pow2Of64();
    if k >= 64 {
      Pow2Monotone(64, k);
    }
  }

  /** IsPow2 holds exactly of zero and of the powers of two 2^0 .. 2^63: zero counts as one. */
  lemma IsPow2Meaning(value: uptr)
    ensures IsPow2(value) <==> value == 0 || IsPowerOfTwo(value)
  {
    if value != 0 {
      IsPow2ByLowestBit(value);
      LowestBitSelf(value);
      if IsPow2(value) {
        var k: nat :| value == Pow2(k);
        PowerOfTwoBelowLimit(k);
        assert k < 64 && value == Pow2(k);
      }
      if IsPowerOfTwo(value) {
        var k: nat :| k < 64 && value == Pow2(k);
        assert value == Pow2(k);
      }
    }
  }

  /** `(Value + (Alignment - 1)) & ~(Alignment - 1)`, with the uptr wrap-around; the assertion
      admits every alignment IsPow2 accepts, zero included. */
  function AlignPow2(value: uptr, alignment: uptr): uptr
    requires IsPow2(alignment)
  {
    And(WrapAdd(value, WrapDec(alignment)), Not(WrapDec(alignment)))
  }

  /** With a zero alignment, which the assertion lets through, the mask is zero and so is the result. */
  lemma AlignPow2ByZero(value: uptr)
    ensures IsPow2(0) && AlignPow2(value, 0) == 0
  {
    IsPow2Meaning(0);
  }

  /** AlignPow2 at 2^k, without overflow, clears the low k bits of Value + 2^k - 1. */
  lemma PowerOfTwoIsPow2(k: nat)
    requires k < 64
    ensures Pow2(k) < UPTR_LIMIT && IsPow2(Pow2(k))
  {
    Pow2Of64();
    Pow2Monotone(k + 1, 64);
    IsPow2Meaning(Pow2(k));
  }

  lemma AlignPow2ClearsLow(value: uptr, k: nat)
    requires k < 64 && value + Pow2(k) - 1 < UPTR_LIMIT
    ensures Pow2(k) < UPTR_LIMIT && IsPow2(Pow2(k))
    ensures AlignPow2(value, Pow2(k)) == ClearLow(value + Pow2(k) - 1, k)
  {
    PowerOfTwoIsPow2(k);
    Pow2Of64();
    var a := Pow2(k);
    assert WrapDec(a) == a - 1;
    assert WrapAdd(value, a - 1) == value + a - 1;
    HighMaskValue(64, k);
    assert Not(a - 1) == HighMask(64, k);
    AndHighMask(value + a - 1, 64, k);
  }

  /** For a non-zero power of two and a value that does not overflow when rounded up, AlignPow2
      is the smallest multiple of the alignment that is not below the value. */
  lemma AlignPow2IsLeastMultiple(value: uptr, alignment: uptr, m: nat)
    requires alignment != 0 && IsPow2(alignment)
    requires value + alignment - 1 < UPTR_LIMIT
    ensures AlignPow2(value, alignment) % alignment == 0
    ensures value <= AlignPow2(value, alignment) < value + alignment
    ensures m % alignment == 0 && value <= m ==> AlignPow2(value, alignment) <= m
  {
    IsPow2Meaning(alignment);
    var k: nat :| k < 64 && alignment == Pow2(k);
    AlignPow2ClearsLow(value, k);
    ClearLowIsMultiple(value + alignment - 1, k);
    if m % alignment == 0 && value <= m && m < AlignPow2(value, alignment) {
      MultipleGap(alignment, m, AlignPow2(value, alignment));
    }
  }

  /** 2^64 is a multiple of every power of two below it. */
  lemma LimitIsMultiple(k: nat)
    requires k <= 64
    ensures UPTR_LIMIT % Pow2(k) == 0
  {
    Pow2Of64();
    Pow2Add(64 - k, k);
    MulMod(Pow2(64 - k), Pow2(k));
  }

  /** Aligning an aligned value changes nothing. */
  lemma AlignPow2Idempotent(value: uptr, alignment: uptr)
    requires alignment != 0 && IsPow2(alignment)
    requires value + alignment - 1 < UPTR_LIMIT
    ensures AlignPow2(value, alignment) + alignment - 1 < UPTR_LIMIT
    ensures AlignPow2(AlignPow2(value, alignment), alignment) == AlignPow2(value, alignment)
  {
    IsPow2Meaning(alignment);
    var k: nat :| k < 64 && alignment == Pow2(k);
    var r := AlignPow2(value, alignment);
    AlignPow2IsLeastMultiple(value, alignment, r);
    LimitIsMultiple(k);
    MultipleGap(alignment, r, UPTR_LIMIT);
    AlignPow2IsLeastMultiple(r, alignment, r);
  }

  /** `((Value) + 3) & ~3`, and the 8- and 16-byte variants, at uptr. */
  function Align4(value: uptr): uptr { And(WrapAdd(value, 3), Not(3)) }
  function Align8(value: uptr): uptr { And(WrapAdd(value, 7), Not(7)) }
  function Align16(value: uptr): uptr { And(WrapAdd(value, 15), Not(15)) }

  /** The fixed alignments are AlignPow2 at 4, 8 and 16. */
  lemma AlignFixedAreAlignPow2(value: uptr)
    ensures IsPow2(4) && IsPow2(8) && IsPow2(16)
    ensures Align4(value) == AlignPow2(value, 4)
    ensures Align8(value) == AlignPow2(value, 8)
    ensures Align16(value) == AlignPow2(value, 16)
  {
    assert Pow2(2) == 4 && Pow2(3) == 8;
    assert Pow2(4) == 16;
    IsPow2Meaning(4);
    IsPow2Meaning(8);
    IsPow2Meaning(16);
  }

  // ---------------------------------------------------------------------------------------------
  // Bit scans over u32
  // ---------------------------------------------------------------------------------------------

  /** bit_scan_result: a zero-initialised one is { IsFound = false, Index = 0 }. */
  datatype BitScanResult = BitScanResult(isFound: bool, index: nat)

  /** `Value & (1 << Test)` is non-zero. */
  predicate BitSet(value: nat, i: nat) {
    And(value, Pow2(i)) != 0
  }

  /** i is the position of the lowest set bit of value. */
  predicate IsLowestSetBit(value: u32, i: nat) {
    i < 32 && BitSet(value, i) && forall j :: 0 <= j < i ==> !BitSet(value, j)
  }

  /** i is the position of the highest set bit of value. */
  predicate IsHighestSetBit(value: u32, i: nat) {
    i < 32 && BitSet(value, i) && forall j :: i < j < 32 ==> !BitSet(value, j)
  }

  /** Zero has no set bit. */
  lemma ZeroHasNoSetBit(i: nat)
    ensures !BitSet(0, i)
  {
  }

  /** A non-zero value below 2^w has a set bit below w. */
  lemma {:induction false} NonZeroHasSetBit(value: nat, w: nat)
    requires 0 < value < Pow2(w)
    ensures exists j :: 0 <= j < w && BitSet(value, j)
    decreases w
  {
    assert w > 0;
    if value % 2 == 1 {
      assert And(value / 2, 0) == 0;
      assert 0 <= 0 < w && BitSet(value, 0);
    } else {
      NonZeroHasSetBit(value / 2, w - 1);
      var j :| 0 <= j < w - 1 && BitSet(value / 2, j);
      Pow2Even(j + 1);
      assert And(value, Pow2(j + 1)) == 2 * And(value / 2, Pow2(j));
      assert 0 <= j + 1 < w && BitSet(value, j + 1);
    }
  }

  /** The scan as a function, for specifications: the first set bit at or above i. */
  function LeastSignificantBitFrom(value: u32, i: nat): BitScanResult
    requires i <= 32
    decreases 32 - i
  {
    if i == 32 then BitScanResult(false, 0)
    else if BitSet(value, i) then BitScanResult(true, i)
    else LeastSignificantBitFrom(value, i + 1)
  }

  function LeastSignificantBit(value: u32): BitScanResult {
    LeastSignificantBitFrom(value, 0)
  }

  /** Scanning up from i, past no set bit, finds a bit exactly when there is one, and it is the lowest. */
  lemma {:induction false} LeastSignificantBitFromCorrect(value: u32, i: nat)
    requires i <= 32 && forall j :: 0 <= j < i ==> !BitSet(value, j)
    ensures var r := LeastSignificantBitFrom(value, i);
      (r.isFound <==> value != 0) && (r.isFound ==> IsLowestSetBit(value, r.index)) && (!r.isFound ==> r.index == 0)
    decreases 32 - i
  {
    if i == 32 {
      if value != 0 {
        Pow2Of64();
        NonZeroHasSetBit(value, 32);
      }
    } else if BitSet(value, i) {
    } else {
      LeastSignificantBitFromCorrect(value, i + 1);
    }
  }

  /** The lowest set bit, found exactly when the value is non-zero. */
  lemma LeastSignificantBitCorrect(value: u32)
    ensures LeastSignificantBit(value).isFound <==> value != 0
    ensures LeastSignificantBit(value).isFound ==> IsLowestSetBit(value, LeastSignificantBit(value).index)
    ensures !LeastSignificantBit(value).isFound ==> LeastSignificantBit(value).index == 0
  {
    LeastSignificantBitFromCorrect(value, 0);
  }

  /** FindLeastSignificantBit: the loop of the GNUC branch, testing bits from 0 upward (the MSVC
      branch's _BitScanForward computes the same). */
  method FindLeastSignificantBit(value: u32) returns (r: BitScanResult)
    ensures r == LeastSignificantBit(value)
    ensures r.isFound <==> value != 0
    ensures r.isFound ==> IsLowestSetBit(value, r.index)
    ensures !r.isFound ==> r.index == 0
  {
    LeastSignificantBitCorrect(value);
    r := BitScanResult(false, 0);
    var test := 0;
    while test < 32
      invariant test <= 32
      invariant LeastSignificantBitFrom(value, test) == LeastSignificantBit(value)
    {
      if And(value, Pow2(test)) != 0 {
        r := BitScanResult(true, test);
        return;
      }
      test := test + 1;
    }
  }

  /** Outcome of running a scan loop: it completes with a result, or reaches a shift by 32 or
      more, which C leaves undefined. */
  datatype ScanOutcome = Completed(result: BitScanResult) | UndefinedShift

  /** FindMostSignificantBit's GNUC loop as written: it starts at bit 31 and counts upward
      (`Test++`), so the next test after bit 31 is a shift by 32. */
  function MostSignificantBitAsWrittenFrom(value: u32, test: nat): (o: ScanOutcome)
    requires 31 <= test <= 32
    ensures o.Completed? ==> o.result == BitScanResult(true, 31) && BitSet(value, 31)
    decreases 32 - test
  {
    if test == 32 then UndefinedShift
    else if BitSet(value, test) then Completed(BitScanResult(true, test))
    else MostSignificantBitAsWrittenFrom(value, test + 1)
  }

  function FindMostSignificantBitAsWritten(value: u32): (o: ScanOutcome)
    ensures o.Completed? ==> o.result.isFound && IsHighestSetBit(value, o.result.index)
  {
    MostSignificantBitAsWrittenFrom(value, 31)
  }

  /** Every value without bit 31 set, 1 for instance, makes the loop as written shift by 32,
      although it has a highest set bit below 31 (or none, for zero). */
  lemma MostSignificantBitAsWrittenFails(value: u32)
    requires !BitSet(value, 31)
    ensures FindMostSignificantBitAsWritten(value) == UndefinedShift
    ensures value != 0 ==> MostSignificantBit(value).isFound && MostSignificantBit(value).index < 31
  {
    assert MostSignificantBitAsWrittenFrom(value, 32) == UndefinedShift;
    MostSignificantBitCorrect(value);
  }

  /** The scan the function is named for (the MSVC branch's _BitScanReverse): the first set bit
      below `above`, searching downward. */
  function MostSignificantBitFrom(value: u32, above: nat): BitScanResult
    requires above <= 32
    decreases above
  {
    if above == 0 then BitScanResult(false, 0)
    else if BitSet(value, above - 1) then BitScanResult(true, above - 1)
    else MostSignificantBitFrom(value, above - 1)
  }

  function MostSignificantBit(value: u32): BitScanResult {
    MostSignificantBitFrom(value, 32)
  }

  /** Scanning down from below `above`, past no set bit, finds a bit exactly when there is one,
      and it is the highest. */
  lemma {:induction false} MostSignificantBitFromCorrect(value: u32, above: nat)
    requires above <= 32 && forall j :: above <= j < 32 ==> !BitSet(value, j)
    ensures var r := MostSignificantBitFrom(value, above);
      (r.isFound <==> value != 0) && (r.isFound ==> IsHighestSetBit(value, r.index)) && (!r.isFound ==> r.index == 0)
    decreases above
  {
    if above == 0 {
      if value != 0 {
        Pow2Of64();
        NonZeroHasSetBit(value, 32);
      }
    } else if BitSet(value, above - 1) {
    } else {
      MostSignificantBitFromCorrect(value, above - 1);
    }
  }

  /** The highest set bit, found exactly when the value is non-zero. */
  lemma MostSignificantBitCorrect(value: u32)
    ensures MostSignificantBit(value).isFound <==> value != 0
    ensures MostSignificantBit(value).isFound ==> IsHighestSetBit(value, MostSignificantBit(value).index)
    ensures !MostSignificantBit(value).isFound ==> MostSignificantBit(value).index == 0
  {
    MostSignificantBitFromCorrect(value, 32);
  }

  /** FindMostSignificantBit with the loop counting down from bit 31, as the GNUC branch
      evidently intends. */
  method FindMostSignificantBit(value: u32) returns (r: BitScanResult)
    ensures r == MostSignificantBit(value)
    ensures r.isFound <==> value != 0
    ensures r.isFound ==> IsHighestSetBit(value, r.index)
    ensures !r.isFound ==> r.index == 0
  {
    MostSignificantBitCorrect(value);
    r := BitScanResult(false, 0);
    var test: int := 31;
    while test >= 0
      invariant -1 <= test <= 31
      invariant MostSignificantBitFrom(value, test + 1) == MostSignificantBit(value)
    {
      if And(value, Pow2(test)) != 0 {
        r := BitScanResult(true, test);
        return;
      }
      test := test - 1;
    }
  }

  // ---------------------------------------------------------------------------------------------
  // Byte order and four-character codes
  // ---------------------------------------------------------------------------------------------

  /** Byte i (0 is the least significant) of a bits32, as a bits32. */
  function ByteOf(value: bits32, i: bits32): bits32
    requires i < 4
  {
    (value >> (8 * i)) & 0xFF
  }

  /** SwapEndianU32 (the GNUC expression; MSVC's _byteswap_ulong is the same). The value behind
      the pointer is replaced by the result. */
  function SwapEndianU32(value: bits32): (r: bits32)
    ensures ByteOf(r, 0) == ByteOf(value, 3) && ByteOf(r, 1) == ByteOf(value, 2)
    ensures ByteOf(r, 2) == ByteOf(value, 1) && ByteOf(r, 3) == ByteOf(value, 0)
  {
    (value << 24) | ((value & 0xFF00) << 8) | ((value >> 8) & 0xFF00) | (value >> 24)
  }

  /** Swapping twice restores the value. */
  lemma SwapEndianU32Involutive(value: bits32)
    ensures SwapEndianU32(SwapEndianU32(value)) == value
  {
  }

  /** SwapEndianU16's GNUC branch as written, `((V << 8) || (V >> 8))`: a logical or of the two
      shifted (int-promoted) values, which is 1 or 0. */
  function SwapEndianU16AsWritten(value: u16): (r: u16)
    ensures r == 0 <==> value == 0
    ensures r <= 1
  {
    if (value as int) * 256 != 0 || (value as int) / 256 != 0 then 1 else 0
  }

  /** On 0x1234 the branch as written yields 1 where the byte swap is 0x3412. */
  lemma SwapEndianU16AsWrittenCollapses()
    ensures SwapEndianU16AsWritten(0x1234) == 1
    ensures SwapEndianU16(0x1234) == 0x3412
  {
  }

  /** SwapEndianU16 as intended (MSVC's _byteswap_ushort): the two bytes exchanged. */
  function SwapEndianU16(value: u16): (r: u16)
    ensures r & 0xFF == value >> 8 && r >> 8 == value & 0xFF
  {
    (value << 8) | (value >> 8)
  }

  /** Swapping twice restores the value. */
  lemma SwapEndianU16Involutive(value: u16)
    ensures SwapEndianU16(SwapEndianU16(value)) == value
  {
  }

  /** A `char` promoted to int on a signed-char target, as a 32-bit pattern. */
  function PromoteChar(c: u8): (r: bits32)
    ensures c < 0x80 ==> r == c as bits32
    ensures c >= 0x80 ==> r & 0xFFFF_FF00 == 0xFFFF_FF00 && r & 0xFF == c as bits32
  {
    if c < 0x80 then c as bits32 else (c as bits32) | 0xFFFF_FF00
  }

  /** FourCC(String): `String[3] | String[2] << 8 | String[1] << 16 | String[0] << 24`, with
      each char promoted to int. */
  function FourCC(s: seq<u8>): (r: bits32)
    requires |s| >= 4
  {
    PromoteChar(s[3]) | (PromoteChar(s[2]) << 8) | (PromoteChar(s[1]) << 16) | (PromoteChar(s[0]) << 24)
  }

  /** For ASCII characters the code holds them big-end first: String[0] is the top byte. */
  lemma FourCCAscii(s: seq<u8>)
    requires |s| >= 4 && s[0] < 0x80 && s[1] < 0x80 && s[2] < 0x80 && s[3] < 0x80
    ensures ByteOf(FourCC(s), 3) == s[0] as bits32 && ByteOf(FourCC(s), 2) == s[1] as bits32
    ensures ByteOf(FourCC(s), 1) == s[2] as bits32 && ByteOf(FourCC(s), 0) == s[3] as bits32
  {
  }

  /** A last character at or above 0x80 is sign-extended over the other three. */
  lemma FourCCHighLastChar(s: seq<u8>)
    requires |s| >= 4 && s[3] >= 0x80
    ensures FourCC(s) >> 8 == 0xFF_FFFF
  {
  }

  // ---------------------------------------------------------------------------------------------
  // Pieces of memory
  // ---------------------------------------------------------------------------------------------

  /** piece: a buffer (Base, Size) that ConsumeSize reads from the front of. Base is an address. */
  class Piece {
    var base: nat
    var size: nat

    constructor (base: nat, size: nat)
      ensures this.base == base && this.size == size
    {
      this.base := base;
      this.size := size;
    }

    /** ConsumeSize: returns the old Base and moves Base forward by n bytes, so the end of the
        piece (Base + Size) stays where it is. The assertion demands n <= Size. */
    method ConsumeSize(n: nat) returns (result: nat)
      requires n <= size
      modifies this
      ensures result == old(base)
      ensures base == old(base) + n && size == old(size) - n
      ensures base + size == old(base + size)
    {
      result := base;
      base := base + n;
      size := size - n;
    }
  }

  // ---------------------------------------------------------------------------------------------
  // Ticket mutex, run by one thread at a time
  // ---------------------------------------------------------------------------------------------

  /** The two u64 counters of a ticket_mutex. */
  datatype MutexCounters = MutexCounters(ticket: uptr, serving: uptr)

  /** A zero-initialised mutex. */
  const ZeroedMutex := MutexCounters(0, 0)

  /** EnterTicketMutex lets its caller through at once when the ticket it draws (the ticket count
      before its increment) is being served. */
  predicate EntersAtOnce(c: MutexCounters) {
    c.ticket == c.serving
  }

  /** The counters after EnterTicketMutex: Ticket incremented modulo 2^64. Serving is untouched;
      a caller that enters at once finds its own ticket (the new Ticket minus one) being served,
      and a second Enter before the Leave would not get through: recursive entry deadlocks. */
  function AfterEnter(c: MutexCounters): (r: MutexCounters)
    ensures r.serving == c.serving
    ensures EntersAtOnce(c) ==> WrapDec(r.ticket) == r.serving
    ensures EntersAtOnce(c) ==> !EntersAtOnce(r)
  {
    c.(ticket := WrapAdd(c.ticket, 1))
  }

  /** The counters after LeaveTicketMutex: Serving incremented modulo 2^64. Ticket is untouched;
      when the leaving thread held the last ticket drawn, the mutex is free again and the next
      caller enters at once. */
  function AfterLeave(c: MutexCounters): (r: MutexCounters)
    ensures r.ticket == c.ticket
    ensures WrapDec(c.ticket) == c.serving ==> EntersAtOnce(r)
  {
    c.(serving := WrapAdd(c.serving, 1))
  }

  /** n Enter/Leave pairs, each Leave straight after its Enter. */
  function EnterLeavePairs(c: MutexCounters, n: nat): MutexCounters
    decreases n
  {
    if n == 0 then c else EnterLeavePairs(AfterLeave(AfterEnter(c)), n - 1)
  }

  /** A fresh mutex lets the first Enter through at once. */
  lemma ZeroedMutexEntersAtOnce()
    ensures EntersAtOnce(ZeroedMutex)
  {
  }

  /** After matched Enter/Leave pairs from a free mutex, Ticket == Serving again, both having
      moved on by n modulo 2^64, and every Enter of the run got through at once. */
  lemma {:induction false} EnterLeavePairsBalanced(c: MutexCounters, n: nat)
    requires EntersAtOnce(c)
    ensures EntersAtOnce(EnterLeavePairs(c, n))
    ensures EnterLeavePairs(c, n).ticket == (c.ticket + n) % UPTR_LIMIT
    decreases n
  {
    if n > 0 {
      var d := AfterLeave(AfterEnter(c));
      EnterLeavePairsBalanced(d, n - 1);
      if c.ticket + 1 == UPTR_LIMIT {
        assert d.ticket == 0;
        assert (c.ticket + n) % UPTR_LIMIT == (n - 1) % UPTR_LIMIT;
      } else {
        assert d.ticket == c.ticket + 1;
      }
    }
  }

  /** ticket_mutex as the object EnterTicketMutex/LeaveTicketMutex update in place. */
  class TicketMutex {
    var ticket: uptr
    var serving: uptr

    /** The mutex that zero-initialisation gives. */
    constructor ()
      ensures Counters() == ZeroedMutex
    {
      ticket, serving := 0, 0;
    }

    function Counters(): MutexCounters
      reads this
    {
      MutexCounters(ticket, serving)
    }

    /** EnterTicketMutex, for a thread that finds its ticket served: with no other thread to
        advance Serving, any other state spins forever (recursive entry deadlocks). */
    method Enter()
      requires EntersAtOnce(Counters())
      modifies this
      ensures Counters() == AfterEnter(old(Counters()))
    {
      ticket := WrapAdd(ticket, 1);
      var myTicket := WrapDec(ticket);
      assert myTicket == serving;
    }

    /** LeaveTicketMutex. */
    method Leave()
      modifies this
      ensures Counters() == AfterLeave(old(Counters()))
    {
      serving := WrapAdd(serving, 1);
    }
  }
}
