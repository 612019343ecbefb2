/**
  The bitfield BMP loader (game_image.cpp, game_image.h, game_error.h).

  The file is the byte sequence the platform's whole-file read returns, or None when the file
  is not found. The loader reads the packed 54-byte header (a 14-byte file header and a 40-byte
  info header, every field little-endian), accepts only 32 bits per pixel with bitfield
  compression (3), reads the red, green and blue masks that follow the header, and repacks every
  pixel into 0xAARRGGBB in a block pushed onto a partition. The block lives in the memory array
  that the partition's addresses index, and each pixel is stored there little-endian, as the
  program's x86 targets store a u32.
*/
module Bmp {
  import opened Wrappers
  import opened Platform
  import opened Memory

  // ---------------------------------------------------------------------------------------------
  // Error codes and the image record
  // ---------------------------------------------------------------------------------------------

  /** error_code (game_error.h), in declaration order. */
  datatype ErrorCode =
    | NoError
    | NotFound
    | ProtectionFault
    | WrongSignature
    | CompressionNot3
    | BitnessNot32

  /** image (game_image.h): the pixel address (0 is null), the size, the bytes per pixel and the
      bytes per row. */
  datatype Image = Image(pixels: nat, width: int, height: int, bytesPerPixel: int, pitch: int)

  /** `image Result = {}`. */
  const ZeroImage := Image(0, 0, 0, 0, 0)

  // ---------------------------------------------------------------------------------------------
  // Little-endian fields
  // ---------------------------------------------------------------------------------------------

  const S32_MIN: int := -0x8000_0000
  const S32_MAX: int := 0x7FFF_FFFF

  function ReadU16(s: seq<u8>, at: nat): (r: nat)
    requires at + 2 <= |s|
    ensures r < 0x1_0000
  {
    s[at] as nat + 0x100 * (s[at + 1] as nat)
  }

  function ReadU32(s: seq<u8>, at: nat): (r: u32)
    requires at + 4 <= |s|
  {
    s[at] as nat + 0x100 * (s[at + 1] as nat) + 0x1_0000 * (s[at + 2] as nat) + 0x100_0000 * (s[at + 3] as nat)
  }

  /** An s32 field: the u32 read as two's complement. */
  function ReadS32(s: seq<u8>, at: nat): (r: int)
    requires at + 4 <= |s|
    ensures S32_MIN <= r <= S32_MAX
  {
    var u := ReadU32(s, at);
    if u <= S32_MAX then u else u - U32_LIMIT
  }

  /** The four bytes a u32 store writes, lowest first. */
  function EncodeU32(c: u32): (r: seq<u8>)
    ensures |r| == 4
  {
    [(c % 0x100) as u8, ((c / 0x100) % 0x100) as u8, ((c / 0x1_0000) % 0x100) as u8, (c / 0x100_0000) as u8]
  }

  /** Integer division by a then by b is division by a * b. */
  lemma DivDiv(v: nat, a: nat, b: nat)
    requires a > 0 && b > 0
    ensures (v / a) / b == v / (a * b)
  {
    var ab := a * b;
    var q, r := v / ab, v % ab;
    var r1, r0 := r / a, r % a;
    assert v == ab * q + r;
    assert r == a * r1 + r0;
    assert ab * q == a * (b * q);
    assert a * (b * q) + a * r1 == a * (b * q + r1);
    MulMonotone(b, 0, q);
    DivUnique(v, a, b * q + r1, r0);
    if r1 >= b {
      MulMonotone(a, b, r1);
    }
    DivUnique(v / a, b, q, r1);
  }

  /** The quotient is determined by v = d * q + r with 0 <= r < d. */
  lemma DivUnique(v: nat, d: nat, q: nat, r: nat)
    requires d > 0 && v == d * q + r && r < d
    ensures v / d == q
  {
    var q' := v / d;
    assert v == d * q' + v % d;
    if q' < q {
      MulGap(d, q', q);
    } else if q < q' {
      MulGap(d, q, q');
    }
  }

  /** A u32 is the sum of its four bytes, each at its place. */
  lemma BytesOfU32(c: nat)
    requires c < U32_LIMIT
    ensures c / 0x100_0000 < 0x100
    ensures c == c % 0x100 + 0x100 * ((c / 0x100) % 0x100) + 0x1_0000 * ((c / 0x1_0000) % 0x100) +
                 0x100_0000 * (c / 0x100_0000)
  {
    DivDiv(c, 0x100, 0x100);
    DivDiv(c, 0x1_0000, 0x100);
    var q1 := c / 0x100;
    var q2 := q1 / 0x100;
    assert c == 0x100 * q1 + c % 0x100;
    assert q1 == 0x100 * q2 + q1 % 0x100;
    assert q2 == 0x100 * (q2 / 0x100) + q2 % 0x100;
  }

  /** Reading back the bytes of a store gives the stored value. */
  lemma {:induction false} DecodeEncodeU32(c: u32, before: seq<u8>, after: seq<u8>)
    ensures ReadU32(before + EncodeU32(c) + after, |before|) == c
  {
    BytesOfU32(c);
  }

  /** Storing the value read from four bytes writes those bytes back. */
  lemma EncodeDecodeU32(s: seq<u8>, at: nat)
    requires at + 4 <= |s|
    ensures EncodeU32(ReadU32(s, at)) == s[at..at + 4]
  {
    var b0, b1, b2, b3 := s[at] as nat, s[at + 1] as nat, s[at + 2] as nat, s[at + 3] as nat;
    var c := b0 + 0x100 * b1 + 0x1_0000 * b2 + 0x100_0000 * b3;
    assert c == ReadU32(s, at);
    PackBytes(b3, b2, b1, b0);
    Pow2Bytes();
    DivDiv(c, 0x100, 0x100);
    DivDiv(c, 0x1_0000, 0x100);
    var e := EncodeU32(c);
    assert e[0] == s[at] && e[1] == s[at + 1] && e[2] == s[at + 2] && e[3] == s[at + 3];
  }

  // ---------------------------------------------------------------------------------------------
  // The header and the masks
  // ---------------------------------------------------------------------------------------------

  /** sizeof(bmp_header) and sizeof(bmp_bitfields_masks): packed, no padding. */
  const HEADER_SIZE: nat := 54
  const MASKS_SIZE: nat := 12

  /** The bytes {0x42, 0x4D} ("BM") read as a little-endian u16. */
  const BMP_SIGNATURE: nat := 0x4D42

  /** bmp_header. */
  datatype BmpHeader = BmpHeader(
    fileType: nat, fileSize: u32, reserved1: nat, reserved2: nat,
    bitmapOffset: u32, size: u32, width: int, height: int,
    planes: nat, bitsPerPixel: nat, compression: u32, sizeOfBitmap: u32,
    horzResolution: int, vertResolution: int, colorsUsed: u32, colorsImportant: u32)

  /** ConsumeType(&At, bmp_header) at the start of the file: the fields in declaration order. */
  function ParseHeader(s: seq<u8>): BmpHeader
    requires |s| >= HEADER_SIZE
  {
    BmpHeader(
      ReadU16(s, 0), ReadU32(s, 2), ReadU16(s, 6), ReadU16(s, 8),
      ReadU32(s, 10), ReadU32(s, 14), ReadS32(s, 18), ReadS32(s, 22),
      ReadU16(s, 26), ReadU16(s, 28), ReadU32(s, 30), ReadU32(s, 34),
      ReadS32(s, 38), ReadS32(s, 42), ReadU32(s, 46), ReadU32(s, 50))
  }

  /** The header is read from the first 54 bytes alone. */
  lemma HeaderIsLeadingBytes(s: seq<u8>, rest: seq<u8>)
    requires |s| >= HEADER_SIZE
    ensures ParseHeader(s[..HEADER_SIZE] + rest) == ParseHeader(s)
  {
    var t := s[..HEADER_SIZE] + rest;
    assert forall i :: 0 <= i < HEADER_SIZE ==> t[i] == s[i];
  }

  /** The signature test accepts exactly a file starting with 'B', 'M'. */
  lemma SignatureIsBM(s: seq<u8>)
    requires |s| >= HEADER_SIZE
    ensures ParseHeader(s).fileType == BMP_SIGNATURE <==> s[0] == 0x42 && s[1] == 0x4D
  {
  }

  /** bmp_bitfields_masks. */
  datatype BitfieldMasks = BitfieldMasks(red: u32, green: u32, blue: u32)

  /** The second ConsumeType: the three masks right after the header. */
  function ParseMasks(s: seq<u8>): (r: BitfieldMasks)
    requires |s| >= HEADER_SIZE + MASKS_SIZE
  {
    BitfieldMasks(ReadU32(s, HEADER_SIZE), ReadU32(s, HEADER_SIZE + 4), ReadU32(s, HEADER_SIZE + 8))
  }

  /** The masks are the 12 bytes after the header, whatever the header says. */
  lemma MasksFollowHeader(header: seq<u8>, masks: seq<u8>, rest: seq<u8>)
    requires |header| == HEADER_SIZE && |masks| == MASKS_SIZE
    ensures ParseMasks(header + masks + rest) ==
            BitfieldMasks(ReadU32(masks, 0), ReadU32(masks, 4), ReadU32(masks, 8))
  {
    var s := header + masks + rest;
    assert forall i :: 0 <= i < MASKS_SIZE ==> s[HEADER_SIZE + i] == masks[i];
  }

  /** The outcome of the three nested checks, in the order they run: the signature, then 32 bits
      per pixel, then compression 3. */
  function CheckHeader(h: BmpHeader): (r: ErrorCode)
    ensures r == NoError <==> h.fileType == BMP_SIGNATURE && h.bitsPerPixel == 32 && h.compression == 3
    ensures r in {NoError, WrongSignature, BitnessNot32, CompressionNot3}
  {
    if h.fileType != BMP_SIGNATURE then WrongSignature
    else if h.bitsPerPixel != 32 then BitnessNot32
    else if h.compression != 3 then CompressionNot3
    else NoError
  }

  /** An earlier check decides before a later one is looked at: a wrong signature is reported
      whatever the depth and compression, and a wrong depth whatever the compression. */
  lemma ValidationOrder(h: BmpHeader, bitsPerPixel: nat, compression: u32)
    ensures h.fileType != BMP_SIGNATURE ==>
              CheckHeader(h.(bitsPerPixel := bitsPerPixel, compression := compression)) == WrongSignature
    ensures h.fileType == BMP_SIGNATURE && h.bitsPerPixel != 32 ==>
              CheckHeader(h.(compression := compression)) == BitnessNot32
    ensures h.fileType == BMP_SIGNATURE && h.bitsPerPixel == 32 ==>
              (CheckHeader(h) == CompressionNot3 <==> h.compression != 3)
  {
  }

  /** GameTLState.LastError when the loader returns: the NoError set on entry when the read
      fails (nothing writes NotFound on that path), or the first check that fails, or NoError. */
  function LoadError(file: Option<seq<u8>>): ErrorCode
    requires file.Some? ==> |file.value| >= HEADER_SIZE
  {
    match file
    case None => NoError
    case Some(s) => CheckHeader(ParseHeader(s))
  }

  /** The LastError the not-found branch's comment expects: NotFound when the read fails. */
  function IntendedLoadError(file: Option<seq<u8>>): ErrorCode
    requires file.Some? ==> |file.value| >= HEADER_SIZE
  {
    match file
    case None => NotFound
    case Some(s) => CheckHeader(ParseHeader(s))
  }

  /** As written, a missing file and a loaded file both end with NoError, so a caller cannot
      tell a failed read from a good image by LastError. */
  lemma MissingFileReportsNoError(file: Option<seq<u8>>)
    requires file.Some? ==> |file.value| >= HEADER_SIZE
    ensures file.None? ==> LoadError(file) == NoError
    ensures file.None? ==> LoadError(file) != IntendedLoadError(file)
    ensures file.Some? ==> LoadError(file) == IntendedLoadError(file)
  {
  }

  /** With NotFound set on a failed read, NoError is reported only for a file that was read
      and passed every check, and a missing file is told apart from every other outcome. */
  lemma IntendedLoadErrorSeparatesMissing(file: Option<seq<u8>>)
    requires file.Some? ==> |file.value| >= HEADER_SIZE
    ensures IntendedLoadError(file) == NoError <==>
              file.Some? && CheckHeader(ParseHeader(file.value)) == NoError
    ensures IntendedLoadError(file) == NotFound <==> file.None?
  {
    if file.Some? {
      var h := ParseHeader(file.value);
      assert CheckHeader(h) != NotFound;
    }
  }

  // ---------------------------------------------------------------------------------------------
  // Bitwise or, the mask shifts and the repacking
  // ---------------------------------------------------------------------------------------------

  /** Bitwise or of two natural numbers, bit by bit from the least significant. */
  function Or(x: nat, y: nat): (r: nat)
    ensures r >= x && r >= y
    decreases x + y
  {
    if x == 0 then y
    else if y == 0 then x
    else 2 * Or(x / 2, y / 2) + (if x % 2 == 1 || y % 2 == 1 then 1 else 0)
  }

  /** The or of two w-bit values is a w-bit value. */
  lemma {:induction false} OrBelow(x: nat, y: nat, w: nat)
    requires x < Pow2(w) && y < Pow2(w)
    ensures Or(x, y) < Pow2(w)
    decreases w
  {
    if x != 0 && y != 0 {
      assert w > 0;
      OrBelow(x / 2, y / 2, w - 1);
    }
  }

  /** A multiple of 2^k or'd with a value below 2^k is their sum: the bits do not overlap. */
  lemma {:induction false} OrDisjoint(a: nat, k: nat, b: nat)
    requires b < Pow2(k)
    ensures Or(a * Pow2(k), b) == a * Pow2(k) + b
    decreases k
  {
    var x := a * Pow2(k);
    if k > 0 && a != 0 && b != 0 {
      assert x == 2 * (a * Pow2(k - 1));
      assert x / 2 == a * Pow2(k - 1) && x % 2 == 0;
      OrDisjoint(a, k - 1, b / 2);
    }
  }

  /** `~(RedMask | GreenMask | BlueMask)` on u32: the bits no colour mask claims. */
  function AlphaMask(m: BitfieldMasks): (r: u32)
    ensures r + Or(m.red, Or(m.green, m.blue)) == U32_LIMIT - 1
  {
    Pow2Of64();
    OrBelow(m.green, m.blue, 32);
    OrBelow(m.red, Or(m.green, m.blue), 32);
    U32_LIMIT - 1 - Or(m.red, Or(m.green, m.blue))
  }

  /** The four shifts: the Index of each FindLeastSignificantBit result. */
  datatype ChannelShifts = ChannelShifts(alpha: nat, red: nat, green: nat, blue: nat)

  function ShiftsOf(m: BitfieldMasks): ChannelShifts {
    ChannelShifts(
      LeastSignificantBit(AlphaMask(m)).index, LeastSignificantBit(m.red).index,
      LeastSignificantBit(m.green).index, LeastSignificantBit(m.blue).index)
  }

  /** The four scans succeed exactly when the three masks and the alpha mask are non-zero. */
  predicate ShiftsFound(m: BitfieldMasks) {
    LeastSignificantBit(AlphaMask(m)).isFound && LeastSignificantBit(m.red).isFound &&
    LeastSignificantBit(m.green).isFound && LeastSignificantBit(m.blue).isFound
  }

  /** With non-zero masks every shift is the position of its mask's lowest set bit. */
  lemma ShiftsAreLowestBits(m: BitfieldMasks)
    ensures ShiftsFound(m) <==> m.red != 0 && m.green != 0 && m.blue != 0 && AlphaMask(m) != 0
    ensures ShiftsFound(m) ==>
              IsLowestSetBit(AlphaMask(m), ShiftsOf(m).alpha) && IsLowestSetBit(m.red, ShiftsOf(m).red) &&
              IsLowestSetBit(m.green, ShiftsOf(m).green) && IsLowestSetBit(m.blue, ShiftsOf(m).blue)
  {
    LeastSignificantBitCorrect(AlphaMask(m));
    LeastSignificantBitCorrect(m.red);
    LeastSignificantBitCorrect(m.green);
    LeastSignificantBitCorrect(m.blue);
  }

  /** `(Pixel >> Shift) & 0xFF`. */
  function Channel(p: nat, shift: nat): (r: nat)
    ensures r < 0x100
  {
    (p / Pow2(shift)) % 0x100
  }

  lemma Pow2Bytes()
    ensures Pow2(8) == 0x100 && Pow2(16) == 0x1_0000 && Pow2(24) == 0x100_0000
  {
    assert Pow2(2) == 4;
    Pow2Add(2, 2);
    Pow2Add(4, 4);
    Pow2Add(8, 8);
    Pow2Add(16, 8);
  }

  /** Four bytes packed high to low can be taken apart again. */
  lemma PackBytes(a: nat, r: nat, g: nat, b: nat)
    requires a < 0x100 && r < 0x100 && g < 0x100 && b < 0x100
    ensures var v := a * 0x100_0000 + r * 0x1_0000 + g * 0x100 + b;
      v < U32_LIMIT && v % 0x100 == b && (v / 0x100) % 0x100 == g &&
      (v / 0x1_0000) % 0x100 == r && v / 0x100_0000 == a
  {
    var v := a * 0x100_0000 + r * 0x1_0000 + g * 0x100 + b;
    DivUnique(v, 0x100, a * 0x1_0000 + r * 0x100 + g, b);
    DivUnique(v, 0x1_0000, a * 0x100 + r, g * 0x100 + b);
    DivUnique(v, 0x100_0000, a, r * 0x1_0000 + g * 0x100 + b);
    DivUnique(a * 0x1_0000 + r * 0x100 + g, 0x100, a * 0x100 + r, g);
    DivUnique(a * 0x100 + r, 0x100, a, r);
  }

  /** The channels of a packed pixel are the bytes it was packed from. */
  lemma PackChannels(a: nat, r: nat, g: nat, b: nat)
    requires a < 0x100 && r < 0x100 && g < 0x100 && b < 0x100
    ensures var v := a * 0x100_0000 + r * 0x1_0000 + g * 0x100 + b;
      Channel(v, 24) == a && Channel(v, 16) == r && Channel(v, 8) == g && Channel(v, 0) == b
  {
    Pow2Bytes();
    PackBytes(a, r, g, b);
  }

  /** The or of the four shifted channels is their sum: each has a byte of its own. */
  lemma OrLanes(a: nat, r: nat, g: nat, b: nat)
    requires a < 0x100 && r < 0x100 && g < 0x100 && b < 0x100
    ensures Or(Or(Or(a * 0x100_0000, r * 0x1_0000), g * 0x100), b) ==
            a * 0x100_0000 + r * 0x1_0000 + g * 0x100 + b
  {
    Pow2Bytes();
    var ar := a * 0x100 + r;
    var arg := ar * 0x100 + g;
    OrDisjoint(a, 24, r * 0x1_0000);
    assert Or(a * 0x100_0000, r * 0x1_0000) == ar * 0x1_0000;
    OrDisjoint(ar, 16, g * 0x100);
    assert Or(ar * 0x1_0000, g * 0x100) == arg * 0x100;
    OrDisjoint(arg, 8, b);
  }

  /** The pixel loop's body: alpha to bits 24..31, red to 16..23, green to 8..15, blue to 0..7,
      each channel taken from the source pixel at its shift, the four or'd together. */
  function Repack(p: u32, sh: ChannelShifts): (c: u32)
    ensures c == Channel(p, sh.alpha) * 0x100_0000 + Channel(p, sh.red) * 0x1_0000 +
                 Channel(p, sh.green) * 0x100 + Channel(p, sh.blue)
    ensures Channel(c, 24) == Channel(p, sh.alpha) && Channel(c, 16) == Channel(p, sh.red) &&
            Channel(c, 8) == Channel(p, sh.green) && Channel(c, 0) == Channel(p, sh.blue)
  {
    var a, r, g, b := Channel(p, sh.alpha), Channel(p, sh.red), Channel(p, sh.green), Channel(p, sh.blue);
    PackedPixel(a, r, g, b);
    Or(Or(Or(a * 0x100_0000, r * 0x1_0000), g * 0x100), b)
  }

  /** Four bytes or'd into their lanes make a u32 whose channels are those bytes. */
  lemma PackedPixel(a: nat, r: nat, g: nat, b: nat)
    requires a < 0x100 && r < 0x100 && g < 0x100 && b < 0x100
    ensures var c := Or(Or(Or(a * 0x100_0000, r * 0x1_0000), g * 0x100), b);
      && c == a * 0x100_0000 + r * 0x1_0000 + g * 0x100 + b && c < U32_LIMIT
      && Channel(c, 24) == a && Channel(c, 16) == r && Channel(c, 8) == g && Channel(c, 0) == b
  {
    OrLanes(a, r, g, b);
    PackBytes(a, r, g, b);
    PackChannels(a, r, g, b);
  }

  /** Bit i of v is set exactly when v shifted right by i is odd. */
  lemma {:induction false} BitSetShift(v: nat, i: nat)
    ensures BitSet(v, i) <==> (v / Pow2(i)) % 2 == 1
    decreases i
  {
    AndStep(v, Pow2(i));
    if i == 0 {
      assert And(v / 2, 0) == 0;
    } else {
      Pow2Even(i);
      BitSetShift(v / 2, i - 1);
      DivDiv(v, 2, Pow2(i - 1));
    }
  }

  /** Shifting m * 2^k right by j <= k leaves m * 2^(k - j). */
  lemma ShiftedMultiple(m: nat, k: nat, j: nat)
    requires j <= k
    ensures (m * Pow2(k)) / Pow2(j) == m * Pow2(k - j)
  {
    Pow2Add(j, k - j);
    assert m * Pow2(k) == (m * Pow2(k - j)) * Pow2(j);
    MulMod(m * Pow2(k - j), Pow2(j));
  }

  /** An odd multiple of 2^k has bit k set. */
  lemma OddMultipleBitSet(m: nat, k: nat)
    requires m % 2 == 1
    ensures BitSet(m * Pow2(k), k)
  {
    MulMod(m, Pow2(k));
    BitSetShift(m * Pow2(k), k);
  }

  /** A multiple of 2^k has no bit set below k. */
  lemma MultipleBitClear(m: nat, k: nat, j: nat)
    requires j < k
    ensures !BitSet(m * Pow2(k), j)
  {
    BitSetShift(m * Pow2(k), j);
    ShiftedMultiple(m, k, j);
    Pow2Even(k - j);
    EvenProduct(m, Pow2(k - j));
  }

  lemma EvenProduct(m: nat, y: nat)
    requires y % 2 == 0
    ensures (m * y) % 2 == 0
  {
    var h := y / 2;
    assert m * y == 2 * (m * h);
  }

  /** m * 2^k as a u32, for a product the caller has bounded. */
  function OddMultipleValue(m: nat, k: nat): (r: u32)
    requires m * Pow2(k) < U32_LIMIT
    ensures r == m * Pow2(k)
  {
    m * Pow2(k)
  }

  /** The lowest set bit of an odd multiple of 2^k is k. */
  lemma OddMultipleLowestBit(m: nat, k: nat)
    requires m % 2 == 1 && k < 32 && m * Pow2(k) < U32_LIMIT
    ensures LeastSignificantBit(m * Pow2(k)) == BitScanResult(true, k)
  {
    var v: u32 := OddMultipleValue(m, k);
    OddMultipleBitSet(m, k);
    forall j | 0 <= j < k
      ensures !BitSet(v, j)
    {
      MultipleBitClear(m, k, j);
    }
    assert IsLowestSetBit(v, k);
    ZeroHasNoSetBit(k);
    LeastSignificantBitCorrect(v);
    LowestSetBitUnique(v, LeastSignificantBit(v).index, k);
  }

  /** A value has one lowest set bit. */
  lemma LowestSetBitUnique(v: u32, i: nat, k: nat)
    requires IsLowestSetBit(v, i) && IsLowestSetBit(v, k)
    ensures i == k
  {
  }

  /** The masks of an A8R8G8B8 file. */
  const StandardMasks := BitfieldMasks(0x00FF_0000, 0x0000_FF00, 0x0000_00FF)

  /** Their alpha mask is 0xFF000000. */
  lemma StandardAlphaMask()
    ensures AlphaMask(StandardMasks) == 0xFF * Pow2(24)
  {
    Pow2Bytes();
    OrDisjoint(0xFF, 8, 0xFF);
    OrDisjoint(0xFF, 16, 0xFFFF);
  }

  /** For A8R8G8B8 masks every scan succeeds and the shifts are 24, 16, 8 and 0. */
  lemma StandardShifts()
    ensures ShiftsFound(StandardMasks)
    ensures ShiftsOf(StandardMasks) == ChannelShifts(24, 16, 8, 0)
  {
    Pow2Bytes();
    StandardAlphaMask();
    OddMultipleLowestBit(0xFF, 24);
    OddMultipleLowestBit(0xFF, 16);
    OddMultipleLowestBit(0xFF, 8);
    OddMultipleLowestBit(0xFF, 0);
  }

  /** Repacking with the A8R8G8B8 shifts leaves every pixel as it was. */
  lemma StandardMasksKeepPixels(p: u32)
    ensures Repack(p, ShiftsOf(StandardMasks)) == p
  {
    StandardShifts();
    RepackStandard(p);
  }

  lemma RepackStandard(p: u32)
    ensures Repack(p, ChannelShifts(24, 16, 8, 0)) == p
  {
    Pow2Bytes();
    BytesOfU32(p);
    assert Channel(p, 24) == p / 0x100_0000;
    assert Channel(p, 16) == (p / 0x1_0000) % 0x100;
    assert Channel(p, 8) == (p / 0x100) % 0x100;
    assert Channel(p, 0) == p % 0x100;
  }

  // ---------------------------------------------------------------------------------------------
  // The loader
  // ---------------------------------------------------------------------------------------------

  /** The number of pixels the loops visit: Width * Height when both are positive, none
      otherwise. */
  function PixelCount(width: int, height: int): (r: nat)
    ensures width > 0 && height > 0 ==> r == width * height
    ensures width <= 0 || height <= 0 ==> r == 0
  {
    if width > 0 && height > 0 then width * height else 0
  }

  /** PushSize's argument: the s32 product `Width * Height * (BitsPerPixel / 8)` converted to a
      uptr, so a negative product becomes a huge request. */
  function PushRequest(h: BmpHeader): (r: nat)
    ensures r < UPTR_LIMIT
  {
    (h.width * h.height * (h.bitsPerPixel / 8)) % UPTR_LIMIT
  }

  /** For a 32-bit header with a non-zero size product that fits s32, the request is non-zero,
      and for a positive width and height it is the 4 * Width * Height bytes of the pixels. */
  lemma RequestBytes(h: BmpHeader)
    requires h.bitsPerPixel == 32 && h.width * h.height != 0
    requires S32_MIN <= h.width * h.height * 4 <= S32_MAX
    ensures PushRequest(h) > 0
    ensures h.width > 0 && h.height > 0 ==> PushRequest(h) == 4 * PixelCount(h.width, h.height)
  {
    var n := h.width * h.height;
    assert h.width * h.height * (h.bitsPerPixel / 8) == n * 4;
    assert h.width > 0 && h.height > 0 ==> n > 0;
    if n * 4 < 0 {
      assert (n * 4) % UPTR_LIMIT == n * 4 + UPTR_LIMIT;
    }
  }

  /** What the loader demands of a file it reads: room for the header; and, for a header that
      passes the checks, room for the masks, four scans that succeed (the loader's assertions),
      a non-zero pixel count (PushSize's assertion), a size product that does not overflow s32,
      and the pixel rows inside the file. */
  predicate Loadable(s: seq<u8>) {
    |s| >= HEADER_SIZE &&
    (CheckHeader(ParseHeader(s)) == NoError ==>
       |s| >= HEADER_SIZE + MASKS_SIZE &&
       ShiftsFound(ParseMasks(s)) &&
       var h := ParseHeader(s);
       h.width * h.height != 0 &&
       S32_MIN <= h.width * h.height * 4 <= S32_MAX &&
       h.bitmapOffset + 4 * PixelCount(h.width, h.height) <= |s|)
  }

  /** `count` pixels read from `offset` on, one u32 after another, each repacked with the
      shifts. */
  function DecodeRun(s: seq<u8>, offset: nat, count: nat, sh: ChannelShifts): (r: seq<u32>)
    requires offset + 4 * count <= |s|
    ensures |r| == count
  {
    seq(count, i requires 0 <= i < count => Repack(ReadU32(s, offset + 4 * i), sh))
  }

  /** The pixels an accepted file decodes to: Width * Height of them from BitmapOffset on. */
  function DecodedPixels(s: seq<u8>): (r: seq<u32>)
    requires Loadable(s) && CheckHeader(ParseHeader(s)) == NoError
    ensures |r| == PixelCount(ParseHeader(s).width, ParseHeader(s).height)
  {
    var h := ParseHeader(s);
    DecodeRun(s, h.bitmapOffset, PixelCount(h.width, h.height), ShiftsOf(ParseMasks(s)))
  }

  /** The first `count` pixels stand at addr, addr + 4, ... of the memory. */
  predicate StoredPixels(m: seq<u8>, addr: nat, pixels: seq<u32>, count: nat)
    requires count <= |pixels| && addr + 4 * count <= |m|
  {
    forall i :: 0 <= i < count ==> ReadU32(m, addr + 4 * i) == pixels[i]
  }

  /** Storing pixel n after the first n, and touching no other byte, extends the stored run. */
  lemma StoredPixelsExtend(m0: seq<u8>, m1: seq<u8>, addr: nat, pixels: seq<u32>, n: nat, at: nat)
    requires |m0| == |m1| && n < |pixels| && at == addr + 4 * n && at + 4 <= |m0|
    requires StoredPixels(m0, addr, pixels, n)
    requires forall k :: 0 <= k < |m0| && !(at <= k < at + 4) ==> m1[k] == m0[k]
    requires ReadU32(m1, at) == pixels[n]
    ensures StoredPixels(m1, addr, pixels, n + 1)
  {
    forall i | 0 <= i < n + 1
      ensures ReadU32(m1, addr + 4 * i) == pixels[i]
    {
      if i < n {
        var a := addr + 4 * i;
        assert m1[a] == m0[a] && m1[a + 1] == m0[a + 1] && m1[a + 2] == m0[a + 2] && m1[a + 3] == m0[a + 3];
      }
    }
  }

  /** `*DstPixel = C`: a little-endian u32 store. */
  method StoreU32(memory: array<u8>, at: nat, c: u32)
    requires at + 4 <= memory.Length
    modifies memory
    ensures forall k :: at <= k < at + 4 ==> memory[k] == EncodeU32(c)[k - at]
    ensures forall k :: 0 <= k < memory.Length && !(at <= k < at + 4) ==> memory[k] == old(memory[k])
    ensures ReadU32(memory[..], at) == c
  {
    var bytes := EncodeU32(c);
    memory[at] := bytes[0];
    memory[at + 1] := bytes[1];
    memory[at + 2] := bytes[2];
    memory[at + 3] := bytes[3];
    assert memory[..] == memory[..at] + bytes + memory[at + 4..];
    DecodeEncodeU32(c, memory[..at], memory[at + 4..]);
  }

  /** The offset of pixel (X, Y) from the start of an image with the given Pitch. */
  function PixelOffset(pitch: int, x: int, y: int): int {
    pitch * y + 4 * x
  }

  /** Pixel (X, Y) of a Width-wide run is its pixel Y * Width + X, read from and stored at
      Pitch * Y + 4 * X bytes from the start, with Pitch = 4 * Width: the rows are read in file
      order and stored in the same order, with no vertical flip. */
  lemma RowsInFileOrder(s: seq<u8>, offset: nat, width: nat, height: nat, sh: ChannelShifts, x: nat, y: nat)
    requires offset + 4 * (width * height) <= |s| && x < width && y < height
    ensures y * width + x < width * height
    ensures PixelOffset(width * 4, x, y) == 4 * (y * width + x)
    ensures DecodeRun(s, offset, width * height, sh)[y * width + x] ==
            Repack(ReadU32(s, offset + PixelOffset(width * 4, x, y)), sh)
  {
    var i := y * width + x;
    MulGap(width, y, height);
    assert i < width * height;
    assert PixelOffset(width * 4, x, y) == 4 * i by {
      assert width * 4 * y == 4 * (y * width);
    }
    DecodeRunAt(s, offset, width * height, sh, i);
  }

  /** Pixel i of a run is the u32 4 * i bytes past its start, repacked. */
  lemma DecodeRunAt(s: seq<u8>, offset: nat, count: nat, sh: ChannelShifts, i: nat)
    requires offset + 4 * count <= |s| && i < count
    ensures DecodeRun(s, offset, count, sh)[i] == Repack(ReadU32(s, offset + 4 * i), sh)
  {
  }

  /** The inner loop of LoadImageBmp: the Width pixels of one row, from pixel rowStart of the
      run on, read at SrcRow and stored at DstRow, 4 bytes apart. No other byte is written. */
  method RepackRow(memory: array<u8>, pixels: nat, s: seq<u8>, bitmapOffset: nat, ghost count: nat,
                   shifts: ChannelShifts, ghost rowStart: nat, width: int, dstRow: int, srcRow: int)
    requires rowStart + (if width > 0 then width else 0) <= count
    requires pixels + 4 * count <= memory.Length && bitmapOffset + 4 * count <= |s|
    requires width > 0 ==> dstRow == pixels + 4 * rowStart && srcRow == bitmapOffset + 4 * rowStart
    requires StoredPixels(memory[..], pixels, DecodeRun(s, bitmapOffset, count, shifts), rowStart)
    modifies memory
    ensures var rowEnd := rowStart + if width > 0 then width else 0;
            && StoredPixels(memory[..], pixels, DecodeRun(s, bitmapOffset, count, shifts), rowEnd)
            && forall a :: 0 <= a < memory.Length && !(pixels <= a < pixels + 4 * rowEnd) ==>
                 memory[a] == old(memory[a])
  {
    ghost var decoded := DecodeRun(s, bitmapOffset, count, shifts);
    ghost var done := rowStart;
    var dstPixel: int, srcPixel: int := dstRow, srcRow;
    var x: int := 0;
    while x < width
      invariant 0 <= x && (x == 0 || x <= width)
      invariant done == rowStart + x
      invariant width > 0 ==> dstPixel == pixels + 4 * done && srcPixel == bitmapOffset + 4 * done
      invariant StoredPixels(memory[..], pixels, decoded, done)
      invariant forall a :: 0 <= a < memory.Length && !(pixels <= a < pixels + 4 * done) ==>
                  memory[a] == old(memory[a])
    {
      var c := Repack(ReadU32(s, srcPixel), shifts);
      DecodeRunAt(s, bitmapOffset, count, shifts, done);
      srcPixel := srcPixel + 4;
      ghost var before := memory[..];
      StoreU32(memory, dstPixel, c);
      StoredPixelsExtend(before, memory[..], pixels, decoded, done, dstPixel);
      dstPixel := dstPixel + 4;
      x := x + 1;
      done := done + 1;
    }
  }

  /** The two nested loops of LoadImageBmp: Height rows of Width pixels, the source and the
      destination both advancing by Pitch per row and by 4 bytes per pixel, every pixel repacked
      on the way. No byte outside the pushed block is written. */
  method RepackRows(memory: array<u8>, pixels: nat, s: seq<u8>, bitmapOffset: nat,
                    width: int, height: int, pitch: int, shifts: ChannelShifts)
    requires pitch == width * 4
    requires pixels + 4 * PixelCount(width, height) <= memory.Length
    requires bitmapOffset + 4 * PixelCount(width, height) <= |s|
    modifies memory
    ensures StoredPixels(memory[..], pixels, DecodeRun(s, bitmapOffset, PixelCount(width, height), shifts),
                         PixelCount(width, height))
    ensures forall a :: 0 <= a < memory.Length && !(pixels <= a < pixels + 4 * PixelCount(width, height)) ==>
              memory[a] == old(memory[a])
  {
    ghost var count := PixelCount(width, height);
    ghost var decoded := DecodeRun(s, bitmapOffset, count, shifts);
    var dstRow: int, srcRow: int := pixels, bitmapOffset;
    var y: int := 0;
    ghost var done: nat := 0;
    while y < height
      invariant 0 <= y && (height > 0 ==> y <= height)
      invariant width > 0 ==> done == y * width && dstRow == pixels + 4 * done && srcRow == bitmapOffset + 4 * done
      invariant width <= 0 ==> done == 0
      invariant done <= count
      invariant StoredPixels(memory[..], pixels, decoded, done)
      invariant forall a :: 0 <= a < memory.Length && !(pixels <= a < pixels + 4 * done) ==>
                  memory[a] == old(memory[a])
    {
      if width > 0 {
        MulGap(width, y, height);
      }
      RepackRow(memory, pixels, s, bitmapOffset, count, shifts, done, width, dstRow, srcRow);
      done := done + if width > 0 then width else 0;
      assert width > 0 ==> done == (y + 1) * width;
      dstRow := dstRow + pitch;
      srcRow := srcRow + pitch;
      y := y + 1;
    }
    assert done == count by {
      if width > 0 && height > 0 {
        assert y == height;
      }
    }
  }

  /** LoadImageBmp(FileName, Partition): LastError is NoError on entry; a missing file leaves it
      so, with the zero image; a file that fails a check gets that check's error and the zero
      image. An accepted file gets its shifts from the masks and pushes Width * Height * 4 bytes;
      when the push succeeds the image record is filled in and every pixel is repacked, row by
      row, into the pushed block; when it fails the image stays zero. */
  method LoadImageBmp(file: Option<seq<u8>>, p: Partition, memory: array<u8>) returns (result: Image, lastError: ErrorCode)
    requires Bounded(p.View()) && p.InMemory(memory.Length)
    requires file.Some? ==> Loadable(file.value)
    modifies p`marker, memory
    ensures lastError == LoadError(file)
    ensures lastError != NoError ==>
              result == ZeroImage && p.View() == old(p.View()) && memory[..] == old(memory[..])
    ensures file.None? ==>
              lastError == NoError && result == ZeroImage && p.View() == old(p.View()) &&
              memory[..] == old(memory[..])
    ensures file.Some? && lastError == NoError ==>
              var s := file.value;
              var h := ParseHeader(s);
              var count := PixelCount(h.width, h.height);
              p.View() == PushedView(old(p.View()), PushRequest(h)) &&
              result.pixels == PushedAddress(old(p.View()), PushRequest(h)) &&
              (result.pixels == 0 ==> result == ZeroImage && memory[..] == old(memory[..])) &&
              (result.pixels != 0 ==>
                 result == Image(result.pixels, h.width, h.height, 4, h.width * 4) &&
                 result.pixels + 4 * count <= memory.Length &&
                 StoredPixels(memory[..], result.pixels, DecodedPixels(s), count) &&
                 forall a :: 0 <= a < memory.Length && !(result.pixels <= a < result.pixels + 4 * count) ==>
                   memory[a] == old(memory[a]))
  {
    result := ZeroImage;
    lastError := NoError;
    if file.None? {
      // The failed read writes no error, so LastError keeps the NoError set above.
      return;
    }
    var s := file.value;
    var header := ParseHeader(s);
    if header.fileType == BMP_SIGNATURE {
      if header.bitsPerPixel == 32 {
        if header.compression == 3 {
          var masks := ParseMasks(s);
          var redShift := FindLeastSignificantBit(masks.red);
          var greenShift := FindLeastSignificantBit(masks.green);
          var blueShift := FindLeastSignificantBit(masks.blue);
          var alphaShift := FindLeastSignificantBit(AlphaMask(masks));
          var shifts := ChannelShifts(alphaShift.index, redShift.index, greenShift.index, blueShift.index);
          assert shifts == ShiftsOf(masks);

          ghost var v0 := p.View();
          var request := (header.width * header.height * (header.bitsPerPixel / 8)) % UPTR_LIMIT;
          assert request == PushRequest(header);
          RequestBytes(header);
          PushContract(v0, request);
          var pixels := PushSize(p, request);
          if pixels != 0 {
            result := Image(pixels, header.width, header.height, header.bitsPerPixel / 8,
                            header.width * (header.bitsPerPixel / 8));
            RepackRows(memory, pixels, s, header.bitmapOffset, header.width, header.height, result.pitch, shifts);
          }
        } else {
          lastError := CompressionNot3;
        }
      } else {
        lastError := BitnessNot32;
      }
    } else {
      lastError := WrongSignature;
    }
  }
}
