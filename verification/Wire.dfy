/** The 8-byte word in front of every packet, its packing and its reading back. */
module Wire {
  import opened Bits

  type byte = b: int | 0 <= b < 256

  const MAGIC: nat := 0xD0
  const MAGIC_LENGTH: nat := 8

  datatype Header = Header(magic: nat, headerLength: nat, dataLength: nat)

  /** `s3_response_make_magic`. The data length is cut to 40 bits. */
  function MakeMagic(headerLength: nat, dataLength: nat): nat
  {
    MakeWord(MAGIC, headerLength, dataLength)
  }

  function MakeWord(magic: nat, headerLength: nat, dataLength: nat): nat
  {
    Or(Or(Shl(magic, 56), Shl(Shr(headerLength, 4), 48)), And(dataLength, 0xFF_FFFF_FFFF))
  }

  /** One byte of a word, masked in place and shifted down. */
  function ByteField(word: nat, shift: nat): nat
  {
    Shr(And(word, Shl(0xFF, shift)), shift)
  }

  /** `s3_header_parse8`. The data length takes 48 bits. */
  function ParseMagic(word: nat): Header
  {
    Header(ByteField(word, 56), ByteField(word, 48) * 16, And(word, 0xFFFF_FFFF_FFFF))
  }

  lemma Powers()
    ensures Pow2(4) == 16 && Pow2(8) == 0x100 && Pow2(40) == 0x100_0000_0000 && Pow2(48) == 0x1_0000_0000_0000
  {
    PowByte(0);
    PowByte(8);
    PowByte(16);
    PowByte(24);
    PowByte(32);
    PowByte(40);
  }

  lemma ByteFieldIs(word: nat, shift: nat)
    ensures ByteField(word, shift) == Shr(word, shift) % 256
  {
    var masked := And(Shr(word, shift), 0xFF);
    AndShift(word, 0xFF, shift);
    ShrShl(masked, 0, shift);
    LowByte(Shr(word, shift));
  }

  /** A header length that was read fits in the read buffer with room to spare. */
  lemma HeaderLengthFits(word: nat)
    ensures ParseMagic(word).headerLength <= 4080
  {
    ByteFieldIs(word, 48);
  }

  lemma LowByte(x: nat)
    ensures And(x, 0xFF) == x % 256
  {
    Powers();
    AndMask(x, 8);
  }

  lemma LowNibble(x: nat)
    ensures And(x, 0xF) == x % 16
  {
    Powers();
    AndMask(x, 4);
  }

  lemma LowData(x: nat)
    ensures And(x, 0xFF_FFFF_FFFF) == x % 0x100_0000_0000
    ensures And(x, 0xFFFF_FFFF_FFFF) == x % 0x1_0000_0000_0000
  {
    Powers();
    AndMask(x, 40);
    AndMask(x, 48);
  }

  /** The fields of a word, placed one above the other. */
  function Pack(top: nat, length: nat, data: nat): nat
  {
    Shl(Shl(top, 8) + length, 48) + data
  }

  /** The fields of a made word: a header length beyond 12 bits spills into the magic byte. */
  lemma MadeWord(magic: nat, headerLength: nat, dataLength: nat)
    ensures var a := headerLength / 16;
            MakeWord(magic, headerLength, dataLength) ==
            Pack(Or(magic, a / 256), a % 256, dataLength % 0x100_0000_0000)
  {
    Powers();
    ShrIsDiv(headerLength, 4);
    LowData(dataLength);
    PackedFields(magic, headerLength / 16, dataLength % 0x100_0000_0000);
  }

  lemma PackedFields(magic: nat, a: nat, d: nat)
    requires d < 0x100_0000_0000
    ensures Or(Or(Shl(magic, 56), Shl(a, 48)), d) == Pack(Or(magic, a / 256), a % 256, d)
  {
    Powers();
    ShlAdd(magic, 8, 48);
    ShlIsProduct(a / 256, 8);
    MergeFields(Shl(magic, 8), a, d);
    OrShifted(magic, a / 256, a % 256, 8);
  }

  lemma MergeFields(x: nat, y: nat, low: nat)
    requires low < 0x1_0000_0000_0000
    ensures Or(Or(Shl(x, 48), Shl(y, 48)), low) == Shl(Or(x, y), 48) + low
  {
    Powers();
    OrShifted(x, y, 0, 48);
    OrDisjoint(Or(x, y), low, 48);
  }

  lemma UnpackFields(top: nat, length: nat, data: nat)
    requires length < 256 && data < 0x1_0000_0000_0000
    ensures var word := Pack(top, length, data);
            && Shr(word, 48) == 256 * top + length
            && Shr(word, 56) == top
            && word % 0x1_0000_0000_0000 == data
  {
    var high := Shl(top, 8) + length;
    Powers();
    ShrShl(high, data, 48);
    ShlIsProduct(top, 8);
    ShrShl(top, length, 8);
    ShrAdd(Pack(top, length, data), 48, 8);
  }

  lemma ReadWord(top: nat, length: nat, data: nat)
    requires top < 256 && length < 256 && data < 0x1_0000_0000_0000
    ensures ParseMagic(Pack(top, length, data)) == Header(top, 16 * length, data)
  {
    var word := Pack(top, length, data);
    UnpackFields(top, length, data);
    ReadFields(word, top, length, data);
  }

  lemma ReadFields(word: nat, top: nat, length: nat, data: nat)
    requires top < 256 && length < 256
    requires Shr(word, 48) == 256 * top + length && Shr(word, 56) == top && word % 0x1_0000_0000_0000 == data
    ensures ParseMagic(word) == Header(top, 16 * length, data)
  {
    LowData(word);
    ByteFieldIs(word, 56);
    ByteFieldIs(word, 48);
    LowOf(top, length);
  }

  lemma LowOf(high: nat, low: nat)
    requires low < 256
    ensures (256 * high + low) % 256 == low
  {
  }

  lemma SpillChangesMagic(q: nat)
    requires q < 16
    ensures Or(MAGIC, q) == MAGIC + q
  {
    Powers();
    OrDisjoint(0xD, q, 4);
    ShlIsProduct(0xD, 4);
  }

  lemma MakeThenRead(magic: nat, headerLength: nat, dataLength: nat, top: nat)
    requires top == Or(magic, headerLength / 16 / 256) < 256
    ensures ParseMagic(MakeWord(magic, headerLength, dataLength)) ==
            Header(top, 16 * (headerLength / 16 % 256), dataLength % 0x100_0000_0000)
  {
    MadeWord(magic, headerLength, dataLength);
    ReadWord(top, headerLength / 16 % 256, dataLength % 0x100_0000_0000);
  }

  /** What is read from a made word. */
  lemma MadeIsRead(headerLength: nat, dataLength: nat)
    requires headerLength < 0x1_0000
    ensures ParseMagic(MakeMagic(headerLength, dataLength)) ==
            Header(MAGIC + headerLength / 16 / 256, 16 * (headerLength / 16 % 256), dataLength % 0x100_0000_0000)
  {
    var q := headerLength / 16 / 256;
    SpillChangesMagic(q);
    MakeThenRead(MAGIC, headerLength, dataLength, MAGIC + q);
  }

  /** Reading a made word gives back what was put in if and only if the header length is a
      multiple of 16 below 4096 and the data length is below 2^40. */
  lemma MagicRoundTripIff(headerLength: nat, dataLength: nat)
    requires headerLength < 0x1_0000
    ensures ParseMagic(MakeMagic(headerLength, dataLength)) == Header(MAGIC, headerLength, dataLength)
            <==> headerLength % 16 == 0 && headerLength < 4096 && dataLength < 0x100_0000_0000
  {
    MadeIsRead(headerLength, dataLength);
  }

  /** The step that aligns a header length to 16 bytes. */
  function Align(length: nat): (r: nat)
  {
    if And(length, 0xF) != 0 then length + 0xF - And(length + 0xF, 0xF) else length
  }

  /** It yields the least multiple of 16 that covers the length. */
  lemma AlignIsLeast(length: nat, other: nat)
    ensures Align(length) % 16 == 0 && length <= Align(length)
    ensures other % 16 == 0 && length <= other ==> Align(length) <= other
  {
    LowNibble(length);
    LowNibble(length + 0xF);
    NextMultiple(length / 16, length % 16, length);
    if other % 16 == 0 && length <= other {
      MultipleCovers(length / 16, length % 16, other / 16);
    }
  }

  lemma NextMultiple(q: nat, r: nat, length: nat)
    requires length == 16 * q + r && r < 16
    ensures r > 0 ==> (length + 0xF) % 16 == r - 1
  {
    assert r > 0 ==> length + 0xF == 16 * (q + 1) + (r - 1);
  }

  lemma MultipleCovers(q: nat, r: nat, m: nat)
    requires 16 * q + r <= 16 * m && r < 16
    ensures q <= m && (r > 0 ==> q + 1 <= m)
  {
  }

  // ----- words as bytes ----------------------------------------------------------------------

  function LittleEndian(word: nat, n: nat): (bs: seq<byte>)
    ensures |bs| == n
  {
    if n == 0 then [] else [word % 256] + LittleEndian(word / 256, n - 1)
  }

  function FromLittleEndian(bs: seq<byte>): nat
  {
    if bs == [] then 0 else bs[0] + 256 * FromLittleEndian(bs[1..])
  }

  lemma {:induction false} LittleEndianRoundTrip(word: nat, n: nat)
    requires word < Pow2(8 * n)
    ensures FromLittleEndian(LittleEndian(word, n)) == word
  {
    if n > 0 {
      assert Pow2(8 * n) == 256 * Pow2(8 * (n - 1)) by { PowByte(8 * (n - 1)); }
      LittleEndianRoundTrip(word / 256, n - 1);
      assert LittleEndian(word, n)[1..] == LittleEndian(word / 256, n - 1);
    }
  }

  /** A made word fits in 64 bits, so writing and reading it as bytes loses nothing. */
  lemma WordOnTheWire(headerLength: nat, dataLength: nat)
    requires headerLength < 0x1_0000
    ensures FromLittleEndian(LittleEndian(MakeMagic(headerLength, dataLength), 8))
            == MakeMagic(headerLength, dataLength)
  {
    var a := headerLength / 16;
    MadeWord(MAGIC, headerLength, dataLength);
    SpillChangesMagic(a / 256);
    PackFits(Or(MAGIC, a / 256), a % 256, dataLength % 0x100_0000_0000);
    LittleEndianRoundTrip(MakeMagic(headerLength, dataLength), 8);
  }

  lemma PackFits(top: nat, length: nat, data: nat)
    requires top < 256 && length < 256 && data < 0x1_0000_0000_0000
    ensures Pack(top, length, data) < Pow2(64)
  {
    Powers();
    PowByte(48);
    PowByte(56);
    ShlIsProduct(top, 8);
    ShlIsProduct(256 * top + length, 48);
  }

  // ----- words off the wire ------------------------------------------------------------------

  lemma {:induction false} FromLittleEndianFits(bs: seq<byte>)
    ensures FromLittleEndian(bs) < Pow2(8 * |bs|)
  {
    if bs != [] {
      FromLittleEndianFits(bs[1..]);
      PowByte(8 * |bs[1..]|);
    }
  }

  lemma {:induction false} FromLittleEndianInParts(a: seq<byte>, b: seq<byte>)
    ensures FromLittleEndian(a + b) == FromLittleEndian(a) + Pow2(8 * |a|) * FromLittleEndian(b)
  {
    if a == [] {
      assert a + b == b;
    } else {
      var p, x := Pow2(8 * |a[1..]|), FromLittleEndian(b);
      assert (a + b)[0] == a[0] && (a + b)[1..] == a[1..] + b;
      FromLittleEndianInParts(a[1..], b);
      PowByte(8 * |a[1..]|);
      TimesByte(p, x);
    }
  }

  lemma TimesByte(p: nat, x: nat)
    ensures 256 * (p * x) == (256 * p) * x
  {
  }

  lemma TwoBytes(bs: seq<byte>)
    requires |bs| == 2
    ensures FromLittleEndian(bs) == bs[0] as nat + 256 * (bs[1] as nat)
  {
    assert bs[1..] == [bs[1]] && bs[1..][1..] == [];
    assert FromLittleEndian(bs[1..]) == bs[1] as nat + 256 * FromLittleEndian([]);
  }

  lemma WordIsPacked(length: nat, top: nat, data: nat, word: nat)
    requires length < 256 && top < 256 && word == data + Pow2(48) * (length + 256 * top)
    ensures word == Pack(top, length, data)
  {
    Powers();
    ShlIsProduct(top, 8);
    ShlIsProduct(Shl(top, 8) + length, 48);
  }

  /** Of the eight bytes of a word, the last one is the magic byte, the one before it counts the header
      in units of 16, and the first six are the data length, lowest byte first. */
  lemma WordFromBytes(bs: seq<byte>)
    requires |bs| == MAGIC_LENGTH
    ensures ParseMagic(FromLittleEndian(bs)) == Header(bs[7], 16 * (bs[6] as nat), FromLittleEndian(bs[..6]))
  {
    var low, high := bs[..6], bs[6..];
    assert bs == low + high;
    Powers();
    FromLittleEndianInParts(low, high);
    FromLittleEndianFits(low);
    TwoBytes(high);
    WordIsPacked(high[0], high[1], FromLittleEndian(low), FromLittleEndian(bs));
    ReadWord(high[1], high[0], FromLittleEndian(low));
  }
}
