/** Hexadecimal text of raw bytes. */
module Hex {
  import opened Wire

  /** `uchar_to_hex`. */
  function HexDigit(digit: byte): byte
  {
    if digit < 10 then digit + 48
    else if digit < 16 then digit - 10 + 97
    else 48
  }

  function Hexify(source: seq<byte>): (hex: seq<byte>)
    ensures |hex| == 2 * |source|
  {
    if source == [] then []
    else Hexify(source[..|source| - 1])
         + [HexDigit(source[|source| - 1] / 16), HexDigit(source[|source| - 1] % 16)]
  }

  lemma {:induction false} HexifyAt(source: seq<byte>, i: nat)
    requires i < |source|
    ensures Hexify(source)[2 * i] == HexDigit(source[i] / 16)
    ensures Hexify(source)[2 * i + 1] == HexDigit(source[i] % 16)
  {
    if i < |source| - 1 {
      HexifyAt(source[..|source| - 1], i);
    }
  }

  /** `string_hexify`: the digits are split in one pass and turned into text in a second one. */
  method StringHexify(dest: array<byte>, source: seq<byte>)
    requires dest.Length >= 2 * |source|
    modifies dest
    ensures dest[..2 * |source|] == Hexify(source)
    ensures dest[2 * |source|..] == old(dest[2 * |source|..])
  {
    for i := 0 to |source|
      invariant forall j :: 0 <= j < i ==> dest[2 * j] == source[j] / 16 && dest[2 * j + 1] == source[j] % 16
      invariant dest[2 * |source|..] == old(dest[2 * |source|..])
    {
      dest[i * 2] := source[i] / 16 % 16;
      dest[i * 2 + 1] := source[i] % 16;
    }
    ghost var digits := dest[..];
    for i := 0 to 2 * |source|
      invariant forall j :: 0 <= j < i ==> dest[j] == HexDigit(digits[j])
      invariant forall j :: i <= j < dest.Length ==> dest[j] == digits[j]
    {
      dest[i] := HexDigit(dest[i]);
    }
    forall j | 0 <= j < 2 * |source|
      ensures dest[j] == Hexify(source)[j]
    {
      HexifyAt(source, j / 2);
      assert digits[2 * (j / 2)] == source[j / 2] / 16 && digits[2 * (j / 2) + 1] == source[j / 2] % 16;
      assert j == 2 * (j / 2) || j == 2 * (j / 2) + 1;
    }
  }

  /** The value of a lower-case digit in base 16; 16 for any other character. */
  function ValueOf(c: byte): (value: nat)
    ensures value <= 16
  {
    if '0' as int <= c <= '9' as int then c - '0' as int
    else if 'a' as int <= c <= 'f' as int then 10 + (c - 'a' as int)
    else 16
  }

  /** Bytes, read from lower-case text in base 16. */
  function Unhexify(hex: seq<byte>): seq<byte>
  {
    if |hex| < 2 then []
    else Unhexify(hex[..|hex| - 2]) + [(16 * ValueOf(hex[|hex| - 2]) + ValueOf(hex[|hex| - 1])) % 256]
  }

  lemma DigitHasValue(digit: byte)
    requires digit < 16
    ensures ValueOf(HexDigit(digit)) == digit
  {
  }

  lemma PairReadsBack(hex: seq<byte>, high: byte, low: byte, more: seq<byte>)
    requires high < 16 && low < 16 && more == hex + [HexDigit(high), HexDigit(low)]
    ensures Unhexify(more) == Unhexify(hex) + [16 * (high as nat) + low as nat]
  {
    DigitHasValue(high);
    DigitHasValue(low);
    assert more[..|more| - 2] == hex;
  }

  /** The text is the bytes in base 16, in lower-case digits, two for each byte. */
  lemma {:induction false} HexifyReadsBack(source: seq<byte>)
    ensures forall c :: c in Hexify(source) ==> ValueOf(c) < 16
    ensures Unhexify(Hexify(source)) == source
  {
    if source != [] {
      var init, last := source[..|source| - 1], source[|source| - 1];
      HexifyReadsBack(init);
      DigitHasValue(last / 16);
      DigitHasValue(last % 16);
      PairReadsBack(Hexify(init), last / 16, last % 16, Hexify(source));
    }
  }

  /** Different bytes have different texts. */
  lemma {:induction false} HexifyInjective(a: seq<byte>, b: seq<byte>)
    requires Hexify(a) == Hexify(b)
    ensures a == b
  {
    assert |a| == |b|;
    forall i | 0 <= i < |a|
      ensures a[i] == b[i]
    {
      HexifyAt(a, i);
      HexifyAt(b, i);
    }
  }
}
