/** The text encodings inside a claim message: lowercase hex, decimal, base58, unpadded base64url, and UTF-8. */
module Encodings {

  type Byte = b: nat | b < 256

  // ---------------------------------------------------------------------------
  // Positional notation
  // ---------------------------------------------------------------------------

  /** Digits of x, most significant first, none for zero. */
  function Digits(x: nat, base: nat): (ds: seq<nat>)
    requires base >= 2
    ensures forall i :: 0 <= i < |ds| ==> ds[i] < base
    ensures |ds| > 0 ==> ds[0] > 0
    ensures x > 0 ==> |ds| > 0
  {
    if x == 0 then [] else Digits(x / base, base) + [x % base]
  }

  function Value(ds: seq<nat>, base: nat): nat {
    if ds == [] then 0 else Value(ds[..|ds| - 1], base) * base + ds[|ds| - 1]
  }

  lemma ValueAppend(ds: seq<nat>, d: nat, base: nat)
    ensures Value(ds + [d], base) == Value(ds, base) * base + d
  {
    assert (ds + [d])[..|ds|] == ds;
  }

  lemma DivMod(x: nat, base: nat)
    requires base > 0
    ensures x / base * base + x % base == x
  {
  }

  lemma DivSmaller(x: nat, base: nat)
    requires x > 0 && base >= 2
    ensures x / base < x
  {
  }

  lemma {:induction false} DigitsValue(x: nat, base: nat)
    requires base >= 2
    ensures Value(Digits(x, base), base) == x
  {
    if x != 0 {
      DivSmaller(x, base);
      DigitsValue(x / base, base);
      NextDigit(x, base, x / base, x % base);
    }
  }

  lemma NextDigit(x: nat, base: nat, q: nat, r: nat)
    requires base >= 2 && x > 0 && q == x / base && r == x % base
    requires Value(Digits(q, base), base) == q
    ensures Value(Digits(x, base), base) == x
  {
    ValueAppend(Digits(q, base), r, base);
    DivMod(x, base);
    assert Digits(x, base) == Digits(q, base) + [r];
  }

  lemma MulGrows(p: nat, q: nat, base: nat)
    requires p <= q
    ensures p * base <= q * base
  {
    assert q * base == p * base + (q - p) * base;
  }

  lemma DivModUnique(q: nat, r: nat, p: nat, t: nat, base: nat)
    requires r < base && t < base && q * base + r == p * base + t
    ensures q == p && r == t
  {
    if q < p {
      MulGrows(q + 1, p, base);
    } else if p < q {
      MulGrows(p + 1, q, base);
    }
  }

  /** Spell each digit with one character. */
  function Spell(ds: seq<nat>, letter: nat -> char): (s: string)
    ensures |s| == |ds|
  {
    seq(|ds|, i requires 0 <= i < |ds| => letter(ds[i]))
  }

  /** The first n letters are different. */
  predicate Letters(letter: nat -> char, n: nat) {
    && (forall i, j :: 0 <= i < j < n ==> letter(i) != letter(j))
    && (forall i :: 0 <= i < n ==> letter(i) != '\n')
  }

  lemma SpellOneLine(ds: seq<nat>, letter: nat -> char, n: nat)
    requires Letters(letter, n) && forall i :: 0 <= i < |ds| ==> ds[i] < n
    ensures '\n' !in Spell(ds, letter)
  {
  }

  /** The d-th character from a given one on. */
  function From(first: char, d: nat): char
    requires first as nat + d < 0x80
  {
    (first as nat + d) as char
  }

  // ---------------------------------------------------------------------------
  // Hex
  // ---------------------------------------------------------------------------

  function HexDigit(d: nat): char {
    if d < 10 then From('0', d) else if d < 16 then From('a', d - 10) else '?'
  }

  function Hex(bytes: seq<Byte>): (s: string)
    ensures |s| == 2 * |bytes|
  {
    if bytes == [] then ""
    else Hex(bytes[..|bytes| - 1]) + [HexDigit(bytes[|bytes| - 1] / 16), HexDigit(bytes[|bytes| - 1] % 16)]
  }

  /** A byte in base sixteen, left-padded to two characters. */
  function PaddedHex(b: Byte): string {
    var ds := Digits(b, 16);
    var s := if ds == [] then "0" else Spell(ds, HexDigit);
    if |s| < 2 then "0" + s else s
  }

  lemma PaddedHexIsTwoDigits(b: Byte)
    ensures PaddedHex(b) == [HexDigit(b / 16), HexDigit(b % 16)]
  {
    assert Digits(0, 16) == [];
    if b >= 16 {
      assert Digits(b / 16, 16) == Digits(0, 16) + [b / 16];
      assert Digits(b, 16) == [b / 16, b % 16];
    } else if b > 0 {
      assert Digits(b, 16) == [b];
    }
  }

  method HexLowercase(bytes: seq<Byte>) returns (out: string)
    ensures out == Hex(bytes)
  {
    out := "";
    for i := 0 to |bytes|
      invariant out == Hex(bytes[..i])
    {
      PaddedHexIsTwoDigits(bytes[i]);
      assert bytes[..i + 1][..i] == bytes[..i];
      out := out + PaddedHex(bytes[i]);
    }
    assert bytes[..|bytes|] == bytes;
  }

  lemma {:induction false} HexOneLine(bytes: seq<Byte>)
    ensures '\n' !in Hex(bytes)
  {
    if bytes != [] {
      HexOneLine(bytes[..|bytes| - 1]);
    }
  }

  // ---------------------------------------------------------------------------
  // Decimal
  // ---------------------------------------------------------------------------

  function DecimalDigit(d: nat): char {
    if d < 10 then From('0', d) else '?'
  }

  function Decimal(x: nat): string {
    if x == 0 then "0" else Spell(Digits(x, 10), DecimalDigit)
  }

  lemma PositiveDecimal(x: nat)
    requires x > 0
    ensures |Decimal(x)| > 0 && Decimal(x)[0] != '0'
  {
    assert Decimal(x)[0] == DecimalDigit(Digits(x, 10)[0]);
  }

  lemma DecimalOneLine(x: nat)
    ensures '\n' !in Decimal(x)
  {
    SpellOneLine(Digits(x, 10), DecimalDigit, 10);
  }

  // ---------------------------------------------------------------------------
  // Base58
  // ---------------------------------------------------------------------------

  /** Digits and letters without zero, capital O and I, and lowercase l. */
  function Base58Digit(d: nat): char {
    if d < 9 then From('1', d)
    else if d < 17 then From('A', d - 9)
    else if d < 22 then From('J', d - 17)
    else if d < 33 then From('P', d - 22)
    else if d < 44 then From('a', d - 33)
    else if d < 58 then From('m', d - 44)
    else '?'
  }

  function Zeros(bytes: seq<Byte>): (n: nat)
    ensures n <= |bytes|
  {
    if bytes == [] || bytes[0] != 0 then 0 else 1 + Zeros(bytes[1..])
  }

  function Ones(n: nat): (s: string)
    ensures |s| == n && forall i :: 0 <= i < n ==> s[i] == '1'
  {
    seq(n, i => '1')
  }

  function Base58(bytes: seq<Byte>): string {
    Ones(Zeros(bytes)) + Spell(Digits(Value(bytes, 256), 58), Base58Digit)
  }

  lemma SpellAppend(ds: seq<nat>, d: nat, letter: nat -> char)
    ensures Spell(ds + [d], letter) == Spell(ds, letter) + [letter(d)]
  {
  }

  lemma DigitsStep(x: nat, base: nat)
    requires base >= 2 && x > 0
    ensures Digits(x, base) == Digits(x / base, base) + [x % base]
  {
  }

  lemma Base58Step(x: nat)
    requires x > 0
    ensures Spell(Digits(x, 58), Base58Digit) == Spell(Digits(x / 58, 58), Base58Digit) + [Base58Digit(x % 58)]
  {
    DigitsStep(x, 58);
    SpellAppend(Digits(x / 58, 58), x % 58, Base58Digit);
  }

  method Base58Encode(bytes: seq<Byte>) returns (out: string)
    ensures out == Base58(bytes)
  {
    var x := BigEndian(bytes);
    var digits := Base58Digits(x);
    out := PadOnes(bytes, digits);
  }

  method BigEndian(bytes: seq<Byte>) returns (x: nat)
    ensures x == Value(bytes, 256)
  {
    x := 0;
    for i := 0 to |bytes|
      invariant x == Value(bytes[..i], 256)
    {
      assert bytes[..i + 1] == bytes[..i] + [bytes[i]];
      ValueAppend(bytes[..i], bytes[i], 256);
      x := x * 256 + bytes[i];
    }
    assert bytes[..|bytes|] == bytes;
  }

  /** The digits of the number, peeled off from the right. */
  method Base58Digits(n: nat) returns (out: string)
    ensures out == Spell(Digits(n, 58), Base58Digit)
  {
    var x := n;
    out := "";
    assert Spell(Digits(n, 58), Base58Digit) + "" == Spell(Digits(n, 58), Base58Digit);
    while x > 0
      invariant Spell(Digits(n, 58), Base58Digit) == Spell(Digits(x, 58), Base58Digit) + out
    {
      Base58Step(x);
      out := [Base58Digit(x % 58)] + out;
      x := x / 58;
    }
  }

  /** One leading '1' for every leading zero byte. */
  method PadOnes(bytes: seq<Byte>, digits: string) returns (out: string)
    ensures out == Ones(Zeros(bytes)) + digits
  {
    out := digits;
    var i := 0;
    assert Ones(0) + digits == digits;
    while i < |bytes| && bytes[i] == 0
      invariant i <= |bytes|
      invariant out == Ones(i) + digits
      invariant i + Zeros(bytes[i..]) == Zeros(bytes)
    {
      assert bytes[i..][1..] == bytes[i + 1..];
      assert "1" + Ones(i) == Ones(i + 1);
      assert "1" + (Ones(i) + digits) == "1" + Ones(i) + digits;
      out := "1" + out;
      i := i + 1;
    }
  }

  lemma NoLeadingOne(x: nat)
    ensures var s := Spell(Digits(x, 58), Base58Digit); |s| > 0 ==> s[0] != '1'
  {
    var ds := Digits(x, 58);
    if |ds| > 0 {
      assert Spell(ds, Base58Digit)[0] == Base58Digit(ds[0]);
    }
  }

  lemma Base58OneLine(bytes: seq<Byte>)
    ensures '\n' !in Base58(bytes)
  {
    SpellOneLine(Digits(Value(bytes, 256), 58), Base58Digit, 58);
  }

  // ---------------------------------------------------------------------------
  // Base64url without padding (section 5 of RFC 4648)
  // ---------------------------------------------------------------------------

  function Base64Digit(d: nat): char {
    if d < 26 then From('A', d)
    else if d < 52 then From('a', d - 26)
    else if d < 62 then From('0', d - 52)
    else if d == 62 then '-'
    else if d == 63 then '_'
    else '?'
  }

  /** Six-bit groups, the last one filled up with zero bits. */
  function Sextets(bytes: seq<Byte>): (ds: seq<nat>)
    ensures forall i :: 0 <= i < |ds| ==> ds[i] < 64
  {
    if bytes == [] then []
    else if |bytes| == 1 then [bytes[0] / 4, bytes[0] % 4 * 16]
    else if |bytes| == 2 then [bytes[0] / 4, bytes[0] % 4 * 16 + bytes[1] / 16, bytes[1] % 16 * 4]
    else
      [bytes[0] / 4, bytes[0] % 4 * 16 + bytes[1] / 16, bytes[1] % 16 * 4 + bytes[2] / 64, bytes[2] % 64]
      + Sextets(bytes[3..])
  }

  function Base64Url(bytes: seq<Byte>): string {
    Spell(Sextets(bytes), Base64Digit)
  }

  lemma Base64UrlOneLine(bytes: seq<Byte>)
    ensures '\n' !in Base64Url(bytes)
  {
    SpellOneLine(Sextets(bytes), Base64Digit, 64);
  }

  // ---------------------------------------------------------------------------
  // UTF-8
  // ---------------------------------------------------------------------------

  function Utf8Code(c: nat): (bs: seq<nat>)
    ensures 1 <= |bs| <= 4
  {
    if c < 0x80 then [c]
    else if c < 0x800 then [0xC0 + c / 0x40, 0x80 + c % 0x40]
    else if c < 0x10000 then [0xE0 + c / 0x40 / 0x40, 0x80 + c / 0x40 % 0x40, 0x80 + c % 0x40]
    else [0xF0 + c / 0x40 / 0x40 / 0x40, 0x80 + c / 0x40 / 0x40 % 0x40, 0x80 + c / 0x40 % 0x40, 0x80 + c % 0x40]
  }

  function Utf8Char(ch: char): (bs: seq<nat>)
    ensures 1 <= |bs| <= 4
  {
    Utf8Code(ch as nat)
  }

  function Utf8(s: string): seq<nat> {
    if s == "" then [] else Utf8Char(s[0]) + Utf8(s[1..])
  }

}
