/**
 Reading the text encodings of a claim message back, written from their definitions alone: hex letters by their
 value, decimal numbers, the base58 and base64url alphabets as they are published, and UTF-8.
 */
module Decoders {
  import opened Prelude
  import opened Encodings

  const BASE58 := "123456789" + "ABCDEFGHJKLMNPQRSTUVWXYZ" + "abcdefghijkmnopqrstuvwxyz"
  const BASE64URL := "ABCDEFGHIJKLMNOPQRSTUVWXYZ" + "abcdefghijklmnopqrstuvwxyz" + "0123456789" + "-_"

  /** The number a list of digits stands for, the most significant first. */
  function Number(ds: seq<nat>, base: nat): nat {
    if ds == [] then 0 else Number(ds[..|ds| - 1], base) * base + ds[|ds| - 1]
  }

  lemma {:induction false} NumberIsValue(ds: seq<nat>, base: nat)
    ensures Number(ds, base) == Value(ds, base)
  {
    if ds != [] {
      NumberIsValue(ds[..|ds| - 1], base);
    }
  }

  // ---------------------------------------------------------------------------
  // Hex and decimal
  // ---------------------------------------------------------------------------

  /** The value of a digit, or of a small letter from ten on. */
  function HexValue(ch: char): Option<nat> {
    if '0' <= ch <= '9' then Some(ch as nat - 48)
    else if 'a' <= ch <= 'f' then Some(ch as nat - 87)
    else None
  }

  /** Two letters a byte. */
  function ReadHex(s: string): Option<seq<nat>> {
    if s == "" then Some([])
    else if |s| == 1 then None
    else
      var n := |s| - 2;
      match (ReadHex(s[..n]), HexValue(s[n]), HexValue(s[n + 1]))
      case (Some(bytes), Some(high), Some(low)) => Some(bytes + [16 * high + low])
      case _ => None
  }

  lemma HexDigitValue(d: nat)
    requires d < 16
    ensures HexValue(HexDigit(d)) == Some(d)
  {
  }

  lemma {:induction false} HexReads(bytes: seq<Byte>)
    ensures ReadHex(Hex(bytes)) == Some(bytes)
  {
    if bytes != [] {
      var n := |bytes| - 1;
      var s := Hex(bytes);
      HexReads(bytes[..n]);
      HexDigitValue(bytes[n] / 16);
      HexDigitValue(bytes[n] % 16);
      assert s[..2 * n] == Hex(bytes[..n]) && |s| - 2 == 2 * n;
      assert bytes[..n] + [bytes[n]] == bytes;
    }
  }

  function ReadDigits(s: string): Option<nat> {
    if s == "" then Some(0)
    else
      var n := |s| - 1;
      if !('0' <= s[n] <= '9') then None
      else
        match ReadDigits(s[..n])
        case Some(x) => Some(10 * x + (s[n] as nat - 48))
        case None => None
  }

  /** Without leading zeros, unless it is zero. */
  function ReadDecimal(s: string): Option<nat> {
    if s == "" || (s[0] == '0' && |s| > 1) then None else ReadDigits(s)
  }

  lemma {:induction false} DigitsRead(x: nat)
    ensures ReadDigits(Spell(Digits(x, 10), DecimalDigit)) == Some(x)
  {
    if x > 0 {
      DigitsRead(x / 10);
      DigitsStep(x, 10);
      SpellAppend(Digits(x / 10, 10), x % 10, DecimalDigit);
      var s := Spell(Digits(x, 10), DecimalDigit);
      assert s[..|s| - 1] == Spell(Digits(x / 10, 10), DecimalDigit);
      assert s[|s| - 1] as nat - 48 == x % 10;
      DivMod(x, 10);
    }
  }

  lemma DecimalReads(x: nat)
    ensures ReadDecimal(Decimal(x)) == Some(x)
  {
    if x > 0 {
      PositiveDecimal(x);
      DigitsRead(x);
    } else {
      assert ReadDigits("") == Some(0);
      assert "0"[..0] == "";
    }
  }

  // ---------------------------------------------------------------------------
  // Alphabets
  // ---------------------------------------------------------------------------

  /** The place of a letter in an alphabet. */
  function Place(alphabet: string, ch: char, i: nat): Option<nat>
    requires i <= |alphabet|
    decreases |alphabet| - i
  {
    if i == |alphabet| then None else if alphabet[i] == ch then Some(i) else Place(alphabet, ch, i + 1)
  }

  function Places(alphabet: string, s: string): Option<seq<nat>> {
    if s == "" then Some([])
    else
      match (Place(alphabet, s[0], 0), Places(alphabet, s[1..]))
      case (Some(d), Some(ds)) => Some([d] + ds)
      case _ => None
  }

  lemma {:induction false} PlaceFound(alphabet: string, d: nat, i: nat)
    requires i <= d < |alphabet| && forall j :: i <= j < d ==> alphabet[j] != alphabet[d]
    ensures Place(alphabet, alphabet[d], i) == Some(d)
    decreases d - i
  {
    if i < d {
      PlaceFound(alphabet, d, i + 1);
    }
  }

  /** The letters are those of the alphabet, in order. */
  predicate Spells(letter: nat -> char, alphabet: string) {
    forall d :: 0 <= d < |alphabet| ==> letter(d) == alphabet[d]
  }

  lemma {:induction false} SpelledReads(ds: seq<nat>, letter: nat -> char, alphabet: string)
    requires Spells(letter, alphabet) && Letters(letter, |alphabet|) && forall i :: 0 <= i < |ds| ==> ds[i] < |alphabet|
    ensures Places(alphabet, Spell(ds, letter)) == Some(ds)
  {
    if ds != [] {
      var s := Spell(ds, letter);
      assert s[1..] == Spell(ds[1..], letter);
      SpelledReads(ds[1..], letter, alphabet);
      assert s[0] == letter(ds[0]) == alphabet[ds[0]];
      forall j | 0 <= j < ds[0] ensures alphabet[j] != alphabet[ds[0]] {
        assert letter(j) != letter(ds[0]);
      }
      PlaceFound(alphabet, ds[0], 0);
      assert [ds[0]] + ds[1..] == ds;
    }
  }

  lemma Base58Spells()
    ensures Spells(Base58Digit, BASE58) && Letters(Base58Digit, 58) && |BASE58| == 58
  {
    var upper, lower := "ABCDEFGHJKLMNPQRSTUVWXYZ", "abcdefghijkmnopqrstuvwxyz";
    forall i | 0 <= i < 24 ensures upper[i] == Base58Digit(9 + i) {
    }
    forall i | 0 <= i < 25 ensures lower[i] == Base58Digit(33 + i) {
    }
  }

  lemma Base64Spells()
    ensures Spells(Base64Digit, BASE64URL) && Letters(Base64Digit, 64) && |BASE64URL| == 64
  {
    var upper, lower := "ABCDEFGHIJKLMNOPQRSTUVWXYZ", "abcdefghijklmnopqrstuvwxyz";
    forall i | 0 <= i < 26 ensures upper[i] == Base64Digit(i) {
    }
    forall i | 0 <= i < 26 ensures lower[i] == Base64Digit(26 + i) {
    }
  }

  // ---------------------------------------------------------------------------
  // Base58
  // ---------------------------------------------------------------------------

  /** The bytes of a number, without leading zeros. */
  function BytesOf(x: nat): seq<nat> {
    if x == 0 then [] else BytesOf(x / 256) + [x % 256]
  }

  /** Each leading 1 is a zero byte, and the rest is a number in base 58. */
  function ReadBase58(s: string): Option<seq<nat>> {
    if s != "" && s[0] == '1' then
      match ReadBase58(s[1..])
      case Some(bytes) => Some([0] + bytes)
      case None => None
    else
      match Places(BASE58, s)
      case Some(ds) => Some(BytesOf(Number(ds, 58)))
      case None => None
  }

  lemma {:induction false} BytesOfValue(bytes: seq<Byte>)
    requires bytes != [] ==> bytes[0] != 0
    ensures BytesOf(Value(bytes, 256)) == bytes
    ensures bytes != [] ==> Value(bytes, 256) > 0
  {
    if bytes != [] {
      var n := |bytes| - 1;
      BytesOfValue(bytes[..n]);
      DivModUnique(Value(bytes, 256) / 256, Value(bytes, 256) % 256, Value(bytes[..n], 256), bytes[n], 256);
      assert bytes[..n] + [bytes[n]] == bytes;
    }
  }

  lemma {:induction false} LeadingZero(bytes: seq<Byte>)
    requires bytes != [] && bytes[0] == 0
    ensures Value(bytes, 256) == Value(bytes[1..], 256)
  {
    if |bytes| > 1 {
      var n := |bytes| - 1;
      LeadingZero(bytes[..n]);
      assert bytes[..n][1..] == bytes[1..][..n - 1];
    } else {
      assert bytes[..0] == [];
    }
  }

  lemma {:induction false} Base58Reads(bytes: seq<Byte>)
    ensures ReadBase58(Base58(bytes)) == Some(bytes)
  {
    var s := Base58(bytes);
    if bytes != [] && bytes[0] == 0 {
      LeadingZero(bytes);
      assert Ones(Zeros(bytes)) == ['1'] + Ones(Zeros(bytes[1..]));
      assert s == ['1'] + Base58(bytes[1..]);
      Base58Reads(bytes[1..]);
      assert s[1..] == Base58(bytes[1..]);
      assert [0] + bytes[1..] == bytes;
    } else {
      var x := Value(bytes, 256);
      assert s == Spell(Digits(x, 58), Base58Digit);
      NoLeadingOne(x);
      Base58Spells();
      SpelledReads(Digits(x, 58), Base58Digit, BASE58);
      NumberIsValue(Digits(x, 58), 58);
      DigitsValue(x, 58);
      BytesOfValue(bytes);
    }
  }

  // ---------------------------------------------------------------------------
  // Base64url
  // ---------------------------------------------------------------------------

  /** Four letters are three bytes; two or three letters at the end are one or two. */
  function FromSextets(ds: seq<nat>): Option<seq<nat>> {
    if ds == [] then Some([])
    else if |ds| == 1 then None
    else if |ds| == 2 then Some([(64 * ds[0] + ds[1]) / 16])
    else if |ds| == 3 then
      var n := (4096 * ds[0] + 64 * ds[1] + ds[2]) / 4;
      Some([n / 256, n % 256])
    else
      var n := 262144 * ds[0] + 4096 * ds[1] + 64 * ds[2] + ds[3];
      match FromSextets(ds[4..])
      case Some(bytes) => Some([n / 65536, n / 256 % 256, n % 256] + bytes)
      case None => None
  }

  function ReadBase64Url(s: string): Option<seq<nat>> {
    match Places(BASE64URL, s)
    case Some(ds) => FromSextets(ds)
    case None => None
  }

  lemma ThreeBytes(a: Byte, b: Byte, c: Byte)
    ensures var n := 65536 * a + 256 * b + c;
            n / 65536 == a && n / 256 % 256 == b && n % 256 == c
  {
    DivModUnique((65536 * a + 256 * b + c) / 65536, (65536 * a + 256 * b + c) % 65536, a, 256 * b + c, 65536);
  }

  lemma SixBits(a: Byte, b: Byte, c: Byte)
    ensures 262144 * (a / 4) + 4096 * (a % 4 * 16 + b / 16) + 64 * (b % 16 * 4 + c / 64) + c % 64 == 65536 * a + 256 * b + c
  {
    assert a == 4 * (a / 4) + a % 4;
    assert b == 16 * (b / 16) + b % 16;
    assert c == 64 * (c / 64) + c % 64;
  }

  lemma {:induction false} SextetsRead(bytes: seq<Byte>)
    ensures FromSextets(Sextets(bytes)) == Some(bytes)
  {
    if |bytes| >= 3 {
      var ds := Sextets(bytes);
      assert ds[4..] == Sextets(bytes[3..]);
      SextetsRead(bytes[3..]);
      SixBits(bytes[0], bytes[1], bytes[2]);
      ThreeBytes(bytes[0], bytes[1], bytes[2]);
      assert bytes == [bytes[0], bytes[1], bytes[2]] + bytes[3..];
    } else if |bytes| == 2 {
      assert bytes == [bytes[0], bytes[1]];
    } else if |bytes| == 1 {
      assert bytes == [bytes[0]];
    }
  }

  lemma Base64UrlReads(bytes: seq<Byte>)
    ensures ReadBase64Url(Base64Url(bytes)) == Some(bytes)
  {
    Base64Spells();
    SpelledReads(Sextets(bytes), Base64Digit, BASE64URL);
    SextetsRead(bytes);
  }

  // ---------------------------------------------------------------------------
  // UTF-8 (section 3 of RFC 3629)
  // ---------------------------------------------------------------------------

  /** The bits of a continuation byte. */
  function Tail(b: nat): nat {
    if 0x80 <= b < 0xC0 then b - 0x80 else 0
  }

  /** How many bytes the character with this first byte takes. */
  function Width(b: nat): nat {
    if b < 0x80 then 1 else if b < 0xE0 then 2 else if b < 0xF0 then 3 else 4
  }

  /** The code the first bytes stand for. */
  function FirstCode(bs: seq<nat>): nat
    requires bs != [] && Width(bs[0]) <= |bs|
  {
    if bs[0] < 0x80 then bs[0]
    else if bs[0] < 0xE0 then (if bs[0] < 0xC0 then 0 else bs[0] - 0xC0) * 64 + Tail(bs[1])
    else if bs[0] < 0xF0 then (bs[0] - 0xE0) * 4096 + Tail(bs[1]) * 64 + Tail(bs[2])
    else (bs[0] - 0xF0) * 262144 + Tail(bs[1]) * 4096 + Tail(bs[2]) * 64 + Tail(bs[3])
  }

  predicate IsCharacter(code: nat) {
    code < 0xD800 || 0xE000 <= code < 0x110000
  }

  function ReadUtf8(bs: seq<nat>): Option<string> {
    if bs == [] then Some("")
    else if |bs| < Width(bs[0]) || !IsCharacter(FirstCode(bs)) then None
    else
      match ReadUtf8(bs[Width(bs[0])..])
      case Some(rest) => Some([FirstCode(bs) as char] + rest)
      case None => None
  }

  lemma CharacterReads(c: nat, rest: seq<nat>)
    requires c < 0x110000
    ensures var bs := Utf8Code(c) + rest;
            Width(bs[0]) == |Utf8Code(c)| && FirstCode(bs) == c
  {
    var bs := Utf8Code(c) + rest;
    if c < 0x80 {
    } else if c < 0x800 {
      assert bs[0] == 0xC0 + c / 0x40 && bs[1] == 0x80 + c % 0x40;
    } else if c < 0x10000 {
      assert bs[0] == 0xE0 + c / 0x40 / 0x40 && bs[1] == 0x80 + c / 0x40 % 0x40 && bs[2] == 0x80 + c % 0x40;
      DivMod(c, 0x40);
      DivMod(c / 0x40, 0x40);
    } else {
      assert bs[0] == 0xF0 + c / 0x40 / 0x40 / 0x40 && bs[1] == 0x80 + c / 0x40 / 0x40 % 0x40;
      assert bs[2] == 0x80 + c / 0x40 % 0x40 && bs[3] == 0x80 + c % 0x40;
      DivMod(c, 0x40);
      DivMod(c / 0x40, 0x40);
      DivMod(c / 0x40 / 0x40, 0x40);
    }
  }

  lemma {:induction false} Utf8Reads(s: string)
    ensures ReadUtf8(Utf8(s)) == Some(s)
  {
    if s != "" {
      var bs, first := Utf8(s), Utf8Char(s[0]);
      CharacterReads(s[0] as nat, Utf8(s[1..]));
      assert bs == first + Utf8(s[1..]);
      assert bs[|first|..] == Utf8(s[1..]);
      Utf8Reads(s[1..]);
      assert [s[0]] + s[1..] == s;
    }
  }

  // ---------------------------------------------------------------------------
  // What can be read back is determined
  // ---------------------------------------------------------------------------

  lemma HexInjective(xs: seq<Byte>, ys: seq<Byte>)
    requires Hex(xs) == Hex(ys)
    ensures xs == ys
  {
    HexReads(xs);
    HexReads(ys);
  }

  lemma DecimalInjective(x: nat, y: nat)
    requires Decimal(x) == Decimal(y)
    ensures x == y
  {
    DecimalReads(x);
    DecimalReads(y);
  }

  /** For byte strings of any lengths. */
  lemma Base58Injective(xs: seq<Byte>, ys: seq<Byte>)
    requires Base58(xs) == Base58(ys)
    ensures xs == ys
  {
    Base58Reads(xs);
    Base58Reads(ys);
  }

  /** For byte strings of any lengths. */
  lemma Base64UrlInjective(xs: seq<Byte>, ys: seq<Byte>)
    requires Base64Url(xs) == Base64Url(ys)
    ensures xs == ys
  {
    Base64UrlReads(xs);
    Base64UrlReads(ys);
  }

  lemma Utf8Injective(s: string, t: string)
    requires Utf8(s) == Utf8(t)
    ensures s == t
  {
    Utf8Reads(s);
    Utf8Reads(t);
  }
}
