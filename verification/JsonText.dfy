/**
 JSON string literals over UTF-16 code units (section 7 of RFC 8259, with lone surrogates escaped), and
 the UTF-8 bytes of well-formed UTF-16 text.
 */
module JsonText {
  import opened Encodings

  type Unit = u: nat | u < 0x10000
  type Text = seq<Unit>

  const QUOTE: Unit := 34
  const BACKSLASH: Unit := 92

  predicate High(u: Unit) {
    0xD800 <= u < 0xDC00
  }

  predicate Low(u: Unit) {
    0xDC00 <= u < 0xE000
  }

  /** The text starts with a surrogate pair. */
  predicate StartsPair(s: Text) {
    |s| >= 2 && High(s[0]) && Low(s[1])
  }

  /** No lone surrogate anywhere. */
  predicate Paired(s: Text) {
    if s == [] then true
    else if StartsPair(s) then Paired(s[2..])
    else !High(s[0]) && !Low(s[0]) && Paired(s[1..])
  }

  lemma {:induction false} PairedConcat(s: Text, t: Text)
    requires Paired(s) && Paired(t)
    ensures Paired(s + t)
  {
    if s == [] {
      assert s + t == t;
    } else if StartsPair(s) {
      PairedConcat(s[2..], t);
      assert (s + t)[2..] == s[2..] + t;
    } else {
      PairedConcat(s[1..], t);
      assert (s + t)[1..] == s[1..] + t;
    }
  }

  // ---------------------------------------------------------------------------
  // Quoting
  // ---------------------------------------------------------------------------

  function HexUnit(d: nat): Unit
    requires d < 16
  {
    if d < 10 then 48 + d else 87 + d
  }

  function UnicodeEscape(u: Unit): Text {
    [BACKSLASH, 117, HexUnit(u / 4096), HexUnit(u / 256 % 16), HexUnit(u / 16 % 16), HexUnit(u % 16)]
  }

  function EscapeUnit(u: Unit): Text {
    if u == QUOTE || u == BACKSLASH then [BACKSLASH, u]
    else if u == 8 then [BACKSLASH, 98]
    else if u == 9 then [BACKSLASH, 116]
    else if u == 10 then [BACKSLASH, 110]
    else if u == 12 then [BACKSLASH, 102]
    else if u == 13 then [BACKSLASH, 114]
    else if u < 32 || High(u) || Low(u) then UnicodeEscape(u)
    else [u]
  }

  /** How much of the text the next block of the literal stands for. */
  function Taken(s: Text): Text
    requires s != []
  {
    if StartsPair(s) then s[..2] else s[..1]
  }

  /** The next block of the literal. */
  function Block(s: Text): Text
    requires s != []
  {
    if StartsPair(s) then s[..2] else EscapeUnit(s[0])
  }

  function Rest(s: Text): Text
    requires s != []
  {
    if StartsPair(s) then s[2..] else s[1..]
  }

  function Escape(s: Text): Text {
    if s == [] then [] else Block(s) + Escape(Rest(s))
  }

  function Quote(s: Text): Text {
    [QUOTE] + Escape(s) + [QUOTE]
  }

  lemma {:induction false} EscapeIsPaired(s: Text)
    ensures Paired(Escape(s))
    decreases |s|
  {
    if s != [] {
      EscapeIsPaired(Rest(s));
      BlockIsPaired(s);
      PairedConcat(Block(s), Escape(Rest(s)));
    }
  }

  lemma BlockIsPaired(s: Text)
    requires s != []
    ensures Paired(Block(s))
  {
    var b := Block(s);
    if StartsPair(s) {
      assert b[2..] == [];
    } else {
      PlainIsPaired(b);
    }
  }

  lemma {:induction false} PlainIsPaired(b: Text)
    requires forall i :: 0 <= i < |b| ==> !High(b[i]) && !Low(b[i])
    ensures Paired(b)
  {
    if b != [] {
      PlainIsPaired(b[1..]);
    }
  }

  lemma QuoteIsPaired(s: Text)
    ensures Paired(Quote(s))
  {
    EscapeIsPaired(s);
    PlainIsPaired([QUOTE]);
    PairedConcat([QUOTE], Escape(s));
    PairedConcat([QUOTE] + Escape(s), [QUOTE]);
  }

  // ---------------------------------------------------------------------------
  // UTF-8
  // ---------------------------------------------------------------------------

  /** The code point of the text's first character; a lone surrogate becomes U+FFFD. */
  function CodePoint(s: Text): nat
    requires s != []
  {
    if StartsPair(s) then
      var high: nat, low: nat := s[0], s[1];
      0x10000 + (high - 0xD800) * 0x400 + (low - 0xDC00)
    else if High(s[0]) || Low(s[0]) then 0xFFFD
    else s[0]
  }

  function ToUtf8(s: Text): seq<nat> {
    if s == [] then [] else Utf8Code(CodePoint(s)) + ToUtf8(Rest(s))
  }

}
