/**
 Reading canonical JSON back, written from the format alone (RFC 8259, in the form the platform prints): no white
 space, the shortest escapes, object keys in ascending order. Reading a printed value gives back what it means.
 */
module JsonReader {
  import opened Prelude
  import opened Encodings
  import opened Decoders
  import opened JsonText
  import opened CanonicalJson
  import opened CanonicalForm

  // ---------------------------------------------------------------------------
  // The reader
  // ---------------------------------------------------------------------------

  /** What was read, and what is left. */
  datatype Got<T> = Got(value: T, rest: Text)

  predicate Begins(t: Text, ch: char) {
    t != [] && t[0] == ch as int
  }

  /** The text starts with the word. */
  predicate BeginsWith(t: Text, word: string) {
    |word| <= |t| && forall i :: 0 <= i < |word| ==> t[i] == word[i] as int
  }

  function FourHex(t: Text): Option<nat>
    requires |t| >= 4
  {
    if exists i :: 0 <= i < 4 && t[i] >= 128 then None
    else
      match (HexValue(t[0] as char), HexValue(t[1] as char), HexValue(t[2] as char), HexValue(t[3] as char))
      case (Some(a), Some(b), Some(c), Some(d)) => Some(4096 * a + 256 * b + 16 * c + d)
      case _ => None
  }

  /** The unit a two-character escape stands for. */
  function ShortEscape(u: Unit): Option<Unit> {
    if u == '"' as int || u == '\\' as int then Some(u)
    else if u == 'b' as int then Some(0x08)
    else if u == 't' as int then Some(0x09)
    else if u == 'n' as int then Some(0x0A)
    else if u == 'f' as int then Some(0x0C)
    else if u == 'r' as int then Some(0x0D)
    else None
  }

  /** Only control characters without a short escape and surrogates are written by number. */
  predicate ByNumber(u: nat) {
    (u < 0x20 && u != 0x08 && u != 0x09 && u != 0x0A && u != 0x0C && u != 0x0D) || 0xD800 <= u < 0xE000
  }

  function Prepend(units: Text, got: Option<Got<Text>>): Option<Got<Text>> {
    match got
    case Some(Got(s, rest)) => Some(Got(units + s, rest))
    case None => None
  }

  /** The inside of a string literal up to its closing quote. */
  function ReadString(t: Text): (got: Option<Got<Text>>)
    ensures got.Some? ==> |got.value.rest| < |t|
    decreases |t|
  {
    if t == [] then None
    else if Begins(t, '"') then Some(Got([], t[1..]))
    else if Begins(t, '\\') then
      if |t| >= 6 && t[1] == 'u' as int then
        match FourHex(t[2..6])
        case Some(u) => if ByNumber(u) then Prepend([u], ReadString(t[6..])) else None
        case None => None
      else if |t| >= 2 then
        match ShortEscape(t[1])
        case Some(u) => Prepend([u], ReadString(t[2..]))
        case None => None
      else None
    else if t[0] < 0x20 then None
    else if 0xD800 <= t[0] < 0xE000 then
      if t[0] < 0xDC00 && |t| >= 2 && 0xDC00 <= t[1] < 0xE000 then Prepend(t[..2], ReadString(t[2..])) else None
    else Prepend(t[..1], ReadString(t[1..]))
  }

  /** The digits the text starts with. */
  function LeadingDigits(t: Text): (ds: seq<nat>)
    ensures |ds| <= |t|
  {
    if t == [] || !(48 <= t[0] <= 57) then [] else [t[0] - 48] + LeadingDigits(t[1..])
  }

  function ReadNat(t: Text): Option<Got<nat>> {
    var ds := LeadingDigits(t);
    if ds == [] || (ds[0] == 0 && |ds| > 1) then None else Some(Got(Decoders.Number(ds, 10), t[|ds|..]))
  }

  /** An integer, without leading zeros, and without a negative zero. */
  function ReadNumber(t: Text): Option<Got<Meaning>> {
    if Begins(t, '-') then
      match ReadNat(t[1..])
      case Some(Got(n, rest)) => if n > 0 then Some(Got(MNumber(0 - n), rest)) else None
      case None => None
    else
      match ReadNat(t)
      case Some(Got(n, rest)) => Some(Got(MNumber(n), rest))
      case None => None
  }

  /** At the first place where they differ, a ends or has the smaller unit. */
  ghost predicate Before(a: Text, b: Text) {
    exists n :: 0 <= n <= |a| && n < |b| && a[..n] == b[..n] && (n == |a| || a[n] < b[n])
  }

  ghost function ReadValue(t: Text): (got: Option<Got<Meaning>>)
    ensures got.Some? ==> |got.value.rest| < |t|
    decreases |t|, 0
  {
    if Begins(t, '"') then
      match ReadString(t[1..])
      case Some(Got(s, rest)) => Some(Got(MStr(s), rest))
      case None => None
    else if Begins(t, '[') then
      if Begins(t[1..], ']') then Some(Got(MArray([]), t[2..]))
      else
        match ReadSlots(t[1..])
        case Some(Got(items, rest)) => Some(Got(MArray(items), rest))
        case None => None
    else if Begins(t, '{') then
      if Begins(t[1..], '}') then Some(Got(MObject(map[]), t[2..]))
      else
        match ReadPairs(t[1..], None)
        case Some(Got(fields, rest)) => Some(Got(MObject(fields), rest))
        case None => None
    else if BeginsWith(t, "null") then Some(Got(MNull, t[4..]))
    else if BeginsWith(t, "true") then Some(Got(MBool(true), t[4..]))
    else if BeginsWith(t, "false") then Some(Got(MBool(false), t[5..]))
    else ReadNumber(t)
  }

  /** One array slot; an empty one stands for undefined. */
  ghost function ReadSlot(t: Text): (got: Option<Got<Meaning>>)
    ensures got.Some? ==> |got.value.rest| <= |t|
    decreases |t|, 1
  {
    if Begins(t, ',') || Begins(t, ']') then Some(Got(MUndefined, t)) else ReadValue(t)
  }

  /** The slots of an array up to its closing bracket. */
  ghost function ReadSlots(t: Text): (got: Option<Got<seq<Meaning>>>)
    ensures got.Some? ==> |got.value.rest| < |t|
    decreases |t|, 2
  {
    match ReadSlot(t)
    case None => None
    case Some(Got(item, rest)) =>
      if Begins(rest, ']') then Some(Got([item], rest[1..]))
      else if Begins(rest, ',') then
        match ReadSlots(rest[1..])
        case Some(Got(items, end)) => Some(Got([item] + items, end))
        case None => None
      else None
  }

  /** The fields of an object up to its closing brace, each key after the one before it. */
  ghost function ReadPairs(t: Text, last: Option<Text>): (got: Option<Got<map<Text, Meaning>>>)
    ensures got.Some? ==> |got.value.rest| < |t|
    decreases |t|, 3
  {
    if !Begins(t, '"') then None
    else
      match ReadString(t[1..])
      case None => None
      case Some(Got(key, middle)) =>
        if !Begins(middle, ':') || (last.Some? && !Before(last.value, key)) then None
        else
          match ReadValue(middle[1..])
          case None => None
          case Some(Got(value, rest)) =>
            if Begins(rest, '}') then Some(Got(map[key := value], rest[1..]))
            else if Begins(rest, ',') then
              match ReadPairs(rest[1..], Some(key))
              case Some(Got(fields, end)) => Some(Got(fields[key := value], end))
              case None => None
            else None
  }

  /** A whole text is one value. */
  ghost function ReadJson(t: Text): Option<Meaning> {
    match ReadValue(t)
    case Some(Got(value, rest)) => if rest == [] then Some(value) else None
    case None => None
  }

  // ---------------------------------------------------------------------------
  // Strings
  // ---------------------------------------------------------------------------

  lemma HexUnitReads(d: nat)
    requires d < 16
    ensures HexUnit(d) < 128 && HexValue(HexUnit(d) as char) == Some(d)
  {
  }

  lemma FourDigits(u: Unit)
    ensures u == 4096 * (u / 4096) + 256 * (u / 256 % 16) + 16 * (u / 16 % 16) + u % 16
  {
    DivMod(u, 16);
    DivMod(u / 16, 16);
    DivMod(u / 256, 16);
    assert u / 16 / 16 == u / 256 && u / 256 / 16 == u / 4096;
  }

  lemma FourHexReads(u: Unit)
    ensures FourHex(UnicodeEscape(u)[2..6]) == Some(u)
  {
    var a, b, c, d := u / 4096, u / 256 % 16, u / 16 % 16, u % 16;
    HexUnitReads(a);
    HexUnitReads(b);
    HexUnitReads(c);
    HexUnitReads(d);
    assert UnicodeEscape(u)[2..6] == [HexUnit(a), HexUnit(b), HexUnit(c), HexUnit(d)];
    FourDigits(u);
  }

  /** One block of a literal is read as the text it stands for. */
  lemma BlockReads(s: Text, z: Text)
    requires s != []
    ensures ReadString(Block(s) + z) == Prepend(Taken(s), ReadString(z))
  {
    var t := Block(s) + z;
    assert t[|Block(s)|..] == z;
    if !StartsPair(s) && EscapeUnit(s[0]) == UnicodeEscape(s[0]) {
      FourHexReads(s[0]);
      assert t[2..6] == UnicodeEscape(s[0])[2..6] && t[6..] == z;
      assert Taken(s) == [s[0]];
    } else if StartsPair(s) {
      assert t[..2] == Taken(s) && t[2..] == z;
    } else if |EscapeUnit(s[0])| == 2 {
      assert t[2..] == z && t[1] != 'u' as int;
      assert Taken(s) == [s[0]];
    } else {
      assert t[..1] == [s[0]] == Taken(s) && t[1..] == z;
    }
  }

  lemma {:induction false} StringReads(s: Text, x: Text)
    ensures ReadString(Escape(s) + ([QUOTE] + x)) == Some(Got(s, x))
    decreases |s|
  {
    var z := [QUOTE] + x;
    if s == [] {
      assert Escape(s) + z == z && z[1..] == x;
    } else {
      assert Escape(s) + z == Block(s) + (Escape(Rest(s)) + z);
      BlockReads(s, Escape(Rest(s)) + z);
      StringReads(Rest(s), x);
      assert Taken(s) + Rest(s) == s;
    }
  }

  lemma QuoteReads(s: Text, x: Text)
    ensures Begins(Quote(s) + x, '"') && ReadString((Quote(s) + x)[1..]) == Some(Got(s, x))
  {
    StringReads(s, x);
    QuotedInside(Escape(s), x);
  }

  lemma QuotedInside(inside: Text, x: Text)
    ensures Begins([QUOTE] + inside + [QUOTE] + x, '"')
    ensures ([QUOTE] + inside + [QUOTE] + x)[1..] == inside + ([QUOTE] + x)
  {
    assert [QUOTE] + inside + [QUOTE] + x == [QUOTE] + (inside + ([QUOTE] + x));
  }

  // ---------------------------------------------------------------------------
  // Numbers
  // ---------------------------------------------------------------------------

  lemma {:induction false} DigitsLead(ds: seq<nat>, x: Text)
    requires Stops(x) && forall i :: 0 <= i < |ds| ==> ds[i] < 10
    ensures LeadingDigits(DigitTexts(ds) + x) == ds
  {
    if ds == [] {
      assert DigitTexts(ds) + x == x;
    } else {
      DigitsLead(ds[1..], x);
      assert (DigitTexts(ds) + x)[1..] == DigitTexts(ds[1..]) + x;
      assert [ds[0]] + ds[1..] == ds;
    }
  }

  lemma NatReads(n: nat, x: Text)
    requires Stops(x)
    ensures ReadNat(NatText(n) + x) == Some(Got(n, x))
  {
    var ds := if n == 0 then [0] else Digits(n, 10);
    assert NatText(n) == DigitTexts(ds);
    DigitsLead(ds, x);
    assert (DigitTexts(ds) + x)[|ds|..] == x;
    if n == 0 {
      assert ds[..0] == [] && Decoders.Number([], 10) == 0;
    } else {
      NumberIsValue(ds, 10);
      DigitsValue(n, 10);
    }
  }

  /** How a number is put together from its sign and its digits. */
  lemma SignReads(t: Text, n: nat, x: Text)
    ensures !Begins(t, '-') && ReadNat(t) == Some(Got(n, x)) ==> ReadNumber(t) == Some(Got(MNumber(n), x))
    ensures Begins(t, '-') && ReadNat(t[1..]) == Some(Got(n, x)) && n > 0 ==> ReadNumber(t) == Some(Got(MNumber(0 - n), x))
  {
  }

  lemma MinusFirst(digits: Text, x: Text)
    ensures Begins([45] + digits + x, '-') && ([45] + digits + x)[1..] == digits + x
  {
    assert [45] + digits + x == [45] + (digits + x);
  }

  lemma DigitFirst(digits: Text, x: Text)
    requires digits != [] && digits[0] != 45
    ensures !Begins(digits + x, '-')
  {
  }

  lemma NumberReads(n: int, x: Text)
    requires Stops(x)
    ensures ReadNumber(NumberText(n) + x) == Some(Got(MNumber(n), x))
  {
    var abs := if n < 0 then -n else n;
    var digits := NatText(abs);
    NatReads(abs, x);
    if n < 0 {
      MinusFirst(digits, x);
      SignReads([45] + digits + x, abs, x);
    } else {
      NatTextShape(abs);
      DigitFirst(digits, x);
      SignReads(digits + x, abs, x);
    }
  }

  // ---------------------------------------------------------------------------
  // Values
  // ---------------------------------------------------------------------------

  lemma {:induction false} LessIsBefore(a: Text, b: Text)
    requires Less(a, b)
    ensures Before(a, b)
  {
    if a == [] || a[0] < b[0] {
      assert a[..0] == b[..0];
    } else {
      LessIsBefore(a[1..], b[1..]);
      var n :| 0 <= n <= |a[1..]| && n < |b[1..]| && a[1..][..n] == b[1..][..n] && (n == |a[1..]| || a[1..][n] < b[1..][n]);
      assert a[..n + 1] == [a[0]] + a[1..][..n] && b[..n + 1] == [b[0]] + b[1..][..n];
    }
  }

  lemma WordReads(v: Json, x: Text)
    requires v.Null? || v.Bool?
    ensures ReadValue(Print(v) + x) == Some(Got(Mean(v), x))
  {
    var t := Print(v) + x;
    assert t[|Print(v)|..] == x;
    if v == Bool(true) {
      assert t[0] == 116 && t[1] == 114 && t[2] == 117 && t[3] == 101;
    } else if v == Bool(false) {
      assert t[0] == 102 && t[1] == 97 && t[2] == 108 && t[3] == 115 && t[4] == 101;
    } else {
      assert t[0] == 110 && t[1] == 117 && t[2] == 108 && t[3] == 108;
    }
  }

  /** Nothing but a number starts with a digit or a minus sign. */
  lemma NumberIsValueText(t: Text)
    requires t != [] && (t[0] == 45 || 48 <= t[0] <= 57)
    ensures ReadValue(t) == ReadNumber(t)
  {
    assert "null"[0] == 'n' && "true"[0] == 't' && "false"[0] == 'f';
  }

  lemma LiteralReads(s: Text, x: Text)
    ensures ReadValue(Quote(s) + x) == Some(Got(MStr(s), x))
  {
    QuoteReads(s, x);
  }

  /** Whatever may follow a value, reading its print gives what it means, and leaves what followed. */
  lemma {:induction false} ValueReads(v: Json, x: Text)
    requires WellFormed(v) && !v.Undefined? && Stops(x)
    ensures ReadValue(Print(v) + x) == Some(Got(Mean(v), x))
    decreases 2 * Depth(v), 0
  {
    match v
    case Null => WordReads(v, x);
    case Bool(b) => WordReads(v, x);
    case Number(n) =>
      NumberTextShape(n);
      NumberIsValueText(NumberText(n) + x);
      NumberReads(n, x);
    case Str(s) => LiteralReads(s, x);
    case Array(items) => ArrayReads(items, x);
    case Object(fields) => ObjectReads(fields, x);
  }

  lemma {:induction false} ArrayReads(items: seq<Json>, x: Text)
    requires WellFormedItems(items)
    ensures ReadValue(Print(Array(items)) + x) == Some(Got(Mean(Array(items)), x))
    decreases 2 * ItemsDepth(items) + 1, |items| + 1
  {
    var t, inner := Print(Array(items)) + x, PrintItems(items) + ([CLOSE_BRACKET] + x);
    assert t[1..] == inner;
    if items == [] || items == [Undefined] {
      assert PrintItems([Undefined]) == [];
      assert inner == [CLOSE_BRACKET] + x && t[2..] == x;
    } else {
      SlotsRead(items, x);
      OpensItem(items, x);
    }
  }

  /** The inside of an array does not start with the closing bracket, unless all it holds is one undefined. */
  lemma OpensItem(items: seq<Json>, x: Text)
    requires items != [] && items != [Undefined]
    ensures !Begins(PrintItems(items) + ([CLOSE_BRACKET] + x), ']')
  {
    ItemsSplit(items, x);
    if items[0].Undefined? {
      assert |items| > 1;
      assert Print(items[0]) + ItemsTail(items, x) == ItemsTail(items, x);
    } else {
      PrintStart(items[0]);
    }
  }

  lemma {:induction false} SlotReads(v: Json, x: Text)
    requires WellFormed(v) && x != [] && (x[0] == COMMA || x[0] == CLOSE_BRACKET)
    ensures ReadSlot(Print(v) + x) == Some(Got(Mean(v), x))
    decreases 2 * Depth(v), 1
  {
    if v.Undefined? {
      assert Print(v) + x == x;
    } else {
      PrintStart(v);
      ValueReads(v, x);
    }
  }

  lemma {:induction false} SlotsRead(items: seq<Json>, x: Text)
    requires items != [] && WellFormedItems(items)
    ensures ReadSlots(PrintItems(items) + ([CLOSE_BRACKET] + x)) == Some(Got(MeanItems(items), x))
    decreases 2 * ItemsDepth(items) + 1, |items|
  {
    var tail := ItemsTail(items, x);
    ItemsSplit(items, x);
    SlotReads(items[0], tail);
    if |items| == 1 {
      assert tail[1..] == x && items[1..] == [];
      assert MeanItems(items) == [Mean(items[0])];
    } else {
      SlotsRead(items[1..], x);
      assert tail[1..] == PrintItems(items[1..]) + ([CLOSE_BRACKET] + x);
    }
  }

  lemma {:induction false} ObjectReads(fields: seq<Field>, x: Text)
    requires WellFormed(Object(fields))
    ensures ReadValue(Print(Object(fields)) + x) == Some(Got(Mean(Object(fields)), x))
    decreases 2 * FieldsDepth(fields) + 1, |fields| + 2
  {
    var s := Ordered(fields);
    var t, inner := Print(Object(fields)) + x, PrintFields(s) + ([CLOSE_BRACE] + x);
    assert t[1..] == inner;
    OrderedSorts(fields);
    OrderedMeansTheSame(fields);
    OrderedWellFormed(fields);
    if s == [] {
      assert inner == [CLOSE_BRACE] + x && t[2..] == x;
    } else {
      OrderedIsShorter(fields);
      PairsRead(s, x, None);
      FieldsSplit(s, x);
      assert Quote(s[0].key)[0] == QUOTE;
    }
  }

  lemma {:induction false} OrderedIsShorter(fields: seq<Field>)
    ensures |Ordered(fields)| <= |fields|
  {
    KeptIsShorter(fields);
    SortKeepsLength(Kept(fields));
  }

  lemma {:induction false} KeptIsShorter(fields: seq<Field>)
    ensures |Kept(fields)| <= |fields|
  {
    if fields != [] {
      KeptIsShorter(fields[1..]);
    }
  }

  lemma {:induction false} InsertAddsOne(f: Field, fields: seq<Field>)
    ensures |Insert(f, fields)| == |fields| + 1
  {
    if fields != [] && !Less(f.key, fields[0].key) {
      InsertAddsOne(f, fields[1..]);
    }
  }

  lemma {:induction false} SortKeepsLength(fields: seq<Field>)
    ensures |Sort(fields)| == |fields|
  {
    if fields != [] {
      SortKeepsLength(fields[1..]);
      InsertAddsOne(fields[0], Sort(fields[1..]));
    }
  }

  /** The key and its colon, in front of a value. */
  lemma KeyReads(key: Text, after: Text, last: Option<Text>)
    requires last.Some? ==> Less(last.value, key)
    ensures var t := Quote(key) + ([COLON] + after);
            && Begins(t, '"') && ReadString(t[1..]) == Some(Got(key, [COLON] + after))
            && Begins([COLON] + after, ':') && ([COLON] + after)[1..] == after
            && (last.Some? ==> Before(last.value, key))
  {
    QuoteReads(key, [COLON] + after);
    if last.Some? {
      LessIsBefore(last.value, key);
    }
  }

  /** One field, and what comes after it. */
  lemma FieldReads(t: Text, last: Option<Text>, key: Text, middle: Text, value: Meaning, rest: Text)
    requires Begins(t, '"') && ReadString(t[1..]) == Some(Got(key, middle))
    requires Begins(middle, ':') && (last.Some? ==> Before(last.value, key))
    requires ReadValue(middle[1..]) == Some(Got(value, rest))
    ensures Begins(rest, '}') ==> ReadPairs(t, last) == Some(Got(map[key := value], rest[1..]))
    ensures Begins(rest, ',') ==>
              match ReadPairs(rest[1..], Some(key))
              case Some(Got(fields, end)) => ReadPairs(t, last) == Some(Got(fields[key := value], end))
              case None => true
  {
  }

  lemma MeanOfFirst(fields: seq<Field>)
    requires fields != [] && Defined(fields)
    ensures MeanFields(fields) == MeanFields(fields[1..])[fields[0].key := Mean(fields[0].value)]
  {
    assert !fields[0].value.Undefined?;
  }

  lemma {:induction false} PairsRead(fields: seq<Field>, x: Text, last: Option<Text>)
    requires fields != [] && WellFormedFields(fields) && Sorted(fields) && Defined(fields)
    requires last.Some? ==> Less(last.value, fields[0].key)
    ensures ReadPairs(PrintFields(fields) + ([CLOSE_BRACE] + x), last) == Some(Got(MeanFields(fields), x))
    decreases 2 * FieldsDepth(fields) + 1, |fields|
  {
    var key, value, tail := fields[0].key, fields[0].value, FieldsTail(fields, x);
    var after := Print(value) + tail;
    FieldsSplit(fields, x);
    KeyReads(key, after, last);
    ValueReads(value, tail);
    FieldReads(Quote(key) + ([COLON] + after), last, key, [COLON] + after, Mean(value), tail);
    MeanOfFirst(fields);
    if |fields| == 1 {
      assert tail[1..] == x && fields[1..] == [];
    } else {
      assert Sorted(fields[1..]) && Defined(fields[1..]);
      PairsRead(fields[1..], x, Some(key));
      assert tail[1..] == PrintFields(fields[1..]) + ([CLOSE_BRACE] + x);
    }
  }

  /** Reading the canonical form gives back what the value means, and nothing is left over. */
  lemma CanonicalJsonReads(v: Json)
    requires WellFormed(v) && !v.Undefined?
    ensures ReadJson(Print(v)) == Some(Mean(v))
  {
    ValueReads(v, []);
    assert Print(v) + [] == Print(v);
  }

  /**
   The canonical form is exact: two values print alike if and only if they mean the same. The order of
   keys is the only thing it forgets, besides undefined fields and a single undefined in an array.
   */
  lemma CanonicalJsonIsExact(v: Json, w: Json)
    requires WellFormed(v) && WellFormed(w) && !v.Undefined? && !w.Undefined?
    ensures Print(v) == Print(w) <==> Mean(v) == Mean(w)
  {
    if Mean(v) == Mean(w) {
      SamePrint(v, w);
    }
    CanonicalJsonReads(v);
    CanonicalJsonReads(w);
  }

  /** A literal and what follows it are determined by the text. */
  lemma QuoteParses(s: Text, t: Text, x: Text, y: Text)
    requires Quote(s) + x == Quote(t) + y
    ensures s == t && x == y
  {
    QuoteReads(s, x);
    QuoteReads(t, y);
  }

  // ---------------------------------------------------------------------------
  // Bytes
  // ---------------------------------------------------------------------------

  /** The one or two units of a character. */
  function UnitsOf(code: nat): Text
    requires code < 0x110000
  {
    if code < 0x10000 then [code] else [0xD800 + (code - 0x10000) / 0x400, 0xDC00 + (code - 0x10000) % 0x400]
  }

  /** UTF-8 bytes as UTF-16 text. */
  function ReadUnits(bs: seq<nat>): Option<Text> {
    if bs == [] then Some([])
    else if |bs| < Width(bs[0]) || FirstCode(bs) >= 0x110000 then None
    else
      match ReadUnits(bs[Width(bs[0])..])
      case Some(rest) => Some(UnitsOf(FirstCode(bs)) + rest)
      case None => None
  }

  lemma PairReads(s: Text)
    requires s != [] && Paired(s)
    ensures CodePoint(s) < 0x110000 && UnitsOf(CodePoint(s)) == Taken(s)
  {
    if StartsPair(s) {
      var a: int, b: int := s[0] - 0xD800, s[1] - 0xDC00;
      assert CodePoint(s) - 0x10000 == a * 0x400 + b;
      assert s[..2] == [s[0], s[1]];
    } else {
      assert s[..1] == [s[0]];
    }
  }

  /** Text without lone surrogates comes back from its bytes. */
  lemma {:induction false} UnitsRead(s: Text)
    requires Paired(s)
    ensures ReadUnits(ToUtf8(s)) == Some(s)
    decreases |s|
  {
    if s != [] {
      var bs, code := ToUtf8(s), CodePoint(s);
      PairReads(s);
      CharacterReads(code, ToUtf8(Rest(s)));
      assert bs == Utf8Code(code) + ToUtf8(Rest(s));
      assert bs[|Utf8Code(code)|..] == ToUtf8(Rest(s));
      UnitsRead(Rest(s));
      assert Taken(s) + Rest(s) == s;
    }
  }

  /** UTF-8 loses nothing of text without lone surrogates. */
  lemma ToUtf8Injective(s: Text, t: Text)
    requires Paired(s) && Paired(t) && ToUtf8(s) == ToUtf8(t)
    ensures s == t
  {
    UnitsRead(s);
    UnitsRead(t);
  }

  /** From the bytes that are hashed to what the value means. */
  lemma HashedBytesRead(v: Json)
    requires WellFormed(v) && !v.Undefined?
    ensures var text := ReadUnits(ToUtf8(Print(v))); text.Some? && ReadJson(text.value) == Some(Mean(v))
  {
    PrintIsPaired(v);
    UnitsRead(Print(v));
    CanonicalJsonReads(v);
  }

  // ---------------------------------------------------------------------------
  // What values mean, one by one
  // ---------------------------------------------------------------------------

  /** Words, numbers and strings are read as themselves. */
  lemma ScalarsRead(b: bool, n: int, s: Text)
    ensures ReadJson(Print(Null)) == Some(MNull) && ReadJson(Print(Bool(b))) == Some(MBool(b))
    ensures ReadJson(Print(Json.Number(n))) == Some(MNumber(n)) && ReadJson(Print(Str(s))) == Some(MStr(s))
  {
    CanonicalJsonReads(Null);
    CanonicalJsonReads(Bool(b));
    CanonicalJsonReads(Json.Number(n));
    CanonicalJsonReads(Str(s));
  }

  lemma {:induction false} MeanItemsAt(items: seq<Json>, i: nat)
    requires i < |items|
    ensures MeanItems(items)[i] == Mean(items[i])
  {
    if i > 0 {
      MeanItemsAt(items[1..], i - 1);
    }
  }

  lemma {:induction false} ItemsWellFormed(items: seq<Json>, i: nat)
    requires WellFormedItems(items) && i < |items|
    ensures WellFormed(items[i])
  {
    if i > 0 {
      ItemsWellFormed(items[1..], i - 1);
    }
  }

  /** An array is read item by item; an undefined one leaves an empty slot, but alone it leaves nothing. */
  lemma ArrayReadsItems(items: seq<Json>, i: nat)
    requires WellFormedItems(items) && i < |items| && items != [Undefined]
    ensures var read := ReadJson(Print(Array(items)));
            && read.Some? && read.value.MArray? && |read.value.items| == |items|
            && if items[i].Undefined? then read.value.items[i] == MUndefined
               else ReadJson(Print(items[i])) == Some(read.value.items[i])
  {
    CanonicalJsonReads(Array(items));
    MeanItemsAt(items, i);
    ItemsWellFormed(items, i);
    if !items[i].Undefined? {
      CanonicalJsonReads(items[i]);
    }
  }

  /** An object is read field by field, and holds no key but those of its defined fields. */
  lemma ObjectReadsFields(fields: seq<Field>, key: Text)
    requires WellFormed(Object(fields))
    ensures var read := ReadJson(Print(Object(fields)));
            && read.Some? && read.value.MObject?
            && (key in read.value.fields <==> exists f :: f in fields && f.key == key && !f.value.Undefined?)
            && (forall f :: f in fields && f.key == key && !f.value.Undefined? ==>
                  key in read.value.fields && ReadJson(Print(f.value)) == Some(read.value.fields[key]))
  {
    CanonicalJsonReads(Object(fields));
    MeanFieldsAt(fields, key);
    forall f | f in fields && f.key == key && !f.value.Undefined? ensures ReadJson(Print(f.value)) == Some(Mean(f.value)) {
      WellFormedMember(fields, f);
      CanonicalJsonReads(f.value);
    }
  }
}
