/**
 The canonical JSON form hashed into the audit log: what two values must share to be printed alike.
 */
module CanonicalJson {
  import opened Encodings
  import opened JsonText

  /** A JSON-like value; numbers are integers, and undefined may sit in fields and array slots. */
  datatype Json =
    | Undefined
    | Null
    | Bool(b: bool)
    | Number(n: int)
    | Str(s: Text)
    | Array(items: seq<Json>)
    | Object(fields: seq<Field>)

  datatype Field = Field(key: Text, value: Json)

  function Max(a: nat, b: nat): nat {
    if a < b then b else a
  }

  function Depth(v: Json): nat {
    match v
    case Array(items) => 1 + ItemsDepth(items)
    case Object(fields) => 1 + FieldsDepth(fields)
    case _ => 0
  }

  function ItemsDepth(items: seq<Json>): nat {
    if items == [] then 0 else Max(Depth(items[0]), ItemsDepth(items[1..]))
  }

  function FieldsDepth(fields: seq<Field>): nat {
    if fields == [] then 0 else Max(Depth(fields[0].value), FieldsDepth(fields[1..]))
  }

  // ---------------------------------------------------------------------------
  // Field order
  // ---------------------------------------------------------------------------

  /** Code-unit order, as the default sort compares strings. */
  predicate Less(a: Text, b: Text) {
    b != [] && (a == [] || a[0] < b[0] || (a[0] == b[0] && Less(a[1..], b[1..])))
  }

  lemma {:induction false} LessIsTotal(a: Text, b: Text)
    ensures Less(a, b) || a == b || Less(b, a)
  {
    if a != [] && b != [] && a[0] == b[0] {
      LessIsTotal(a[1..], b[1..]);
      assert a == [a[0]] + a[1..] && b == [b[0]] + b[1..];
    }
  }

  lemma {:induction false} LessIsStrict(a: Text, b: Text, c: Text)
    ensures !Less(a, a)
    ensures Less(a, b) && Less(b, c) ==> Less(a, c)
    decreases |a|
  {
    if a != [] {
      LessIsStrict(a[1..], if b == [] then [] else b[1..], if c == [] then [] else c[1..]);
    }
  }

  /** Fields whose value is undefined are left out. */
  function Kept(fields: seq<Field>): seq<Field> {
    if fields == [] then []
    else if fields[0].value.Undefined? then Kept(fields[1..])
    else [fields[0]] + Kept(fields[1..])
  }

  function Insert(f: Field, fields: seq<Field>): seq<Field> {
    if fields == [] || Less(f.key, fields[0].key) then [f] + fields
    else [fields[0]] + Insert(f, fields[1..])
  }

  function Sort(fields: seq<Field>): seq<Field> {
    if fields == [] then [] else Insert(fields[0], Sort(fields[1..]))
  }

  lemma {:induction false} InsertDepth(f: Field, fields: seq<Field>)
    ensures FieldsDepth(Insert(f, fields)) == Max(Depth(f.value), FieldsDepth(fields))
  {
    if fields == [] || Less(f.key, fields[0].key) {
      assert ([f] + fields)[1..] == fields;
    } else {
      InsertDepth(f, fields[1..]);
      assert Insert(f, fields)[1..] == Insert(f, fields[1..]);
    }
  }

  lemma {:induction false} SortDepth(fields: seq<Field>)
    ensures FieldsDepth(Sort(fields)) == FieldsDepth(fields)
  {
    if fields != [] {
      SortDepth(fields[1..]);
      InsertDepth(fields[0], Sort(fields[1..]));
    }
  }

  lemma {:induction false} KeptDepth(fields: seq<Field>)
    ensures FieldsDepth(Kept(fields)) <= FieldsDepth(fields)
  {
    if fields != [] {
      KeptDepth(fields[1..]);
      if !fields[0].value.Undefined? {
        assert Kept(fields)[1..] == Kept(fields[1..]);
      }
    }
  }

  /** The fields an object is printed with, in order. */
  function Ordered(fields: seq<Field>): (r: seq<Field>)
    ensures FieldsDepth(r) <= FieldsDepth(fields)
  {
    KeptDepth(fields);
    SortDepth(Kept(fields));
    Sort(Kept(fields))
  }

  // ---------------------------------------------------------------------------
  // Printing
  // ---------------------------------------------------------------------------

  function DigitUnit(d: nat): Unit {
    if d < 10 then 48 + d else 63
  }

  function NumberText(n: int): Text {
    if n < 0 then [45] + NatText(-n) else NatText(n)
  }

  function NatText(n: nat): Text {
    if n == 0 then [48] else DigitTexts(Digits(n, 10))
  }

  function DigitTexts(ds: seq<nat>): (t: Text)
    ensures |t| == |ds|
  {
    seq(|ds|, i requires 0 <= i < |ds| => DigitUnit(ds[i]))
  }

  const COMMA: Unit := 44
  const COLON: Unit := 58
  const OPEN_BRACKET: Unit := 91
  const CLOSE_BRACKET: Unit := 93
  const OPEN_BRACE: Unit := 123
  const CLOSE_BRACE: Unit := 125

  const NULL: Text := [110, 117, 108, 108]
  const TRUE: Text := [116, 114, 117, 101]
  const FALSE: Text := [102, 97, 108, 115, 101]

  /** Undefined prints as nothing, which is what joining an array's parts makes of it. */
  function Print(v: Json): Text
    decreases 2 * Depth(v), 0
  {
    match v
    case Undefined => []
    case Null => NULL
    case Bool(b) => if b then TRUE else FALSE
    case Number(n) => NumberText(n)
    case Str(s) => Quote(s)
    case Array(items) => [OPEN_BRACKET] + PrintItems(items) + [CLOSE_BRACKET]
    case Object(fields) => [OPEN_BRACE] + PrintFields(Ordered(fields)) + [CLOSE_BRACE]
  }

  function PrintItems(items: seq<Json>): Text
    decreases 2 * ItemsDepth(items) + 1, |items|
  {
    if items == [] then []
    else if |items| == 1 then Print(items[0])
    else Print(items[0]) + [COMMA] + PrintItems(items[1..])
  }

  function PrintField(f: Field): Text
    decreases 2 * Depth(f.value), 1
  {
    Quote(f.key) + [COLON] + Print(f.value)
  }

  function PrintFields(fields: seq<Field>): Text
    decreases 2 * FieldsDepth(fields) + 1, |fields|
  {
    if fields == [] then []
    else if |fields| == 1 then PrintField(fields[0])
    else PrintField(fields[0]) + [COMMA] + PrintFields(fields[1..])
  }

  // ---------------------------------------------------------------------------
  // Meaning
  // ---------------------------------------------------------------------------

  /** What a value says: objects are maps without undefined fields, and [undefined] says []. */
  datatype Meaning =
    | MUndefined | MNull | MBool(b: bool) | MNumber(n: int) | MStr(s: Text)
    | MArray(items: seq<Meaning>) | MObject(fields: map<Text, Meaning>)

  function Mean(v: Json): Meaning {
    match v
    case Undefined => MUndefined
    case Null => MNull
    case Bool(b) => MBool(b)
    case Number(n) => MNumber(n)
    case Str(s) => MStr(s)
    case Array(items) => MArray(if items == [Undefined] then [] else MeanItems(items))
    case Object(fields) => MObject(MeanFields(fields))
  }

  function MeanItems(items: seq<Json>): (r: seq<Meaning>)
    ensures |r| == |items|
  {
    if items == [] then [] else [Mean(items[0])] + MeanItems(items[1..])
  }

  function MeanFields(fields: seq<Field>): map<Text, Meaning> {
    if fields == [] then map[]
    else if fields[0].value.Undefined? then MeanFields(fields[1..])
    else MeanFields(fields[1..])[fields[0].key := Mean(fields[0].value)]
  }

  predicate DistinctKeys(fields: seq<Field>) {
    forall i, j :: 0 <= i < j < |fields| ==> fields[i].key != fields[j].key
  }

  /** Every object in the value has each key once, as objects do. */
  predicate WellFormed(v: Json) {
    match v
    case Array(items) => WellFormedItems(items)
    case Object(fields) => DistinctKeys(fields) && WellFormedFields(fields)
    case _ => true
  }

  predicate WellFormedItems(items: seq<Json>) {
    items != [] ==> WellFormed(items[0]) && WellFormedItems(items[1..])
  }

  predicate WellFormedFields(fields: seq<Field>) {
    fields != [] ==> WellFormed(fields[0].value) && WellFormedFields(fields[1..])
  }
}
