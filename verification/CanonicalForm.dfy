/** Values that mean the same print alike: key order does not matter. And what printed text looks like, piece by piece. */
module CanonicalForm {
  import opened Encodings
  import opened JsonText
  import opened CanonicalJson

  // ---------------------------------------------------------------------------
  // Ordered fields
  // ---------------------------------------------------------------------------

  predicate Sorted(fields: seq<Field>) {
    forall i, j :: 0 <= i < j < |fields| ==> Less(fields[i].key, fields[j].key)
  }

  predicate Defined(fields: seq<Field>) {
    forall i :: 0 <= i < |fields| ==> !fields[i].value.Undefined?
  }

  lemma {:induction false} InsertHas(f: Field, fields: seq<Field>, g: Field)
    ensures g in Insert(f, fields) <==> g == f || g in fields
  {
    if fields != [] && !Less(f.key, fields[0].key) {
      InsertHas(f, fields[1..], g);
    }
  }

  lemma {:induction false} SortHas(fields: seq<Field>, g: Field)
    ensures g in Sort(fields) <==> g in fields
  {
    if fields != [] {
      SortHas(fields[1..], g);
      InsertHas(fields[0], Sort(fields[1..]), g);
    }
  }

  lemma {:induction false} KeptHas(fields: seq<Field>, g: Field)
    ensures g in Kept(fields) <==> g in fields && !g.value.Undefined?
  {
    if fields != [] {
      KeptHas(fields[1..], g);
    }
  }

  /** Ordering keeps exactly the defined fields. */
  lemma OrderedHas(fields: seq<Field>, g: Field)
    ensures g in Ordered(fields) <==> g in fields && !g.value.Undefined?
  {
    SortHas(Kept(fields), g);
    KeptHas(fields, g);
  }

  lemma {:induction false} InsertSorts(f: Field, fields: seq<Field>)
    requires Sorted(fields)
    requires forall g :: g in fields ==> g.key != f.key
    ensures Sorted(Insert(f, fields))
  {
    if fields == [] {
    } else if Less(f.key, fields[0].key) {
      forall g | g in fields ensures Less(f.key, g.key) {
        LessIsStrict(f.key, fields[0].key, g.key);
      }
      SortedCons(f, fields);
    } else {
      var tail := fields[1..];
      InsertSorts(f, tail);
      LessIsTotal(f.key, fields[0].key);
      assert fields[0] in fields;
      forall g | g in Insert(f, tail) ensures Less(fields[0].key, g.key) {
        InsertHas(f, tail, g);
      }
      SortedCons(fields[0], Insert(f, tail));
    }
  }

  lemma SortedCons(f: Field, fields: seq<Field>)
    requires Sorted(fields) && forall g :: g in fields ==> Less(f.key, g.key)
    ensures Sorted([f] + fields)
  {
    var r := [f] + fields;
    forall i, j | 0 <= i < j < |r| ensures Less(r[i].key, r[j].key) {
      assert r[j] == fields[j - 1] && r[j] in fields;
      if i > 0 {
        assert r[i] == fields[i - 1];
      }
    }
  }

  lemma {:induction false} SortSorts(fields: seq<Field>)
    requires DistinctKeys(fields)
    ensures Sorted(Sort(fields))
  {
    if fields != [] {
      var tail := fields[1..];
      assert DistinctKeys(tail);
      SortSorts(tail);
      forall g | g in Sort(tail) ensures g.key != fields[0].key {
        SortHas(tail, g);
        var i :| 0 <= i < |tail| && tail[i] == g;
        assert fields[i + 1] == g;
      }
      InsertSorts(fields[0], Sort(tail));
    }
  }

  lemma {:induction false} KeptDistinct(fields: seq<Field>)
    requires DistinctKeys(fields)
    ensures DistinctKeys(Kept(fields))
  {
    if fields != [] {
      var tail := fields[1..];
      KeptDistinct(tail);
      var kept := Kept(tail);
      forall g | g in kept ensures g.key != fields[0].key {
        KeptHas(tail, g);
        var i :| 0 <= i < |tail| && tail[i] == g;
        assert fields[i + 1] == g;
      }
      var r := [fields[0]] + kept;
      forall i, j | 0 <= i < j < |r| ensures r[i].key != r[j].key {
        assert r[j] == kept[j - 1] && r[j] in kept;
        if i > 0 {
          assert r[i] == kept[i - 1];
        }
      }
    }
  }

  lemma OrderedSorts(fields: seq<Field>)
    requires DistinctKeys(fields)
    ensures Sorted(Ordered(fields)) && Defined(Ordered(fields))
  {
    KeptDistinct(fields);
    SortSorts(Kept(fields));
    forall i | 0 <= i < |Ordered(fields)| ensures !Ordered(fields)[i].value.Undefined? {
      OrderedHas(fields, Ordered(fields)[i]);
    }
  }

  lemma {:induction false} WellFormedMember(fields: seq<Field>, g: Field)
    requires WellFormedFields(fields) && g in fields
    ensures WellFormed(g.value)
  {
    if fields[0] != g {
      WellFormedMember(fields[1..], g);
    }
  }

  lemma {:induction false} MembersWellFormed(fields: seq<Field>)
    requires forall g :: g in fields ==> WellFormed(g.value)
    ensures WellFormedFields(fields)
  {
    if fields != [] {
      assert fields[0] in fields;
      MembersWellFormed(fields[1..]);
    }
  }

  lemma OrderedWellFormed(fields: seq<Field>)
    requires WellFormedFields(fields)
    ensures WellFormedFields(Ordered(fields))
  {
    forall g | g in Ordered(fields) ensures WellFormed(g.value) {
      OrderedHas(fields, g);
      WellFormedMember(fields, g);
    }
    MembersWellFormed(Ordered(fields));
  }

  /** The meaning of fields with distinct keys, key by key. */
  lemma {:induction false} MeanFieldsAt(fields: seq<Field>, k: Text)
    requires DistinctKeys(fields)
    ensures k in MeanFields(fields) <==> exists g :: g in fields && g.key == k && !g.value.Undefined?
    ensures forall g :: g in fields && g.key == k && !g.value.Undefined? ==> k in MeanFields(fields) && MeanFields(fields)[k] == Mean(g.value)
  {
    if fields != [] {
      var tail := fields[1..];
      assert DistinctKeys(tail);
      MeanFieldsAt(tail, k);
      forall g | g in tail ensures g in fields && g.key != fields[0].key {
        var i :| 0 <= i < |tail| && tail[i] == g;
        assert fields[i + 1] == g;
      }
      assert fields[0] in fields;
      assert forall g :: g in fields ==> g == fields[0] || g in tail;
    }
  }

  /** Ordering does not change the meaning. */
  lemma OrderedMeansTheSame(fields: seq<Field>)
    requires DistinctKeys(fields)
    ensures MeanFields(Ordered(fields)) == MeanFields(fields)
  {
    var r := Ordered(fields);
    OrderedSorts(fields);
    SortedIsDistinct(r);
    forall k
      ensures k in MeanFields(r) <==> k in MeanFields(fields)
      ensures k in MeanFields(r) ==> MeanFields(r)[k] == MeanFields(fields)[k]
    {
      MeanFieldsAt(r, k);
      MeanFieldsAt(fields, k);
      forall g ensures g in r <==> g in fields && !g.value.Undefined? {
        OrderedHas(fields, g);
      }
    }
  }

  lemma SortedIsDistinct(fields: seq<Field>)
    requires Sorted(fields)
    ensures DistinctKeys(fields)
  {
    forall i, j | 0 <= i < j < |fields| ensures fields[i].key != fields[j].key {
      LessIsStrict(fields[i].key, fields[i].key, fields[i].key);
    }
  }

  // ---------------------------------------------------------------------------
  // Same meaning, same text
  // ---------------------------------------------------------------------------

  /** Equally long, with the same keys and meanings place by place. */
  predicate Alike(s: seq<Field>, t: seq<Field>) {
    && |s| == |t|
    && forall i :: 0 <= i < |s| ==> s[i].key == t[i].key && Mean(s[i].value) == Mean(t[i].value)
  }

  /** Sorted fields are determined by what they mean. */
  lemma {:induction false} SortedDetermined(s: seq<Field>, t: seq<Field>)
    requires Sorted(s) && Sorted(t) && Defined(s) && Defined(t)
    requires MeanFields(s) == MeanFields(t)
    ensures Alike(s, t)
  {
    SortedIsDistinct(s);
    SortedIsDistinct(t);
    FieldsMeanSomething(s);
    FieldsMeanSomething(t);
    if s != [] && t != [] {
      FirstKeyLeast(s, t);
      FirstKeyLeast(t, s);
      LessIsTotal(s[0].key, t[0].key);
      LessIsStrict(s[0].key, t[0].key, s[0].key);
      var k := s[0].key;
      MeanWithoutFirst(s);
      MeanWithoutFirst(t);
      MeanFieldsAt(s, k);
      MeanFieldsAt(t, k);
      assert s[0] in s && t[0] in t;
      SortedDetermined(s[1..], t[1..]);
      forall i | 0 <= i < |s| ensures s[i].key == t[i].key && Mean(s[i].value) == Mean(t[i].value) {
        if i > 0 {
          assert s[i] == s[1..][i - 1] && t[i] == t[1..][i - 1];
        }
      }
    }
  }

  lemma FieldsMeanSomething(s: seq<Field>)
    requires Defined(s)
    ensures s == [] <==> MeanFields(s) == map[]
  {
    if s != [] {
      assert s[0].key in MeanFields(s);
    }
  }

  lemma FirstKeyLeast(s: seq<Field>, t: seq<Field>)
    requires Sorted(s) && Sorted(t) && Defined(s) && Defined(t) && s != [] && t != []
    requires MeanFields(s) == MeanFields(t)
    ensures s[0].key == t[0].key || Less(t[0].key, s[0].key)
  {
    SortedIsDistinct(s);
    SortedIsDistinct(t);
    MeanFieldsAt(s, s[0].key);
    MeanFieldsAt(t, s[0].key);
    assert s[0] in s;
    var g :| g in t && g.key == s[0].key && !g.value.Undefined?;
    var i :| 0 <= i < |t| && t[i] == g;
  }

  lemma MeanWithoutFirst(s: seq<Field>)
    requires Sorted(s) && Defined(s) && s != []
    ensures MeanFields(s[1..]) == MeanFields(s) - {s[0].key}
  {
    SortedIsDistinct(s);
    var tail := s[1..];
    assert DistinctKeys(tail);
    MeanFieldsAt(tail, s[0].key);
    forall g | g in tail ensures g.key != s[0].key {
      var i :| 0 <= i < |tail| && tail[i] == g;
      assert s[i + 1] == g;
    }
  }

  lemma {:induction false} SameItems(xs: seq<Json>, ys: seq<Json>)
    requires MeanItems(xs) == MeanItems(ys) && WellFormedItems(xs) && WellFormedItems(ys)
    ensures PrintItems(xs) == PrintItems(ys)
    decreases 2 * ItemsDepth(xs) + 1, |xs|
  {
    assert |xs| == |ys|;
    if xs != [] {
      var ms, ns := MeanItems(xs), MeanItems(ys);
      assert ms[0] == Mean(xs[0]) && ns[0] == Mean(ys[0]);
      assert ms[1..] == MeanItems(xs[1..]) && ns[1..] == MeanItems(ys[1..]);
      SamePrint(xs[0], ys[0]);
      SameItems(xs[1..], ys[1..]);
    }
  }

  lemma {:induction false} SameFields(s: seq<Field>, t: seq<Field>)
    requires Alike(s, t) && WellFormedFields(s) && WellFormedFields(t)
    ensures PrintFields(s) == PrintFields(t)
    decreases 2 * FieldsDepth(s) + 1, |s|
  {
    if s != [] {
      SamePrint(s[0].value, t[0].value);
      assert Alike(s[1..], t[1..]);
      SameFields(s[1..], t[1..]);
    }
  }

  /** Values that mean the same print the same, whatever the order of their keys. */
  lemma {:induction false} SamePrint(v: Json, w: Json)
    requires Mean(v) == Mean(w) && WellFormed(v) && WellFormed(w)
    ensures Print(v) == Print(w)
    decreases 2 * Depth(v), 0
  {
    match v
    case Array(xs) =>
      var ys := w.items;
      assert PrintItems([Undefined]) == [];
      if xs != [Undefined] && ys != [Undefined] {
        SameItems(xs, ys);
      } else if xs != [Undefined] {
        assert |MeanItems(xs)| == 0;
      } else if ys != [Undefined] {
        assert |MeanItems(ys)| == 0;
      }
    case Object(f) =>
      var g := w.fields;
      OrderedSorts(f);
      OrderedSorts(g);
      OrderedMeansTheSame(f);
      OrderedMeansTheSame(g);
      OrderedWellFormed(f);
      OrderedWellFormed(g);
      SortedDetermined(Ordered(f), Ordered(g));
      SameFields(Ordered(f), Ordered(g));
    case _ =>
  }

  // ---------------------------------------------------------------------------
  // The shape of printed text
  // ---------------------------------------------------------------------------

  predicate StopUnit(u: Unit) {
    u == COMMA || u == CLOSE_BRACKET || u == CLOSE_BRACE
  }

  /** What may follow a value. */
  predicate Stops(x: Text) {
    x == [] || StopUnit(x[0])
  }

  lemma NatTextShape(n: nat)
    ensures |NatText(n)| > 0 && forall i :: 0 <= i < |NatText(n)| ==> 48 <= NatText(n)[i] < 58
    ensures n > 0 ==> NatText(n)[0] != 48
  {
    if n > 0 {
      var ds := Digits(n, 10);
      assert DigitTexts(ds)[0] == DigitUnit(ds[0]);
    }
  }

  lemma NumberTextShape(n: int)
    ensures |NumberText(n)| > 0
    ensures NumberText(n)[0] == 45 || 48 <= NumberText(n)[0] < 58
    ensures n < 0 <==> NumberText(n)[0] == 45
  {
    NatTextShape(if n < 0 then -n else n);
  }

  /** The first unit of a printed value tells its kind, and is no stop. */
  lemma PrintStart(v: Json)
    requires !v.Undefined?
    ensures var t := Print(v);
            |t| > 0 && !StopUnit(t[0])
            && match v
               case Null => t[0] == 110
               case Bool(b) => t[0] == if b then 116 else 102
               case Number(_) => t[0] == 45 || 48 <= t[0] < 58
               case Str(_) => t[0] == QUOTE
               case Array(_) => t[0] == OPEN_BRACKET
               case Object(_) => t[0] == OPEN_BRACE
  {
    if v.Number? {
      NumberTextShape(v.n);
    }
  }

  /** What follows the first item inside the brackets. */
  function ItemsTail(items: seq<Json>, x: Text): Text
    requires items != []
  {
    if |items| == 1 then [CLOSE_BRACKET] + x else [COMMA] + (PrintItems(items[1..]) + ([CLOSE_BRACKET] + x))
  }

  lemma ItemsSplit(items: seq<Json>, x: Text)
    requires items != []
    ensures PrintItems(items) + ([CLOSE_BRACKET] + x) == Print(items[0]) + ItemsTail(items, x)
  {
  }

  function FieldsTail(fields: seq<Field>, x: Text): Text
    requires fields != []
  {
    if |fields| == 1 then [CLOSE_BRACE] + x else [COMMA] + (PrintFields(fields[1..]) + ([CLOSE_BRACE] + x))
  }

  lemma Regroup(q: Text, c: Unit, p: Text, t: Text)
    ensures q + [c] + p + t == q + ([c] + (p + t))
  {
    assert q + [c] + (p + t) == q + [c] + p + t;
  }

  lemma RegroupTail(h: Text, m: Unit, r: Text, z: Text)
    ensures h + [m] + r + z == h + ([m] + (r + z))
  {
    Regroup(h, m, r, z);
  }

  lemma FieldsSplit(fields: seq<Field>, x: Text)
    requires fields != []
    ensures PrintFields(fields) + ([CLOSE_BRACE] + x) ==
            Quote(fields[0].key) + ([COLON] + (Print(fields[0].value) + FieldsTail(fields, x)))
  {
    var t := FieldsTail(fields, x);
    FieldsHead(fields, x);
    Regroup(Quote(fields[0].key), COLON, Print(fields[0].value), t);
  }

  lemma FieldsHead(fields: seq<Field>, x: Text)
    requires fields != []
    ensures PrintFields(fields) + ([CLOSE_BRACE] + x) == PrintField(fields[0]) + FieldsTail(fields, x)
  {
    if |fields| > 1 {
      RegroupTail(PrintField(fields[0]), COMMA, PrintFields(fields[1..]), [CLOSE_BRACE] + x);
    }
  }

  // ---------------------------------------------------------------------------
  // Well-formed UTF-16
  // ---------------------------------------------------------------------------

  lemma NatTextIsPaired(n: int)
    ensures Paired(NumberText(n))
  {
    NatTextShape(if n < 0 then -n else n);
    PlainIsPaired(NumberText(n));
  }

  lemma {:induction false} ItemsArePaired(items: seq<Json>)
    ensures Paired(PrintItems(items))
    decreases 2 * ItemsDepth(items) + 1, |items|
  {
    if items != [] {
      PrintIsPaired(items[0]);
      ItemsArePaired(items[1..]);
      PlainIsPaired([COMMA]);
      PairedConcat(Print(items[0]), [COMMA]);
      PairedConcat(Print(items[0]) + [COMMA], PrintItems(items[1..]));
    }
  }

  lemma {:induction false} FieldsArePaired(fields: seq<Field>)
    ensures Paired(PrintFields(fields))
    decreases 2 * FieldsDepth(fields) + 1, |fields|
  {
    if fields != [] {
      var quoted, printed := Quote(fields[0].key), Print(fields[0].value);
      PrintIsPaired(fields[0].value);
      QuoteIsPaired(fields[0].key);
      PlainIsPaired([COLON]);
      PlainIsPaired([COMMA]);
      PairedConcat(quoted, [COLON]);
      PairedConcat(quoted + [COLON], printed);
      FieldsArePaired(fields[1..]);
      PairedConcat(PrintField(fields[0]), [COMMA]);
      PairedConcat(PrintField(fields[0]) + [COMMA], PrintFields(fields[1..]));
    }
  }

  /** Whatever strings a value holds, its canonical form has no lone surrogate, so UTF-8 loses nothing of it. */
  lemma {:induction false} PrintIsPaired(v: Json)
    ensures Paired(Print(v))
    decreases 2 * Depth(v), 0
  {
    match v
    case Undefined =>
    case Null => PlainIsPaired(NULL);
    case Bool(b) => PlainIsPaired(Print(v));
    case Number(n) => NatTextIsPaired(n);
    case Str(s) => QuoteIsPaired(s);
    case Array(items) =>
      ItemsArePaired(items);
      Bracketed(OPEN_BRACKET, PrintItems(items), CLOSE_BRACKET);
    case Object(fields) =>
      FieldsArePaired(Ordered(fields));
      Bracketed(OPEN_BRACE, PrintFields(Ordered(fields)), CLOSE_BRACE);
  }

  lemma Bracketed(open: Unit, inner: Text, close: Unit)
    requires Paired(inner) && !High(open) && !Low(open) && !High(close) && !Low(close)
    ensures Paired([open] + inner + [close])
  {
    PlainIsPaired([open]);
    PlainIsPaired([close]);
    PairedConcat([open], inner);
    PairedConcat([open] + inner, [close]);
  }
}
