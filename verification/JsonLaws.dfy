/**
 What canonical JSON text determines: the parser recovers the canonical value from it, and two values
 have the same text exactly when they agree up to key order and undefined properties.

 The first half follows the parser through the text it is given; the second half compares values
 with their sorted forms.
 */
module JsonLaws {
  import opened Basics
  import opened Order
  import opened Json

  // ---------- Parsing inverts writing ----------

  predicate NoDigit(rest: string) {
    rest == [] || !IsDigit(rest[0])
  }

  lemma {:induction false} ReadDecimal(n: nat, rest: string)
    ensures ParseDigits(Decimal(n) + rest, 0) == ParseDigits(rest, n)
    ensures IsDigit(Decimal(n)[0]) && (Decimal(n)[0] == '0' <==> n == 0) && (n == 0 ==> |Decimal(n)| == 1)
  {
    if n < 10 {
      assert (Decimal(n) + rest)[1..] == rest;
    } else {
      var d := ['0' + (n % 10) as char];
      ReadDecimal(n / 10, d + rest);
      assert Decimal(n) + rest == Decimal(n / 10) + (d + rest);
      assert (d + rest)[1..] == rest;
    }
  }

  lemma ReadNumber(n: int, rest: string)
    requires NoDigit(rest)
    ensures ParseNumber(NumText(n) + rest) == Some((Num(n), rest))
  {
    var m: nat := if n < 0 then -n else n;
    var t := Decimal(m) + rest;
    ReadDecimal(m, rest);
    assert t[0] == Decimal(m)[0];
    assert ParseDigits(t, 0) == ParseDigits(t[1..], Digit(t[0]));
    if m == 0 {
      assert t[1..] == rest;
    }
    if n < 0 {
      assert NumText(n) + rest == "-" + t;
      assert (NumText(n) + rest)[1..] == t;
    }
  }

  lemma {:induction false} ReadEscape(c: char, tail: string, acc: string)
    ensures ParseString(EscapeChar(c) + tail, acc) == ParseString(tail, acc + [c])
  {
    var e := EscapeChar(c);
    var s := e + tail;
    if |e| == 1 {
      assert s[1..] == tail;
    } else if |e| == 2 {
      assert s[2..] == tail && Unescape(s[1]) == Some(c);
    } else {
      assert s[6..] == tail;
      var u := s[2..6];
      assert u == "00" + [HEX[c as int / 16], HEX[c as int % 16]];
      assert ParseUnicode(u) == Some(c);
    }
  }

  lemma {:induction false} ReadString(s: string, rest: string, acc: string)
    ensures ParseString(Escape(s) + "\"" + rest, acc) == Some((acc + s, rest))
  {
    if s == [] {
      assert Escape(s) + "\"" + rest == "\"" + rest && ("\"" + rest)[1..] == rest;
      assert acc + s == acc;
    } else {
      var tail := Escape(s[1..]) + "\"" + rest;
      assert Escape(s) + "\"" + rest == EscapeChar(s[0]) + tail;
      ReadEscape(s[0], tail, acc);
      ReadString(s[1..], rest, acc + [s[0]]);
      assert acc + [s[0]] + s[1..] == acc + s;
    }
  }

  lemma ReadQuoted(s: string, rest: string)
    ensures (Quote(s) + rest)[0] == '\"'
    ensures ParseString((Quote(s) + rest)[1..], "") == Some((s, rest))
  {
    assert (Quote(s) + rest)[1..] == Escape(s) + "\"" + rest;
    ReadString(s, rest, "");
    assert "" + s == s;
  }

  /** No value's text starts with a closing bracket. */
  lemma {:induction false} TextHead(v: Js)
    requires Plain(v)
    ensures Text(v) != [] && Text(v)[0] != ']' && Text(v)[0] != '}'
  {
    if v.Num? {
      ReadDecimal(if v.n < 0 then -v.n else v.n, "");
    }
  }

  lemma {:induction false} DispatchLeaf(s: string)
    requires s != []
    ensures s[0] == '\"' ==> ParseValue(s) == ParseQuoted(s)
    ensures s[0] == 'n' ==> ParseValue(s) == ParseWord(s, "null", Null)
    ensures s[0] == 't' ==> ParseValue(s) == ParseWord(s, "true", Bool(true))
    ensures s[0] == 'f' ==> ParseValue(s) == ParseWord(s, "false", Bool(false))
    ensures IsDigit(s[0]) || s[0] == '-' ==> ParseValue(s) == ParseNumber(s)
  {
  }

  lemma ReadWord(w: string, v: Js, rest: string)
    requires w != []
    ensures ParseWord(w + rest, w, v) == Some((v, rest))
  {
    assert (w + rest)[..|w|] == w && (w + rest)[|w|..] == rest;
  }

  lemma {:induction false} ReadLeaf(v: Js, rest: string)
    requires Plain(v) && NoDigit(rest) && !v.Arr? && !v.Obj?
    ensures ParseValue(Text(v) + rest) == Some((v, rest))
  {
    DispatchLeaf(Text(v) + rest);
    match v
    case Null =>
      ReadWord("null", v, rest);
    case Bool(b) =>
      ReadWord(if b then "true" else "false", v, rest);
    case Num(n) =>
      ReadDecimal(if n < 0 then -n else n, rest);
      ReadNumber(n, rest);
    case Str(t) =>
      ReadQuoted(t, rest);
  }

  /** Reading the text of a plain value gives back that value and leaves what follows it. */
  lemma {:induction false} ReadValue(v: Js, rest: string)
    requires Plain(v) && NoDigit(rest)
    ensures ParseValue(Text(v) + rest) == Some((v, rest))
    decreases v, 1
  {
    if v.Arr? {
      ReadArray(v.items, rest);
    } else if v.Obj? {
      ReadObject(v.fields, rest);
    } else {
      ReadLeaf(v, rest);
    }
  }

  lemma {:induction false} ReadArray(items: seq<Js>, rest: string)
    requires forall w <- items :: Plain(w)
    ensures ParseValue(Text(Arr(items)) + rest) == Some((Arr(items), rest))
    decreases items, 1
  {
    if items == [] {
      var s := Text(Arr(items)) + rest;
      assert s == "[]" + rest && s[2..] == rest;
    } else {
      var s := ArrayText(items, rest);
      assert [] + items == items;
      ReadItems(items, rest, []);
    }
  }

  lemma ArrayText(items: seq<Js>, rest: string) returns (s: string)
    requires items != [] && Plain(items[0])
    ensures s == Text(Arr(items)) + rest
    ensures |s| > 1 && s[0] == '[' && s[1] != ']'
    ensures s[1..] == ItemsText(items) + ("]" + rest)
  {
    s := Text(Arr(items)) + rest;
    TextHead(items[0]);
    assert ItemsText(items)[0] == Text(items[0])[0];
  }

  lemma ObjectText(fields: seq<Field>, rest: string) returns (s: string)
    requires fields != []
    ensures s == Text(Obj(fields)) + rest
    ensures |s| > 1 && s[0] == '{' && s[1] == '\"'
    ensures s[1..] == FieldsText(fields) + ("}" + rest)
  {
    s := Text(Obj(fields)) + rest;
    assert FieldText(fields[0])[0] == '\"';
    assert FieldsText(fields)[0] == FieldText(fields[0])[0];
  }

  lemma {:induction false} ReadObject(fields: seq<Field>, rest: string)
    requires DistinctKeys(fields) && forall f <- fields :: Plain(f.value)
    ensures ParseValue(Text(Obj(fields)) + rest) == Some((Obj(fields), rest))
    decreases fields, 2
  {
    if fields == [] {
      var s := Text(Obj(fields)) + rest;
      assert s == "{}" + rest && s[2..] == rest;
    } else {
      var s := ObjectText(fields, rest);
      assert [] + fields == fields;
      ReadFields(fields, rest, []);
    }
  }

  /** One step of the item loop: a value followed by a comma or by the closing bracket. */
  lemma {:induction false} ItemStep(s: string, v: Js, rest: string, acc: seq<Js>)
    requires rest != [] && ParseValue(s) == Some((v, rest))
    ensures rest[0] == ',' ==> ParseItems(s, acc) == ParseItems(rest[1..], acc + [v])
    ensures rest[0] == ']' ==> ParseItems(s, acc) == Some((Arr(acc + [v]), rest[1..]))
  {
  }

  /** The text of a list up to its closing bracket is the first item's text and a separator. */
  lemma ItemsSplit(items: seq<Js>, rest: string) returns (s: string, after: string)
    requires items != []
    ensures s == ItemsText(items) + ("]" + rest) == Text(items[0]) + after
    ensures after != [] && NoDigit(after)
    ensures |items| == 1 ==> after[0] == ']' && after[1..] == rest
    ensures |items| > 1 ==> after[0] == ',' && after[1..] == ItemsText(items[1..]) + ("]" + rest)
  {
    s := ItemsText(items) + ("]" + rest);
    if |items| == 1 {
      after := "]" + rest;
    } else {
      after := "," + (ItemsText(items[1..]) + ("]" + rest));
      assert s == Text(items[0]) + after;
    }
  }

  /** The parser's state after the first item. */
  lemma ReadItem(items: seq<Js>, rest: string, acc: seq<Js>, s: string, after: string)
    requires items != [] && ParseValue(s) == Some((items[0], after)) && after != []
    requires |items| == 1 ==> after[0] == ']' && after[1..] == rest
    requires |items| > 1 ==>
               && after[0] == ','
               && ParseItems(after[1..], acc + [items[0]]) == Some((Arr(acc + [items[0]] + items[1..]), rest))
    ensures ParseItems(s, acc) == Some((Arr(acc + items), rest))
  {
    ItemStep(s, items[0], after, acc);
    assert acc + [items[0]] + items[1..] == acc + items;
    assert |items| == 1 ==> items == [items[0]];
  }

  lemma {:induction false} ReadItems(items: seq<Js>, rest: string, acc: seq<Js>)
    requires items != [] && forall w <- items :: Plain(w)
    ensures ParseItems(ItemsText(items) + ("]" + rest), acc) == Some((Arr(acc + items), rest))
    decreases items, 0
  {
    var s, after := ItemsSplit(items, rest);
    ReadValue(items[0], after);
    if |items| > 1 {
      ReadItems(items[1..], rest, acc + [items[0]]);
    }
    ReadItem(items, rest, acc, s, after);
  }

  lemma {:induction false} SetNewField(fs: seq<Field>, f: Field)
    requires forall g <- fs :: g.key != f.key
    ensures SetField(fs, f) == fs + [f]
  {
    if fs != [] {
      SetNewField(fs[1..], f);
    }
  }

  lemma ReadKeyed(s: string, key: string, t: string, v: Js, rest: string)
    requires s != []
    requires s[0] == '\"' && ParseString(s[1..], "") == Some((key, ":" + t)) && ParseValue(t) == Some((v, rest))
    ensures ParseField(s) == Some((Field(key, v), rest))
  {
    assert (":" + t)[1..] == t;
  }

  lemma {:induction false} ReadField(f: Field, after: string)
    requires ParseValue(Text(f.value) + after) == Some((f.value, after))
    ensures ParseField(FieldText(f) + after) == Some((f, after))
  {
    var t := Text(f.value) + after;
    var s := Quote(f.key) + (":" + t);
    ReadQuoted(f.key, ":" + t);
    ReadKeyed(s, f.key, t, f.value, after);
    FieldTextSplit(f, after);
  }

  lemma {:induction false} FieldTextSplit(f: Field, after: string)
    ensures FieldText(f) + after == Quote(f.key) + (":" + (Text(f.value) + after))
  {
  }

  lemma {:induction false} FieldStep(s: string, f: Field, after: string, acc: seq<Field>)
    requires after != [] && ParseField(s) == Some((f, after))
    ensures after[0] == ',' ==> ParseFields(s, acc) == ParseFields(after[1..], SetField(acc, f))
    ensures after[0] == '}' ==> ParseFields(s, acc) == Some((Obj(SetField(acc, f)), after[1..]))
  {
  }

  lemma Reassociate(a: string, b: string, c: string, d: string)
    ensures a + b + c + d == a + (b + (c + d))
  {
  }

  lemma FieldsSplit(fs: seq<Field>, rest: string) returns (s: string, after: string)
    requires fs != []
    ensures s == FieldsText(fs) + ("}" + rest) == FieldText(fs[0]) + after
    ensures after != [] && NoDigit(after)
    ensures |fs| == 1 ==> after[0] == '}' && after[1..] == rest
    ensures |fs| > 1 ==> after[0] == ',' && after[1..] == FieldsText(fs[1..]) + ("}" + rest)
  {
    s := FieldsText(fs) + ("}" + rest);
    if |fs| == 1 {
      after := "}" + rest;
    } else {
      after := "," + (FieldsText(fs[1..]) + ("}" + rest));
      Reassociate(FieldText(fs[0]), ",", FieldsText(fs[1..]), "}" + rest);
    }
  }

  lemma {:induction false} NewKey(acc: seq<Field>, fs: seq<Field>)
    requires fs != [] && DistinctKeys(acc + fs)
    ensures SetField(acc, fs[0]) == acc + [fs[0]]
    ensures acc + [fs[0]] + fs[1..] == acc + fs
  {
    forall g | g in acc ensures g.key != fs[0].key {
      var i :| 0 <= i < |acc| && acc[i] == g;
      assert (acc + fs)[i] == g && (acc + fs)[|acc|] == fs[0];
    }
    SetNewField(acc, fs[0]);
  }

  lemma {:induction false} ReadFields(fs: seq<Field>, rest: string, acc: seq<Field>)
    requires fs != [] && DistinctKeys(acc + fs) && forall f <- fs :: Plain(f.value)
    ensures ParseFields(FieldsText(fs) + ("}" + rest), acc) == Some((Obj(acc + fs), rest))
    decreases fs, 1
  {
    var f, tail, more := fs[0], fs[1..], acc + [fs[0]];
    NewKey(acc, fs);
    var s, after := FieldsSplit(fs, rest);
    ReadValue(f.value, after);
    ReadField(f, after);
    FieldStep(s, f, after, acc);
    if tail == [] {
      assert more + tail == more;
    } else {
      ReadFields(tail, rest, more);
    }
  }

  /** `JSON.parse` inverts writing on every plain value. */
  lemma {:induction false} ParseInvertsText(v: Js)
    requires Plain(v)
    ensures Parse(Text(v)) == Some(v)
  {
    ReadValue(v, "");
    assert Text(v) + "" == Text(v);
  }

  // ---------- The canonical form ----------

  /** Plain, and with the keys of every object ascending. */
  ghost predicate Canonical(v: Js) {
    match v
    case Undefined => false
    case NonFinite => false
    case Unsupported => false
    case Arr(items) => forall w <- items :: Canonical(w)
    case Obj(fields) => SortedFields(fields) && forall f <- fields :: Canonical(f.value)
    case _ => true
  }

  lemma {:induction false} CanonicalIsPlain(v: Js)
    requires Canonical(v)
    ensures Plain(v)
  {
    match v
    case Arr(items) =>
      forall w | w in items ensures Plain(w) {
        CanonicalIsPlain(w);
      }
    case Obj(fields) =>
      SortedIsDistinct(fields);
      forall f | f in fields ensures Plain(f.value) {
        CanonicalIsPlain(f.value);
      }
    case _ =>
  }

  lemma SortedIsDistinct(fs: seq<Field>)
    requires SortedFields(fs)
    ensures DistinctKeys(fs)
  {
    forall i, j | 0 <= i < j < |fs| ensures fs[i].key != fs[j].key {
      Irreflexive(fs[i].key);
    }
  }

  lemma {:induction false} InsertElements(f: Field, fs: seq<Field>)
    ensures forall e :: e in InsertField(f, fs) <==> e == f || e in fs
  {
    if fs != [] && !Less(f.key, fs[0].key) {
      InsertElements(f, fs[1..]);
      assert fs == [fs[0]] + fs[1..];
    }
  }

  lemma {:induction false} InsertSorted(f: Field, fs: seq<Field>)
    requires SortedFields(fs) && forall g <- fs :: g.key != f.key
    ensures SortedFields(InsertField(f, fs))
  {
    if fs == [] {
    } else if Less(f.key, fs[0].key) {
      forall j | 0 <= j < |fs| ensures Less(f.key, fs[j].key) {
        if j > 0 {
          Transitive(f.key, fs[0].key, fs[j].key);
        }
      }
    } else {
      var tail := InsertField(f, fs[1..]);
      InsertSorted(f, fs[1..]);
      InsertElements(f, fs[1..]);
      Total(f.key, fs[0].key);
      forall j | 0 <= j < |tail| ensures Less(fs[0].key, tail[j].key) {
        assert tail[j] in tail;
        if tail[j] != f {
          var i :| 0 <= i < |fs[1..]| && fs[1..][i] == tail[j];
          assert fs[i + 1] == tail[j];
        }
      }
    }
  }

  /** The fields of a normalized object: those with a defined value, normalized in turn. */
  lemma {:induction false} NormalFieldsElements(fs: seq<Field>)
    ensures forall e :: e in NormalFields(fs) <==>
              exists f :: f in fs && !f.value.Undefined? && e == Field(f.key, Normal(f.value))
  {
    if fs != [] {
      NormalFieldsElements(fs[1..]);
      assert fs == [fs[0]] + fs[1..];
      InsertElements(Field(fs[0].key, Normal(fs[0].value)), NormalFields(fs[1..]));
    }
  }

  lemma {:induction false} NormalFieldsSorted(fs: seq<Field>)
    requires DistinctKeys(fs)
    ensures SortedFields(NormalFields(fs))
  {
    if fs != [] {
      NormalFieldsSorted(fs[1..]);
      NormalFieldsElements(fs[1..]);
      if !fs[0].value.Undefined? {
        forall g | g in NormalFields(fs[1..]) ensures g.key != fs[0].key {
          var f :| f in fs[1..] && !f.value.Undefined? && g == Field(f.key, Normal(f.value));
          var i :| 0 <= i < |fs[1..]| && fs[1..][i] == f;
          assert fs[i + 1] == f;
        }
        InsertSorted(Field(fs[0].key, Normal(fs[0].value)), NormalFields(fs[1..]));
      }
    }
  }

  lemma {:induction false} NormalItemsAt(items: seq<Js>, i: nat)
    requires i < |items|
    ensures NormalItems(items)[i] == Normal(items[i])
  {
    if i > 0 {
      NormalItemsAt(items[1..], i - 1);
    }
  }

  /** Normalizing a representable value gives a canonical one. */
  lemma {:induction false} NormalIsCanonical(v: Js)
    requires WellKeyed(v) && Representable(v)
    ensures Canonical(Normal(v))
  {
    match v
    case Arr(items) =>
      forall w | w in NormalItems(items) ensures Canonical(w) {
        var i :| 0 <= i < |items| && NormalItems(items)[i] == w;
        NormalItemsAt(items, i);
        assert items[i] in items;
        NormalIsCanonical(items[i]);
      }
    case Obj(fields) =>
      NormalFieldsSorted(fields);
      NormalFieldsElements(fields);
      forall g | g in NormalFields(fields) ensures Canonical(g.value) {
        var f :| f in fields && !f.value.Undefined? && g == Field(f.key, Normal(f.value));
        NormalIsCanonical(f.value);
      }
    case _ =>
  }

  /** Two ascending lists with the same fields are the same list. */
  lemma {:induction false} SortedUnique(fs: seq<Field>, gs: seq<Field>)
    requires SortedFields(fs) && SortedFields(gs)
    requires forall e :: e in fs <==> e in gs
    ensures fs == gs
  {
    BothEmpty(fs, gs);
    if fs != [] {
      SameHead(fs, gs);
      TailElements(fs, gs);
      TailElements(gs, fs);
      SortedUnique(fs[1..], gs[1..]);
      assert fs == [fs[0]] + fs[1..] && gs == [gs[0]] + gs[1..];
    }
  }

  lemma BothEmpty(fs: seq<Field>, gs: seq<Field>)
    requires forall e :: e in fs <==> e in gs
    ensures fs == [] <==> gs == []
  {
    if fs != [] {
      assert fs[0] in gs;
    }
    if gs != [] {
      assert gs[0] in fs;
    }
  }

  lemma SameHead(fs: seq<Field>, gs: seq<Field>)
    requires SortedFields(fs) && SortedFields(gs) && fs != [] && gs != []
    requires forall e :: e in fs <==> e in gs
    ensures fs[0] == gs[0]
  {
    assert fs[0] in gs;
    assert gs[0] in fs;
    var i :| 0 <= i < |gs| && gs[i] == fs[0];
    var j :| 0 <= j < |fs| && fs[j] == gs[0];
    if i > 0 && j > 0 {
      Asymmetric(fs[0].key, fs[j].key);
    }
  }

  lemma TailElements(fs: seq<Field>, gs: seq<Field>)
    requires SortedFields(fs) && fs != [] && gs != [] && fs[0] == gs[0]
    requires forall e :: e in fs ==> e in gs
    ensures forall e :: e in fs[1..] ==> e in gs[1..]
  {
    forall e | e in fs[1..] ensures e in gs[1..] {
      var i :| 0 <= i < |fs[1..]| && fs[1..][i] == e;
      assert fs[i + 1] == e && Less(fs[0].key, e.key);
      Irreflexive(e.key);
      assert e in gs && gs == [gs[0]] + gs[1..];
    }
  }

  /** A canonical value is its own normal form. */
  lemma {:induction false} CanonicalIsFixed(v: Js)
    requires Canonical(v)
    ensures Normal(v) == v
  {
    match v
    case Arr(items) =>
      forall i | 0 <= i < |items| ensures NormalItems(items)[i] == items[i] {
        NormalItemsAt(items, i);
        assert items[i] in items;
        CanonicalIsFixed(items[i]);
      }
    case Obj(fields) =>
      SortedIsDistinct(fields);
      NormalFieldsSorted(fields);
      NormalFieldsElements(fields);
      forall f | f in fields ensures Normal(f.value) == f.value && !f.value.Undefined? {
        CanonicalIsFixed(f.value);
      }
      forall e ensures e in NormalFields(fields) <==> e in fields {
        if e in fields {
          assert e == Field(e.key, Normal(e.value));
        }
      }
      SortedUnique(NormalFields(fields), fields);
    case _ =>
  }

  // ---------- Injectivity ----------

  /** Equality of values up to the order of keys and properties that are undefined. */
  ghost predicate Same(v: Js, w: Js)
    decreases v
  {
    match v
    case Arr(items) => w.Arr? && |items| == |w.items| && forall i :: 0 <= i < |items| ==> Same(items[i], w.items[i])
    case Obj(fields) => w.Obj? && SameFields(fields, w.fields)
    case _ => v == w
  }

  /** The same keys are defined, with the same values. */
  ghost predicate SameFields(fs: seq<Field>, gs: seq<Field>)
    decreases fs
  {
    && DefinedKeys(fs) == DefinedKeys(gs)
    && forall f, g :: f in fs && g in gs && f.key == g.key && !f.value.Undefined? && !g.value.Undefined? ==>
         Same(f.value, g.value)
  }

  ghost function DefinedKeys(fs: seq<Field>): set<string> {
    set f <- fs | !f.value.Undefined? :: f.key
  }

  lemma {:induction false} SameIffNormal(v: Js, w: Js)
    requires WellKeyed(v) && WellKeyed(w)
    ensures Same(v, w) <==> Normal(v) == Normal(w)
    decreases v
  {
    if v.Arr? && w.Arr? {
      if |v.items| == |w.items| {
        forall i | 0 <= i < |v.items|
          ensures Same(v.items[i], w.items[i]) <==> NormalItems(v.items)[i] == NormalItems(w.items)[i]
        {
          NormalItemsAt(v.items, i);
          NormalItemsAt(w.items, i);
          assert v.items[i] in v.items && w.items[i] in w.items;
          SameIffNormal(v.items[i], w.items[i]);
        }
      }
    } else if v.Obj? && w.Obj? {
      forall f, g | f in v.fields && g in w.fields
        ensures Same(f.value, g.value) <==> Normal(f.value) == Normal(g.value)
      {
        SameIffNormal(f.value, g.value);
      }
      SameFieldsIffNormal(v.fields, w.fields);
    }
  }

  ghost predicate AgreeOn(fs: seq<Field>, gs: seq<Field>) {
    forall f, g :: f in fs && g in gs ==> (Same(f.value, g.value) <==> Normal(f.value) == Normal(g.value))
  }

  lemma {:induction false} SameFieldsIffNormal(fs: seq<Field>, gs: seq<Field>)
    requires DistinctKeys(fs) && DistinctKeys(gs) && AgreeOn(fs, gs)
    ensures SameFields(fs, gs) <==> NormalFields(fs) == NormalFields(gs)
  {
    if SameFields(fs, gs) {
      SameFieldsNormalEqual(fs, gs);
    }
    if NormalFields(fs) == NormalFields(gs) {
      NormalEqualFieldsSame(fs, gs);
    }
  }

  lemma Origin(fs: seq<Field>, e: Field) returns (f: Field)
    requires e in NormalFields(fs)
    ensures f in fs && !f.value.Undefined? && e == Field(f.key, Normal(f.value))
  {
    NormalFieldsElements(fs);
    f :| f in fs && !f.value.Undefined? && e == Field(f.key, Normal(f.value));
  }

  lemma {:induction false} Image(fs: seq<Field>, f: Field)
    requires f in fs && !f.value.Undefined?
    ensures Field(f.key, Normal(f.value)) in NormalFields(fs)
  {
    NormalFieldsElements(fs);
  }

  lemma {:induction false} SameFieldsForward(fs: seq<Field>, gs: seq<Field>, e: Field)
    requires AgreeOn(fs, gs) && SameFields(fs, gs) && e in NormalFields(fs)
    ensures e in NormalFields(gs)
  {
    var f := Origin(fs, e);
    assert f.key in DefinedKeys(gs);
    var g :| g in gs && !g.value.Undefined? && g.key == f.key;
    Image(gs, g);
  }

  lemma {:induction false} SameFieldsBackward(fs: seq<Field>, gs: seq<Field>, e: Field)
    requires AgreeOn(fs, gs) && SameFields(fs, gs) && e in NormalFields(gs)
    ensures e in NormalFields(fs)
  {
    var g := Origin(gs, e);
    assert g.key in DefinedKeys(fs);
    var f :| f in fs && !f.value.Undefined? && f.key == g.key;
    Image(fs, f);
  }

  lemma {:induction false} SameFieldsNormalEqual(fs: seq<Field>, gs: seq<Field>)
    requires DistinctKeys(fs) && DistinctKeys(gs) && AgreeOn(fs, gs)
    requires SameFields(fs, gs)
    ensures NormalFields(fs) == NormalFields(gs)
  {
    var p, q := NormalFields(fs), NormalFields(gs);
    forall e | e in p ensures e in q {
      SameFieldsForward(fs, gs, e);
    }
    forall e | e in q ensures e in p {
      SameFieldsBackward(fs, gs, e);
    }
    NormalFieldsSorted(fs);
    NormalFieldsSorted(gs);
    SortedUnique(p, q);
  }

  lemma {:induction false} NormalEqualFieldsSame(fs: seq<Field>, gs: seq<Field>)
    requires DistinctKeys(gs) && AgreeOn(fs, gs) && NormalFields(fs) == NormalFields(gs)
    ensures SameFields(fs, gs)
  {
    forall f | f in fs && !f.value.Undefined?
      ensures f.key in DefinedKeys(gs)
      ensures forall g :: g in gs && g.key == f.key && !g.value.Undefined? ==> Same(f.value, g.value)
    {
      Image(fs, f);
      var g := Origin(gs, Field(f.key, Normal(f.value)));
    }
    forall g | g in gs && !g.value.Undefined? ensures g.key in DefinedKeys(fs) {
      Image(gs, g);
      var f := Origin(fs, Field(g.key, Normal(g.value)));
    }
  }

  /** The canonical text of two representable values is the same exactly when they are the same value. */
  lemma {:induction false} TextInjective(v: Js, w: Js)
    requires WellKeyed(v) && Representable(v) && WellKeyed(w) && Representable(w)
    ensures Text(Normal(v)) == Text(Normal(w)) <==> Same(v, w)
  {
    NormalIsCanonical(v);
    NormalIsCanonical(w);
    CanonicalIsPlain(Normal(v));
    CanonicalIsPlain(Normal(w));
    ParseInvertsText(Normal(v));
    ParseInvertsText(Normal(w));
    SameIffNormal(v, w);
  }

  // ---------- What the parser can return ----------

  lemma {:induction false} SetFieldKeeps(fs: seq<Field>, f: Field)
    requires DistinctKeys(fs)
    ensures DistinctKeys(SetField(fs, f))
    ensures forall g :: g in SetField(fs, f) ==> g == f || g in fs
  {
    if fs != [] && fs[0].key != f.key {
      var tail := SetField(fs[1..], f);
      SetFieldKeeps(fs[1..], f);
      forall j | 0 <= j < |tail| ensures tail[j].key != fs[0].key {
        assert tail[j] in tail;
        if tail[j] in fs[1..] {
          var i :| 0 <= i < |fs[1..]| && fs[1..][i] == tail[j];
          assert fs[i + 1] == tail[j];
        }
      }
      assert fs == [fs[0]] + fs[1..];
    } else if fs != [] {
      assert forall j :: 0 <= j < |fs[1..]| ==> fs[1..][j] == fs[j + 1];
    }
  }

  predicate Sound(v: Js) {
    WellKeyed(v) && Representable(v)
  }

  predicate SoundFields(fs: seq<Field>) {
    DistinctKeys(fs) && forall f <- fs :: Sound(f.value)
  }

  /** Whatever the parser returns has each key once and can be canonicalized. */
  lemma {:induction false} ParsedIsSound(s: string)
    ensures ParseValue(s).Some? ==> Sound(ParseValue(s).value.0)
    decreases |s|, 1
  {
    if s != [] && s[0] == '[' {
      ParsedItemsSound(s[1..], []);
    } else if s != [] && s[0] == '{' {
      ParsedFieldsSound(s[1..], []);
    }
  }

  lemma {:induction false} ParsedItemsSound(s: string, acc: seq<Js>)
    requires forall w <- acc :: Sound(w)
    ensures ParseItems(s, acc).Some? ==> Sound(ParseItems(s, acc).value.0)
    decreases |s|, 2
  {
    ParsedIsSound(s);
    if ParseValue(s).Some? {
      var (v, rest) := ParseValue(s).value;
      if rest != [] && rest[0] == ',' {
        ParsedItemsSound(rest[1..], acc + [v]);
      }
    }
  }

  lemma {:induction false} ParsedFieldSound(s: string)
    ensures ParseField(s).Some? ==> Sound(ParseField(s).value.0.value)
    decreases |s|, 2
  {
    if s != [] && s[0] == '\"' && ParseString(s[1..], "").Some? {
      var (k, t) := ParseString(s[1..], "").value;
      if t != [] {
        ParsedIsSound(t[1..]);
      }
    }
  }

  lemma {:induction false} ParsedFieldsSound(s: string, acc: seq<Field>)
    requires SoundFields(acc)
    ensures ParseFields(s, acc).Some? ==> Sound(ParseFields(s, acc).value.0)
    decreases |s|, 3
  {
    ParsedFieldSound(s);
    if ParseField(s).Some? {
      var (f, rest) := ParseField(s).value;
      SetFieldKeeps(acc, f);
      if rest != [] && rest[0] == ',' {
        ParsedFieldsSound(rest[1..], SetField(acc, f));
      }
    }
  }
}
