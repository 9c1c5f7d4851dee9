/**
 Signed mesh envelopes (src/mesh/envelope.ts). An envelope is a JavaScript object; the MAC is an arbitrary
 function of the secret and the canonical text.
 */
module Envelope {
  import opened Basics
  import opened Order
  import opened Json
  import opened JsonLaws

  // ---------- canonicalize ----------

  /** The canonical text of a value, or `None` where the source throws. */
  function Canonicalize(v: Js): Option<string> {
    if Representable(v) then Some(Text(Normal(v))) else None
  }

  function Join(parts: seq<string>, sep: string): string {
    if parts == [] then "" else if |parts| == 1 then parts[0] else parts[0] + sep + Join(parts[1..], sep)
  }

  /** The fields in ascending order of their keys, undefined ones included. */
  function SortFields(fs: seq<Field>): seq<Field> {
    if fs == [] then [] else InsertField(fs[0], SortFields(fs[1..]))
  }

  /** The text of each defined field of a list that is already sorted. */
  function Parts(fs: seq<Field>): seq<string> {
    if fs == [] then []
    else if fs[0].value.Undefined? then Parts(fs[1..])
    else [Quote(fs[0].key) + ":" + Text(Normal(fs[0].value))] + Parts(fs[1..])
  }

  function ItemParts(items: seq<Js>): seq<string> {
    if items == [] then [] else [Text(Normal(items[0]))] + ItemParts(items[1..])
  }

  lemma {:induction false} SortFieldsFacts(fs: seq<Field>)
    requires DistinctKeys(fs)
    ensures SortedFields(SortFields(fs))
    ensures forall f :: f in SortFields(fs) <==> f in fs
  {
    if fs != [] {
      SortFieldsFacts(fs[1..]);
      InsertElements(fs[0], SortFields(fs[1..]));
      assert fs == [fs[0]] + fs[1..];
      forall g | g in SortFields(fs[1..]) ensures g.key != fs[0].key {
        var i :| 0 <= i < |fs[1..]| && fs[1..][i] == g;
        assert fs[i + 1] == g;
      }
      InsertSorted(fs[0], SortFields(fs[1..]));
    }
  }

  /** The defined fields of a list, each normalized, in the same order. */
  function Defined(fs: seq<Field>): seq<Field> {
    if fs == [] then []
    else if fs[0].value.Undefined? then Defined(fs[1..])
    else [Field(fs[0].key, Normal(fs[0].value))] + Defined(fs[1..])
  }

  lemma {:induction false} DefinedKey(fs: seq<Field>)
    ensures Defined(fs) != [] ==> exists f :: f in fs && f.key == Defined(fs)[0].key
  {
    if fs != [] {
      if fs[0].value.Undefined? {
        DefinedKey(fs[1..]);
      } else {
        assert fs[0] in fs;
      }
    }
  }

  lemma {:induction false} DefinedOfInsert(f: Field, fs: seq<Field>)
    requires SortedFields(fs)
    ensures Defined(InsertField(f, fs)) ==
            if f.value.Undefined? then Defined(fs) else InsertField(Field(f.key, Normal(f.value)), Defined(fs))
  {
    if fs == [] {
    } else if Less(f.key, fs[0].key) {
      assert ([f] + fs)[1..] == fs;
      DefinedKey(fs);
      if Defined(fs) != [] {
        var g :| g in fs && g.key == Defined(fs)[0].key;
        if g != fs[0] {
          Transitive(f.key, fs[0].key, g.key);
        }
      }
    } else {
      DefinedOfInsert(f, fs[1..]);
      var tail := InsertField(f, fs[1..]);
      assert ([fs[0]] + tail)[1..] == tail;
      if !fs[0].value.Undefined? {
        var g := Field(fs[0].key, Normal(fs[0].value));
        assert ([g] + Defined(fs[1..]))[1..] == Defined(fs[1..]);
      }
    }
  }

  /** Sorting first and normalizing each field afterwards is the normal form. */
  lemma {:induction false} NormalBySorting(fs: seq<Field>)
    requires DistinctKeys(fs)
    ensures NormalFields(fs) == Defined(SortFields(fs))
  {
    if fs != [] {
      NormalBySorting(fs[1..]);
      SortFieldsFacts(fs[1..]);
      DefinedOfInsert(fs[0], SortFields(fs[1..]));
    }
  }

  lemma {:induction false} JoinParts(fs: seq<Field>)
    ensures Join(Parts(fs), ",") == FieldsText(Defined(fs)) && |Parts(fs)| == |Defined(fs)|
  {
    if fs != [] {
      JoinParts(fs[1..]);
      if !fs[0].value.Undefined? {
        var p := Quote(fs[0].key) + ":" + Text(Normal(fs[0].value));
        assert Parts(fs)[1..] == Parts(fs[1..]);
        assert Defined(fs)[1..] == Defined(fs[1..]);
        assert FieldText(Defined(fs)[0]) == p;
      }
    }
  }

  lemma {:induction false} JoinItems(items: seq<Js>)
    ensures Join(ItemParts(items), ",") == ItemsText(NormalItems(items)) && |ItemParts(items)| == |items|
  {
    if items != [] {
      JoinItems(items[1..]);
      assert ItemParts(items)[1..] == ItemParts(items[1..]);
      assert NormalItems(items)[1..] == NormalItems(items[1..]);
    }
  }

  lemma {:induction false} PartsSnoc(fs: seq<Field>, f: Field)
    ensures Parts(fs + [f]) ==
            if f.value.Undefined? then Parts(fs) else Parts(fs) + [Quote(f.key) + ":" + Text(Normal(f.value))]
  {
    if fs == [] {
      assert fs + [f] == [f] && [f][1..] == [];
    } else {
      PartsSnoc(fs[1..], f);
      assert (fs + [f])[1..] == fs[1..] + [f];
    }
  }

  lemma {:induction false} ItemPartsSnoc(items: seq<Js>, v: Js)
    ensures ItemParts(items + [v]) == ItemParts(items) + [Text(Normal(v))]
  {
    if items == [] {
      assert items + [v] == [v] && [v][1..] == [];
    } else {
      ItemPartsSnoc(items[1..], v);
      assert (items + [v])[1..] == items[1..] + [v];
    }
  }

  /** The recursive serializer: objects sort their keys and collect the parts in a loop. */
  method Stringify(v: Js) returns (r: Result<string, Error>)
    requires WellKeyed(v)
    ensures r.Ok? <==> Representable(v)
    ensures r.Ok? ==> Canonicalize(v) == Some(r.value)
    ensures v.Undefined? ==> r == Err(UndefinedValue)
    ensures v.NonFinite? ==> r == Err(NonFiniteNumber)
    ensures v.Unsupported? ==> r == Err(UnsupportedType)
    decreases v
  {
    match v
    case Null => return Ok("null");
    case Undefined => return Err(UndefinedValue);
    case NonFinite => return Err(NonFiniteNumber);
    case Num(n) => return Ok(NumText(n));
    case Str(s) => return Ok(Quote(s));
    case Bool(b) => return Ok(if b then "true" else "false");
    case Arr(items) =>
      var parts := [];
      for i := 0 to |items|
        invariant parts == ItemParts(items[..i])
        invariant forall w <- items[..i] :: Representable(w)
      {
        assert items[i] in items;
        var t := Stringify(items[i]);
        if t.Err? {
          return t;
        }
        ItemPartsSnoc(items[..i], items[i]);
        assert items[..i + 1] == items[..i] + [items[i]];
        parts := parts + [t.value];
      }
      assert items[..|items|] == items;
      JoinItems(items);
      return Ok("[" + Join(parts, ",") + "]");
    case Obj(fields) =>
      var sorted := SortFields(fields);
      SortFieldsFacts(fields);
      var parts := [];
      for i := 0 to |sorted|
        invariant parts == Parts(sorted[..i])
        invariant forall f <- sorted[..i] :: f.value.Undefined? || Representable(f.value)
      {
        var f := sorted[i];
        assert f in sorted;
        assert sorted[..i + 1] == sorted[..i] + [f];
        PartsSnoc(sorted[..i], f);
        if !f.value.Undefined? {
          var t := Stringify(f.value);
          if t.Err? {
            return t;
          }
          parts := parts + [Quote(f.key) + ":" + t.value];
        }
      }
      assert sorted[..|sorted|] == sorted;
      JoinParts(sorted);
      NormalBySorting(fields);
      return Ok("{" + Join(parts, ",") + "}");
    case Unsupported => return Err(UnsupportedType);
  }

  /** Equal texts exactly for values that agree up to key order and undefined properties. */
  lemma {:induction false} CanonicalTextDetermines(v: Js, w: Js)
    requires WellKeyed(v) && WellKeyed(w) && Representable(v) && Representable(w)
    ensures Canonicalize(v) == Canonicalize(w) <==> Same(v, w)
  {
    TextInjective(v, w);
  }

  // ---------- Envelopes ----------

  const PROTO := "olle.v0"

  type Mac = (string, string) -> string

  datatype DecodeError =
    | InvalidJson
    | NotAnObject
    | BadProto
    | BadField(name: string)
    | BadKind
    | MissingEvent
    | MissingPayload

  predicate KnownKind(kind: string) {
    kind in ["event", "hello", "welcome", "heartbeat", "catchup_request", "catchup_chunk", "peer_left", "error"]
  }

  /** Property access on an object: undefined when the key is absent. */
  function Get(fs: seq<Field>, key: string): Js {
    if fs == [] then Undefined else if fs[0].key == key then fs[0].value else Get(fs[1..], key)
  }

  /** `const { hmac, ...rest } = envelope`. */
  function Without(fs: seq<Field>, key: string): seq<Field> {
    if fs == [] then [] else if fs[0].key == key then Without(fs[1..], key) else [fs[0]] + Without(fs[1..], key)
  }

  /** The first reason to refuse an object as an envelope, in the order in which the source looks. */
  function ShapeError(fs: seq<Field>): Option<DecodeError> {
    if Get(fs, "proto") != Str(PROTO) then Some(BadProto)
    else if !Get(fs, "envelopeId").Str? then Some(BadField("envelopeId"))
    else if !Get(fs, "teamId").Str? then Some(BadField("teamId"))
    else if !Get(fs, "fromHostId").Str? then Some(BadField("fromHostId"))
    else if !Get(fs, "hmac").Str? then Some(BadField("hmac"))
    else if !Get(fs, "sentAt").Num? then Some(BadField("sentAt"))
    else if !Get(fs, "kind").Str? || !KnownKind(Get(fs, "kind").s) then Some(BadKind)
    else if Get(fs, "kind").s == "event" then
      if Get(fs, "event").Obj? || Get(fs, "event").Arr? then None else Some(MissingEvent)
    else if Get(fs, "payload").Obj? then None
    else Some(MissingPayload)
  }

  function Decode(raw: string): Result<seq<Field>, DecodeError> {
    match Parse(raw)
    case None => Err(InvalidJson)
    case Some(v) =>
      if !v.Obj? then Err(NotAnObject)
      else match ShapeError(v.fields)
        case Some(e) => Err(e)
        case None => Ok(v.fields)
  }

  function Encode(fs: seq<Field>): Option<string> {
    Canonicalize(Obj(fs))
  }

  function Sign(mac: Mac, fs: seq<Field>, secret: string): Option<string> {
    match Canonicalize(Obj(fs))
    case Some(body) => Some(mac(secret, body))
    case None => None
  }

  /** `{ ...unsigned, hmac }`. */
  function Signed(fs: seq<Field>, hmac: string): seq<Field> {
    fs + [Field("hmac", Str(hmac))]
  }

  /** `Buffer.from(s, "hex")`: pairs of hex digits up to the first pair that is not. */
  function HexBytes(s: string): seq<nat>
    decreases |s|
  {
    if |s| < 2 then []
    else match (HexValue(s[0]), HexValue(s[1]))
      case (Some(a), Some(b)) => [a * 16 + b] + HexBytes(s[2..])
      case _ => []
  }

  /** `None` where the source throws because the rest of the envelope cannot be canonicalized. */
  function Verify(mac: Mac, fs: seq<Field>, secret: string): Option<bool> {
    if Get(fs, "proto") != Str(PROTO) then Some(false)
    else if !Get(fs, "hmac").Str? then Some(false)
    else match Sign(mac, Without(fs, "hmac"), secret)
      case None => None
      case Some(expected) =>
        var hmac := Get(fs, "hmac").s;
        if |hmac| != |expected| then Some(false)
        else if HexBytes(hmac) == [] then Some(false)
        else Some(HexBytes(hmac) == HexBytes(expected))
  }

  /** A digest in lower-case hex, as `digest("hex")` returns it. */
  predicate HexDigest(s: string) {
    |s| > 0 && |s| % 2 == 0 && forall i :: 0 <= i < |s| ==> LowerDigit(s[i])
  }

  predicate LowerDigit(c: char) {
    '0' <= c <= '9' || 'a' <= c <= 'f'
  }

  ghost predicate Digesting(mac: Mac) {
    forall k: string, m: string :: HexDigest(mac(k, m))
  }

  function Lower(c: char): char {
    if 'A' <= c <= 'F' then c - 'A' + 'a' else c
  }

  function LowerHex(s: string): string {
    if s == [] then [] else [Lower(s[0])] + LowerHex(s[1..])
  }

  lemma SameDigit(c: char, d: char)
    requires LowerDigit(d)
    ensures HexValue(d).Some?
    ensures HexValue(c) == HexValue(d) <==> Lower(c) == d
  {
  }

  lemma {:induction false} SamePair(s: string, d: string)
    requires |s| >= 2 && |d| >= 2 && LowerDigit(d[0]) && LowerDigit(d[1])
    ensures HexBytes(d) != []
    ensures HexBytes(s) != [] && HexBytes(s)[0] == HexBytes(d)[0] <==> Lower(s[0]) == d[0] && Lower(s[1]) == d[1]
    ensures Lower(s[0]) == d[0] && Lower(s[1]) == d[1] ==> HexBytes(s)[1..] == HexBytes(s[2..])
    ensures HexBytes(d)[1..] == HexBytes(d[2..])
  {
    SameDigit(s[0], d[0]);
    SameDigit(s[1], d[1]);
  }

  /** Against a digest, comparing bytes is comparing letters without regard to case. */
  lemma {:induction false} SameBytes(s: string, d: string)
    requires |s| == |d| && |d| % 2 == 0 && forall i :: 0 <= i < |d| ==> LowerDigit(d[i])
    ensures HexBytes(s) == HexBytes(d) <==> LowerHex(s) == d
    ensures d != [] ==> HexBytes(d) != []
    decreases |d|
  {
    if d == [] {
      assert s == [];
    } else {
      SamePair(s, d);
      SameBytes(s[2..], d[2..]);
      SameLetters(s, d);
      if HexBytes(s) != [] {
        HeadAndTail(HexBytes(s), HexBytes(d));
      }
    }
  }

  lemma HeadAndTail<T>(a: seq<T>, b: seq<T>)
    requires a != [] && b != []
    ensures a == b <==> a[0] == b[0] && a[1..] == b[1..]
  {
    assert a == [a[0]] + a[1..] && b == [b[0]] + b[1..];
  }

  lemma SameLetters(s: string, d: string)
    requires |s| == |d| >= 2
    ensures LowerHex(s) == d <==> Lower(s[0]) == d[0] && Lower(s[1]) == d[1] && LowerHex(s[2..]) == d[2..]
  {
    assert s[1..][1..] == s[2..] && d[1..][1..] == d[2..];
    HeadAndTail(LowerHex(s), d);
    HeadAndTail(LowerHex(s[1..]), d[1..]);
  }

  /** An envelope is accepted exactly when its tag is, up to letter case, the MAC of everything else in it. */
  lemma {:induction false} VerifyAcceptsExactly(mac: Mac, fs: seq<Field>, secret: string)
    requires Digesting(mac)
    ensures Verify(mac, fs, secret) == Some(true) <==>
              && Get(fs, "proto") == Str(PROTO)
              && Get(fs, "hmac").Str?
              && Canonicalize(Obj(Without(fs, "hmac"))).Some?
              && LowerHex(Get(fs, "hmac").s) == mac(secret, Canonicalize(Obj(Without(fs, "hmac"))).value)
  {
    if Get(fs, "hmac").Str? && Canonicalize(Obj(Without(fs, "hmac"))).Some? {
      var expected := mac(secret, Canonicalize(Obj(Without(fs, "hmac"))).value);
      var hmac := Get(fs, "hmac").s;
      LowerLength(hmac);
      if |hmac| == |expected| {
        SameBytes(hmac, expected);
      }
    }
  }

  lemma {:induction false} LowerLength(s: string)
    ensures |LowerHex(s)| == |s|
  {
    if s != [] {
      LowerLength(s[1..]);
    }
  }

  // ---------- Round trip ----------

  lemma {:induction false} GetFirst(fs: seq<Field>, i: nat)
    requires DistinctKeys(fs) && i < |fs|
    ensures Get(fs, fs[i].key) == fs[i].value
  {
    if i > 0 {
      GetFirst(fs[1..], i - 1);
    }
  }

  lemma {:induction false} GetAbsent(fs: seq<Field>, key: string)
    requires forall f <- fs :: f.key != key
    ensures Get(fs, key) == Undefined && Without(fs, key) == fs
  {
    if fs != [] {
      GetAbsent(fs[1..], key);
    }
  }

  lemma {:induction false} GetPresent(fs: seq<Field>, key: string)
    requires Get(fs, key) != Undefined
    ensures exists i: nat :: i < |fs| && fs[i].key == key && fs[i].value == Get(fs, key)
  {
    if fs[0].key != key {
      GetPresent(fs[1..], key);
      var i: nat :| i < |fs[1..]| && fs[1..][i].key == key && fs[1..][i].value == Get(fs, key);
      assert fs[i + 1].key == key && fs[i + 1].value == Get(fs, key);
    }
  }

  /** Reading a property commutes with normalizing the object. */
  lemma {:induction false} GetNormal(fs: seq<Field>, key: string)
    requires DistinctKeys(fs)
    ensures Get(NormalFields(fs), key) == Normal(Get(fs, key))
  {
    var p := NormalFields(fs);
    NormalFieldsSorted(fs);
    SortedIsDistinct(p);
    if Get(fs, key) != Undefined {
      GetPresent(fs, key);
      var i: nat :| i < |fs| && fs[i].key == key && fs[i].value == Get(fs, key);
      Image(fs, fs[i]);
      var e := Field(key, Normal(fs[i].value));
      var j :| 0 <= j < |p| && p[j] == e;
      GetFirst(p, j);
    } else if Get(p, key) != Undefined {
      GetPresent(p, key);
      var j: nat :| j < |p| && p[j].key == key && p[j].value == Get(p, key);
      var f := Origin(fs, p[j]);
      var i :| 0 <= i < |fs| && fs[i] == f;
      GetFirst(fs, i);
    }
  }

  lemma {:induction false} WithoutElements(fs: seq<Field>, key: string)
    ensures forall f :: f in Without(fs, key) <==> f in fs && f.key != key
  {
    if fs != [] {
      WithoutElements(fs[1..], key);
      assert fs == [fs[0]] + fs[1..];
    }
  }

  lemma {:induction false} WithoutSorted(fs: seq<Field>, key: string)
    requires SortedFields(fs)
    ensures SortedFields(Without(fs, key))
  {
    if fs != [] {
      WithoutSorted(fs[1..], key);
      WithoutElements(fs[1..], key);
      if fs[0].key != key {
        var t := Without(fs[1..], key);
        forall j | 0 <= j < |t| ensures Less(fs[0].key, t[j].key) {
          assert t[j] in t;
          var i :| 0 <= i < |fs[1..]| && fs[1..][i] == t[j];
          assert fs[i + 1] == t[j];
        }
      }
    }
  }

  /** Removing the tag from a canonical signed envelope leaves the canonical unsigned one. */
  lemma {:induction false} WithoutTag(fs: seq<Field>, hmac: string)
    requires DistinctKeys(fs) && forall f <- fs :: f.key != "hmac"
    ensures Without(NormalFields(Signed(fs, hmac)), "hmac") == NormalFields(fs)
  {
    var s := Signed(fs, hmac);
    var p := Without(NormalFields(s), "hmac");
    NormalFieldsSorted(s);
    NormalFieldsSorted(fs);
    WithoutSorted(NormalFields(s), "hmac");
    WithoutElements(NormalFields(s), "hmac");
    forall e | e in p ensures e in NormalFields(fs) {
      var f := Origin(s, e);
      assert f in fs;
      Image(fs, f);
    }
    forall e | e in NormalFields(fs) ensures e in p {
      var f := Origin(fs, e);
      assert f in s;
      Image(s, f);
    }
    SortedUnique(p, NormalFields(fs));
  }

  lemma {:induction false} NormalKind(v: Js)
    ensures Normal(v).Str? <==> v.Str?
    ensures v.Str? ==> Normal(v) == v
    ensures Normal(v).Num? <==> v.Num?
    ensures Normal(v).Obj? <==> v.Obj?
    ensures Normal(v).Arr? <==> v.Arr?
  {
  }

  /** Normalizing changes neither the kind of a property nor a string. */
  lemma {:induction false} NormalKeepsProperty(fs: seq<Field>, key: string)
    requires DistinctKeys(fs)
    ensures Get(NormalFields(fs), key).Str? <==> Get(fs, key).Str?
    ensures Get(fs, key).Str? ==> Get(NormalFields(fs), key) == Get(fs, key)
    ensures Get(NormalFields(fs), key).Num? <==> Get(fs, key).Num?
    ensures Get(NormalFields(fs), key).Obj? <==> Get(fs, key).Obj?
    ensures Get(NormalFields(fs), key).Arr? <==> Get(fs, key).Arr?
  {
    GetNormal(fs, key);
    NormalKind(Get(fs, key));
  }

  /** Normalizing keeps what `decodeEnvelope` looks at. */
  lemma {:induction false} NormalKeepsShape(fs: seq<Field>)
    requires DistinctKeys(fs)
    ensures ShapeError(NormalFields(fs)) == ShapeError(fs)
  {
    NormalKeepsProperty(fs, "proto");
    NormalKeepsProperty(fs, "envelopeId");
    NormalKeepsProperty(fs, "teamId");
    NormalKeepsProperty(fs, "fromHostId");
    NormalKeepsProperty(fs, "hmac");
    NormalKeepsProperty(fs, "sentAt");
    NormalKeepsProperty(fs, "kind");
    NormalKeepsProperty(fs, "event");
    NormalKeepsProperty(fs, "payload");
  }

  /**
   What encoding produces, decoding accepts exactly when the object has an envelope's shape, and gives its canonical
   form.
   */
  lemma {:induction false} DecodeInvertsEncode(fs: seq<Field>)
    requires WellKeyed(Obj(fs)) && Representable(Obj(fs))
    ensures Decode(Encode(fs).value) ==
            match ShapeError(fs) case None => Ok(NormalFields(fs)) case Some(e) => Err(e)
  {
    NormalIsCanonical(Obj(fs));
    CanonicalIsPlain(Normal(Obj(fs)));
    ParseInvertsText(Normal(Obj(fs)));
    NormalKeepsShape(fs);
  }

  lemma {:induction false} NormalIsIdempotent(fs: seq<Field>)
    requires WellKeyed(Obj(fs)) && Representable(Obj(fs))
    ensures Canonicalize(Obj(NormalFields(fs))) == Canonicalize(Obj(fs))
  {
    var n := Normal(Obj(fs));
    NormalIsCanonical(Obj(fs));
    CanonicalIsFixed(n);
    CanonicalIsRepresentable(n);
  }

  lemma {:induction false} CanonicalIsRepresentable(v: Js)
    requires Canonical(v)
    ensures Representable(v)
  {
    match v
    case Arr(items) =>
      forall w | w in items ensures Representable(w) {
        CanonicalIsRepresentable(w);
      }
    case Obj(fields) =>
      forall f | f in fields ensures Representable(f.value) {
        CanonicalIsRepresentable(f.value);
      }
    case _ =>
  }

  /** An envelope before signing: canonicalizable, without a tag, and otherwise of an envelope's shape. */
  predicate Unsigned(fs: seq<Field>) {
    && WellKeyed(Obj(fs))
    && Representable(Obj(fs))
    && (forall f <- fs :: f.key != "hmac")
    && ShapeError(Signed(fs, "")).None?
  }

  lemma {:induction false} GetOfSigned(fs: seq<Field>, hmac: string, key: string)
    requires forall f <- fs :: f.key != "hmac"
    ensures Get(Signed(fs, hmac), key) == if key == "hmac" then Str(hmac) else Get(fs, key)
  {
    var s := Signed(fs, hmac);
    if fs == [] {
      assert s == [Field("hmac", Str(hmac))] && s[1..] == [];
    } else {
      assert s[1..] == Signed(fs[1..], hmac);
      GetOfSigned(fs[1..], hmac, key);
    }
  }

  /** The shape check only wants the tag to be a string. */
  lemma ShapeOfSigned(fs: seq<Field>, hmac: string)
    requires Unsigned(fs)
    ensures ShapeError(Signed(fs, hmac)).None?
  {
    forall key: string
      ensures Get(Signed(fs, hmac), key) == if key == "hmac" then Str(hmac) else Get(fs, key)
      ensures Get(Signed(fs, ""), key) == if key == "hmac" then Str("") else Get(fs, key)
    {
      GetOfSigned(fs, hmac, key);
      GetOfSigned(fs, "", key);
    }
  }

  lemma SignedFacts(fs: seq<Field>, hmac: string)
    requires Unsigned(fs)
    ensures WellKeyed(Obj(Signed(fs, hmac))) && Representable(Obj(Signed(fs, hmac)))
    ensures ShapeError(Signed(fs, hmac)).None?
  {
    ShapeOfSigned(fs, hmac);
    forall f | f in Signed(fs, hmac) ensures WellKeyed(f.value) && (f.value.Undefined? || Representable(f.value)) {
      assert f in fs || f == Field("hmac", Str(hmac));
    }
  }

  /** Sign, send, receive: every envelope that can be signed is decoded and verified under the same secret. */
  lemma SignedRoundTrip(mac: Mac, fs: seq<Field>, secret: string)
    requires Digesting(mac) && Unsigned(fs)
    ensures Sign(mac, fs, secret).Some?
    ensures var out := Signed(fs, Sign(mac, fs, secret).value);
            && Encode(out).Some?
            && Decode(Encode(out).value) == Ok(NormalFields(out))
            && Verify(mac, NormalFields(out), secret) == Some(true)
  {
    var tag := Sign(mac, fs, secret).value;
    var out := Signed(fs, tag);
    SignedFacts(fs, tag);
    DecodeInvertsEncode(out);
    GetNormal(out, "hmac");
    GetNormal(out, "proto");
    GetOfSigned(fs, tag, "hmac");
    WithoutTag(fs, tag);
    NormalIsIdempotent(fs);
    LowerOfDigest(tag);
    VerifyAcceptsExactly(mac, NormalFields(out), secret);
    assert Get(NormalFields(out), "proto") == Str(PROTO) by {
      NormalKeepsShape(out);
    }
  }

  lemma {:induction false} LowerOfDigest(s: string)
    requires forall i :: 0 <= i < |s| ==> LowerDigit(s[i])
    ensures LowerHex(s) == s
  {
    if s != [] {
      LowerOfDigest(s[1..]);
    }
  }

  /** Reordering keys in transit, at any depth, does not change the verdict. */
  lemma {:induction false} VerifyIgnoresKeyOrder(mac: Mac, fs: seq<Field>, gs: seq<Field>, secret: string)
    requires WellKeyed(Obj(fs)) && Representable(Obj(fs)) && WellKeyed(Obj(gs)) && Representable(Obj(gs))
    requires SameFields(fs, gs)
    ensures Verify(mac, fs, secret) == Verify(mac, gs, secret)
  {
    SameIffNormal(Obj(fs), Obj(gs));
    NormalKeepsProperty(fs, "hmac");
    NormalKeepsProperty(gs, "hmac");
    NormalKeepsProperty(fs, "proto");
    NormalKeepsProperty(gs, "proto");
    SameSignature(mac, fs, gs, secret);
  }

  lemma {:induction false} SameSignature(mac: Mac, fs: seq<Field>, gs: seq<Field>, secret: string)
    requires DistinctKeys(fs) && Representable(Obj(fs)) && DistinctKeys(gs) && Representable(Obj(gs))
    requires NormalFields(fs) == NormalFields(gs)
    ensures Sign(mac, Without(fs, "hmac"), secret) == Sign(mac, Without(gs, "hmac"), secret)
  {
    WithoutCommutes(fs, "hmac");
    WithoutCommutes(gs, "hmac");
    RepresentableWithout(fs, "hmac");
    RepresentableWithout(gs, "hmac");
  }

  lemma {:induction false} RepresentableWithout(fs: seq<Field>, key: string)
    requires Representable(Obj(fs))
    ensures Representable(Obj(Without(fs, key)))
  {
    WithoutElements(fs, key);
  }

  lemma {:induction false} WithoutCommutes(fs: seq<Field>, key: string)
    requires DistinctKeys(fs)
    ensures NormalFields(Without(fs, key)) == Without(NormalFields(fs), key)
  {
    var p, q := NormalFields(Without(fs, key)), Without(NormalFields(fs), key);
    WithoutDistinct(fs, key);
    NormalFieldsSorted(Without(fs, key));
    NormalFieldsSorted(fs);
    WithoutSorted(NormalFields(fs), key);
    WithoutElements(NormalFields(fs), key);
    WithoutElements(fs, key);
    forall e | e in p ensures e in q {
      var f := Origin(Without(fs, key), e);
      Image(fs, f);
    }
    forall e | e in q ensures e in p {
      var f := Origin(fs, e);
      Image(Without(fs, key), f);
    }
    SortedUnique(p, q);
  }

  lemma {:induction false} WithoutDistinct(fs: seq<Field>, key: string)
    requires DistinctKeys(fs)
    ensures DistinctKeys(Without(fs, key))
  {
    if fs != [] {
      WithoutDistinct(fs[1..], key);
      WithoutElements(fs[1..], key);
      if fs[0].key != key {
        var t := Without(fs[1..], key);
        forall j | 0 <= j < |t| ensures fs[0].key != t[j].key {
          assert t[j] in t;
          var i :| 0 <= i < |fs[1..]| && fs[1..][i] == t[j];
          assert fs[i + 1] == t[j];
        }
      }
    }
  }

  // ---------- What a receiver can be handed ----------

  /** The fields of an envelope, as the receiver checks them. */
  predicate HasShape(fs: seq<Field>) {
    && Get(fs, "proto") == Str(PROTO)
    && Get(fs, "envelopeId").Str? && Get(fs, "teamId").Str? && Get(fs, "fromHostId").Str? && Get(fs, "hmac").Str?
    && Get(fs, "sentAt").Num?
    && Get(fs, "kind") in [Str("event"), Str("hello"), Str("welcome"), Str("heartbeat"), Str("catchup_request"),
                           Str("catchup_chunk"), Str("peer_left"), Str("error")]
    && (Get(fs, "kind") == Str("event") ==> Get(fs, "event").Obj? || Get(fs, "event").Arr?)
    && (Get(fs, "kind") != Str("event") ==> Get(fs, "payload").Obj?)
  }

  lemma ShapeExactly(fs: seq<Field>)
    ensures ShapeError(fs).None? <==> HasShape(fs)
  {
  }

  /** A text is taken for an envelope exactly if it parses to an object with an envelope's fields. */
  lemma DecodesExactly(raw: string, fs: seq<Field>)
    ensures Decode(raw) == Ok(fs) <==> Parse(raw) == Some(Obj(fs)) && HasShape(fs)
    ensures Decode(raw) == Ok(fs) ==> WellKeyed(Obj(fs)) && Representable(Obj(fs))
  {
    ParsedIsSound(raw);
    ShapeExactly(fs);
  }

  /** The tag is, up to letter case, the MAC of the canonical text of the other fields. */
  predicate Authentic(fs: seq<Field>, mac: Mac, secret: string) {
    var rest := Obj(Without(fs, "hmac"));
    && Get(fs, "hmac").Str? && Representable(rest)
    && LowerHex(Get(fs, "hmac").s) == mac(secret, Text(Normal(rest)))
  }

  /** Of what can be received, exactly the authentic envelopes verify; and verification always has an answer. */
  lemma ReceivedVerifiesIff(mac: Mac, raw: string, fs: seq<Field>, secret: string)
    requires Digesting(mac) && Decode(raw) == Ok(fs)
    ensures Verify(mac, fs, secret) == Some(Authentic(fs, mac, secret))
  {
    DecodesExactly(raw, fs);
    RepresentableWithout(fs, "hmac");
    VerifyAcceptsExactly(mac, fs, secret);
  }
}
