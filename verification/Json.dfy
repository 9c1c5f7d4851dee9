/**
 JavaScript values, canonical JSON text and the parser that reads it back (src/mesh/envelope.ts).
 Numbers are integers; strings are sequences of Unicode scalar values.

 Objects are lists of fields in the order in which their keys were set, because that order is what
 canonicalization has to forget.
 */
module Json {
  import opened Basics
  import opened Order

  /** What `canonicalize` can be handed. Object fields keep the order in which they were set. */
  datatype Js =
    | Undefined
    | Null
    | Bool(b: bool)
    | Num(n: int)
    | NonFinite
    | Str(s: string)
    | Arr(items: seq<Js>)
    | Obj(fields: seq<Field>)
    | Unsupported

  datatype Field = Field(key: string, value: Js)

  datatype Error = UndefinedValue | NonFiniteNumber | UnsupportedType

  /** An object holds each key once. */
  predicate DistinctKeys(fs: seq<Field>) {
    forall i, j :: 0 <= i < j < |fs| ==> fs[i].key != fs[j].key
  }

  predicate WellKeyed(v: Js) {
    match v
    case Arr(items) => forall w <- items :: WellKeyed(w)
    case Obj(fields) => DistinctKeys(fields) && forall f <- fields :: WellKeyed(f.value)
    case _ => true
  }

  /** The values `canonicalize` accepts: undefined is tolerated only as a property, where it is skipped. */
  predicate Representable(v: Js) {
    match v
    case Undefined => false
    case NonFinite => false
    case Unsupported => false
    case Arr(items) => forall w <- items :: Representable(w)
    case Obj(fields) => forall f <- fields :: f.value.Undefined? || Representable(f.value)
    case _ => true
  }

  // ---------- Canonical form of a value ----------

  function InsertField(f: Field, fs: seq<Field>): (r: seq<Field>)
  {
    if fs == [] || Less(f.key, fs[0].key) then [f] + fs else [fs[0]] + InsertField(f, fs[1..])
  }

  /** The value with every object's undefined properties dropped and the rest sorted by key. */
  function Normal(v: Js): Js
    decreases v, 1
  {
    match v
    case Arr(items) => Arr(NormalItems(items))
    case Obj(fields) => Obj(NormalFields(fields))
    case _ => v
  }

  function NormalItems(items: seq<Js>): (r: seq<Js>)
    ensures |r| == |items|
    decreases items, 0
  {
    if items == [] then [] else [Normal(items[0])] + NormalItems(items[1..])
  }

  function NormalFields(fs: seq<Field>): seq<Field>
    decreases fs, 0
  {
    if fs == [] then []
    else if fs[0].value.Undefined? then NormalFields(fs[1..])
    else InsertField(Field(fs[0].key, Normal(fs[0].value)), NormalFields(fs[1..]))
  }

  // ---------- Text ----------

  const HEX := "0123456789abcdef"

  function Decimal(n: nat): (s: string)
    ensures s != []
  {
    if n < 10 then ['0' + n as char] else Decimal(n / 10) + ['0' + (n % 10) as char]
  }

  function NumText(n: int): string {
    if n < 0 then "-" + Decimal(-n) else Decimal(n)
  }

  /** How `JSON.stringify` writes one character of a string. */
  function EscapeChar(c: char): (s: string)
    ensures s != []
  {
    if c == '\"' then "\\\""
    else if c == '\\' then "\\\\"
    else if c == 8 as char then "\\b"
    else if c == 12 as char then "\\f"
    else if c == '\n' then "\\n"
    else if c == '\r' then "\\r"
    else if c == '\t' then "\\t"
    else if c < ' ' then "\\u00" + [HEX[c as int / 16], HEX[c as int % 16]]
    else [c]
  }

  function Escape(s: string): string {
    if s == [] then [] else EscapeChar(s[0]) + Escape(s[1..])
  }

  function Quote(s: string): string {
    "\"" + Escape(s) + "\""
  }

  /** The text of a value whose object fields are written in their own order. */
  function Text(v: Js): string
    decreases v, 1
  {
    match v
    case Null => "null"
    case Bool(b) => if b then "true" else "false"
    case Num(n) => NumText(n)
    case Str(s) => Quote(s)
    case Arr(items) => "[" + ItemsText(items) + "]"
    case Obj(fields) => "{" + FieldsText(fields) + "}"
    case _ => ""
  }

  function ItemsText(items: seq<Js>): string
    decreases items, 0
  {
    if items == [] then ""
    else if |items| == 1 then Text(items[0])
    else Text(items[0]) + "," + ItemsText(items[1..])
  }

  function FieldText(f: Field): string
    decreases f, 0
  {
    Quote(f.key) + ":" + Text(f.value)
  }

  function FieldsText(fs: seq<Field>): string
    decreases fs, 1
  {
    if fs == [] then ""
    else if |fs| == 1 then FieldText(fs[0])
    else FieldText(fs[0]) + "," + FieldsText(fs[1..])
  }

  /** A plain JSON value: representable, with no undefined property left and distinct keys. */
  ghost predicate Plain(v: Js) {
    match v
    case Undefined => false
    case NonFinite => false
    case Unsupported => false
    case Arr(items) => forall w <- items :: Plain(w)
    case Obj(fields) => DistinctKeys(fields) && forall f <- fields :: Plain(f.value)
    case _ => true
  }

  ghost predicate SortedFields(fs: seq<Field>) {
    forall i, j :: 0 <= i < j < |fs| ==> Less(fs[i].key, fs[j].key)
  }

  // ---------- Parsing ----------

  function Digit(c: char): (d: nat)
    requires '0' <= c <= '9'
    ensures d < 10
  {
    (c - '0') as int
  }

  predicate IsDigit(c: char) {
    '0' <= c <= '9'
  }

  /** Reads the longest run of digits, continuing the number `acc`. */
  function ParseDigits(s: string, acc: nat): (r: (nat, string))
    ensures |r.1| <= |s|
  {
    if s == [] || !IsDigit(s[0]) then (acc, s) else ParseDigits(s[1..], 10 * acc + Digit(s[0]))
  }

  function HexValue(c: char): (r: Option<nat>)
    ensures r.Some? ==> r.value < 16
  {
    if '0' <= c <= '9' then Some((c - '0') as int)
    else if 'a' <= c <= 'f' then Some((c - 'a') as int + 10)
    else if 'A' <= c <= 'F' then Some((c - 'A') as int + 10)
    else None
  }

  function ParseUnicode(s: string): Option<char>
    requires |s| >= 4
  {
    match (HexValue(s[0]), HexValue(s[1]), HexValue(s[2]), HexValue(s[3]))
    case (Some(a), Some(b), Some(c), Some(d)) =>
      var n := ((a * 16 + b) * 16 + c) * 16 + d;
      if n < 0xD800 || 0xE000 <= n < 0x1_0000 then Some(n as char) else None
    case _ => None
  }

  function Unescape(c: char): Option<char> {
    if c == '\"' || c == '\\' || c == '/' then Some(c)
    else if c == 'b' then Some(8 as char)
    else if c == 'f' then Some(12 as char)
    else if c == 'n' then Some('\n')
    else if c == 'r' then Some('\r')
    else if c == 't' then Some('\t')
    else None
  }

  /** Reads the rest of a string literal, up to and including its closing quote. */
  function ParseString(s: string, acc: string): (r: Option<(string, string)>)
    ensures r.Some? ==> |r.value.1| < |s|
    decreases |s|
  {
    if s == [] || s[0] < ' ' then None
    else if s[0] == '\"' then Some((acc, s[1..]))
    else if s[0] != '\\' then ParseString(s[1..], acc + [s[0]])
    else if |s| < 2 then None
    else if s[1] == 'u' then
      if |s| < 6 then None
      else match ParseUnicode(s[2..6])
        case Some(c) => ParseString(s[6..], acc + [c])
        case None => None
    else match Unescape(s[1])
      case Some(c) => ParseString(s[2..], acc + [c])
      case None => None
  }

  /** Setting a property: an existing key keeps its place and takes the new value. */
  function SetField(fs: seq<Field>, f: Field): seq<Field> {
    if fs == [] then [f]
    else if fs[0].key == f.key then [f] + fs[1..]
    else [fs[0]] + SetField(fs[1..], f)
  }

  /** The literal `w`, standing for `v`, at the start of `s`. */
  function ParseWord(s: string, w: string, v: Js): (r: Option<(Js, string)>)
    requires w != []
    ensures r.Some? ==> |r.value.1| < |s|
  {
    if |s| >= |w| && s[..|w|] == w then Some((v, s[|w|..])) else None
  }

  function ParseQuoted(s: string): (r: Option<(Js, string)>)
    requires s != []
    ensures r.Some? ==> |r.value.1| < |s|
  {
    match ParseString(s[1..], "")
    case Some((t, rest)) => Some((Str(t), rest))
    case None => None
  }

  function ParseValue(s: string): (r: Option<(Js, string)>)
    ensures r.Some? ==> |r.value.1| < |s|
    decreases |s|, 1
  {
    if s == [] then None
    else if s[0] == '[' then
      if |s| > 1 && s[1] == ']' then Some((Arr([]), s[2..])) else ParseItems(s[1..], [])
    else if s[0] == '{' then
      if |s| > 1 && s[1] == '}' then Some((Obj([]), s[2..])) else ParseFields(s[1..], [])
    else if s[0] == '\"' then ParseQuoted(s)
    else if s[0] == 'n' then ParseWord(s, "null", Null)
    else if s[0] == 't' then ParseWord(s, "true", Bool(true))
    else if s[0] == 'f' then ParseWord(s, "false", Bool(false))
    else ParseNumber(s)
  }

  /** Integers as JSON writes them: an optional minus and digits without a leading zero. */
  function ParseNumber(s: string): (r: Option<(Js, string)>)
    ensures r.Some? ==> |r.value.1| < |s|
  {
    var t := if s != [] && s[0] == '-' then s[1..] else s;
    if t == [] || !IsDigit(t[0]) then None
    else if t[0] == '0' && |t| > 1 && IsDigit(t[1]) then None
    else
      var (n, rest) := ParseDigits(t[1..], Digit(t[0]));
      Some((Num(if t == s then n as int else -(n as int)), rest))
  }

  /** Reads the items that follow, each closed by a comma or by the final bracket. */
  function ParseItems(s: string, acc: seq<Js>): (r: Option<(Js, string)>)
    ensures r.Some? ==> |r.value.1| < |s|
    decreases |s|, 2
  {
    match ParseValue(s)
    case None => None
    case Some((v, rest)) =>
      if rest == [] then None
      else if rest[0] == ',' then ParseItems(rest[1..], acc + [v])
      else if rest[0] == ']' then Some((Arr(acc + [v]), rest[1..]))
      else None
  }

  /** A quoted key, a colon and a value. */
  function ParseField(s: string): (r: Option<(Field, string)>)
    ensures r.Some? ==> |r.value.1| < |s|
    decreases |s|, 2
  {
    if s == [] || s[0] != '\"' then None
    else match ParseString(s[1..], "")
      case None => None
      case Some((k, t)) =>
        if t == [] || t[0] != ':' then None
        else match ParseValue(t[1..])
          case None => None
          case Some((v, rest)) => Some((Field(k, v), rest))
  }

  function ParseFields(s: string, acc: seq<Field>): (r: Option<(Js, string)>)
    ensures r.Some? ==> |r.value.1| < |s|
    decreases |s|, 3
  {
    match ParseField(s)
    case None => None
    case Some((f, rest)) =>
      if rest == [] then None
      else if rest[0] == ',' then ParseFields(rest[1..], SetField(acc, f))
      else if rest[0] == '}' then Some((Obj(SetField(acc, f)), rest[1..]))
      else None
  }

  /** `JSON.parse`: one value and nothing after it. */
  function Parse(s: string): Option<Js> {
    match ParseValue(s)
    case Some((v, rest)) => if rest == [] then Some(v) else None
    case None => None
  }
}
