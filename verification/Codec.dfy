/** Line framing of JSON messages (src/ipc/codec.ts): a buffer that survives from chunk to chunk. */
module Codec {
  import opened Basics
  import opened Json
  import opened JsonLaws

  /** What `String.prototype.trim` removes. */
  predicate IsSpace(c: char) {
    || c in [' ', '\t', '\n', '\r'] || c as int in [0x0B, 0x0C, 0xA0, 0x1680, 0x2028, 0x2029, 0x202F, 0x205F, 0x3000, 0xFEFF]
    || 0x2000 <= c as int <= 0x200A
  }

  predicate Blank(line: string) {
    forall c <- line :: IsSpace(c)
  }

  /** The first line break, or the length. */
  function Break(s: string): (i: nat)
    ensures i <= |s| && (i < |s| ==> s[i] == '\n') && forall j :: 0 <= j < i ==> s[j] != '\n'
  {
    if s == [] || s[0] == '\n' then 0 else 1 + Break(s[1..])
  }

  function Kept(line: string): seq<string> {
    if Blank(line) then [] else [line]
  }

  /** The lines that `s` completes, blank ones left out, and what remains. */
  function Split(s: string): (seq<string>, string)
    decreases |s|
  {
    var i := Break(s);
    if i == |s| then ([], s)
    else
      var (lines, rest) := Split(s[i + 1..]);
      (Kept(s[..i]) + lines, rest)
  }

  function Parsed(lines: seq<string>): seq<Js> {
    if lines == [] then []
    else match Parse(lines[|lines| - 1])
      case Some(v) => Parsed(lines[..|lines| - 1]) + [v]
      case None => Parsed(lines[..|lines| - 1])
  }

  function EncodeLine(v: Js): string {
    Text(v) + "\n"
  }

  class LineDecoder {
    var buffer: string

    constructor ()
      ensures buffer == ""
    {
      buffer := "";
    }

    method PushLines(chunk: string) returns (out: seq<string>)
      modifies this
      ensures (out, buffer) == Split(old(buffer) + chunk)
    {
      buffer := buffer + chunk;
      ghost var whole := buffer;
      out := [];
      assert out + Split(buffer).0 == Split(buffer).0;
      var i := Break(buffer);
      while i < |buffer|
        invariant i == Break(buffer)
        invariant Split(whole) == (out + Split(buffer).0, Split(buffer).1)
        decreases |buffer|
      {
        var line := buffer[..i];
        var rest := buffer[i + 1..];
        SplitFirst(buffer);
        Associate(out, Kept(line), Split(rest).0);
        assert out + [] == out;
        if !Blank(line) {
          out := out + [line];
        }
        buffer := rest;
        i := Break(buffer);
      }
      assert out + [] == out;
    }

    method Push(chunk: string) returns (out: seq<Js>)
      modifies this
      ensures (out, buffer) == (Parsed(Split(old(buffer) + chunk).0), Split(old(buffer) + chunk).1)
    {
      var lines := PushLines(chunk);
      out := [];
      var i := 0;
      while i < |lines|
        invariant 0 <= i <= |lines| && out == Parsed(lines[..i])
        invariant (lines, buffer) == Split(old(buffer) + chunk)
      {
        assert lines[..i + 1][..i] == lines[..i];
        var v := Parse(lines[i]);
        if v.Some? {
          out := out + [v.value];
        }
        i := i + 1;
      }
      assert lines[..i] == lines;
    }
  }

  // ---------- Chunking does not matter ----------

  /** The decoder after pushing all `chunks`, with everything it returned. */
  function PushAll(buffer: string, chunks: seq<string>): (seq<string>, string)
    decreases |chunks|
  {
    if chunks == [] then ([], buffer)
    else
      var (lines, rest) := Split(buffer + chunks[0]);
      var (more, end) := PushAll(rest, chunks[1..]);
      (lines + more, end)
  }

  function Concat(chunks: seq<string>): string {
    if chunks == [] then "" else chunks[0] + Concat(chunks[1..])
  }

  lemma {:induction false} BreakAppend(s: string, t: string)
    ensures Break(s) < |s| ==> Break(s + t) == Break(s)
  {
    if s != [] && s[0] != '\n' {
      assert (s + t)[1..] == s[1..] + t;
      BreakAppend(s[1..], t);
    }
  }

  lemma SplitFirst(s: string)
    requires Break(s) < |s|
    ensures var i := Break(s); Split(s) == (Kept(s[..i]) + Split(s[i + 1..]).0, Split(s[i + 1..]).1)
  {
  }

  lemma CutAppend(s: string, t: string, i: nat)
    requires i < |s|
    ensures (s + t)[..i] == s[..i] && (s + t)[i + 1..] == s[i + 1..] + t
  {
  }

  lemma SplitCut(s: string, t: string, line: string, rest: string)
    requires Break(s) < |s| && line == s[..Break(s)] && rest == s[Break(s) + 1..]
    ensures Split(s) == (Kept(line) + Split(rest).0, Split(rest).1)
    ensures Split(s + t) == (Kept(line) + Split(rest + t).0, Split(rest + t).1)
  {
    BreakAppend(s, t);
    SplitFirst(s);
    SplitFirst(s + t);
    CutAppend(s, t, Break(s));
  }

  lemma Associate(a: seq<string>, b: seq<string>, c: seq<string>)
    ensures a + (b + c) == (a + b) + c
  {
  }

  /** Cutting a text leaves its lines: `near` is what the first part yields, `far` what the rest of it and `t` do. */
  lemma {:induction false} SplitAppend(s: string, t: string, near: (seq<string>, string), far: (seq<string>, string))
    requires near == Split(s) && far == Split(near.1 + t)
    ensures Split(s + t) == (near.0 + far.0, far.1)
    decreases |s|
  {
    if Break(s) < |s| {
      var line, rest := s[..Break(s)], s[Break(s) + 1..];
      SplitCut(s, t, line, rest);
      SplitAppend(rest, t, Split(rest), far);
      Associate(Kept(line), Split(rest).0, far.0);
    } else {
      assert near.0 + far.0 == far.0;
    }
  }

  /** What remains in the buffer has no line break, so pushing nothing completes nothing. */
  lemma {:induction false} RestIsStuck(s: string)
    ensures Split(Split(s).1) == ([], Split(s).1)
    decreases |s|
  {
    if Break(s) < |s| {
      RestIsStuck(s[Break(s) + 1..]);
    }
  }

  lemma PushFirst(buffer: string, chunks: seq<string>)
    requires chunks != []
    ensures var split := Split(buffer + chunks[0]);
            var more := PushAll(split.1, chunks[1..]);
            PushAll(buffer, chunks) == (split.0 + more.0, more.1)
  {
  }

  lemma ConcatFirst(buffer: string, chunks: seq<string>)
    requires chunks != []
    ensures buffer + Concat(chunks) == buffer + chunks[0] + Concat(chunks[1..])
  {
  }

  lemma PushedFirst(buffer: string, chunks: seq<string>, near: (seq<string>, string), tail: string)
    requires chunks != [] && near == Split(buffer + chunks[0]) && tail == Concat(chunks[1..])
    requires PushAll(near.1, chunks[1..]) == Split(near.1 + tail)
    ensures PushAll(buffer, chunks) == Split(buffer + Concat(chunks))
  {
    PushFirst(buffer, chunks);
    ConcatFirst(buffer, chunks);
    SplitAppend(buffer + chunks[0], tail, near, Split(near.1 + tail));
  }

  /**
   However a stream is cut into chunks, the decoder yields the lines and the remainder of the whole stream pushed at
   once.
   */
  lemma {:induction false} ChunkingDoesNotMatter(buffer: string, chunks: seq<string>)
    requires Break(buffer) == |buffer|
    ensures PushAll(buffer, chunks) == Split(buffer + Concat(chunks))
    decreases |chunks|
  {
    if chunks == [] {
      assert buffer + Concat(chunks) == buffer;
    } else {
      var near := Split(buffer + chunks[0]);
      RestIsStuck(buffer + chunks[0]);
      StuckHasNoBreak(near.1);
      ChunkingDoesNotMatter(near.1, chunks[1..]);
      PushedFirst(buffer, chunks, near, Concat(chunks[1..]));
    }
  }

  lemma {:induction false} StuckHasNoBreak(s: string)
    requires Split(s) == ([], s)
    ensures Break(s) == |s|
  {
    if Break(s) < |s| {
      RestIsShorter(s[Break(s) + 1..]);
    }
  }

  lemma {:induction false} RestIsShorter(s: string)
    ensures |Split(s).1| <= |s|
    decreases |s|
  {
    if Break(s) < |s| {
      RestIsShorter(s[Break(s) + 1..]);
    }
  }

  // ---------- Round trip ----------

  predicate OneLine(s: string) {
    forall c <- s :: c != '\n'
  }

  lemma {:induction false} DecimalOneLine(n: nat)
    ensures OneLine(Decimal(n))
  {
    if n >= 10 {
      DecimalOneLine(n / 10);
    }
  }

  lemma {:induction false} EscapeOneLine(s: string)
    ensures OneLine(Escape(s))
  {
    if s != [] {
      EscapeOneLine(s[1..]);
      EscapedCharOneLine(s[0]);
    }
  }

  lemma EscapedCharOneLine(c: char)
    ensures OneLine(EscapeChar(c))
  {
  }

  /** JSON text never contains a line break: inside strings it is escaped. */
  lemma {:induction false} TextOneLine(v: Js)
    ensures OneLine(Text(v))
    decreases v, 1
  {
    match v
    case Num(n) => DecimalOneLine(if n < 0 then -n else n);
    case Str(s) => EscapeOneLine(s);
    case Arr(items) => ItemsOneLine(items);
    case Obj(fields) => FieldsOneLine(fields);
    case _ =>
  }

  lemma {:induction false} ItemsOneLine(items: seq<Js>)
    ensures OneLine(ItemsText(items))
    decreases items, 0
  {
    if items != [] {
      TextOneLine(items[0]);
      ItemsOneLine(items[1..]);
    }
  }

  lemma {:induction false} FieldsOneLine(fs: seq<Field>)
    ensures OneLine(FieldsText(fs))
    decreases fs, 0
  {
    if fs != [] {
      EscapeOneLine(fs[0].key);
      TextOneLine(fs[0].value);
      FieldsOneLine(fs[1..]);
    }
  }

  lemma {:induction false} TextNotBlank(v: Js)
    requires Plain(v)
    ensures !Blank(Text(v))
  {
    if v.Num? {
      var m: nat := if v.n < 0 then -v.n else v.n;
      ReadDecimal(m, "");
      assert Decimal(m)[0] in Decimal(m);
      assert v.n < 0 ==> NumText(v.n)[0] == '-';
    }
    TextHead(v);
    assert Text(v)[0] in Text(v);
  }

  lemma {:induction false} BreakOfLine(line: string, rest: string)
    requires OneLine(line)
    ensures Break(line + "\n" + rest) == |line|
  {
    if line == [] {
      assert line + "\n" + rest == "\n" + rest;
    } else {
      assert (line + "\n" + rest)[1..] == line[1..] + "\n" + rest;
      assert line[0] in line && forall c <- line[1..] :: c in line;
      BreakOfLine(line[1..], rest);
    }
  }

  function EncodeAll(messages: seq<Js>): string {
    if messages == [] then "" else EncodeLine(messages[0]) + EncodeAll(messages[1..])
  }

  function Texts(messages: seq<Js>): (r: seq<string>)
    ensures |r| == |messages| && forall i :: 0 <= i < |r| ==> r[i] == Text(messages[i])
  {
    seq(|messages|, i requires 0 <= i < |messages| => Text(messages[i]))
  }

  lemma {:induction false} SplitEncoded(messages: seq<Js>)
    requires forall m :: m in messages ==> Plain(m)
    ensures Split(EncodeAll(messages)) == (Texts(messages), "")
    decreases |messages|
  {
    if messages != [] {
      var line, rest := Text(messages[0]), EncodeAll(messages[1..]);
      var s := EncodeAll(messages);
      TextOneLine(messages[0]);
      TextNotBlank(messages[0]);
      BreakOfLine(line, rest);
      assert s == line + "\n" + rest && s[..|line|] == line && s[|line| + 1..] == rest;
      SplitEncoded(messages[1..]);
      assert Texts(messages) == [line] + Texts(messages[1..]);
    }
  }

  lemma TextsSnoc(messages: seq<Js>, last: Js)
    ensures Texts(messages + [last]) == Texts(messages) + [Text(last)]
  {
  }

  lemma ParsedSnoc(lines: seq<string>, line: string)
    ensures Parsed(lines + [line]) == Parsed(lines) + if Parse(line).Some? then [Parse(line).value] else []
  {
    assert (lines + [line])[..|lines|] == lines;
  }

  lemma {:induction false} ParsedTexts(messages: seq<Js>)
    requires forall m :: m in messages ==> Plain(m)
    ensures Parsed(Texts(messages)) == messages
  {
    if messages != [] {
      var init, last := messages[..|messages| - 1], messages[|messages| - 1];
      ParsedTexts(init);
      ParseInvertsText(last);
      ParsedSnoc(Texts(init), Text(last));
      TextsSnoc(init, last);
      assert messages == init + [last];
    }
  }

  /** Any chunking of encoded messages decodes to exactly those messages and leaves nothing behind. */
  lemma {:induction false} FramingRoundTrip(messages: seq<Js>, chunks: seq<string>)
    requires (forall m :: m in messages ==> Plain(m)) && Concat(chunks) == EncodeAll(messages)
    ensures Parsed(PushAll("", chunks).0) == messages && PushAll("", chunks).1 == ""
  {
    ChunkingDoesNotMatter("", chunks);
    assert "" + Concat(chunks) == Concat(chunks);
    SplitEncoded(messages);
    ParsedTexts(messages);
  }

  // ---------- Streams of any lines ----------

  /** Lines one after the other, each with its break, and an unfinished one. */
  function Joined(lines: seq<string>, tail: string): string {
    if lines == [] then tail else lines[0] + "\n" + Joined(lines[1..], tail)
  }

  /** The lines that hold more than white space, in order. */
  function Written(lines: seq<string>): seq<string> {
    if lines == [] then []
    else if exists c :: c in lines[0] && !IsSpace(c) then [lines[0]] + Written(lines[1..])
    else Written(lines[1..])
  }

  lemma {:induction false} NoBreakIn(s: string)
    requires OneLine(s)
    ensures Break(s) == |s|
  {
    if s != [] {
      assert s[0] in s && forall c <- s[1..] :: c in s;
      NoBreakIn(s[1..]);
    }
  }

  lemma WrittenFirst(lines: seq<string>)
    requires lines != []
    ensures Written(lines) == Kept(lines[0]) + Written(lines[1..])
  {
    assert Blank(lines[0]) <==> !exists c :: c in lines[0] && !IsSpace(c);
  }

  lemma {:induction false} SplitJoined(lines: seq<string>, tail: string)
    requires (forall line :: line in lines ==> OneLine(line)) && OneLine(tail)
    ensures Split(Joined(lines, tail)) == (Written(lines), tail)
    decreases |lines|
  {
    if lines == [] {
      NoBreakIn(tail);
    } else {
      var s, line, rest := Joined(lines, tail), lines[0], Joined(lines[1..], tail);
      BreakOfLine(line, rest);
      assert s == line + "\n" + rest && s[..|line|] == line && s[|line| + 1..] == rest;
      SplitFirst(s);
      WrittenFirst(lines);
      SplitJoined(lines[1..], tail);
    }
  }

  /** Every text is some lines and an unfinished one. */
  lemma {:induction false} AnyTextIsLines(s: string) returns (lines: seq<string>, tail: string)
    ensures (forall line :: line in lines ==> OneLine(line)) && OneLine(tail) && s == Joined(lines, tail)
    decreases |s|
  {
    var i := Break(s);
    if i == |s| {
      lines, tail := [], s;
    } else {
      var more, end := AnyTextIsLines(s[i + 1..]);
      lines, tail := [s[..i]] + more, end;
      assert lines[1..] == more && s == s[..i] + "\n" + s[i + 1..];
    }
  }

  /** `vs` are the values of exactly the lines that parse, which are those at `at`, in order. */
  predicate Reads(lines: seq<string>, vs: seq<Js>, at: seq<nat>) {
    && |at| == |vs|
    && (forall i :: 0 <= i < |at| ==> at[i] < |lines| && Parse(lines[at[i]]) == Some(vs[i]))
    && (forall i, j :: 0 <= i < j < |at| ==> at[i] < at[j])
    && forall k :: 0 <= k < |lines| && Parse(lines[k]).Some? ==> k in at
  }

  lemma ReadsLonger(lines: seq<string>, line: string, vs: seq<Js>, at: seq<nat>)
    requires Reads(lines, vs, at)
    ensures Parse(line).None? ==> Reads(lines + [line], vs, at)
    ensures Parse(line).Some? ==> Reads(lines + [line], vs + [Parse(line).value], at + [|lines|])
  {
    var more, ends := lines + [line], at + [|lines|];
    assert forall k :: 0 <= k < |lines| ==> more[k] == lines[k];
    assert forall i :: 0 <= i < |at| ==> ends[i] == at[i];
    forall k | 0 <= k < |more| && Parse(more[k]).Some? ensures k in ends {
      if k < |lines| {
        assert k in at;
      } else {
        assert ends[|at|] == k;
      }
    }
  }

  lemma {:induction false} ParsedReads(lines: seq<string>) returns (at: seq<nat>)
    ensures Reads(lines, Parsed(lines), at)
  {
    at := [];
    if lines != [] {
      var init, line := lines[..|lines| - 1], lines[|lines| - 1];
      at := ParsedReads(init);
      assert lines == init + [line];
      ParsedSnoc(init, line);
      ReadsLonger(init, line, Parsed(init), at);
      assert Parse(line).None? ==> Parsed(init) + [] == Parsed(init);
      at := if Parse(line).Some? then at + [|init|] else at;
    }
  }

  /**
   However a stream of any lines is cut, the decoder yields the values of exactly those that hold more than white space
   and parse, in order, and keeps the unfinished line.
   */
  lemma DecodesExactly(lines: seq<string>, tail: string, chunks: seq<string>) returns (at: seq<nat>)
    requires (forall line :: line in lines ==> OneLine(line)) && OneLine(tail)
    requires Concat(chunks) == Joined(lines, tail)
    ensures Reads(Written(lines), Parsed(PushAll("", chunks).0), at) && PushAll("", chunks).1 == tail
  {
    ChunkingDoesNotMatter("", chunks);
    assert "" + Concat(chunks) == Concat(chunks);
    SplitJoined(lines, tail);
    at := ParsedReads(Written(lines));
  }
}
