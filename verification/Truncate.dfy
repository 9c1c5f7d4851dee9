/** Tool-result truncation (src/agent/tool-truncate.ts), counting characters where the source counts UTF-16 units. */
module Truncate {
  import opened Basics
  import Json

  const PREVIEW := 8_000

  // ---------- Text ----------

  function CharBytes(c: char): nat {
    if c < 0x80 as char then 1 else if c < 0x800 as char then 2 else if c < 0x1_0000 as char then 3 else 4
  }

  /** The length of the UTF-8 encoding. */
  function Bytes(s: string): nat {
    if s == [] then 0 else CharBytes(s[0]) + Bytes(s[1..])
  }

  /** The position of the last line break, or -1. */
  function LastBreak(s: string): (i: int)
    ensures -1 <= i < |s|
  {
    if s == [] then -1 else if s[|s| - 1] == '\n' then |s| - 1 else LastBreak(s[..|s| - 1])
  }

  function PreviewOf(content: string): (p: string)
    ensures p <= content
  {
    if |content| <= PREVIEW then content
    else
      var sliced := content[..PREVIEW];
      var last := LastBreak(sliced);
      if last > PREVIEW / 2 then sliced[..last] else sliced
  }

  /** `(n / unit).toFixed(1)` and `.toFixed(2)`: the nearest decimal, the larger of two that are as near. */
  function FormatBytes(n: nat): string {
    if n < 1024 then Json.Decimal(n) + "B"
    else if n < 1024 * 1024 then
      var tenths := (20 * n + 1024) / 2048;
      Json.Decimal(tenths / 10) + "." + Json.Decimal(tenths % 10) + "KB"
    else
      var hundredths := (200 * n + 1048576) / 2097152;
      Json.Decimal(hundredths / 100) + "." + Json.Decimal(hundredths / 10 % 10) + Json.Decimal(hundredths % 10) + "MB"
  }

  /** The text that stands in for `content`, a function of the block's id and content alone. */
  function Render(id: string, content: string): string {
    var preview := PreviewOf(content);
    "<persisted-output>\n" +
    "Output too large (" + FormatBytes(Bytes(content)) + "). Full output saved to: tool-result/" + id + "\n\n" +
    "Preview (first " + FormatBytes(Bytes(preview)) + "):\n" + preview + "\n" +
    (if |preview| < |content| then "...\nUse read_tool_result(handle=\"" + id + "\", offset=N, limit=N) to fetch more.\n" else "") +
    "</persisted-output>"
  }

  // ---------- State ----------

  /**
   What stands in for a block, given its id and content; the source's is `Render`, and stability does not depend on
   which it is.
   */
  type Renderer = (string, string) -> string

  datatype Block = Block(id: string, name: string, content: string)

  /** `seen` holds the replacements given out; `saved` what was handed to `persist`, in order. */
  datatype State = State(seen: map<string, string>, saved: seq<Block>)

  function Spill(f: Renderer, s: State, b: Block): State {
    State(s.seen[b.id := f(b.id, b.content)], s.saved + [b])
  }

  /** The state in which the block's replacement is known. */
  function Seen(f: Renderer, s: State, b: Block): (t: State)
    ensures b.id in t.seen
  {
    if b.id in s.seen then s else Spill(f, s, b)
  }

  /** Does a single result stay as it is? */
  predicate Fits(b: Block, perTool: Option<nat>, maxPerCall: nat) {
    var cap := if perTool.Some? && perTool.value < maxPerCall then perTool.value else maxPerCall;
    Bytes(b.content) <= cap
  }

  function One(f: Renderer, s: State, b: Block, perTool: Option<nat>, maxPerCall: nat): (State, string) {
    if b.id !in s.seen && Fits(b, perTool, maxPerCall) then (s, b.content)
    else (Seen(f, s, b), Seen(f, s, b).seen[b.id])
  }

  function Total(blocks: seq<Block>): nat {
    if blocks == [] then 0 else Total(blocks[..|blocks| - 1]) + Bytes(blocks[|blocks| - 1].content)
  }

  // ---------- Largest first ----------

  predicate InRange(order: seq<nat>, n: nat) {
    forall p :: 0 <= p < |order| ==> order[p] < n
  }

  /** Block `i` is spilled before block `j`. */
  predicate Sooner(blocks: seq<Block>, i: nat, j: nat)
    requires i < |blocks| && j < |blocks|
  {
    Bytes(blocks[i].content) > Bytes(blocks[j].content) || (Bytes(blocks[i].content) == Bytes(blocks[j].content) && i < j)
  }

  function Insert(blocks: seq<Block>, i: nat, order: seq<nat>): (r: seq<nat>)
    requires i < |blocks| && InRange(order, |blocks|)
    ensures InRange(r, |blocks|)
  {
    if order == [] || Sooner(blocks, i, order[0]) then [i] + order else [order[0]] + Insert(blocks, i, order[1..])
  }

  /** The first `n` indices, largest block first and earlier blocks first among equals. */
  function OrderOf(blocks: seq<Block>, n: nat): (order: seq<nat>)
    requires n <= |blocks|
    ensures InRange(order, |blocks|)
  {
    if n == 0 then [] else Insert(blocks, n - 1, OrderOf(blocks, n - 1))
  }

  lemma {:induction false} InsertElements(blocks: seq<Block>, i: nat, order: seq<nat>)
    requires i < |blocks| && InRange(order, |blocks|)
    ensures forall j :: j in Insert(blocks, i, order) <==> j == i || j in order
    ensures |Insert(blocks, i, order)| == |order| + 1
  {
    if order == [] || Sooner(blocks, i, order[0]) {
    } else {
      assert order == [order[0]] + order[1..];
      InsertElements(blocks, i, order[1..]);
    }
  }

  predicate Sorted(blocks: seq<Block>, order: seq<nat>)
    requires InRange(order, |blocks|)
  {
    forall p, q :: 0 <= p < q < |order| ==> Sooner(blocks, order[p], order[q])
  }

  lemma {:induction false} InsertSorts(blocks: seq<Block>, i: nat, order: seq<nat>)
    requires i < |blocks| && i !in order && InRange(order, |blocks|) && Sorted(blocks, order)
    ensures InRange(Insert(blocks, i, order), |blocks|) && Sorted(blocks, Insert(blocks, i, order))
  {
    InsertElements(blocks, i, order);
    if order == [] || Sooner(blocks, i, order[0]) {
    } else {
      var tail := order[1..];
      InsertSorts(blocks, i, tail);
      InsertElements(blocks, i, tail);
      var r := Insert(blocks, i, tail);
      forall q | 0 <= q < |r| ensures Sooner(blocks, order[0], r[q]) {
        if r[q] != i {
          assert r[q] in r && r[q] in tail;
          var p :| 0 <= p < |tail| && tail[p] == r[q];
          assert order[p + 1] == r[q];
        }
      }
    }
  }

  /** The order lists every index once, and is sorted. */
  lemma {:induction false} OrderIsSorted(blocks: seq<Block>, n: nat)
    requires n <= |blocks|
    ensures |OrderOf(blocks, n)| == n && Sorted(blocks, OrderOf(blocks, n))
    ensures forall j :: j in OrderOf(blocks, n) <==> 0 <= j < n
  {
    if n > 0 {
      OrderIsSorted(blocks, n - 1);
      InsertElements(blocks, n - 1, OrderOf(blocks, n - 1));
      InsertSorts(blocks, n - 1, OrderOf(blocks, n - 1));
    }
  }

  // ---------- The budget loop ----------

  function Visit(f: Renderer, s: State, blocks: seq<Block>, i: nat): (State, seq<Block>)
    requires i < |blocks|
  {
    var t := Seen(f, s, blocks[i]);
    (t, blocks[i := blocks[i].(content := t.seen[blocks[i].id])])
  }

  /** After the first `k` blocks of `order` were replaced. */
  function Visits(f: Renderer, s: State, blocks: seq<Block>, order: seq<nat>, k: nat): (r: (State, seq<Block>))
    requires k <= |order| && InRange(order, |blocks|)
    ensures |r.1| == |blocks|
  {
    if k == 0 then (s, blocks)
    else
      var (t, bs) := Visits(f, s, blocks, order, k - 1);
      Visit(f, t, bs, order[k - 1])
  }

  /** How many blocks of `order` the loop replaces, having replaced `k` already. */
  function Stop(f: Renderer, s: State, blocks: seq<Block>, order: seq<nat>, cap: nat, k: nat): (r: nat)
    requires k <= |order| && InRange(order, |blocks|)
    ensures k <= r <= |order|
    decreases |order| - k
  {
    if k == |order| || Total(Visits(f, s, blocks, order, k).1) <= cap then k else Stop(f, s, blocks, order, cap, k + 1)
  }

  function Enforce(f: Renderer, s: State, blocks: seq<Block>, cap: nat): (State, seq<Block>) {
    var order := OrderOf(blocks, |blocks|);
    Visits(f, s, blocks, order, Stop(f, s, blocks, order, cap, 0))
  }

  lemma {:induction false} TotalUpdate(blocks: seq<Block>, i: nat, b: Block)
    requires i < |blocks|
    ensures Total(blocks[i := b]) == Total(blocks) - Bytes(blocks[i].content) + Bytes(b.content)
  {
    var last := |blocks| - 1;
    var after := blocks[i := b];
    if i == last {
      assert after[..last] == blocks[..last];
    } else {
      assert after[..last] == blocks[..last][i := b];
      TotalUpdate(blocks[..last], i, b);
    }
  }

  class Truncation {
    var seen: map<string, string>
    var saved: seq<Block>

    constructor ()
      ensures Now() == State(map[], [])
    {
      seen, saved := map[], [];
    }

    function Now(): State
      reads this
    {
      State(seen, saved)
    }

    method SpillBlock(b: Block) returns (replacement: string)
      modifies this
      ensures Now() == Spill(Render, old(Now()), b) && replacement == Render(b.id, b.content)
    {
      saved := saved + [b];
      replacement := Render(b.id, b.content);
      seen := seen[b.id := replacement];
    }

    method MaybeTruncateOne(b: Block, perTool: Option<nat>, maxPerCall: nat) returns (text: string)
      modifies this
      ensures (Now(), text) == One(Render, old(Now()), b, perTool, maxPerCall)
    {
      if b.id in seen {
        return seen[b.id];
      }
      if Fits(b, perTool, maxPerCall) {
        return b.content;
      }
      text := SpillBlock(b);
    }

    method SumBytes(blocks: array<Block>) returns (total: nat)
      ensures total == Total(blocks[..])
    {
      total := 0;
      var i := 0;
      while i < blocks.Length
        invariant 0 <= i <= blocks.Length && total == Total(blocks[..i])
      {
        assert blocks[..i + 1][..i] == blocks[..i];
        total := total + Bytes(blocks[i].content);
        i := i + 1;
      }
      assert blocks[..i] == blocks[..];
    }

    /** Replaces one block in place and returns how many bytes that saved, which may be negative. */
    method Replace(blocks: array<Block>, j: nat) returns (less: int)
      requires j < blocks.Length
      modifies this, blocks
      ensures (Now(), blocks[..]) == Visit(Render, old(Now()), old(blocks[..]), j)
      ensures Total(blocks[..]) == Total(old(blocks[..])) - less
    {
      ghost var was := blocks[..];
      var size := Bytes(blocks[j].content);
      var text;
      if blocks[j].id in seen {
        text := seen[blocks[j].id];
      } else {
        text := SpillBlock(blocks[j]);
      }
      blocks[j] := blocks[j].(content := text);
      TotalUpdate(was, j, blocks[j]);
      assert blocks[..] == was[j := blocks[j]];
      less := size - Bytes(text);
    }

    /** The running total is the true sum after every step. */
    method EnforceMessageBudget(blocks: array<Block>, cap: nat)
      modifies this, blocks
      ensures (Now(), blocks[..]) == Enforce(Render, old(Now()), old(blocks[..]), cap)
    {
      ghost var before, start := blocks[..], Now();
      var total := SumBytes(blocks);
      if total <= cap {
        return;
      }
      var order := OrderOf(blocks[..], blocks.Length);
      var k := 0;
      while k < |order|
        invariant 0 <= k <= |order| && (Now(), blocks[..]) == Visits(Render, start, before, order, k)
        invariant total == Total(blocks[..]) && total > cap
        invariant Stop(Render, start, before, order, cap, 0) == Stop(Render, start, before, order, cap, k)
      {
        var less := Replace(blocks, order[k]);
        k := k + 1;
        total := total - less;
        if total <= cap {
          return;
        }
      }
    }
  }

  // ---------- Stability ----------

  /** Each replaced id was saved once, and its replacement is the rendering of what was saved. */
  ghost predicate Kept(f: Renderer, s: State) {
    && (forall p, q :: 0 <= p < q < |s.saved| ==> s.saved[p].id != s.saved[q].id)
    && (forall b :: b in s.saved ==> b.id in s.seen && s.seen[b.id] == f(b.id, b.content))
    && (forall id :: id in s.seen ==> exists b :: b in s.saved && b.id == id)
  }

  /** No replacement ever changes, and nothing saved is lost. */
  ghost predicate Grows(s: State, t: State) {
    s.saved <= t.saved && forall id :: id in s.seen ==> id in t.seen && t.seen[id] == s.seen[id]
  }

  lemma SeenKeeps(f: Renderer, s: State, b: Block)
    requires Kept(f, s)
    ensures Kept(f, Seen(f, s, b)) && Grows(s, Seen(f, s, b))
  {
    var t := Seen(f, s, b);
    if b.id !in s.seen {
      assert forall p :: 0 <= p < |s.saved| ==> s.saved[p] in s.saved;
      assert b in t.saved;
      forall id | id in t.seen ensures exists c :: c in t.saved && c.id == id {
        if id != b.id {
          var c :| c in s.saved && c.id == id;
          assert c in t.saved;
        }
      }
    }
  }

  lemma GrowsTransitive(s: State, t: State, u: State)
    requires Grows(s, t) && Grows(t, u)
    ensures Grows(s, u)
  {
  }

  lemma {:induction false} VisitsKeep(f: Renderer, s: State, blocks: seq<Block>, order: seq<nat>, k: nat)
    requires k <= |order| && InRange(order, |blocks|) && Kept(f, s)
    ensures Kept(f, Visits(f, s, blocks, order, k).0) && Grows(s, Visits(f, s, blocks, order, k).0)
  {
    if k > 0 {
      var (t, bs) := Visits(f, s, blocks, order, k - 1);
      VisitsKeep(f, s, blocks, order, k - 1);
      SeenKeeps(f, t, bs[order[k - 1]]);
      GrowsTransitive(s, t, Seen(f, t, bs[order[k - 1]]));
    }
  }

  datatype Call =
    | Single(block: Block, perTool: Option<nat>, maxPerCall: nat)
    | Budget(blocks: seq<Block>, cap: nat)

  function Do(f: Renderer, s: State, call: Call): State {
    match call
    case Single(b, perTool, maxPerCall) => One(f, s, b, perTool, maxPerCall).0
    case Budget(blocks, cap) => Enforce(f, s, blocks, cap).0
  }

  /** The state after `calls` on top of `s`, the first one first. */
  function After(f: Renderer, s: State, calls: seq<Call>): State {
    if calls == [] then s else Do(f, After(f, s, calls[..|calls| - 1]), calls[|calls| - 1])
  }

  lemma DoKeeps(f: Renderer, s: State, call: Call)
    requires Kept(f, s)
    ensures Kept(f, Do(f, s, call)) && Grows(s, Do(f, s, call))
  {
    match call
    case Single(b, perTool, maxPerCall) =>
      SeenKeeps(f, s, b);
    case Budget(blocks, cap) =>
      var order := OrderOf(blocks, |blocks|);
      VisitsKeep(f, s, blocks, order, Stop(f, s, blocks, order, cap, 0));
  }

  /** Over any calls whatever, every replaced id is saved exactly once and keeps one rendering for ever. */
  lemma {:induction false} ReplacedForever(f: Renderer, s: State, calls: seq<Call>)
    requires Kept(f, s)
    ensures Kept(f, After(f, s, calls)) && Grows(s, After(f, s, calls))
  {
    if calls != [] {
      var t := After(f, s, calls[..|calls| - 1]);
      ReplacedForever(f, s, calls[..|calls| - 1]);
      DoKeeps(f, t, calls[|calls| - 1]);
      GrowsTransitive(s, t, Do(f, t, calls[|calls| - 1]));
    }
  }

  /**
   However much later a replaced id comes back, and with whatever content, the same string is rendered and nothing is
   saved.
   */
  lemma {:induction false} RenderedIdentically(f: Renderer, s: State, id: string, calls: seq<Call>, again: Block,
      perTool: Option<nat>, maxPerCall: nat)
    requires Kept(f, s) && id in s.seen && again.id == id
    ensures One(f, After(f, s, calls), again, perTool, maxPerCall) == (After(f, s, calls), s.seen[id])
  {
    ReplacedForever(f, s, calls);
  }

  // ---------- One round of tool results ----------

  datatype Raw = Raw(block: Block, perTool: Option<nat>)

  /** The per-call stage for the first `k` results, in order. */
  function Singles(f: Renderer, s: State, raws: seq<Raw>, maxPerCall: nat, k: nat): (r: (State, seq<Block>))
    requires k <= |raws|
    ensures |r.1| == k
  {
    if k == 0 then (s, [])
    else
      var (t, bs) := Singles(f, s, raws, maxPerCall, k - 1);
      var b := raws[k - 1].block;
      var (u, text) := One(f, t, b, raws[k - 1].perTool, maxPerCall);
      (u, bs + [b.(content := text)])
  }

  /** Both stages, as the turn engine runs them on the results of one assistant message. */
  function Round(f: Renderer, s: State, raws: seq<Raw>, maxPerCall: nat, cap: nat): (State, seq<Block>) {
    var (t, bs) := Singles(f, s, raws, maxPerCall, |raws|);
    Enforce(f, t, bs, cap)
  }

  predicate DistinctIds(raws: seq<Raw>) {
    forall p, q :: 0 <= p < q < |raws| ==> raws[p].block.id != raws[q].block.id
  }

  predicate NewIds(s: State, raws: seq<Raw>) {
    && (forall i :: 0 <= i < |raws| ==> raws[i].block.id !in s.seen)
    && DistinctIds(raws)
  }

  /** A result reads as the tool returned it, or as the rendering of that, in which case exactly that was saved. */
  predicate Faithful(f: Renderer, s: State, raw: Block, out: Block) {
    if raw.id in s.seen then
      raw in s.saved && out == raw.(content := f(raw.id, raw.content)) && s.seen[raw.id] == out.content
    else out == raw
  }

  ghost predicate AllFaithful(f: Renderer, s: State, raws: seq<Raw>, outs: seq<Block>) {
    |outs| <= |raws| && forall i :: 0 <= i < |outs| ==> Faithful(f, s, raws[i].block, outs[i])
  }

  /** Only these results have been seen beyond `s`. */
  ghost predicate SeenOnly(s: State, t: State, raws: seq<Raw>, k: nat)
    requires k <= |raws|
  {
    forall id :: id in t.seen ==> id in s.seen || exists i :: 0 <= i < k && raws[i].block.id == id
  }

  lemma SingleFaithful(f: Renderer, s: State, t: State, raws: seq<Raw>, bs: seq<Block>, maxPerCall: nat, k: nat)
    requires k == |bs| < |raws| && NewIds(s, raws) && Kept(f, t) && AllFaithful(f, t, raws, bs)
    requires SeenOnly(s, t, raws, k)
    ensures var (u, text) := One(f, t, raws[k].block, raws[k].perTool, maxPerCall);
            Kept(f, u) && AllFaithful(f, u, raws, bs + [raws[k].block.(content := text)]) && SeenOnly(s, u, raws, k + 1)
  {
    var b := raws[k].block;
    assert b.id !in t.seen;
    SeenKeeps(f, t, b);
    var (u, text) := One(f, t, b, raws[k].perTool, maxPerCall);
    assert Faithful(f, u, b, b.(content := text));
    forall i | 0 <= i < k ensures Faithful(f, u, raws[i].block, bs[i]) {
      assert Faithful(f, t, raws[i].block, bs[i]);
    }
  }

  ghost predicate Processed(f: Renderer, s: State, raws: seq<Raw>, k: nat, r: (State, seq<Block>))
    requires k <= |raws|
  {
    |r.1| == k && Kept(f, r.0) && AllFaithful(f, r.0, raws, r.1) && SeenOnly(s, r.0, raws, k)
  }

  lemma {:induction false} SinglesFaithful(f: Renderer, s: State, raws: seq<Raw>, maxPerCall: nat, k: nat)
    requires k <= |raws| && NewIds(s, raws) && Kept(f, s)
    ensures Processed(f, s, raws, k, Singles(f, s, raws, maxPerCall, k))
  {
    if k > 0 {
      var (t, bs) := Singles(f, s, raws, maxPerCall, k - 1);
      SinglesFaithful(f, s, raws, maxPerCall, k - 1);
      SingleFaithful(f, s, t, raws, bs, maxPerCall, k - 1);
    }
  }

  /** Replacing one more block of a faithful round keeps it faithful. */
  lemma VisitFaithful(f: Renderer, s: State, raws: seq<Raw>, blocks: seq<Block>, i: nat)
    requires i < |blocks| == |raws| && AllFaithful(f, s, raws, blocks) && Kept(f, s)
    requires DistinctIds(raws)
    ensures AllFaithful(f, Visit(f, s, blocks, i).0, raws, Visit(f, s, blocks, i).1)
  {
    var (t, bs) := Visit(f, s, blocks, i);
    assert Faithful(f, s, raws[i].block, blocks[i]);
    SeenKeeps(f, s, blocks[i]);
    forall j | 0 <= j < |bs| ensures Faithful(f, t, raws[j].block, bs[j]) {
      assert Faithful(f, s, raws[j].block, blocks[j]);
    }
  }

  lemma NextVisitFaithful(f: Renderer, before: (State, seq<Block>), raws: seq<Raw>, i: nat, after: (State, seq<Block>))
    requires i < |before.1| == |raws| && AllFaithful(f, before.0, raws, before.1) && Kept(f, before.0)
    requires DistinctIds(raws) && after == Visit(f, before.0, before.1, i)
    ensures |after.1| == |raws| && AllFaithful(f, after.0, raws, after.1)
  {
    VisitFaithful(f, before.0, raws, before.1, i);
  }

  lemma VisitsSnoc(f: Renderer, s: State, blocks: seq<Block>, order: seq<nat>, k: nat)
    requires 0 < k <= |order| && InRange(order, |blocks|)
    ensures var before := Visits(f, s, blocks, order, k - 1);
            Visits(f, s, blocks, order, k) == Visit(f, before.0, before.1, order[k - 1])
  {
  }

  lemma {:induction false} VisitsFaithful(f: Renderer, s: State, raws: seq<Raw>, blocks: seq<Block>,
      order: seq<nat>, k: nat)
    requires k <= |order| && InRange(order, |blocks|) && |blocks| == |raws| && AllFaithful(f, s, raws, blocks)
    requires Kept(f, s)
    requires DistinctIds(raws)
    ensures AllFaithful(f, Visits(f, s, blocks, order, k).0, raws, Visits(f, s, blocks, order, k).1)
  {
    if k > 0 {
      var before := Visits(f, s, blocks, order, k - 1);
      VisitsFaithful(f, s, raws, blocks, order, k - 1);
      VisitsKeep(f, s, blocks, order, k - 1);
      VisitsSnoc(f, s, blocks, order, k);
      NextVisitFaithful(f, before, raws, order[k - 1], Visits(f, s, blocks, order, k));
    }
  }

  lemma {:induction false} StopIsFirst(f: Renderer, s: State, blocks: seq<Block>, order: seq<nat>, cap: nat, k: nat)
    requires k <= |order| && InRange(order, |blocks|)
    ensures var r := Stop(f, s, blocks, order, cap, k);
            (r == |order| || Total(Visits(f, s, blocks, order, r).1) <= cap) &&
            forall p :: k <= p < r ==> Total(Visits(f, s, blocks, order, p).1) > cap
    decreases |order| - k
  {
    if k < |order| && Total(Visits(f, s, blocks, order, k).1) > cap {
      StopIsFirst(f, s, blocks, order, cap, k + 1);
    }
  }

  /**
   After a round every result is faithful, and the message is within its budget or every single result was replaced.
   */
  lemma RoundIsFaithful(f: Renderer, s: State, raws: seq<Raw>, maxPerCall: nat, cap: nat)
    requires Kept(f, s) && NewIds(s, raws)
    ensures var (t, outs) := Round(f, s, raws, maxPerCall, cap);
            && Kept(f, t) && |outs| == |raws| && AllFaithful(f, t, raws, outs)
            && (Total(outs) <= cap || forall i :: 0 <= i < |raws| ==> raws[i].block.id in t.seen)
  {
    var (t, bs) := Singles(f, s, raws, maxPerCall, |raws|);
    SinglesFaithful(f, s, raws, maxPerCall, |raws|);
    var order := OrderOf(bs, |bs|);
    var k := Stop(f, t, bs, order, cap, 0);
    VisitsFaithful(f, t, raws, bs, order, k);
    VisitsKeep(f, t, bs, order, k);
    StopIsFirst(f, t, bs, order, cap, 0);
    OrderIsSorted(bs, |bs|);
    var (u, outs) := Visits(f, t, bs, order, k);
    if Total(outs) > cap {
      forall i | 0 <= i < |raws| ensures raws[i].block.id in u.seen {
        assert i in order;
        var p :| 0 <= p < |order| && order[p] == i;
        VisitedSeen(f, t, bs, order, k, p);
        assert Faithful(f, t, raws[i].block, bs[i]);
      }
    }
  }

  // ---------- Largest first ----------

  lemma {:induction false} UnvisitedUnchanged(f: Renderer, s: State, blocks: seq<Block>, order: seq<nat>, k: nat,
      i: nat)
    requires k <= |order| && InRange(order, |blocks|) && i < |blocks|
    ensures (forall p :: 0 <= p < k ==> order[p] != i) ==> Visits(f, s, blocks, order, k).1[i] == blocks[i]
    ensures Visits(f, s, blocks, order, k).1[i].id == blocks[i].id
    ensures forall id :: id in s.seen ==> id in Visits(f, s, blocks, order, k).0.seen
  {
    if k > 0 {
      UnvisitedUnchanged(f, s, blocks, order, k - 1, i);
    }
  }

  lemma {:induction false} VisitedSeen(f: Renderer, s: State, blocks: seq<Block>, order: seq<nat>, k: nat, p: nat)
    requires p < k <= |order| && InRange(order, |blocks|)
    ensures blocks[order[p]].id in Visits(f, s, blocks, order, k).0.seen
  {
    var (t, bs) := Visits(f, s, blocks, order, k - 1);
    if p < k - 1 {
      VisitedSeen(f, s, blocks, order, k - 1, p);
    } else {
      UnvisitedUnchanged(f, s, blocks, order, k - 1, order[p]);
    }
  }

  /** A block that the budget changed was at least as large as any that it left without a replacement. */
  lemma LargestFirst(f: Renderer, s: State, blocks: seq<Block>, cap: nat, i: nat, j: nat)
    requires i < |blocks| && j < |blocks| && |Enforce(f, s, blocks, cap).1| == |blocks|
    requires Enforce(f, s, blocks, cap).1[i] != blocks[i]
    requires blocks[j].id !in Enforce(f, s, blocks, cap).0.seen
    ensures Sooner(blocks, i, j)
  {
    var order := OrderOf(blocks, |blocks|);
    var k := Stop(f, s, blocks, order, cap, 0);
    OrderIsSorted(blocks, |blocks|);
    UnvisitedUnchanged(f, s, blocks, order, k, i);
    var p :| 0 <= p < k && order[p] == i;
    assert j in order;
    var q :| 0 <= q < |order| && order[q] == j;
    if q < k {
      VisitedSeen(f, s, blocks, order, k, q);
    }
  }

  /** The budget replaces nothing beyond need: one replacement fewer would have left the message too large. */
  lemma {:induction false} NoneTooMany(f: Renderer, s: State, blocks: seq<Block>, cap: nat)
    ensures var order := OrderOf(blocks, |blocks|);
            var k := Stop(f, s, blocks, order, cap, 0);
            && Enforce(f, s, blocks, cap) == Visits(f, s, blocks, order, k)
            && (k > 0 ==> Total(Visits(f, s, blocks, order, k - 1).1) > cap)
            && (k < |blocks| ==> Total(Visits(f, s, blocks, order, k).1) <= cap)
  {
    var order := OrderOf(blocks, |blocks|);
    StopIsFirst(f, s, blocks, order, cap, 0);
    OrderIsSorted(blocks, |blocks|);
  }

  /** The budget ends with the message within its cap or with every block replaced. */
  lemma WithinCapOrAllReplaced(f: Renderer, s: State, blocks: seq<Block>, cap: nat)
    ensures |Enforce(f, s, blocks, cap).1| == |blocks|
    ensures Total(Enforce(f, s, blocks, cap).1) <= cap ||
            forall i :: 0 <= i < |blocks| ==> blocks[i].id in Enforce(f, s, blocks, cap).0.seen
  {
    var order := OrderOf(blocks, |blocks|);
    var k := Stop(f, s, blocks, order, cap, 0);
    StopIsFirst(f, s, blocks, order, cap, 0);
    OrderIsSorted(blocks, |blocks|);
    if k == |order| {
      forall i | 0 <= i < |blocks| ensures blocks[i].id in Visits(f, s, blocks, order, k).0.seen {
        assert i in order;
        var p :| 0 <= p < |order| && order[p] == i;
        VisitedSeen(f, s, blocks, order, k, p);
      }
    }
  }

  // ---------- Replacement is not always smaller ----------

  lemma {:induction false} BytesAppend(a: string, b: string)
    ensures Bytes(a + b) == Bytes(a) + Bytes(b)
  {
    if a == [] {
      assert a + b == b;
    } else {
      assert (a + b)[1..] == a[1..] + b;
      BytesAppend(a[1..], b);
    }
  }

  lemma {:induction false} BytesAtLeastLength(a: string)
    ensures Bytes(a) >= |a|
  {
    if a != [] {
      BytesAtLeastLength(a[1..]);
    }
  }

  /** What `Render` puts before and after the preview. */
  function Head(id: string, content: string): string {
    "<persisted-output>\n" +
    "Output too large (" + FormatBytes(Bytes(content)) + "). Full output saved to: tool-result/" + id + "\n\n" +
    "Preview (first " + FormatBytes(Bytes(PreviewOf(content))) + "):\n"
  }

  function Foot(id: string, content: string): string {
    "\n" +
    (if |PreviewOf(content)| < |content| then
       "...\nUse read_tool_result(handle=\"" + id + "\", offset=N, limit=N) to fetch more.\n"
     else "") +
    "</persisted-output>"
  }

  lemma RenderIsFramed(id: string, content: string)
    ensures Render(id, content) == Head(id, content) + PreviewOf(content) + Foot(id, content)
  {
  }

  /** A replacement has the frame in place of what the preview leaves out. */
  lemma RenderedBytes(id: string, content: string)
    ensures Bytes(Render(id, content)) + Bytes(content[|PreviewOf(content)|..]) ==
            Bytes(content) + Bytes(Head(id, content)) + Bytes(Foot(id, content))
  {
    var preview, head, foot := PreviewOf(content), Head(id, content), Foot(id, content);
    RenderIsFramed(id, content);
    BytesAppend(head + preview, foot);
    BytesAppend(head, preview);
    assert content == preview + content[|preview|..];
    BytesAppend(preview, content[|preview|..]);
  }

  /** A replacement is smaller exactly if the frame around the preview is smaller than what the preview leaves out. */
  lemma ShrinksIff(id: string, content: string)
    ensures var rest := content[|PreviewOf(content)|..];
            Bytes(Render(id, content)) < Bytes(content) <==>
            Bytes(Head(id, content)) + Bytes(Foot(id, content)) < Bytes(rest)
  {
    RenderedBytes(id, content);
  }

  /** So a content that fits the preview grows by being replaced: the whole of it stands between the tags. */
  lemma ShortContentGrows(id: string, content: string)
    requires |content| <= PREVIEW
    ensures Bytes(Render(id, content)) > Bytes(content)
  {
    RenderedBytes(id, content);
    assert content[|PreviewOf(content)|..] == [];
    BytesAtLeastLength(Head(id, content));
  }

  // ---------- What the budget pass leaves ----------

  /** `out` is block `b` with its own content or its remembered replacement. */
  predicate Replaced(b: Block, out: Block, s: State) {
    out.id == b.id && out.name == b.name && (out == b || (b.id in s.seen && out.content == s.seen[b.id]))
  }

  predicate AllReplaced(blocks: seq<Block>, outs: seq<Block>, s: State) {
    |outs| == |blocks| && forall j :: 0 <= j < |outs| ==> Replaced(blocks[j], outs[j], s)
  }

  /** Everything saved since `s` is one of the blocks, unchanged, under an id that was new. */
  predicate SavedAmong(s: State, t: State, blocks: seq<Block>) {
    forall b :: b in t.saved ==> b in s.saved || (b in blocks && b.id !in s.seen)
  }

  lemma NextReplaced(f: Renderer, s: State, blocks: seq<Block>, before: (State, seq<Block>), i: nat,
      after: (State, seq<Block>))
    requires i < |blocks| == |before.1| && after == Visit(f, before.0, before.1, i)
    requires Kept(f, before.0) && Grows(s, before.0) && SavedAmong(s, before.0, blocks)
    requires AllReplaced(blocks, before.1, before.0)
    ensures SavedAmong(s, after.0, blocks) && AllReplaced(blocks, after.1, after.0)
  {
    SeenKeeps(f, before.0, before.1[i]);
  }

  lemma {:induction false} VisitsReplace(f: Renderer, s: State, blocks: seq<Block>, order: seq<nat>, k: nat)
    requires k <= |order| && InRange(order, |blocks|) && Kept(f, s)
    ensures SavedAmong(s, Visits(f, s, blocks, order, k).0, blocks)
    ensures AllReplaced(blocks, Visits(f, s, blocks, order, k).1, Visits(f, s, blocks, order, k).0)
  {
    if k > 0 {
      var before := Visits(f, s, blocks, order, k - 1);
      VisitsReplace(f, s, blocks, order, k - 1);
      VisitsKeep(f, s, blocks, order, k - 1);
      VisitsSnoc(f, s, blocks, order, k);
      NextReplaced(f, s, blocks, before, order[k - 1], Visits(f, s, blocks, order, k));
    }
  }

  lemma EnforceReplaces(f: Renderer, s: State, blocks: seq<Block>, cap: nat)
    requires Kept(f, s)
    ensures var out := Enforce(f, s, blocks, cap);
            Kept(f, out.0) && Grows(s, out.0) && SavedAmong(s, out.0, blocks) && AllReplaced(blocks, out.1, out.0)
  {
    var order := OrderOf(blocks, |blocks|);
    VisitsReplace(f, s, blocks, order, Stop(f, s, blocks, order, cap, 0));
    VisitsKeep(f, s, blocks, order, Stop(f, s, blocks, order, cap, 0));
  }

  lemma EnforceLeavesSmall(f: Renderer, s: State, blocks: seq<Block>, cap: nat)
    requires Total(blocks) <= cap
    ensures Enforce(f, s, blocks, cap) == (s, blocks)
  {
  }

  /** A result is over its cap, the tool's own or the general one. */
  predicate TooLarge(text: string, perTool: Option<nat>, perCall: nat) {
    Bytes(text) > perCall || (perTool.Some? && Bytes(text) > perTool.value)
  }

  /** A new result is replaced exactly if it is over its cap, and then by its rendering, with the whole of it saved. */
  lemma OneExactly(f: Renderer, s: State, b: Block, perTool: Option<nat>, perCall: nat)
    ensures var (t, text) := One(f, s, b, perTool, perCall);
            && (b.id in s.seen ==> t == s && text == s.seen[b.id])
            && (b.id !in s.seen && !TooLarge(b.content, perTool, perCall) ==> t == s && text == b.content)
            && (b.id !in s.seen && TooLarge(b.content, perTool, perCall) ==>
                  text == f(b.id, b.content) && t.saved == s.saved + [b] && t.seen == s.seen[b.id := text])
  {
  }

  // ---------- The preview ----------

  /**
   The preview is the content if that is short; else it is what fits, cut back to the last line break if that leaves more
   than half.
   */
  lemma PreviewExactly(content: string)
    ensures var p := PreviewOf(content);
            && p <= content && |p| <= PREVIEW
            && (p == content <==> |content| <= PREVIEW)
            && (|content| > PREVIEW && |p| < PREVIEW ==>
                  |p| > PREVIEW / 2 && content[|p|] == '\n' && '\n' !in content[|p| + 1..PREVIEW])
            && (|content| > PREVIEW && |p| == PREVIEW ==> '\n' !in content[PREVIEW / 2 + 1..PREVIEW])
  {
    if |content| > PREVIEW {
      LastBreakExactly(content[..PREVIEW]);
    }
  }

  lemma {:induction false} LastBreakExactly(s: string)
    ensures LastBreak(s) >= 0 ==> s[LastBreak(s)] == '\n'
    ensures forall j :: LastBreak(s) < j < |s| ==> s[j] != '\n'
  {
    if s != [] && s[|s| - 1] != '\n' {
      LastBreakExactly(s[..|s| - 1]);
    }
  }
}
