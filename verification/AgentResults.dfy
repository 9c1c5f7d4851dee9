/** What the results say that a turn's tool calls are answered with, whatever the world answers. */
module AgentResults {
  import opened Basics
  import opened Agent
  import R = AgentRuns
  import T = Truncate

  // ---------- Which block is answered where ----------

  /** How many of the first `p` blocks are tool uses. */
  function Rank(content: seq<Content>, p: nat): (r: nat)
    requires p <= |content|
    ensures r <= p
  {
    if p == 0 then 0 else Rank(content, p - 1) + if content[p - 1].ToolUse? then 1 else 0
  }

  lemma {:induction false} RankPrefix(content: seq<Content>, n: nat, p: nat)
    requires p <= n <= |content|
    ensures Rank(content[..n], p) == Rank(content, p)
  {
    if p > 0 {
      RankPrefix(content, n, p - 1);
    }
  }

  /** Tool uses are taken in the order in which they come, all of them. */
  lemma {:induction false} UsesInOrder(content: seq<Content>)
    ensures |UsesOf(content)| == Rank(content, |content|)
    ensures forall p :: 0 <= p < |content| && content[p].ToolUse? ==>
              Rank(content, p) < |UsesOf(content)| && UsesOf(content)[Rank(content, p)] == content[p]
  {
    if content != [] {
      var n := |content| - 1;
      UsesInOrder(content[..n]);
      RankPrefix(content, n, n);
      forall p | 0 <= p < n && content[p].ToolUse?
        ensures Rank(content, p) < |UsesOf(content[..n])| && UsesOf(content[..n])[Rank(content, p)] == content[p]
      {
        RankPrefix(content, n, p);
        assert content[..n][p] == content[p];
      }
    }
  }

  // ---------- One result ----------

  /** The result's text and kind are what became of the tool use; a returned text may stand replaced in `t`. */
  predicate Tells(use: Content, o: Outcome, limits: Option<Limits>, text: string, isError: bool, t: T.State)
    requires use.ToolUse?
  {
    match o
    case UnknownTool => isError && text == "unknown tool: " + use.name
    case Denied(reason) => isError && text == "permission denied: " + reason
    case BadInput(problems) => isError && text == problems
    case Threw(message) => isError && text == message
    case Returned(output, sensitive, perTool) =>
      && !isError
      && (text == output || (limits.Some? && use.id in t.seen && text == t.seen[use.id]))
      && (limits.Some? && !sensitive && T.TooLarge(output, perTool, limits.value.perCall) ==>
            use.id in t.seen && text == t.seen[use.id])
  }

  predicate Fine(use: Content, o: Outcome, limits: Option<Limits>, p: Pending, t: T.State)
    requires use.ToolUse?
  {
    p.id == use.id && p.name == use.name && Tells(use, o, limits, p.content, p.isError, t)
  }

  /** The block is the whole of what a tool use of the round returned. */
  predicate Output(b: T.Block, uses: seq<Content>, w: World, round: nat, k: nat)
    requires forall u <- uses :: u.ToolUse?
  {
    k < |uses| && w.outcome(round, k).Returned? && b == T.Block(uses[k].id, uses[k].name, w.outcome(round, k).text)
  }

  /** Whatever the round saved is such an output. */
  ghost predicate SavedOutputs(s: T.State, t: T.State, uses: seq<Content>, w: World, round: nat)
    requires forall u <- uses :: u.ToolUse?
  {
    forall b :: b in t.saved ==> b in s.saved || exists k :: Output(b, uses, w, round, k)
  }

  lemma TellsLater(use: Content, o: Outcome, limits: Option<Limits>, text: string, isError: bool, t: T.State, u: T.State)
    requires use.ToolUse? && Tells(use, o, limits, text, isError, t) && T.Grows(t, u)
    ensures Tells(use, o, limits, text, isError, u)
  {
  }

  lemma OneKeeps(f: T.Renderer, t: T.State, b: T.Block, perTool: Option<nat>, perCall: nat)
    requires T.Kept(f, t)
    ensures var r := T.One(f, t, b, perTool, perCall);
            && T.Kept(f, r.0) && T.Grows(t, r.0)
            && (r.1 == b.content || (b.id in r.0.seen && r.1 == r.0.seen[b.id]))
            && (T.TooLarge(b.content, perTool, perCall) ==> b.id in r.0.seen && r.1 == r.0.seen[b.id])
            && forall c :: c in r.0.saved ==> c in t.saved || (c == b && b.id !in t.seen)
  {
    T.OneExactly(f, t, b, perTool, perCall);
    T.SeenKeeps(f, t, b);
  }

  lemma ExecuteTells(f: T.Renderer, use: Content, o: Outcome, t: T.State, limits: Option<Limits>)
    requires use.ToolUse? && T.Kept(f, t)
    ensures var r := Execute(f, use, o, t, limits);
            && T.Kept(f, r.0) && T.Grows(t, r.0) && Fine(use, o, limits, r.1, r.0)
            && forall b :: b in r.0.saved ==> b in t.saved || (o.Returned? && b == T.Block(use.id, use.name, o.text))
  {
    if o.Returned? && limits.Some? && !o.sensitive {
      OneKeeps(f, t, T.Block(use.id, use.name, o.text), o.perTool, limits.value.perCall);
    }
  }

  predicate AllFine(uses: seq<Content>, w: World, round: nat, limits: Option<Limits>, ps: seq<Pending>, t: T.State)
    requires forall u <- uses :: u.ToolUse?
  {
    |ps| <= |uses| && forall k :: 0 <= k < |ps| ==> Fine(uses[k], w.outcome(round, k), limits, ps[k], t)
  }

  lemma AllFineLater(uses: seq<Content>, w: World, round: nat, limits: Option<Limits>, ps: seq<Pending>, t: T.State,
      u: T.State)
    requires (forall x <- uses :: x.ToolUse?) && AllFine(uses, w, round, limits, ps, t) && T.Grows(t, u)
    ensures AllFine(uses, w, round, limits, ps, u)
  {
    forall k | 0 <= k < |ps| ensures Fine(uses[k], w.outcome(round, k), limits, ps[k], u) {
      TellsLater(uses[k], w.outcome(round, k), limits, ps[k].content, ps[k].isError, t, u);
    }
  }

  lemma ExecutedSnoc(f: T.Renderer, uses: seq<Content>, w: World, round: nat, t: T.State, limits: Option<Limits>, k: nat,
      u: T.State, ps: seq<Pending>, next: (T.State, Pending))
    requires 0 < k <= |uses| && forall x <- uses :: x.ToolUse?
    requires Executed(f, uses, w, round, t, limits, k - 1) == (u, ps)
    requires next == Execute(f, uses[k - 1], w.outcome(round, k - 1), u, limits)
    ensures Executed(f, uses, w, round, t, limits, k) == (next.0, ps + [next.1])
  {
  }

  lemma FineSnoc(uses: seq<Content>, w: World, round: nat, limits: Option<Limits>, ps: seq<Pending>, p: Pending, t: T.State)
    requires (forall x <- uses :: x.ToolUse?) && AllFine(uses, w, round, limits, ps, t)
    requires |ps| < |uses| && Fine(uses[|ps|], w.outcome(round, |ps|), limits, p, t)
    ensures AllFine(uses, w, round, limits, ps + [p], t)
  {
  }

  lemma OutputSaved(s: T.State, t: T.State, u: T.State, uses: seq<Content>, w: World, round: nat, k: nat)
    requires (forall x <- uses :: x.ToolUse?) && SavedOutputs(s, t, uses, w, round)
    requires forall b :: b in u.saved ==> b in t.saved || Output(b, uses, w, round, k)
    ensures SavedOutputs(s, u, uses, w, round)
  {
  }

  lemma {:induction false} ExecutedTell(f: T.Renderer, uses: seq<Content>, w: World, round: nat, t: T.State,
      limits: Option<Limits>, k: nat)
    requires k <= |uses| && (forall x <- uses :: x.ToolUse?) && T.Kept(f, t)
    ensures var r := Executed(f, uses, w, round, t, limits, k);
            && T.Kept(f, r.0) && T.Grows(t, r.0) && |r.1| == k && AllFine(uses, w, round, limits, r.1, r.0)
            && SavedOutputs(t, r.0, uses, w, round)
  {
    if k > 0 {
      var before := Executed(f, uses, w, round, t, limits, k - 1);
      ExecutedTell(f, uses, w, round, t, limits, k - 1);
      ExecuteTells(f, uses[k - 1], w.outcome(round, k - 1), before.0, limits);
      var next := Execute(f, uses[k - 1], w.outcome(round, k - 1), before.0, limits);
      ExecutedSnoc(f, uses, w, round, t, limits, k, before.0, before.1, next);
      T.GrowsTransitive(t, before.0, next.0);
      AllFineLater(uses, w, round, limits, before.1, before.0, next.0);
      FineSnoc(uses, w, round, limits, before.1, next.1, next.0);
      OutputSaved(t, before.0, next.0, uses, w, round, k - 1);
    }
  }

  // ---------- The budget pass ----------

  /** How many of the first `k` results are successes. */
  function Sound(ps: seq<Pending>, k: nat): (r: nat)
    requires k <= |ps|
    ensures r <= k
  {
    if k == 0 then 0 else Sound(ps, k - 1) + if ps[k - 1].isError then 0 else 1
  }

  lemma {:induction false} SoundPrefix(ps: seq<Pending>, n: nat, k: nat)
    requires k <= n <= |ps|
    ensures Sound(ps[..n], k) == Sound(ps, k)
  {
    if k > 0 {
      SoundPrefix(ps, n, k - 1);
    }
  }

  lemma {:induction false} SuccessAt(ps: seq<Pending>, k: nat)
    requires k < |ps| && !ps[k].isError
    ensures |Successes(ps)| == Sound(ps, |ps|) && Sound(ps, k) < |Successes(ps)|
    ensures Successes(ps)[Sound(ps, k)] == T.Block(ps[k].id, ps[k].name, ps[k].content)
  {
    var n := |ps| - 1;
    SoundPrefix(ps, n, n);
    SuccessCount(ps[..n]);
    if k < n {
      SuccessAt(ps[..n], k);
      SoundPrefix(ps, n, k);
    }
  }

  lemma {:induction false} SuccessCount(ps: seq<Pending>)
    ensures |Successes(ps)| == Sound(ps, |ps|)
  {
    if ps != [] {
      SuccessCount(ps[..|ps| - 1]);
      SoundPrefix(ps, |ps| - 1, |ps| - 1);
    }
  }

  lemma {:induction false} RewrittenAt(ps: seq<Pending>, blocks: seq<T.Block>, k: nat)
    requires |blocks| == |Successes(ps)| && k < |ps|
    ensures var q := Rewrite(ps, blocks)[k];
            && q.id == ps[k].id && q.name == ps[k].name && q.isError == ps[k].isError
            && (ps[k].isError ==> q == ps[k])
            && (!ps[k].isError ==> Sound(ps, k) < |blocks| && q.content == blocks[Sound(ps, k)].content)
  {
    var n := |ps| - 1;
    SoundPrefix(ps, n, n);
    SuccessCount(ps[..n]);
    var rest := if ps[n].isError then blocks else blocks[..|blocks| - 1];
    if k < n {
      RewrittenAt(ps[..n], rest, k);
      SoundPrefix(ps, n, k);
      if !ps[k].isError {
        SuccessAt(ps[..n], k);
      }
    }
  }

  lemma {:induction false} SuccessFrom(ps: seq<Pending>, b: T.Block) returns (k: nat)
    requires b in Successes(ps)
    ensures k < |ps| && !ps[k].isError && b == T.Block(ps[k].id, ps[k].name, ps[k].content)
  {
    var n := |ps| - 1;
    if b in Successes(ps[..n]) {
      k := SuccessFrom(ps[..n], b);
    } else {
      k := n;
    }
  }

  lemma ReplacedTells(use: Content, o: Outcome, limits: Option<Limits>, p: Pending, q: Pending, t: T.State, u: T.State)
    requires use.ToolUse? && limits.Some? && Fine(use, o, limits, p, t) && T.Grows(t, u)
    requires q == p.(content := q.content)
    requires q != p ==> !p.isError
    requires q.content == p.content || (p.id in u.seen && q.content == u.seen[p.id])
    ensures Fine(use, o, limits, q, u)
  {
    TellsLater(use, o, limits, p.content, p.isError, t, u);
  }

  lemma BudgetFine(f: T.Renderer, uses: seq<Content>, w: World, round: nat, limits: Option<Limits>, ps: seq<Pending>,
      t: T.State, u: T.State, blocks: seq<T.Block>)
    requires (forall x <- uses :: x.ToolUse?) && limits.Some? && AllFine(uses, w, round, limits, ps, t) && T.Grows(t, u)
    requires T.AllReplaced(Successes(ps), blocks, u)
    ensures |Rewrite(ps, blocks)| == |ps| && AllFine(uses, w, round, limits, Rewrite(ps, blocks), u)
  {
    var qs := Rewrite(ps, blocks);
    forall k | 0 <= k < |qs| ensures Fine(uses[k], w.outcome(round, k), limits, qs[k], u) {
      RewrittenAt(ps, blocks, k);
      if !ps[k].isError {
        SuccessAt(ps, k);
        assert T.Replaced(Successes(ps)[Sound(ps, k)], blocks[Sound(ps, k)], u);
      }
      ReplacedTells(uses[k], w.outcome(round, k), limits, ps[k], qs[k], t, u);
    }
  }

  lemma BudgetSaves(uses: seq<Content>, w: World, round: nat, limits: Option<Limits>, ps: seq<Pending>, t: T.State,
      u: T.State)
    requires (forall x <- uses :: x.ToolUse?) && AllFine(uses, w, round, limits, ps, t)
    requires T.SavedAmong(t, u, Successes(ps))
    ensures SavedOutputs(t, u, uses, w, round)
  {
    forall b | b in u.saved ensures b in t.saved || exists k :: Output(b, uses, w, round, k) {
      if b !in t.saved {
        var k := SuccessFrom(ps, b);
        assert Fine(uses[k], w.outcome(round, k), limits, ps[k], t);
        assert Output(b, uses, w, round, k);
      }
    }
  }

  lemma BudgetedTell(f: T.Renderer, uses: seq<Content>, w: World, round: nat, limits: Option<Limits>, ps: seq<Pending>,
      t: T.State)
    requires (forall x <- uses :: x.ToolUse?) && T.Kept(f, t) && AllFine(uses, w, round, limits, ps, t)
    ensures var r := Budgeted(f, ps, t, limits);
            && T.Kept(f, r.0) && T.Grows(t, r.0) && |r.1| == |ps| && AllFine(uses, w, round, limits, r.1, r.0)
            && SavedOutputs(t, r.0, uses, w, round)
  {
    if limits.Some? {
      var blocks, cap := Successes(ps), limits.value.perMessage;
      T.EnforceReplaces(f, t, blocks, cap);
      var out := T.Enforce(f, t, blocks, cap);
      BudgetFine(f, uses, w, round, limits, ps, t, out.0, out.1);
      BudgetSaves(uses, w, round, limits, ps, t, out.0);
    }
  }

  // ---------- A whole run ----------

  /** The message answers the uses in order, each by what became of it. */
  predicate AllTold(uses: seq<Content>, w: World, round: nat, limits: Option<Limits>, m: Message, t: T.State)
    requires forall u <- uses :: u.ToolUse?
  {
    && m.role == User && |m.content| == |uses|
    && forall k :: 0 <= k < |uses| ==>
         && m.content[k].ToolResult? && m.content[k].useId == uses[k].id
         && Tells(uses[k], w.outcome(round, k), limits, m.content[k].content, m.content[k].isError, t)
  }

  function UsesAt(w: World, requests: seq<seq<Message>>, i: nat): (uses: seq<Content>)
    requires i < |requests|
    ensures forall u <- uses :: u.ToolUse?
  {
    UsesOf(w.complete(i, requests[i]).content)
  }

  predicate RoundTold(w: World, limits: Option<Limits>, s: State, i: nat)
    requires i < |s.requests|
  {
    var at := |s.requests[i]| + 1;
    UsesAt(w, s.requests, i) != [] ==>
      at < |s.messages| && AllTold(UsesAt(w, s.requests, i), w, i, limits, s.messages[at], s.truncation)
  }

  ghost predicate Provenance(w: World, s: State, t: T.State) {
    forall b :: b in s.truncation.saved ==>
      b in t.saved || exists i, k :: 0 <= i < |s.requests| && Output(b, UsesAt(w, s.requests, i), w, i, k)
  }

  ghost predicate Told(f: T.Renderer, w: World, limits: Option<Limits>, t: T.State, s: State) {
    && T.Kept(f, s.truncation) && Provenance(w, s, t)
    && forall i :: 0 <= i < |s.requests| ==> |s.requests[i]| < |s.messages| && RoundTold(w, limits, s, i)
  }

  lemma AnswerTells(f: T.Renderer, s: State, w: World, round: nat, uses: seq<Content>, limits: Option<Limits>)
    requires (forall x <- uses :: x.ToolUse?) && T.Kept(f, s.truncation)
    ensures var a := Answer(f, s, w, round, uses, limits);
            && a == s.(truncation := a.truncation, messages := s.messages + [a.messages[|s.messages|]])
            && T.Kept(f, a.truncation) && T.Grows(s.truncation, a.truncation)
            && AllTold(uses, w, round, limits, a.messages[|s.messages|], a.truncation)
            && SavedOutputs(s.truncation, a.truncation, uses, w, round)
  {
    var first := Executed(f, uses, w, round, s.truncation, limits, |uses|);
    ExecutedTell(f, uses, w, round, s.truncation, limits, |uses|);
    BudgetedTell(f, uses, w, round, limits, first.1, first.0);
    T.GrowsTransitive(s.truncation, first.0, Budgeted(f, first.1, first.0, limits).0);
  }

  lemma AllToldLater(uses: seq<Content>, w: World, round: nat, limits: Option<Limits>, m: Message, t: T.State, u: T.State)
    requires (forall x <- uses :: x.ToolUse?) && AllTold(uses, w, round, limits, m, t) && T.Grows(t, u)
    ensures AllTold(uses, w, round, limits, m, u)
  {
    forall k | 0 <= k < |uses|
      ensures Tells(uses[k], w.outcome(round, k), limits, m.content[k].content, m.content[k].isError, u)
    {
      TellsLater(uses[k], w.outcome(round, k), limits, m.content[k].content, m.content[k].isError, t, u);
    }
  }

  /** A round appends one request and at least one message, the results of its calls after the answer. */
  lemma RoundGrows(f: T.Renderer, s: State, w: World, limits: Option<Limits>) returns (asked: seq<Message>)
    requires T.Kept(f, s.truncation) && !w.aborted(|s.requests|)
    ensures var r, n := Round(f, s, w, limits), |s.requests|;
            && r.requests == s.requests + [asked] && s.messages <= asked && asked < r.messages
            && T.Kept(f, r.truncation) && T.Grows(s.truncation, r.truncation)
            && var uses := UsesAt(w, r.requests, n);
               && SavedOutputs(s.truncation, r.truncation, uses, w, n)
               && (uses != [] ==> |asked| + 1 < |r.messages| &&
                                  AllTold(uses, w, n, limits, r.messages[|asked| + 1], r.truncation))
  {
    var n := |s.requests|;
    asked := s.messages + w.mailbox(s.drains);
    var c := w.complete(n, asked);
    var t := s.(messages := asked + [Message(Assistant, c.content)], requests := s.requests + [asked],
                total := Add(s.total, c.usage), drains := s.drains + 1);
    if UsesOf(c.content) != [] {
      AnswerTells(f, t, w, n, UsesOf(c.content), limits);
    }
  }

  lemma ProvenanceGrows(w: World, s: State, r: State, t: T.State, asked: seq<Message>)
    requires Provenance(w, s, t) && r.requests == s.requests + [asked]
    requires SavedOutputs(s.truncation, r.truncation, UsesAt(w, r.requests, |s.requests|), w, |s.requests|)
    ensures Provenance(w, r, t)
  {
    forall b | b in r.truncation.saved
      ensures b in t.saved || exists i, k :: 0 <= i < |r.requests| && Output(b, UsesAt(w, r.requests, i), w, i, k)
    {
      if b in s.truncation.saved && b !in t.saved {
        var i, k :| 0 <= i < |s.requests| && Output(b, UsesAt(w, s.requests, i), w, i, k);
        assert Output(b, UsesAt(w, r.requests, i), w, i, k);
      } else if b !in t.saved {
        var k :| Output(b, UsesAt(w, r.requests, |s.requests|), w, |s.requests|, k);
      }
    }
  }

  lemma RoundKeepsTold(f: T.Renderer, w: World, limits: Option<Limits>, t: T.State, s: State)
    requires Told(f, w, limits, t, s)
    ensures Told(f, w, limits, t, Round(f, s, w, limits))
  {
    if !w.aborted(|s.requests|) {
      var r := Round(f, s, w, limits);
      var asked := RoundGrows(f, s, w, limits);
      ProvenanceGrows(w, s, r, t, asked);
      forall i | 0 <= i < |r.requests| ensures |r.requests[i]| < |r.messages| && RoundTold(w, limits, r, i) {
        if i < |s.requests| {
          assert r.requests[i] == s.requests[i] && RoundTold(w, limits, s, i);
          if UsesAt(w, s.requests, i) != [] {
            var at := |s.requests[i]| + 1;
            assert r.messages[at] == asked[at] == s.messages[at];
            AllToldLater(UsesAt(w, s.requests, i), w, i, limits, s.messages[at], s.truncation, r.truncation);
          }
        }
      }
    } else {
      var r := Round(f, s, w, limits);
      forall i | 0 <= i < |r.requests| ensures RoundTold(w, limits, r, i) {
        assert RoundTold(w, limits, s, i);
      }
    }
  }

  lemma {:induction false} RunTells(f: T.Renderer, initial: seq<Message>, w: World, limits: Option<Limits>, maxTurns: nat,
      t: T.State)
    requires T.Kept(f, t)
    ensures Told(f, w, limits, t, Run(f, initial, w, limits, maxTurns, t))
  {
    var step, inv := RoundOf(f, w, limits), (s: State) => Told(f, w, limits, t, s);
    forall s: State | inv(s) && s.stop.None? ensures inv(step(s)) {
      RoundKeepsTold(f, w, limits, t, s);
    }
    R.IterationsKeep(step, Start(initial, t), maxTurns, inv);
    StopKeepsTold(f, w, limits, t, Iterate(step, Start(initial, t), maxTurns), Some(MaxTurns));
  }

  lemma StopKeepsTold(f: T.Renderer, w: World, limits: Option<Limits>, t: T.State, s: State, stop: Option<Stop>)
    requires Told(f, w, limits, t, s)
    ensures Told(f, w, limits, t, s.(stop := stop))
  {
    forall i | 0 <= i < |s.requests| ensures RoundTold(w, limits, s.(stop := stop), i) {
      assert RoundTold(w, limits, s, i);
    }
  }

  /**
   Every tool use in every answer of the model is answered in the very next message, at its place among the tool uses,
   by what became of it: an error with the words for its kind, or what the tool returned, or what stands in for it.
   */
  lemma {:induction false} EveryCallIsAnswered(f: T.Renderer, initial: seq<Message>, w: World, limits: Option<Limits>,
      maxTurns: nat, t: T.State, s: State, i: nat, p: nat)
    requires T.Kept(f, t) && s == Run(f, initial, w, limits, maxTurns, t)
    requires i < |s.requests| && p < |w.complete(i, s.requests[i]).content|
    requires w.complete(i, s.requests[i]).content[p].ToolUse?
    ensures |s.requests[i]| + 1 < |s.messages|
    ensures var content, results := w.complete(i, s.requests[i]).content, s.messages[|s.requests[i]| + 1];
            var k := Rank(content, p);
            && results.role == User && |results.content| == Rank(content, |content|) && k < |results.content|
            && results.content[k].ToolResult? && results.content[k].useId == content[p].id
            && Tells(content[p], w.outcome(i, k), limits, results.content[k].content, results.content[k].isError,
                     s.truncation)
  {
    var content := w.complete(i, s.requests[i]).content;
    RunTells(f, initial, w, limits, maxTurns, t);
    UsesInOrder(content);
    assert RoundTold(w, limits, s, i);
  }

  predicate ReturnsUnder(w: World, requests: seq<seq<Message>>, i: nat, k: nat, id: string) {
    && i < |requests| && k < |UsesAt(w, requests, i)|
    && UsesAt(w, requests, i)[k].id == id && w.outcome(i, k).Returned?
  }

  /** No other call of the run returned anything under this id. */
  ghost predicate OnlyUse(w: World, requests: seq<seq<Message>>, i: nat, k: nat, id: string) {
    forall j: nat, n: nat :: ReturnsUnder(w, requests, j, n, id) ==> j == i && n == k
  }

  lemma SavedReturns(w: World, s: State, t: T.State, b: T.Block) returns (j: nat, n: nat)
    requires Provenance(w, s, t) && b in s.truncation.saved && b !in t.saved
    ensures ReturnsUnder(w, s.requests, j, n, b.id)
    ensures b == T.Block(b.id, UsesAt(w, s.requests, j)[n].name, w.outcome(j, n).text)
  {
    j, n :| 0 <= j < |s.requests| && Output(b, UsesAt(w, s.requests, j), w, j, n);
  }

  lemma SavedUnder(f: T.Renderer, s: T.State, t: T.State, id: string) returns (b: T.Block)
    requires T.Kept(f, s) && T.Kept(f, t) && id in s.seen && id !in t.seen
    ensures b in s.saved && b.id == id && b !in t.saved && s.seen[id] == f(id, b.content)
  {
    b :| b in s.saved && b.id == id;
  }

  lemma SeenIsOwn(f: T.Renderer, w: World, s: State, t: T.State, i: nat, k: nat, use: Content)
    requires T.Kept(f, s.truncation) && T.Kept(f, t) && Provenance(w, s, t)
    requires i < |s.requests| && k < |UsesAt(w, s.requests, i)| && use == UsesAt(w, s.requests, i)[k]
    requires w.outcome(i, k).Returned? && use.id !in t.seen && OnlyUse(w, s.requests, i, k, use.id)
    requires use.id in s.truncation.seen
    ensures s.truncation.seen[use.id] == f(use.id, w.outcome(i, k).text)
    ensures T.Block(use.id, use.name, w.outcome(i, k).text) in s.truncation.saved
  {
    var b := SavedUnder(f, s.truncation, t, use.id);
    var j, n := SavedReturns(w, s, t, b);
  }

  /**
   What stands in for a text that a tool returned under an id of its own is the rendering of exactly that text, and
   exactly that text was saved.
   */
  lemma {:induction false} StandInIsOwn(f: T.Renderer, initial: seq<Message>, w: World, limits: Option<Limits>,
      maxTurns: nat, t: T.State, s: State, i: nat, k: nat, use: Content)
    requires T.Kept(f, t) && s == Run(f, initial, w, limits, maxTurns, t)
    requires i < |s.requests| && k < |UsesAt(w, s.requests, i)| && use == UsesAt(w, s.requests, i)[k]
    requires w.outcome(i, k).Returned? && use.id !in t.seen && OnlyUse(w, s.requests, i, k, use.id)
    ensures |s.requests[i]| + 1 < |s.messages| && k < |s.messages[|s.requests[i]| + 1].content|
    ensures var result, text := s.messages[|s.requests[i]| + 1].content[k], w.outcome(i, k).text;
            && result.ToolResult? && !result.isError
            && (result.content == text ||
                (result.content == f(use.id, text) && T.Block(use.id, use.name, text) in s.truncation.saved))
  {
    RunTells(f, initial, w, limits, maxTurns, t);
    assert RoundTold(w, limits, s, i);
    var m := s.messages[|s.requests[i]| + 1];
    assert Tells(use, w.outcome(i, k), limits, m.content[k].content, m.content[k].isError, s.truncation);
    if use.id in s.truncation.seen {
      SeenIsOwn(f, w, s, t, i, k, use);
    }
  }

  // ---------- When nothing is replaced ----------

  /** The bytes of what a call returned. */
  function BytesOf(o: Outcome): nat {
    match o
    case Returned(text, _, _) => T.Bytes(text)
    case _ => 0
  }

  /** The bytes of what the first `k` calls of a round returned. */
  function OutputBytes(w: World, round: nat, k: nat): nat {
    if k == 0 then 0 else OutputBytes(w, round, k - 1) + BytesOf(w.outcome(round, k - 1))
  }

  /** New ids, every text within its cap unless it is sensitive, and all of them together within the message's. */
  predicate Modest(uses: seq<Content>, w: World, round: nat, limits: Limits, t: T.State)
    requires forall u <- uses :: u.ToolUse?
  {
    && OutputBytes(w, round, |uses|) <= limits.perMessage
    && forall k :: 0 <= k < |uses| ==> uses[k].id !in t.seen && Small(w.outcome(round, k), limits)
  }

  predicate Small(o: Outcome, limits: Limits) {
    o.Returned? && !o.sensitive ==> !T.TooLarge(o.text, o.perTool, limits.perCall)
  }

  lemma ModestOne(f: T.Renderer, use: Content, o: Outcome, t: T.State, limits: Limits)
    requires use.ToolUse? && use.id !in t.seen && Small(o, limits)
    ensures var r := Execute(f, use, o, t, Some(limits));
            && r.0 == t && (r.1.isError <==> !o.Returned?)
            && (o.Returned? ==> r.1.content == o.text)
  {
    if o.Returned? {
      T.OneExactly(f, t, T.Block(use.id, use.name, o.text), o.perTool, limits.perCall);
    }
  }

  lemma SuccessBytes(ps: seq<Pending>, p: Pending)
    ensures T.Total(Successes(ps + [p])) == T.Total(Successes(ps)) + if p.isError then 0 else T.Bytes(p.content)
  {
    assert (ps + [p])[..|ps|] == ps;
    if !p.isError {
      TotalSnoc(Successes(ps), T.Block(p.id, p.name, p.content));
    }
  }

  lemma ModestCall(f: T.Renderer, use: Content, o: Outcome, t: T.State, limits: Limits, ps: seq<Pending>)
    requires use.ToolUse? && use.id !in t.seen && Small(o, limits)
    ensures var next := Execute(f, use, o, t, Some(limits));
            next.0 == t && T.Total(Successes(ps + [next.1])) == T.Total(Successes(ps)) + BytesOf(o)
  {
    ModestOne(f, use, o, t, limits);
    SuccessBytes(ps, Execute(f, use, o, t, Some(limits)).1);
  }

  lemma {:induction false} ModestExecuted(f: T.Renderer, uses: seq<Content>, w: World, round: nat, t: T.State,
      limits: Limits, k: nat) returns (ps: seq<Pending>)
    requires k <= |uses| && (forall x <- uses :: x.ToolUse?) && Modest(uses, w, round, limits, t)
    ensures Executed(f, uses, w, round, t, Some(limits), k) == (t, ps)
    ensures T.Total(Successes(ps)) == OutputBytes(w, round, k)
  {
    ps := [];
    if k > 0 {
      var use, o := uses[k - 1], w.outcome(round, k - 1);
      ps := ModestExecuted(f, uses, w, round, t, limits, k - 1);
      var next := Execute(f, use, o, t, Some(limits));
      ModestCall(f, use, o, t, limits, ps);
      ExecutedSnoc(f, uses, w, round, t, Some(limits), k, t, ps, next);
      ps := ps + [next.1];
    }
  }

  lemma TotalSnoc(blocks: seq<T.Block>, b: T.Block)
    ensures T.Total(blocks + [b]) == T.Total(blocks) + T.Bytes(b.content)
  {
    assert (blocks + [b])[..|blocks|] == blocks;
  }

  lemma ModestRound(f: T.Renderer, s: State, w: World, limits: Limits, t: T.State) returns (asked: seq<Message>)
    requires s.truncation == t && !w.aborted(|s.requests|)
    ensures var r := Round(f, s, w, Some(limits));
            && r.requests == s.requests + [asked]
            && (Modest(UsesAt(w, r.requests, |s.requests|), w, |s.requests|, limits, t) ==> r.truncation == t)
  {
    var n := |s.requests|;
    asked := s.messages + w.mailbox(s.drains);
    var uses := UsesOf(w.complete(n, asked).content);
    if uses != [] && Modest(uses, w, n, limits, t) {
      var ps := ModestExecuted(f, uses, w, n, t, limits, |uses|);
      T.EnforceLeavesSmall(f, t, Successes(ps), limits.perMessage);
    }
  }

  predicate AllModest(w: World, requests: seq<seq<Message>>, limits: Limits, t: T.State) {
    forall i :: 0 <= i < |requests| ==> Modest(UsesAt(w, requests, i), w, i, limits, t)
  }

  lemma EarlierModest(w: World, requests: seq<seq<Message>>, asked: seq<Message>, limits: Limits, t: T.State)
    requires AllModest(w, requests + [asked], limits, t)
    ensures AllModest(w, requests, limits, t)
    ensures Modest(UsesAt(w, requests + [asked], |requests|), w, |requests|, limits, t)
  {
    var more := requests + [asked];
    forall i | 0 <= i < |requests| ensures Modest(UsesAt(w, requests, i), w, i, limits, t) {
      assert more[i] == requests[i] && Modest(UsesAt(w, more, i), w, i, limits, t);
    }
  }

  lemma IterateNext(step: Step, s: State, turns: nat)
    requires turns > 0
    ensures var before := Iterate(step, s, turns - 1);
            Iterate(step, s, turns) == if before.stop.Some? then before else step(before)
  {
  }

  lemma ModestStep(f: T.Renderer, s: State, r: State, w: World, limits: Limits, t: T.State)
    requires r == Round(f, s, w, Some(limits)) && AllModest(w, r.requests, limits, t)
    ensures AllModest(w, s.requests, limits, t) && (s.truncation == t ==> r.truncation == t)
  {
    if !w.aborted(|s.requests|) {
      var asked := RequestsGrow(f, s, w, limits);
      EarlierModest(w, s.requests, asked, limits, t);
      if s.truncation == t {
        var _ := ModestRound(f, s, w, limits, t);
      }
    }
  }

  lemma {:induction false} ModestIterations(f: T.Renderer, initial: seq<Message>, w: World, limits: Limits, turns: nat,
      t: T.State)
    requires AllModest(w, Iterate(RoundOf(f, w, Some(limits)), Start(initial, t), turns).requests, limits, t)
    ensures Iterate(RoundOf(f, w, Some(limits)), Start(initial, t), turns).truncation == t
  {
    if turns > 0 {
      var step := RoundOf(f, w, Some(limits));
      var before := Iterate(step, Start(initial, t), turns - 1);
      IterateNext(step, Start(initial, t), turns);
      if before.stop.None? {
        ModestStep(f, before, step(before), w, limits, t);
      }
      ModestIterations(f, initial, w, limits, turns - 1, t);
    }
  }

  lemma RequestsGrow(f: T.Renderer, s: State, w: World, limits: Limits) returns (asked: seq<Message>)
    requires !w.aborted(|s.requests|)
    ensures Round(f, s, w, Some(limits)).requests == s.requests + [asked]
  {
    asked := s.messages + w.mailbox(s.drains);
  }

  /** Nothing is replaced that fits: a run of modest rounds saves nothing and every result is what the tool returned. */
  lemma {:induction false} ModestRunReplacesNothing(f: T.Renderer, initial: seq<Message>, w: World, limits: Limits,
      maxTurns: nat, t: T.State, s: State, i: nat, p: nat)
    requires T.Kept(f, t) && s == Run(f, initial, w, Some(limits), maxTurns, t)
    requires AllModest(w, s.requests, limits, t)
    requires i < |s.requests| && p < |w.complete(i, s.requests[i]).content|
    requires w.complete(i, s.requests[i]).content[p].ToolUse?
    requires w.outcome(i, Rank(w.complete(i, s.requests[i]).content, p)).Returned?
    ensures s.truncation == t && |s.requests[i]| + 1 < |s.messages|
    ensures var content, results := w.complete(i, s.requests[i]).content, s.messages[|s.requests[i]| + 1];
            var k := Rank(content, p);
            k < |results.content| && results.content[k] == ToolResult(content[p].id, w.outcome(i, k).text, false)
  {
    ModestIterations(f, initial, w, limits, maxTurns, t);
    EveryCallIsAnswered(f, initial, w, Some(limits), maxTurns, t, s, i, p);
    UsesInOrder(w.complete(i, s.requests[i]).content);
    assert Modest(UsesAt(w, s.requests, i), w, i, limits, t);
  }
}
