/** What every run of the turn engine keeps, whatever the model, the tools, the gates and the mailbox answer. */
module AgentRuns {
  import opened Basics
  import opened Agent
  import T = Truncate

  // ---------- The shape a provider accepts ----------

  predicate HasResult(m: Message) {
    exists c <- m.content :: c.ToolResult?
  }

  /** `u` holds exactly one result for each tool use of `a`, in order. */
  predicate Answers(a: Message, u: Message) {
    var uses := UsesOf(a.content);
    && u.role == User && |u.content| == |uses|
    && forall k :: 0 <= k < |uses| ==> u.content[k].ToolResult? && u.content[k].useId == uses[k].id
  }

  predicate Calls(m: Message) {
    m.role == Assistant && UsesOf(m.content) != []
  }

  /** Tool uses are answered by the very next message, and results answer the very message before. */
  predicate WellFormed(ms: seq<Message>) {
    && (forall i :: 0 <= i < |ms| && Calls(ms[i]) ==> i + 1 < |ms| && Answers(ms[i], ms[i + 1]))
    && (forall i :: 0 <= i < |ms| && ms[i].role == User && HasResult(ms[i]) ==> i > 0 && Calls(ms[i - 1]))
  }

  /** What a mailbox delivers: somebody's words, no results. */
  predicate Plain(m: Message) {
    m.role == User && !HasResult(m)
  }

  ghost predicate PlainMailbox(w: World) {
    forall n: nat, m :: m in w.mailbox(n) ==> Plain(m)
  }

  lemma {:induction false} AppendPlain(ms: seq<Message>, xs: seq<Message>)
    requires WellFormed(ms) && forall x :: x in xs ==> Plain(x)
    ensures WellFormed(ms + xs)
  {
    if xs == [] {
      assert ms + xs == ms;
    } else {
      var init, x := xs[..|xs| - 1], xs[|xs| - 1];
      AppendPlain(ms, init);
      assert x in xs;
      assert ms + xs == ms + init + [x];
    }
  }

  // ---------- What users said ----------

  /** The messages that are words of a user. */
  function Said(ms: seq<Message>): seq<Message> {
    if ms == [] then []
    else if Plain(ms[|ms| - 1]) then Said(ms[..|ms| - 1]) + [ms[|ms| - 1]]
    else Said(ms[..|ms| - 1])
  }

  /** What the first `n` drains of the mailbox delivered. */
  function Drained(w: World, n: nat): seq<Message> {
    if n == 0 then [] else Drained(w, n - 1) + w.mailbox(n - 1)
  }

  lemma {:induction false} SaidAppend(a: seq<Message>, b: seq<Message>)
    ensures Said(a + b) == Said(a) + Said(b)
  {
    if b == [] {
      assert a + b == a;
    } else {
      assert (a + b)[..|a + b| - 1] == a + b[..|b| - 1];
      SaidAppend(a, b[..|b| - 1]);
    }
  }

  lemma {:induction false} AllSaid(xs: seq<Message>)
    requires forall x :: x in xs ==> Plain(x)
    ensures Said(xs) == xs
  {
    if xs != [] {
      assert xs[|xs| - 1] in xs;
      AllSaid(xs[..|xs| - 1]);
    }
  }

  lemma SaidPlain(ms: seq<Message>, xs: seq<Message>)
    requires forall x :: x in xs ==> Plain(x)
    ensures Said(ms + xs) == Said(ms) + xs
  {
    SaidAppend(ms, xs);
    AllSaid(xs);
  }

  // ---------- The invariant ----------

  function UsageOf(w: World, requests: seq<seq<Message>>): Usage {
    if requests == [] then ZERO_USAGE
    else Add(UsageOf(w, requests[..|requests| - 1]), w.complete(|requests| - 1, requests[|requests| - 1]).usage)
  }

  /** One part of what the calls cost, added up. */
  function Sum(w: World, requests: seq<seq<Message>>, part: Usage -> int): int {
    if requests == [] then 0
    else
      var init, last := requests[..|requests| - 1], requests[|requests| - 1];
      Sum(w, init, part) + part(w.complete(|init|, last).usage)
  }

  lemma {:induction false} UsageIsSums(w: World, requests: seq<seq<Message>>)
    ensures var u := UsageOf(w, requests);
            && u.input == Sum(w, requests, (x: Usage) => x.input)
            && u.output == Sum(w, requests, (x: Usage) => x.output)
            && u.cacheRead == Sum(w, requests, (x: Usage) => x.cacheRead)
            && u.cacheCreation == Sum(w, requests, (x: Usage) => x.cacheCreation)
            && u.total == Sum(w, requests, (x: Usage) => x.total)
  {
    if requests != [] {
      UsageIsSums(w, requests[..|requests| - 1]);
    }
  }

  /**
   Request `i` was the transcript so far, the run was not aborted then, and the model's answer to it comes next in the
   transcript.
   */
  predicate Recorded(w: World, messages: seq<Message>, requests: seq<seq<Message>>) {
    forall i :: 0 <= i < |requests| ==>
      && !w.aborted(i) && |requests[i]| < |messages| && requests[i] == messages[..|requests[i]|]
      && messages[|requests[i]|] == Message(Assistant, w.complete(i, requests[i]).content)
  }

  ghost predicate Inv(w: World, initial: seq<Message>, s: State) {
    && WellFormed(s.messages) && (forall i :: 0 <= i < |s.requests| ==> WellFormed(s.requests[i]))
    && initial <= s.messages
    && Recorded(w, s.messages, s.requests)
    && s.total == UsageOf(w, s.requests)
    && Said(s.messages) == Said(initial) + Drained(w, s.drains)
  }

  /** The part of a round up to the model's answer, which is appended but not yet looked at. */
  function Asked(s: State, w: World): seq<Message> {
    s.messages + w.mailbox(s.drains)
  }

  function Completed(s: State, w: World): Completion {
    w.complete(|s.requests|, Asked(s, w))
  }

  /** How a round that is not aborted extends a state: what was asked, the answer, and what follows the answer. */
  predicate Extends(s: State, t: State, w: World, tail: seq<Message>) {
    && tail != [] && tail[0] == Message(Assistant, Completed(s, w).content)
    && t.messages == Asked(s, w) + tail
    && t.requests == s.requests + [Asked(s, w)] && t.total == Add(s.total, Completed(s, w).usage)
    && (if Calls(tail[0]) then t.drains == s.drains + 1 && |tail| == 2 && Answers(tail[0], tail[1])
        else t.drains == s.drains + 2 && tail[1..] == w.mailbox(s.drains + 1))
    && (t.stop == s.stop || (!Calls(tail[0]) && |tail| == 1 && t.stop == Some(Ended(Completed(s, w).stop))))
  }

  lemma RoundExtends(f: T.Renderer, s: State, w: World, limits: Option<Limits>) returns (tail: seq<Message>)
    requires !w.aborted(|s.requests|)
    ensures Extends(s, Round(f, s, w, limits), w, tail)
  {
    var t := Round(f, s, w, limits);
    var a := Message(Assistant, Completed(s, w).content);
    if Calls(a) {
      tail := [a, t.messages[|t.messages| - 1]];
    } else {
      tail := [a] + w.mailbox(s.drains + 1);
    }
    assert Asked(s, w) + [a] + tail[1..] == Asked(s, w) + tail;
  }

  /** What a round may append: calls with their answers, or a last word and more words of users. */
  ghost predicate Tail(tail: seq<Message>) {
    && tail != [] && tail[0].role == Assistant
    && if Calls(tail[0]) then |tail| == 2 && Answers(tail[0], tail[1]) else forall x :: x in tail[1..] ==> Plain(x)
  }

  lemma TailWellFormed(ms: seq<Message>, tail: seq<Message>)
    requires WellFormed(ms) && Tail(tail)
    ensures WellFormed(ms + tail)
  {
    if Calls(tail[0]) {
      assert ms + [tail[0]] + [tail[1]] == ms + tail;
    } else {
      AppendPlain(ms + [tail[0]], tail[1..]);
      assert ms + [tail[0]] + tail[1..] == ms + tail;
    }
  }

  lemma AnswerHasResult(a: Message, u: Message)
    requires Calls(a) && Answers(a, u)
    ensures !Plain(u)
  {
    assert u.content[0] in u.content;
  }

  lemma TailSaid(ms: seq<Message>, tail: seq<Message>)
    requires Tail(tail)
    ensures Said(ms + tail) == Said(ms) + (if Calls(tail[0]) then [] else tail[1..])
  {
    if Calls(tail[0]) {
      AnswerHasResult(tail[0], tail[1]);
      assert ms + [tail[0]] + [tail[1]] == ms + tail;
    } else {
      SaidPlain(ms + [tail[0]], tail[1..]);
      assert ms + [tail[0]] + tail[1..] == ms + tail;
    }
  }

  lemma RecordedGrows(w: World, messages: seq<Message>, requests: seq<seq<Message>>, asked: seq<Message>,
      tail: seq<Message>)
    requires Recorded(w, messages, requests) && messages <= asked && tail != [] && !w.aborted(|requests|)
    requires tail[0] == Message(Assistant, w.complete(|requests|, asked).content)
    ensures Recorded(w, asked + tail, requests + [asked])
  {
    var rs := requests + [asked];
    forall i | 0 <= i < |rs|
      ensures |rs[i]| < |asked + tail| && rs[i] == (asked + tail)[..|rs[i]|]
      ensures (asked + tail)[|rs[i]|] == Message(Assistant, w.complete(i, rs[i]).content)
    {
      if i < |requests| {
        assert rs[i] == messages[..|rs[i]|] == asked[..|rs[i]|];
      }
    }
  }

  lemma ExtendsWellFormed(s: State, t: State, w: World, tail: seq<Message>)
    requires PlainMailbox(w) && WellFormed(s.messages) && Extends(s, t, w, tail)
    ensures WellFormed(Asked(s, w)) && WellFormed(t.messages)
  {
    AppendPlain(s.messages, w.mailbox(s.drains));
    TailWellFormed(Asked(s, w), tail);
  }

  lemma SaidStep(ms: seq<Message>, early: seq<Message>, tail: seq<Message>, late: seq<Message>)
    requires (forall x :: x in early ==> Plain(x)) && Tail(tail) && late == if Calls(tail[0]) then [] else tail[1..]
    ensures Said(ms + early + tail) == Said(ms) + early + late
  {
    SaidPlain(ms, early);
    TailSaid(ms + early, tail);
  }

  lemma DrainedStep(s: State, t: State, w: World, tail: seq<Message>)
    requires Extends(s, t, w, tail)
    ensures Drained(w, t.drains) ==
            Drained(w, s.drains) + w.mailbox(s.drains) + if Calls(tail[0]) then [] else tail[1..]
  {
    assert Drained(w, s.drains + 1) == Drained(w, s.drains) + w.mailbox(s.drains);
    assert !Calls(tail[0]) ==> Drained(w, s.drains + 2) == Drained(w, s.drains + 1) + w.mailbox(s.drains + 1);
  }

  lemma ExtendsByTail(s: State, t: State, w: World, tail: seq<Message>)
    requires PlainMailbox(w) && Extends(s, t, w, tail)
    ensures Tail(tail) && t.messages == s.messages + w.mailbox(s.drains) + tail
  {
  }

  lemma ExtendsSaid(s: State, t: State, w: World, tail: seq<Message>, initial: seq<Message>)
    requires PlainMailbox(w) && Said(s.messages) == Said(initial) + Drained(w, s.drains) && Extends(s, t, w, tail)
    ensures Said(t.messages) == Said(initial) + Drained(w, t.drains)
  {
    var early, late := w.mailbox(s.drains), if Calls(tail[0]) then [] else tail[1..];
    DrainedStep(s, t, w, tail);
    ExtendsByTail(s, t, w, tail);
    SaidStep(s.messages, early, tail, late);
    Associate(Said(initial), Drained(w, s.drains), early, late);
  }

  lemma Associate<X>(a: seq<X>, b: seq<X>, c: seq<X>, d: seq<X>)
    ensures a + b + c + d == a + (b + c + d)
  {
  }

  lemma ExtendsKeepsInv(s: State, t: State, w: World, tail: seq<Message>, initial: seq<Message>)
    requires PlainMailbox(w) && Inv(w, initial, s) && Extends(s, t, w, tail) && !w.aborted(|s.requests|)
    ensures Inv(w, initial, t)
  {
    ExtendsWellFormed(s, t, w, tail);
    ExtendsSaid(s, t, w, tail, initial);
    RecordedGrows(w, s.messages, s.requests, Asked(s, w), tail);
  }

  lemma {:induction false} IterationsKeep(step: Step, s: State, turns: nat, inv: State -> bool)
    requires inv(s) && forall t: State :: inv(t) && t.stop.None? ==> inv(step(t))
    ensures inv(Iterate(step, s, turns))
  {
    if turns > 0 {
      IterationsKeep(step, s, turns - 1, inv);
    }
  }

  lemma {:induction false} RunKeepsInv(f: T.Renderer, initial: seq<Message>, w: World, limits: Option<Limits>, turns: nat, t: T.State)
    requires PlainMailbox(w) && WellFormed(initial)
    ensures Inv(w, initial, Iterate(RoundOf(f, w, limits), Start(initial, t), turns))
  {
    var step, inv := RoundOf(f, w, limits), (s: State) => Inv(w, initial, s);
    forall s: State | inv(s) && s.stop.None? ensures inv(step(s)) {
      if !w.aborted(|s.requests|) {
        var tail := RoundExtends(f, s, w, limits);
        ExtendsKeepsInv(s, Round(f, s, w, limits), w, tail, initial);
      }
    }
    assert initial + Drained(w, 0) == initial && Said(initial) + [] == Said(initial);
    IterationsKeep(step, Start(initial, t), turns, inv);
  }

  // ---------- Rounds and stops ----------

  /** Why a run stopped is what the state says. */
  predicate Explained(w: World, s: State) {
    match s.stop
    case None => true
    case Some(Aborted) => w.aborted(|s.requests|)
    case Some(MaxTurns) => true
    case Some(Ended(reason)) =>
      && s.requests != [] && s.drains > 0 && w.mailbox(s.drains - 1) == []
      && var n := |s.requests| - 1;
         var c := w.complete(n, s.requests[n]);
         UsesOf(c.content) == [] && reason == c.stop && s.messages == s.requests[n] + [Message(Assistant, c.content)]
  }

  lemma RoundIsExplained(f: T.Renderer, s: State, w: World, limits: Option<Limits>)
    requires s.stop.None?
    ensures Explained(w, Round(f, s, w, limits))
    ensures var t := Round(f, s, w, limits);
            |t.requests| == |s.requests| + 1 || (t.requests == s.requests && t.stop.Some?)
  {
    if !w.aborted(|s.requests|) {
      var tail := RoundExtends(f, s, w, limits);
    }
  }

  lemma {:induction false} IterationsCount(step: Step, s: State, turns: nat)
    requires s.stop.None?
    requires forall t: State :: t.stop.None? ==>
               || |step(t).requests| == |t.requests| + 1
               || (step(t).requests == t.requests && step(t).stop.Some?)
    ensures var t := Iterate(step, s, turns);
            |t.requests| <= |s.requests| + turns && (t.stop.None? ==> |t.requests| == |s.requests| + turns)
  {
    if turns > 0 {
      IterationsCount(step, s, turns - 1);
    }
  }

  lemma RunIsExplained(f: T.Renderer, initial: seq<Message>, w: World, limits: Option<Limits>, maxTurns: nat, t: T.State)
    ensures var s := Run(f, initial, w, limits, maxTurns, t);
            && s.stop.Some? && Explained(w, s) && |s.requests| <= maxTurns
            && (s.stop == Some(MaxTurns) ==> |s.requests| == maxTurns)
  {
    var step, inv := RoundOf(f, w, limits), (s: State) => Explained(w, s) && s.stop != Some(MaxTurns);
    forall s: State | s.stop.None?
      ensures inv(step(s))
      ensures |step(s).requests| == |s.requests| + 1 || (step(s).requests == s.requests && step(s).stop.Some?)
    {
      RoundIsExplained(f, s, w, limits);
    }
    IterationsKeep(step, Start(initial, t), maxTurns, inv);
    IterationsCount(step, Start(initial, t), maxTurns);
  }

  // ---------- The promise ----------

  /** Every list handed to the model and the final one have the shape a provider accepts. */
  lemma TranscriptsAreWellFormed(f: T.Renderer, initial: seq<Message>, w: World, limits: Option<Limits>,
      maxTurns: nat, t: T.State)
    requires WellFormed(initial) && PlainMailbox(w)
    ensures var s := Run(f, initial, w, limits, maxTurns, t);
            && WellFormed(s.messages) && initial <= s.messages
            && forall i :: 0 <= i < |s.requests| ==> WellFormed(s.requests[i]) && s.requests[i] <= s.messages
  {
    RunKeepsInv(f, initial, w, limits, maxTurns, t);
  }

  /**
   Usage is the sum over the calls made, each answer follows its request, and what users said is the initial words and
   every drained message, once and in order.
   */
  lemma {:induction false} TranscriptIsComplete(f: T.Renderer, initial: seq<Message>, w: World, limits: Option<Limits>,
      maxTurns: nat, t: T.State)
    requires WellFormed(initial) && PlainMailbox(w)
    ensures var s := Run(f, initial, w, limits, maxTurns, t);
            && s.total.input == Sum(w, s.requests, (x: Usage) => x.input)
            && s.total.output == Sum(w, s.requests, (x: Usage) => x.output)
            && s.total.cacheRead == Sum(w, s.requests, (x: Usage) => x.cacheRead)
            && s.total.cacheCreation == Sum(w, s.requests, (x: Usage) => x.cacheCreation)
            && s.total.total == Sum(w, s.requests, (x: Usage) => x.total)
            && Recorded(w, s.messages, s.requests)
            && Said(s.messages) == Said(initial) + Drained(w, s.drains)
  {
    RunKeepsInv(f, initial, w, limits, maxTurns, t);
    UsageIsSums(w, Run(f, initial, w, limits, maxTurns, t).requests);
  }
}
