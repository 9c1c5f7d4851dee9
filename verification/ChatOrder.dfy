/** Order in the input queues of one chat thread (src/agent/chat.ts): who is served when, and with which origin. */
module ChatOrder {
  import opened Basics
  import opened Chat
  import C = ChatRuns

  /** An input and the origin that its turn runs with. */
  datatype Tagged = Tagged(item: Item, origin: string)

  /** `b` after its first `|a|` elements. */
  function Since<T>(a: seq<T>, b: seq<T>): seq<T> {
    if |a| <= |b| then b[|a|..] else []
  }

  function Tag(items: seq<Item>, origin: string): (r: seq<Tagged>)
    ensures |r| == |items|
  {
    seq(|items|, i requires 0 <= i < |items| => Tagged(items[i], origin))
  }

  function Zip(items: seq<Item>, origins: seq<string>): (r: seq<Tagged>)
    requires |items| == |origins|
    ensures |r| == |items|
  {
    seq(|items|, i requires 0 <= i < |items| => Tagged(items[i], origins[i]))
  }

  /** The inputs of a run, numbered as they come. */
  function Arrivals(ops: seq<Op>): seq<Item> {
    if ops == [] then []
    else
      var before, op := Arrivals(ops[..|ops| - 1]), ops[|ops| - 1];
      if op.Inputs? then before + [Item(|before|, op.text)] else before
  }

  /** An input that asks to extend a running turn goes to the mailbox if there is one. */
  predicate Extends(s: State, op: Op) {
    op.Inputs? && op.extend && s.active.Some?
  }

  /** What step `op` from `s` queues: a plain input with its origin, what a closing turn leaves with the turn's. */
  function QueuedBy(s: State, op: Op, number: nat): seq<Tagged> {
    match op
    case Inputs(text, origin, _) => if Extends(s, op) then [] else [Tagged(Item(number, text), origin)]
    case EndsTurn(d, _, _) => if Enabled(s, op) then Tag(s.inbox, s.drains[d].origin) else []
    case _ => []
  }

  /** Everything a run queued, in order. */
  function Queued(ops: seq<Op>): seq<Tagged> {
    if ops == [] then []
    else
      var init, op := ops[..|ops| - 1], ops[|ops| - 1];
      Queued(init) + QueuedBy(After(init), op, |Arrivals(init)|)
  }

  /** The input and origin of the turn that step `op` from `s` to `t` opened, if it opened one. */
  function OpenedBy(s: State, op: Op, t: State): seq<Tagged> {
    if op.Enters? && Enabled(s, op) && Turning(t, op.d) && t.history != []
    then [Tagged(t.history[|t.history| - 1], t.drains[op.d].origin)] else []
  }

  /** The inputs that opened turns, in order; turn `k` is the one of the `k`-th. */
  function Opened(ops: seq<Op>): seq<Tagged> {
    if ops == [] then []
    else
      var init, op := ops[..|ops| - 1], ops[|ops| - 1];
      Opened(init) + OpenedBy(After(init), op, After(ops))
  }

  /** The inputs that went to the mailbox, in order. */
  function Mailed(ops: seq<Op>): seq<Item> {
    if ops == [] then []
    else
      var init, op := ops[..|ops| - 1], ops[|ops| - 1];
      if Extends(After(init), op) then Mailed(init) + [Item(|Arrivals(init)|, op.text)] else Mailed(init)
  }

  /** What the mailbox handed over in step `op` from `s` to `t`: to the running turn, or to the queue as it closes. */
  function HandedBy(s: State, op: Op, t: State): seq<Item> {
    if !Enabled(s, op) then []
    else
      match op
      case Folds(d) => if Turning(t, d) then Since(s.drains[d].folded, t.drains[d].folded) else []
      case EndsTurn(_, _, _) => Since(s.pending, t.pending)
      case _ => []
  }

  function Handed(ops: seq<Op>): seq<Item> {
    if ops == [] then []
    else
      var init, op := ops[..|ops| - 1], ops[|ops| - 1];
      Handed(init) + HandedBy(After(init), op, After(ops))
  }

  // ---------- First come, first served ----------

  lemma {:induction false} PairedQueues(ops: seq<Op>)
    ensures |After(ops).pending| == |After(ops).origins|
  {
    C.RunsKeepCore(ops, Item(0, ""));
  }

  /** Every input is accepted, in order of arrival. */
  lemma {:induction false} AcceptedAreArrivals(ops: seq<Op>)
    ensures After(ops).accepted == Arrivals(ops)
  {
    if ops != [] {
      AcceptedAreArrivals(ops[..|ops| - 1]);
    }
  }

  lemma ZipAppend(a: seq<Item>, o: seq<string>, b: seq<Item>, p: seq<string>)
    requires |a| == |o| && |b| == |p|
    ensures Zip(a + b, o + p) == Zip(a, o) + Zip(b, p)
  {
  }

  lemma InputQueues(s: State, text: string, origin: string, extend: bool)
    requires |s.pending| == |s.origins|
    ensures var t := Input(s, text, origin, extend);
            && |t.pending| == |t.origins|
            && Zip(s.pending, s.origins) + QueuedBy(s, Inputs(text, origin, extend), |s.accepted|) ==
               Zip(t.pending, t.origins)
  {
    ZipAppend(s.pending, s.origins, [Item(|s.accepted|, text)], [origin]);
  }

  lemma EnterServes(s: State, d: nat)
    requires Enabled(s, Enters(d))
    ensures var t := Enter(s, d);
            && |t.pending| == |t.origins|
            && OpenedBy(s, Enters(d), t) + Zip(t.pending, t.origins) == Zip(s.pending, s.origins)
  {
    if s.pending != [] {
      assert s.pending == [s.pending[0]] + s.pending[1..] && s.origins == [s.origins[0]] + s.origins[1..];
      ZipAppend([s.pending[0]], [s.origins[0]], s.pending[1..], s.origins[1..]);
    }
  }

  lemma EndQueues(s: State, d: nat, succeeds: bool, rejects: bool)
    requires |s.pending| == |s.origins| && Enabled(s, EndsTurn(d, succeeds, rejects))
    ensures var t := EndTurn(s, d, succeeds, rejects);
            && |t.pending| == |t.origins|
            && Zip(s.pending, s.origins) + Tag(s.inbox, s.drains[d].origin) == Zip(t.pending, t.origins)
  {
    var o := s.drains[d].origin;
    ZipAppend(s.pending, s.origins, s.inbox, Repeat(o, |s.inbox|));
    assert Zip(s.inbox, Repeat(o, |s.inbox|)) == Tag(s.inbox, o);
  }

  lemma OthersQueueNothing(s: State, op: Op)
    requires Enabled(s, op) && !op.Inputs? && !op.Enters? && !op.EndsTurn?
    ensures Do(s, op).pending == s.pending && Do(s, op).origins == s.origins
    ensures QueuedBy(s, op, |s.accepted|) == [] && OpenedBy(s, op, Do(s, op)) == []
  {
  }

  lemma StepQueues(s: State, op: Op)
    requires Enabled(s, op) && |s.pending| == |s.origins|
    ensures var t := Do(s, op);
            && |t.pending| == |t.origins|
            && Zip(s.pending, s.origins) + QueuedBy(s, op, |s.accepted|) ==
               OpenedBy(s, op, t) + Zip(t.pending, t.origins)
  {
    match op
    case Inputs(text, origin, extend) => InputQueues(s, text, origin, extend);
    case Enters(d) => EnterServes(s, d);
    case EndsTurn(d, succeeds, rejects) => EndQueues(s, d, succeeds, rejects);
    case _ => OthersQueueNothing(s, op);
  }

  lemma Rebracket<T>(queued: seq<T>, served: seq<T>, a: seq<T>, b: seq<T>, c: seq<T>, d: seq<T>)
    requires queued == served + a && a + b == c + d
    ensures queued + b == served + c + d
  {
    assert queued + b == served + (a + b);
  }

  /** Whatever is queued opens a turn with its origin in the order of queueing, or still waits in that order. */
  lemma {:induction false} FirstQueuedFirstServed(ops: seq<Op>)
    ensures |After(ops).pending| == |After(ops).origins|
    ensures Queued(ops) == Opened(ops) + Zip(After(ops).pending, After(ops).origins)
  {
    PairedQueues(ops);
    if ops != [] {
      var init, op := ops[..|ops| - 1], ops[|ops| - 1];
      FirstQueuedFirstServed(init);
      AcceptedAreArrivals(init);
      if Enabled(After(init), op) {
        var s, t := After(init), After(ops);
        StepQueues(s, op);
        Rebracket(Queued(init), Opened(init), Zip(s.pending, s.origins), QueuedBy(s, op, |Arrivals(init)|),
                  OpenedBy(s, op, t), Zip(t.pending, t.origins));
      }
    }
  }

  /** Turns are numbered in order of opening and keep the origin of the input that opened them. */
  predicate TurnsFit(s: State, openings: seq<Tagged>) {
    && s.turns == |openings|
    && forall d :: 0 <= d < |s.drains| && s.drains[d].InTurn? ==>
         s.drains[d].turn < |openings| && s.drains[d].origin == openings[s.drains[d].turn].origin
  }

  lemma EnterFits(s: State, d: nat, openings: seq<Tagged>)
    requires TurnsFit(s, openings) && Enabled(s, Enters(d))
    ensures TurnsFit(Enter(s, d), openings + OpenedBy(s, Enters(d), Enter(s, d)))
  {
  }

  lemma StepFits(s: State, op: Op, openings: seq<Tagged>)
    requires TurnsFit(s, openings) && Enabled(s, op)
    ensures TurnsFit(Do(s, op), openings + OpenedBy(s, op, Do(s, op)))
  {
    if op.Enters? {
      EnterFits(s, op.d, openings);
    }
  }

  /** A running turn has the origin of the input that opened it. */
  lemma {:induction false} TurnKeepsOrigin(ops: seq<Op>)
    ensures TurnsFit(After(ops), Opened(ops))
  {
    if ops != [] {
      var init, op := ops[..|ops| - 1], ops[|ops| - 1];
      TurnKeepsOrigin(init);
      if Enabled(After(init), op) {
        StepFits(After(init), op, Opened(init));
      }
    }
  }

  lemma FoldHands(s: State, d: nat)
    requires Turning(s, d)
    ensures Since(s.drains[d].folded, Fold(s, d).drains[d].folded) == s.inbox
  {
  }

  lemma EndHands(s: State, d: nat, succeeds: bool, rejects: bool)
    requires Turning(s, d)
    ensures Since(s.pending, EndTurn(s, d, succeeds, rejects).pending) == s.inbox
  {
  }

  lemma StepHands(s: State, op: Op, number: nat)
    requires Enabled(s, op) && number == |s.accepted|
    ensures var t := Do(s, op);
            s.inbox + (if Extends(s, op) then [Item(number, op.text)] else []) == HandedBy(s, op, t) + t.inbox
  {
    if op.Folds? {
      FoldHands(s, op.d);
    } else if op.EndsTurn? {
      EndHands(s, op.d, op.succeeds, op.rejects);
    }
  }

  /** The mailbox hands its inputs over in order, all of them once, and holds the rest. */
  lemma {:induction false} MailInOrder(ops: seq<Op>)
    ensures Mailed(ops) == Handed(ops) + After(ops).inbox
  {
    if ops != [] {
      var init, op := ops[..|ops| - 1], ops[|ops| - 1];
      var s, t := After(init), After(ops);
      MailInOrder(init);
      AcceptedAreArrivals(init);
      if Enabled(s, op) {
        StepHands(s, op, |Arrivals(init)|);
        Rebracket(Mailed(init), Handed(init), s.inbox, if Extends(s, op) then [Item(|Arrivals(init)|, op.text)] else [],
                  HandedBy(s, op, t), t.inbox);
      }
    }
  }

  // ---------- What the history says ----------

  /** What step `op` from `s` to `t` adds to the transcript: the opening input, or what a succeeding turn folded in. */
  function SaidBy(s: State, op: Op, t: State): seq<Item> {
    if op.Enters? && OpenedBy(s, op, t) != [] then [OpenedBy(s, op, t)[0].item]
    else if op.EndsTurn? && op.succeeds && Enabled(s, op) then s.drains[op.d].folded
    else []
  }

  function Said(ops: seq<Op>): seq<Item> {
    if ops == [] then []
    else
      var init, op := ops[..|ops| - 1], ops[|ops| - 1];
      Said(init) + SaidBy(After(init), op, After(ops))
  }

  lemma EnterSays(s: State, d: nat)
    requires Enabled(s, Enters(d))
    ensures Enter(s, d).history == s.history + SaidBy(s, Enters(d), Enter(s, d))
  {
  }

  lemma EndSays(s: State, d: nat, succeeds: bool, rejects: bool)
    requires C.Single(s) && Turning(s, d) && (s.drains[d].copied.None? ==> s.drains[d].folded == [])
    ensures EndTurn(s, d, succeeds, rejects).history == s.history + if succeeds then s.drains[d].folded else []
  {
    assert d == |s.drains| - 1;
  }

  lemma StepSays(s: State, op: Op)
    requires C.Single(s) && Enabled(s, op) && C.Core(s, Item(0, ""))
    ensures Do(s, op).history == s.history + SaidBy(s, op, Do(s, op))
  {
    if op.Enters? {
      EnterSays(s, op.d);
    } else if op.EndsTurn? {
      assert C.CopyFits(s, s.drains[op.d], Item(0, ""));
      EndSays(s, op.d, op.succeeds, op.rejects);
    }
  }

  /** While drain loops do not overlap the history only grows: by opening inputs and by what succeeding turns folded in. */
  lemma {:induction false} HistoryOnlyGrows(ops: seq<Op>)
    requires C.QuietRun(ops)
    ensures After(ops).history == Said(ops)
  {
    if ops != [] {
      var init, op := ops[..|ops| - 1], ops[|ops| - 1];
      HistoryOnlyGrows(init);
      C.QuietRunsKeepSingle(init);
      C.RunsKeepCore(init, Item(0, ""));
      if Enabled(After(init), op) {
        StepSays(After(init), op);
      }
    }
  }
}
