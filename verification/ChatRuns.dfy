/** What every run of a chat thread's steps keeps. */
module ChatRuns {
  import opened Basics
  import opened Chat

  // ---------- Every input is in exactly one place ----------

  /** How often `x` occurs. */
  function Count(items: seq<Item>, x: Item): nat {
    multiset(items)[x]
  }

  function FoldedOf(k: Drain): seq<Item> {
    if k.InTurn? then k.folded else []
  }

  /** How often the running turns have folded `x` in. */
  function CountFolded(drains: seq<Drain>, x: Item): nat {
    if drains == [] then 0 else CountFolded(drains[..|drains| - 1], x) + Count(FoldedOf(drains[|drains| - 1]), x)
  }

  lemma {:induction false} FoldedUpdate(drains: seq<Drain>, d: nat, k: Drain, x: Item)
    requires d < |drains|
    ensures CountFolded(drains[d := k], x) ==
            CountFolded(drains, x) - Count(FoldedOf(drains[d]), x) + Count(FoldedOf(k), x)
  {
    var last := |drains| - 1;
    var after := drains[d := k];
    if d == last {
      assert after[..last] == drains[..last];
    } else {
      assert after[..last] == drains[..last][d := k];
      FoldedUpdate(drains[..last], d, k, x);
    }
  }

  /** All the places an accepted input can be in: queued, folded into a running turn, kept in history, or lost. */
  function Places(s: State, x: Item): nat {
    Count(s.pending, x) + Count(s.inbox, x) + CountFolded(s.drains, x) + Count(s.history, x) + s.lost[x]
  }

  /** A turn has folded nothing in before its engine started, and its copy holds no more than was kept or lost since. */
  ghost predicate CopyFits(s: State, k: Drain, x: Item) {
    k.InTurn? ==>
      if k.copied.Some? then Count(k.copied.value, x) <= Count(s.history, x) + s.lost[x] else k.folded == []
  }

  ghost predicate Core(s: State, x: Item) {
    && |s.pending| == |s.origins|
    && Places(s, x) == Count(s.accepted, x)
    && (forall d :: 0 <= d < |s.drains| ==> CopyFits(s, s.drains[d], x))
    && forall i :: 0 <= i < |s.accepted| ==> s.accepted[i].ticket == i
  }

  lemma CountSnoc(items: seq<Item>, item: Item, x: Item)
    ensures Count(items + [item], x) == Count(items, x) + if item == x then 1 else 0
  {
  }

  lemma WorkerFoldsNothing(drains: seq<Drain>, x: Item)
    ensures CountFolded(drains + [Looping], x) == CountFolded(drains, x)
  {
    assert (drains + [Looping])[..|drains|] == drains;
  }

  lemma InputPlaces(s: State, text: string, origin: string, extend: bool, x: Item)
    ensures Places(Input(s, text, origin, extend), x) ==
            Places(s, x) + if Item(|s.accepted|, text) == x then 1 else 0
  {
    var item := Item(|s.accepted|, text);
    CountSnoc(s.inbox, item, x);
    CountSnoc(s.pending, item, x);
    WorkerFoldsNothing(s.drains, x);
  }

  lemma CopiesStillFit(s: State, t: State, x: Item)
    requires forall d :: 0 <= d < |s.drains| ==> CopyFits(s, s.drains[d], x)
    requires t.history == s.history && t.lost == s.lost && (t.drains == s.drains || t.drains == s.drains + [Looping])
    ensures forall d :: 0 <= d < |t.drains| ==> CopyFits(t, t.drains[d], x)
  {
    forall d | 0 <= d < |t.drains| ensures CopyFits(t, t.drains[d], x) {
      if d < |s.drains| {
        assert CopyFits(s, s.drains[d], x);
      }
    }
  }

  lemma InputKeeps(s: State, text: string, origin: string, extend: bool, x: Item)
    requires Core(s, x)
    ensures Core(Input(s, text, origin, extend), x)
  {
    InputPlaces(s, text, origin, extend, x);
    CountSnoc(s.accepted, Item(|s.accepted|, text), x);
    CopiesStillFit(s, Input(s, text, origin, extend), x);
  }

  lemma StartKeeps(s: State, d: nat, x: Item)
    requires Core(s, x) && d < |s.drains| && s.drains[d].Looping? && s.pending != []
    ensures Core(Start(s, d), x)
  {
    var t := Start(s, d);
    FoldedUpdate(s.drains, d, t.drains[d], x);
    assert [s.pending[0]] + s.pending[1..] == s.pending;
    assert Count(s.pending, x) + Count(s.history, x) == Count(t.pending, x) + Count(t.history, x);
  }

  lemma EnterKeeps(s: State, d: nat, x: Item)
    requires Core(s, x) && d < |s.drains| && s.drains[d].Looping?
    ensures Core(Enter(s, d), x)
  {
    FoldedUpdate(s.drains, d, Enter(s, d).drains[d], x);
    if s.pending != [] {
      StartKeeps(s, d, x);
    }
  }

  lemma CopyKeeps(s: State, d: nat, x: Item)
    requires Core(s, x) && Turning(s, d)
    ensures Core(Copy(s, d), x)
  {
    FoldedUpdate(s.drains, d, Copy(s, d).drains[d], x);
  }

  lemma FoldKeeps(s: State, d: nat, x: Item)
    requires Core(s, x) && Turning(s, d) && s.drains[d].copied.Some?
    ensures Core(Fold(s, d), x)
  {
    FoldedUpdate(s.drains, d, Fold(s, d).drains[d], x);
  }

  /** What a closing turn takes out of the history it counts as lost, and the other way round. */
  lemma KeptOrLost(s: State, d: nat, succeeds: bool, rejects: bool, x: Item)
    requires Core(s, x) && Turning(s, d)
    ensures var t := EndTurn(s, d, succeeds, rejects);
            Count(t.history, x) + t.lost[x] == Count(s.history, x) + s.lost[x] + Count(s.drains[d].folded, x)
  {
    assert CopyFits(s, s.drains[d], x);
  }

  lemma EndTurnKeeps(s: State, d: nat, succeeds: bool, rejects: bool, x: Item)
    requires Core(s, x) && Turning(s, d)
    ensures Core(EndTurn(s, d, succeeds, rejects), x)
  {
    FoldedUpdate(s.drains, d, EndTurn(s, d, succeeds, rejects).drains[d], x);
    KeptOrLost(s, d, succeeds, rejects, x);
  }

  lemma DoKeepsCore(s: State, op: Op, x: Item)
    requires Core(s, x) && Enabled(s, op)
    ensures Core(Do(s, op), x)
  {
    match op
    case Inputs(text, origin, extend) => InputKeeps(s, text, origin, extend, x);
    case Assigns =>
    case Enters(d) => EnterKeeps(s, d, x);
    case Copies(d) => CopyKeeps(s, d, x);
    case Folds(d) => FoldKeeps(s, d, x);
    case EndsTurn(d, succeeds, rejects) => EndTurnKeeps(s, d, succeeds, rejects, x);
    case Clears(d) => FoldedUpdate(s.drains, d, Exited(true), x);
  }

  lemma {:induction false} RunsKeepCore(ops: seq<Op>, x: Item)
    ensures Core(After(ops), x)
  {
    if ops != [] {
      var s, op := After(ops[..|ops| - 1]), ops[|ops| - 1];
      RunsKeepCore(ops[..|ops| - 1], x);
      if Enabled(s, op) {
        DoKeepsCore(s, op, x);
      }
    }
  }

  lemma {:induction false} NumberedOnce(items: seq<Item>, x: Item)
    requires forall i :: 0 <= i < |items| ==> items[i].ticket == i
    ensures Count(items, x) == if x in items then 1 else 0
  {
    if items != [] {
      var init, last := items[..|items| - 1], items[|items| - 1];
      assert items == init + [last];
      NumberedOnce(init, x);
    }
  }

  /**
   In every run, re-entrant inputs and failing turns included, each accepted input is in exactly one place, once; and
   the two pending queues stay of one length.
   */
  lemma {:induction false} EveryInputOnce(ops: seq<Op>, x: Item)
    ensures Places(After(ops), x) == if x in After(ops).accepted then 1 else 0
    ensures |After(ops).pending| == |After(ops).origins|
  {
    RunsKeepCore(ops, x);
    NumberedOnce(After(ops).accepted, x);
  }

  // ---------- When an input is lost ----------

  /**
   The step closes a turn that had folded `x` in and fails, or that puts a list without `x` in place of one with it.
   */
  predicate Loses(s: State, op: Op, x: Item) {
    && op.EndsTurn? && Enabled(s, op)
    && var k := s.drains[op.d];
       if op.succeeds && k.copied.Some? then x in s.history && x !in k.copied.value && x !in k.folded
       else x in k.folded
  }

  /** The step puts a list in place that still has `x`. */
  predicate Restores(s: State, op: Op, x: Item) {
    op.EndsTurn? && Enabled(s, op) && op.succeeds && s.drains[op.d].copied.Some? && x in s.drains[op.d].copied.value
  }

  lemma {:induction false} FoldedIsCounted(drains: seq<Drain>, d: nat, x: Item)
    requires d < |drains|
    ensures Count(FoldedOf(drains[d]), x) <= CountFolded(drains, x)
  {
    if d < |drains| - 1 {
      FoldedIsCounted(drains[..|drains| - 1], d, x);
    }
  }

  lemma KeptCount(history: seq<Item>, k: Drain, succeeds: bool, x: Item)
    requires k.InTurn?
    ensures Count(Kept(history, k, succeeds), x) ==
            if succeeds && k.copied.Some? then Count(k.copied.value, x) + Count(k.folded, x) else Count(history, x)
  {
  }

  lemma LostByCount(s: State, d: nat, succeeds: bool, rejects: bool, x: Item)
    requires Core(s, x) && Places(s, x) <= 1 && Turning(s, d)
    ensures var k := s.drains[d];
            EndTurn(s, d, succeeds, rejects).lost[x] > 0 <==>
            if succeeds && k.copied.Some? then
              Count(k.copied.value, x) == 0 && Count(k.folded, x) == 0 && Count(s.history, x) + s.lost[x] > 0
            else Count(k.folded, x) + s.lost[x] > 0
  {
    FoldedIsCounted(s.drains, d, x);
    KeptOrLost(s, d, succeeds, rejects, x);
    KeptCount(s.history, s.drains[d], succeeds, x);
    assert EndTurn(s, d, succeeds, rejects).history == Kept(s.history, s.drains[d], succeeds);
  }

  lemma LosesByCount(s: State, op: Op, x: Item)
    requires op.EndsTurn? && Enabled(s, op)
    ensures var k := s.drains[op.d];
            && (Loses(s, op, x) <==>
                if op.succeeds && k.copied.Some? then
                  Count(s.history, x) > 0 && Count(k.copied.value, x) == 0 && Count(k.folded, x) == 0
                else Count(k.folded, x) > 0)
            && (Restores(s, op, x) <==> op.succeeds && k.copied.Some? && Count(k.copied.value, x) > 0)
  {
  }

  lemma LostByEnd(s: State, op: Op, x: Item)
    requires op.EndsTurn? && Core(s, x) && Places(s, x) <= 1 && Enabled(s, op)
    ensures x in EndTurn(s, op.d, op.succeeds, op.rejects).lost <==>
            Loses(s, op, x) || (x in s.lost && !Restores(s, op, x))
  {
    LostByCount(s, op.d, op.succeeds, op.rejects, x);
    LosesByCount(s, op, x);
    FoldedIsCounted(s.drains, op.d, x);
  }

  lemma LostByStep(s: State, op: Op, x: Item)
    requires Core(s, x) && Places(s, x) <= 1 && Enabled(s, op)
    ensures x in Do(s, op).lost <==> Loses(s, op, x) || (x in s.lost && !Restores(s, op, x))
  {
    if op.EndsTurn? {
      LostByEnd(s, op, x);
    }
  }

  predicate LostAt(ops: seq<Op>, k: nat, x: Item) {
    && k < |ops| && Loses(After(ops[..k]), ops[k], x)
    && forall j: nat :: k < j < |ops| ==> !Restores(After(ops[..j]), ops[j], x)
  }

  lemma LostAtLonger(ops: seq<Op>, op: Op, k: nat, x: Item)
    requires k < |ops|
    ensures LostAt(ops + [op], k, x) <==> LostAt(ops, k, x) && !Restores(After(ops), op, x)
  {
    var more := ops + [op];
    assert more[..|ops|] == ops && more[|ops|] == op;
    forall j: nat | j < |ops| ensures more[..j] == ops[..j] && more[j] == ops[j] {}
    if LostAt(ops, k, x) && !Restores(After(ops), op, x) {
      forall j: nat | k < j < |more| ensures !Restores(After(more[..j]), more[j], x) {
        if j < |ops| {
          assert !Restores(After(ops[..j]), ops[j], x);
        }
      }
    }
    if LostAt(more, k, x) {
      forall j: nat | k < j < |ops| ensures !Restores(After(ops[..j]), ops[j], x) {
        assert !Restores(After(more[..j]), more[j], x);
      }
      assert !Restores(After(more[..|ops|]), more[|ops|], x);
    }
  }

  lemma LostSinceLonger(ops: seq<Op>, op: Op, x: Item)
    ensures (exists k :: LostAt(ops + [op], k, x)) <==>
            Loses(After(ops), op, x) || ((exists k :: LostAt(ops, k, x)) && !Restores(After(ops), op, x))
  {
    var more := ops + [op];
    assert more[..|ops|] == ops && more[|ops|] == op;
    assert LostAt(more, |ops|, x) <==> Loses(After(ops), op, x);
    forall k: nat | k < |ops| ensures LostAt(more, k, x) <==> LostAt(ops, k, x) && !Restores(After(ops), op, x) {
      LostAtLonger(ops, op, k, x);
    }
  }

  /**
   Exactly which inputs are lost: those a closing turn dropped, unless a later one put a list back that still had
   them.
   */
  lemma {:induction false} LostExactly(ops: seq<Op>, x: Item)
    ensures x in After(ops).lost <==> exists k :: LostAt(ops, k, x)
  {
    if ops != [] {
      var init, op := ops[..|ops| - 1], ops[|ops| - 1];
      assert ops == init + [op];
      LostExactly(init, x);
      LostSinceLonger(init, op, x);
      EveryInputOnce(init, x);
      RunsKeepCore(init, x);
      if Enabled(After(init), op) {
        LostByStep(After(init), op, x);
      }
    }
  }

  // ---------- One turn at a time ----------

  predicate Live(k: Drain) {
    k != Exited(true)
  }

  /** No input that could start a worker arrives from inside the synchronous start of one. */
  predicate Quiet(s: State, op: Op) {
    op.Inputs? && s.frames > 0 ==> op.extend && s.active.Some?
  }

  predicate QuietRun(ops: seq<Op>) {
    ops == [] || (QuietRun(ops[..|ops| - 1]) && Quiet(After(ops[..|ops| - 1]), ops[|ops| - 1]))
  }

  /**
   At most one drain is alive, it is the last, and there is one exactly while a worker is stored or about to be; the
   active turn is its turn, and its engine's copy is the history.
   */
  predicate Single(s: State) {
    && (forall d :: 0 <= d < |s.drains| - 1 ==> !Live(s.drains[d]))
    && s.frames <= 1 && !(s.worker && s.frames == 1)
    && ((s.worker || s.frames == 1) <==> (s.drains != [] && Live(s.drains[|s.drains| - 1])))
    && (s.active.Some? <==> (s.drains != [] && s.drains[|s.drains| - 1].InTurn?))
    && (s.active.Some? ==>
          var k := s.drains[|s.drains| - 1];
          s.active == Some(k.turn) && (k.copied.Some? ==> k.copied.value == s.history))
    && (s.active.None? ==> s.inbox == [])
  }

  lemma EndKeepsSingle(s: State, d: nat, succeeds: bool, rejects: bool)
    requires Single(s) && Turning(s, d)
    ensures Single(EndTurn(s, d, succeeds, rejects))
  {
    assert d == |s.drains| - 1;
  }

  lemma DoKeepsSingle(s: State, op: Op)
    requires Single(s) && Enabled(s, op) && Quiet(s, op)
    ensures Single(Do(s, op))
  {
    if op.EndsTurn? {
      EndKeepsSingle(s, op.d, op.succeeds, op.rejects);
    }
  }

  lemma {:induction false} QuietRunsKeepSingle(ops: seq<Op>)
    requires QuietRun(ops)
    ensures Single(After(ops))
  {
    if ops != [] {
      var s, op := After(ops[..|ops| - 1]), ops[|ops| - 1];
      QuietRunsKeepSingle(ops[..|ops| - 1]);
      if Enabled(s, op) {
        DoKeepsSingle(s, op);
      }
    }
  }

  predicate OneLive(s: State) {
    forall d, e :: 0 <= d < |s.drains| && 0 <= e < |s.drains| && Live(s.drains[d]) && Live(s.drains[e]) ==> d == e
  }

  lemma LoudInputAddsDrain(s: State, op: Op)
    requires Single(s) && !Quiet(s, op)
    ensures !OneLive(Do(s, op))
  {
    var t, last := Do(s, op), |s.drains| - 1;
    assert Live(t.drains[last]) && Live(t.drains[last + 1]);
  }

  /**
   The drain loops of a thread never overlap exactly if starting a turn never itself publishes an input that starts
   another.
   */
  lemma {:induction false} QuietExactlyIfOneDrain(ops: seq<Op>)
    ensures QuietRun(ops) <==> forall n: nat :: n <= |ops| ==> OneLive(After(ops[..n]))
  {
    var all := ops[..|ops|];
    assert all == ops;
    if ops == [] {
      assert forall n: nat :: n <= |ops| ==> ops[..n] == [];
    } else {
      var init, op := ops[..|ops| - 1], ops[|ops| - 1];
      QuietExactlyIfOneDrain(init);
      forall n: nat | n < |ops| ensures ops[..n] == init[..n] {}
      if QuietRun(init) {
        QuietRunsKeepSingle(init);
        if Quiet(After(init), op) {
          QuietRunsKeepSingle(ops);
        } else {
          LoudInputAddsDrain(After(init), op);
          assert !OneLive(After(all));
        }
      }
    }
  }

  /**
   At most one turn of a thread is active, as long as starting a turn does not itself publish an input that starts
   another.
   */
  lemma {:induction false} OneTurnAtATime(ops: seq<Op>, d: nat, e: nat)
    requires QuietRun(ops) && Turning(After(ops), d) && Turning(After(ops), e)
    ensures d == e && After(ops).active == Some(After(ops).drains[d].turn)
  {
    QuietRunsKeepSingle(ops);
  }

  /** Step `k` closes a turn that fails and had folded `x` in. */
  predicate FailedAt(ops: seq<Op>, k: nat, x: Item) {
    k < |ops| && FailsWith(After(ops[..k]), ops[k], x)
  }

  predicate FailsWith(s: State, op: Op, x: Item) {
    op.EndsTurn? && Enabled(s, op) && !op.succeeds && x in s.drains[op.d].folded
  }

  lemma QuietLosses(s: State, op: Op, x: Item)
    requires Single(s) && Core(s, x) && Places(s, x) <= 1
    ensures Loses(s, op, x) <==> FailsWith(s, op, x)
    ensures x in s.lost ==> !Restores(s, op, x)
  {
    if op.EndsTurn? && Enabled(s, op) {
      assert CopyFits(s, s.drains[op.d], x);
    }
  }

  lemma QuietLostByStep(s: State, op: Op, x: Item)
    requires Single(s) && Core(s, x) && Places(s, x) <= 1 && Enabled(s, op)
    ensures x in Do(s, op).lost <==> FailsWith(s, op, x) || x in s.lost
  {
    QuietLosses(s, op, x);
    LostByStep(s, op, x);
  }

  lemma FailedAtLonger(ops: seq<Op>, op: Op, x: Item)
    ensures (exists k :: FailedAt(ops + [op], k, x)) <==>
            (exists k :: FailedAt(ops, k, x)) || FailsWith(After(ops), op, x)
  {
    var more := ops + [op];
    assert more[..|ops|] == ops && more[|ops|] == op;
    assert FailedAt(more, |ops|, x) <==> FailsWith(After(ops), op, x);
    forall k: nat | k < |ops| ensures FailedAt(more, k, x) <==> FailedAt(ops, k, x) {
      assert more[..k] == ops[..k] && more[k] == ops[k];
    }
  }

  /** While turns do not overlap, inputs are lost only by being folded into a turn that then fails. */
  lemma {:induction false} LostOnlyWithFailedTurn(ops: seq<Op>, x: Item)
    requires QuietRun(ops)
    ensures x in After(ops).lost <==> exists k :: FailedAt(ops, k, x)
  {
    if ops != [] {
      var init, op := ops[..|ops| - 1], ops[|ops| - 1];
      var s := After(init);
      assert ops == init + [op];
      LostOnlyWithFailedTurn(init, x);
      FailedAtLonger(init, op, x);
      QuietRunsKeepSingle(init);
      RunsKeepCore(init, x);
      EveryInputOnce(init, x);
      if Enabled(s, op) {
        QuietLostByStep(s, op, x);
      }
    }
  }

  // ---------- Runs that overlap ----------

  predicate Leads(s: State, op: Op, t: State) {
    Enabled(s, op) && Do(s, op) == t
  }

  lemma {:induction false} Next(ops: seq<Op>, s: State, op: Op, t: State)
    requires After(ops) == s && Leads(s, op, t)
    ensures After(ops + [op]) == t
    ensures QuietRun(ops + [op]) <==> QuietRun(ops) && Quiet(s, op)
  {
    assert (ops + [op])[..|ops|] == ops;
  }

  /** The state in which one input's turn has opened, and its engine has started if there is a copy. */
  function Opened(x: Item, o: string, copied: Option<seq<Item>>, stored: bool): State {
    State([], [], [], Some(0), stored, if stored then 0 else 1, [InTurn(0, o, copied, [])], 1, [x], [x], multiset{})
  }

  lemma FirstTurnOpens(a: string, o: string)
    ensures var ops := [Inputs(a, o, false), Enters(0)];
            After(ops) == Opened(Item(0, a), o, None, false) && QuietRun(ops)
  {
    var s := State([Item(0, a)], [o], [], None, false, 1, [Looping], 0, [Item(0, a)], [], multiset{});
    Next([], FRESH, Inputs(a, o, false), s);
    assert [] + [Inputs(a, o, false)] == [Inputs(a, o, false)];
    assert [Looping][0 := InTurn(0, o, None, [])] == [InTurn(0, o, None, [])];
    Next([Inputs(a, o, false)], s, Enters(0), Opened(Item(0, a), o, None, false));
    assert [Inputs(a, o, false)] + [Enters(0)] == [Inputs(a, o, false), Enters(0)];
  }

  lemma FirstEngineStarts(a: string, o: string)
    ensures After([Inputs(a, o, false), Enters(0), Copies(0)]) == Opened(Item(0, a), o, Some([Item(0, a)]), false)
  {
    var x, ops := Item(0, a), [Inputs(a, o, false), Enters(0)];
    FirstTurnOpens(a, o);
    assert [InTurn(0, o, None, [])][0 := InTurn(0, o, Some([x]), [])] == [InTurn(0, o, Some([x]), [])];
    Next(ops, Opened(x, o, None, false), Copies(0), Opened(x, o, Some([x]), false));
    assert ops + [Copies(0)] == [Inputs(a, o, false), Enters(0), Copies(0)];
  }

  /** The start of the first turn publishes the second input. */
  function Overlapping(a: string, b: string, o: string): seq<Op> {
    [Inputs(a, o, false), Enters(0), Copies(0)] + [Inputs(b, o, false)] + [Enters(1)] + [Copies(1)]
  }

  function Both(x: Item, y: Item, o: string, folded: seq<Item>): seq<Drain> {
    [InTurn(0, o, Some([x]), folded), InTurn(1, o, Some([x, y]), [])]
  }

  /**
   The condition is needed: an input published from inside the start of a turn, before `thread.worker` is stored,
   starts a second turn beside the first.
   */
  lemma ReentrantInputStartsSecondTurn(a: string, b: string, o: string)
    ensures var x, y, ops := Item(0, a), Item(1, b), Overlapping(a, b, o);
            && After(ops) ==
               State([], [], [], Some(1), false, 2, Both(x, y, o, []), 2, [x, y], [x, y], multiset{})
            && Turning(After(ops), 0) && Turning(After(ops), 1) && !QuietRun(ops)
  {
    var x, y, ops := Item(0, a), Item(1, b), [Inputs(a, o, false), Enters(0), Copies(0)];
    var first := InTurn(0, o, Some([x]), []);
    var s := Opened(x, o, Some([x]), false);
    var t := State([y], [o], [], Some(0), false, 2, [first, Looping], 1, [x, y], [x], multiset{});
    var u := State([], [], [], Some(1), false, 2, [first, InTurn(1, o, None, [])], 2, [x, y], [x, y], multiset{});
    var v := State([], [], [], Some(1), false, 2, Both(x, y, o, []), 2, [x, y], [x, y], multiset{});
    FirstEngineStarts(a, o);
    assert Leads(s, Inputs(b, o, false), t);
    Next(ops, s, Inputs(b, o, false), t);
    assert [first, Looping][1 := InTurn(1, o, None, [])] == u.drains;
    assert Leads(t, Enters(1), u);
    Next(ops + [Inputs(b, o, false)], t, Enters(1), u);
    assert u.drains[1 := InTurn(1, o, Some([x, y]), [])] == v.drains;
    assert Leads(u, Copies(1), v);
    Next(ops + [Inputs(b, o, false)] + [Enters(1)], u, Copies(1), v);
  }

  /** The run goes on: a third input is folded into the first turn, and both turns succeed, the first one first. */
  function BothSucceed(a: string, b: string, c: string, o: string): seq<Op> {
    Overlapping(a, b, o) + [Assigns] + [Assigns] + [Inputs(c, o, true)] + [Folds(0)]
      + [EndsTurn(0, true, false)] + [EndsTurn(1, true, false)]
  }

  lemma AllSucceed(a: string, b: string, c: string, o: string)
    ensures var ops := BothSucceed(a, b, c, o); forall k: nat :: k < |ops| && ops[k].EndsTurn? ==> ops[k].succeeds
  {
  }

  lemma ThirdIsFolded(a: string, b: string, c: string, o: string)
    ensures var x, y, z := Item(0, a), Item(1, b), Item(2, c);
            After(Overlapping(a, b, o) + [Assigns] + [Assigns] + [Inputs(c, o, true)] + [Folds(0)]) ==
            State([], [], [], Some(1), true, 0, Both(x, y, o, [z]), 2, [x, y, z], [x, y], multiset{})
  {
    var x, y, z, ops := Item(0, a), Item(1, b), Item(2, c), Overlapping(a, b, o);
    var r := State([], [], [], Some(1), false, 2, Both(x, y, o, []), 2, [x, y], [x, y], multiset{});
    var s := r.(worker := true, frames := 1);
    var t := s.(frames := 0);
    var u := t.(inbox := [z], accepted := [x, y, z]);
    ReentrantInputStartsSecondTurn(a, b, o);
    Next(ops, r, Assigns, s);
    Next(ops + [Assigns], s, Assigns, t);
    assert Leads(t, Inputs(c, o, true), u);
    Next(ops + [Assigns] + [Assigns], t, Inputs(c, o, true), u);
    assert Both(x, y, o, [])[0 := InTurn(0, o, Some([x]), [z])] == Both(x, y, o, [z]);
    Next(ops + [Assigns] + [Assigns] + [Inputs(c, o, true)], u, Folds(0),
         u.(inbox := [], drains := Both(x, y, o, [z])));
  }

  lemma ClosesInto(s: State, d: nat, k: Drain, kept: seq<Item>, lost: multiset<Item>)
    requires d < |s.drains| && s.drains[d] == k && k.InTurn? && k.copied.Some? && s.frames == 0 && s.inbox == []
    requires kept == k.copied.value + k.folded
    requires lost == s.lost + multiset(s.history) + multiset(k.folded) - multiset(kept)
    ensures Leads(s, EndsTurn(d, true, false),
                  s.(active := if s.active == Some(k.turn) then None else s.active,
                     history := kept, lost := lost, drains := s.drains[d := Looping]))
  {
    assert s.pending + s.inbox == s.pending && s.origins + Repeat(k.origin, 0) == s.origins;
  }

  /** A turn that folded nothing in closes with nothing in the inbox. */
  lemma EndsInto(s: State, d: nat, k: Drain, succeeds: bool, rejects: bool)
    requires d < |s.drains| && s.drains[d] == k && k.InTurn? && k.copied.None? && k.folded == []
    requires s.frames == 0 && s.inbox == [] && s.active == Some(k.turn)
    ensures Leads(s, EndsTurn(d, succeeds, rejects),
                  s.(active := None, drains := s.drains[d := if rejects then Exited(false) else Looping]))
  {
    assert s.pending + s.inbox == s.pending && s.origins + Repeat(k.origin, 0) == s.origins;
    assert s.lost + multiset(s.history) + multiset(k.folded) - multiset(s.history) == s.lost;
  }

  /**
   With two turns at once an input is lost though no turn fails: it is folded into the first, and the second puts its
   older copy in place of the first one's list.
   */
  lemma OverwrittenThoughNothingFailed(a: string, b: string, c: string, o: string)
    ensures var ops := BothSucceed(a, b, c, o);
            && After(ops).history == [Item(0, a), Item(1, b)] && After(ops).lost == multiset{Item(2, c)}
            && forall k: nat :: k < |ops| && ops[k].EndsTurn? ==> ops[k].succeeds
  {
    var x, y, z := Item(0, a), Item(1, b), Item(2, c);
    var ops := Overlapping(a, b, o) + [Assigns] + [Assigns] + [Inputs(c, o, true)] + [Folds(0)];
    var s := State([], [], [], Some(1), true, 0, Both(x, y, o, [z]), 2, [x, y, z], [x, y], multiset{});
    var t := s.(history := [x, z], lost := multiset{y}, drains := s.drains[0 := Looping]);
    var u := t.(active := None, history := [x, y], lost := multiset{z}, drains := t.drains[1 := Looping]);
    ThirdIsFolded(a, b, c, o);
    assert [x] + [z] == [x, z];
    ClosesInto(s, 0, s.drains[0], [x, z], multiset{y});
    Next(ops, s, EndsTurn(0, true, false), t);
    assert [x, y] + [] == [x, y];
    ClosesInto(t, 1, s.drains[1], [x, y], multiset{z});
    Next(ops + [EndsTurn(0, true, false)], t, EndsTurn(1, true, false), u);
    AllSucceed(a, b, c, o);
  }

  // ---------- The end of a turn ----------

  /**
   Inputs stranded in the in-flight inbox become pending in order, behind those already there, and carry the origin of
   the turn that closed.
   */
  lemma {:induction false} StrandedArePromoted(ops: seq<Op>, d: nat, succeeds: bool, rejects: bool, i: nat)
    requires Turning(After(ops), d) && i < |After(ops).inbox|
    ensures var s := After(ops);
            var t := EndTurn(s, d, succeeds, rejects);
            && t.inbox == [] && |t.pending| == |t.origins| == |s.pending| + |s.inbox|
            && t.pending[..|s.pending|] == s.pending && t.origins[..|s.origins|] == s.origins
            && t.pending[|s.pending| + i] == s.inbox[i] && t.origins[|s.pending| + i] == s.drains[d].origin
  {
    RunsKeepCore(ops, After(ops).inbox[i]);
  }

  // ---------- Who runs what is queued ----------

  /** Inputs are queued and no drain loop is there to take them. */
  predicate Waiting(s: State) {
    s.pending != [] && forall d :: 0 <= d < |s.drains| ==> s.drains[d].Exited?
  }

  /**
   The step leaves inputs queued without a drain loop: it queues one after the loop has ended and before the cleanup
   clears the worker, or it ends the loop by a rejection while inputs are queued.
   */
  predicate Strands(s: State, op: Op) {
    && Enabled(s, op)
    && match op
       case Inputs(_, _, _) => s.worker && s.drains != [] && s.drains[|s.drains| - 1] == Exited(false)
       case EndsTurn(_, _, rejects) => rejects && s.pending + s.inbox != []
       case _ => false
  }

  predicate StrandedAt(ops: seq<Op>, k: nat) {
    k < |ops| && Strands(After(ops[..k]), ops[k]) && |After(ops).drains| == |After(ops[..k]).drains|
  }

  lemma WaitingByInput(s: State, op: Op)
    requires Single(s) && Quiet(s, op) && op.Inputs?
    ensures Waiting(Do(s, op)) <==> Strands(s, op) || (Waiting(s) && |Do(s, op).drains| == |s.drains|)
    ensures Strands(s, op) ==> |Do(s, op).drains| == |s.drains|
  {
    var t := Do(s, op);
    if |t.drains| > |s.drains| {
      assert t.drains[|s.drains|] == Looping;
    }
  }

  lemma WaitingByEnd(s: State, op: Op)
    requires Single(s) && op.EndsTurn? && Enabled(s, op)
    ensures Waiting(Do(s, op)) <==> Strands(s, op)
    ensures !Waiting(s) && |Do(s, op).drains| == |s.drains|
  {
    var t := Do(s, op);
    assert t.drains[op.d] == if op.rejects then Exited(false) else Looping;
    assert s.drains[op.d].InTurn?;
    assert op.d == |s.drains| - 1;
  }

  lemma WaitingByEnter(s: State, d: nat)
    requires Single(s) && Enabled(s, Enters(d))
    ensures !Waiting(Enter(s, d)) && !Waiting(s)
  {
    assert s.drains[d].Looping?;
    if s.pending != [] {
      assert Enter(s, d).drains[d].InTurn?;
    }
  }

  lemma WaitingByStep(s: State, op: Op)
    requires Single(s) && Enabled(s, op) && Quiet(s, op)
    ensures Waiting(Do(s, op)) <==> Strands(s, op) || (Waiting(s) && |Do(s, op).drains| == |s.drains|)
    ensures Strands(s, op) ==> |Do(s, op).drains| == |s.drains|
  {
    match op
    case Inputs(_, _, _) => WaitingByInput(s, op);
    case Assigns =>
    case Enters(d) => WaitingByEnter(s, d);
    case Copies(d) => assert s.drains[d].InTurn? && Copy(s, d).drains[d].InTurn?;
    case Folds(d) => assert s.drains[d].InTurn? && Fold(s, d).drains[d].InTurn?;
    case EndsTurn(_, _, _) => WaitingByEnd(s, op);
    case Clears(d) => assert forall e :: 0 <= e < |s.drains| && e != d ==> Clear(s, d).drains[e] == s.drains[e];
  }

  lemma DoGrows(s: State, op: Op)
    requires Enabled(s, op)
    ensures |s.drains| <= |Do(s, op).drains|
  {
  }

  lemma {:induction false} DrainsGrow(ops: seq<Op>, k: nat)
    requires k <= |ops|
    ensures |After(ops[..k]).drains| <= |After(ops).drains|
  {
    if k == |ops| {
      assert ops[..k] == ops;
    } else {
      var init, op := ops[..|ops| - 1], ops[|ops| - 1];
      DrainsGrow(init, k);
      assert init[..k] == ops[..k];
      if Enabled(After(init), op) {
        DoGrows(After(init), op);
      }
    }
  }

  lemma StrandedAtLonger(ops: seq<Op>, op: Op)
    ensures var s, t := After(ops), After(ops + [op]);
            (exists k :: StrandedAt(ops + [op], k)) <==>
            ((exists k :: StrandedAt(ops, k)) && |t.drains| == |s.drains|) ||
            (Strands(s, op) && |t.drains| == |s.drains|)
  {
    var more := ops + [op];
    assert more[..|ops|] == ops && more[|ops|] == op;
    assert StrandedAt(more, |ops|) <==> Strands(After(ops), op) && |After(more).drains| == |After(ops).drains|;
    DrainsGrow(more, |ops|);
    forall k: nat | k < |ops|
      ensures StrandedAt(more, k) <==> StrandedAt(ops, k) && |After(more).drains| == |After(ops).drains|
    {
      assert more[..k] == ops[..k] && more[k] == ops[k];
      DrainsGrow(ops, k);
    }
  }

  /**
   While turns do not overlap, queued inputs are without a drain loop exactly if one came after the loop had ended and
   before its cleanup, or a rejected turn left some, and no drain was started since.
   */
  lemma {:induction false} WaitingExactly(ops: seq<Op>)
    requires QuietRun(ops)
    ensures Waiting(After(ops)) <==> exists k :: StrandedAt(ops, k)
  {
    if ops != [] {
      var init, op := ops[..|ops| - 1], ops[|ops| - 1];
      assert ops == init + [op];
      WaitingExactly(init);
      QuietRunsKeepSingle(init);
      StrandedAtLonger(init, op);
      if Enabled(After(init), op) {
        WaitingByStep(After(init), op);
      }
    }
  }

  /** Nothing but another input ends such a wait. */
  lemma OnlyInputEndsWait(ops: seq<Op>, op: Op)
    requires QuietRun(ops) && Waiting(After(ops)) && Enabled(After(ops), op) && !op.Inputs?
    ensures Waiting(After(ops + [op]))
  {
    assert (ops + [op])[..|ops|] == ops;
    QuietRunsKeepSingle(ops);
    DoGrows(After(ops), op);
    WaitingByStep(After(ops), op);
  }

  lemma FirstTurnRuns(a: string, o: string)
    ensures var ops := [Inputs(a, o, false), Enters(0)] + [Assigns];
            After(ops) == Opened(Item(0, a), o, None, true) && QuietRun(ops)
  {
    FirstTurnOpens(a, o);
    Next([Inputs(a, o, false), Enters(0)], Opened(Item(0, a), o, None, false), Assigns,
         Opened(Item(0, a), o, None, true));
  }

  /** An input is queued while a worker is stored, and the drain loop that had exited is cleaned up. */
  lemma QueuesAndClears(ops: seq<Op>, s: State, text: string, o: string)
    requires After(ops) == s && s.worker && s.frames == 0 && s.drains == [Exited(false)] && s.pending == []
    requires QuietRun(ops) && s.origins == []
    ensures var item := Item(|s.accepted|, text);
            var more := ops + [Inputs(text, o, false)] + [Clears(0)];
            QuietRun(more) && After(more).pending == [item] && After(more).drains == [Exited(true)]
  {
    var item := Item(|s.accepted|, text);
    var t := s.(pending := [item], origins := [o], accepted := s.accepted + [item]);
    Next(ops, s, Inputs(text, o, false), t);
    assert t.drains[0 := Exited(true)] == [Exited(true)];
    Next(ops + [Inputs(text, o, false)], t, Clears(0), t.(worker := false, drains := [Exited(true)]));
  }

  /** The first cause: the turn and its drain loop end, then an input comes, then the cleanup. */
  function LateInput(a: string, b: string, o: string): seq<Op> {
    [Inputs(a, o, false), Enters(0)] + [Assigns] + [EndsTurn(0, true, false)] + [Enters(0)] + [Inputs(b, o, false)]
      + [Clears(0)]
  }

  lemma InputMayWaitForAnother(a: string, b: string, o: string)
    ensures var ops := LateInput(a, b, o);
            QuietRun(ops) && After(ops).pending == [Item(1, b)] && After(ops).drains == [Exited(true)]
  {
    var ops := [Inputs(a, o, false), Enters(0)] + [Assigns];
    var s := Opened(Item(0, a), o, None, true);
    var t := s.(active := None, drains := [Looping]);
    var u := t.(drains := [Exited(false)]);
    FirstTurnRuns(a, o);
    assert s.drains[0 := Looping] == [Looping];
    EndsInto(s, 0, s.drains[0], true, false);
    Next(ops, s, EndsTurn(0, true, false), t);
    assert t.drains[0 := Exited(false)] == u.drains;
    Next(ops + [EndsTurn(0, true, false)], t, Enters(0), u);
    QueuesAndClears(ops + [EndsTurn(0, true, false)] + [Enters(0)], u, b, o);
  }

  /** The second cause: an input comes during a turn that rejects. */
  function RejectedTurn(a: string, b: string, o: string): seq<Op> {
    [Inputs(a, o, false), Enters(0)] + [Assigns] + [Inputs(b, o, false)] + [EndsTurn(0, false, true)] + [Clears(0)]
  }

  lemma QueuedDuringTurn(a: string, b: string, o: string)
    ensures var ops := [Inputs(a, o, false), Enters(0)] + [Assigns] + [Inputs(b, o, false)];
            && QuietRun(ops)
            && After(ops) == Opened(Item(0, a), o, None, true)
                               .(pending := [Item(1, b)], origins := [o], accepted := [Item(0, a), Item(1, b)])
  {
    var ops, y := [Inputs(a, o, false), Enters(0)] + [Assigns], Item(1, b);
    var s := Opened(Item(0, a), o, None, true);
    var t := s.(pending := [y], origins := [o], accepted := [Item(0, a), y]);
    FirstTurnRuns(a, o);
    assert Leads(s, Inputs(b, o, false), t);
    Next(ops, s, Inputs(b, o, false), t);
  }

  lemma RejectedTurnLeavesInputs(a: string, b: string, o: string)
    ensures var ops := RejectedTurn(a, b, o);
            QuietRun(ops) && After(ops).pending == [Item(1, b)] && After(ops).drains == [Exited(true)]
  {
    var ops, x, y := [Inputs(a, o, false), Enters(0)] + [Assigns] + [Inputs(b, o, false)], Item(0, a), Item(1, b);
    var t := Opened(x, o, None, true).(pending := [y], origins := [o], accepted := [x, y]);
    var u := t.(active := None, drains := [Exited(false)]);
    QueuedDuringTurn(a, b, o);
    assert t.drains[0 := Exited(false)] == u.drains;
    EndsInto(t, 0, t.drains[0], false, true);
    Next(ops, t, EndsTurn(0, false, true), u);
    assert u.drains[0 := Exited(true)] == [Exited(true)];
    Next(ops + [EndsTurn(0, false, true)], u, Clears(0), u.(worker := false, drains := [Exited(true)]));
  }
}
