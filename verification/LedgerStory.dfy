/** What the ledger (src/ledger/ledger.ts, src/ledger/budget.ts) holds, told from the calls of a run alone. */
module LedgerStory {
  import opened Basics
  import opened Ledger

  const EMPTY := State(map[], [], [])

  /** A budget row exists from the first time its caps are set. */
  predicate Opened(ops: seq<Op>, key: Key) {
    exists k :: 0 <= k < |ops| && ops[k].SetsCap? && ops[k].key == key
  }

  /** `x` belongs to the row of its owner, agent and period. */
  predicate Belongs(x: Spend, key: Key) {
    x.owner == Some(key.owner) && key.agent == Some(x.agent) && key.period == x.period
  }

  /** The money charged to a row since it exists; earlier spends are not charged. */
  function Spent(ops: seq<Op>, key: Key): real {
    if ops == [] then 0.0
    else
      var init, op := ops[..|ops| - 1], ops[|ops| - 1];
      Spent(init, key) + if op.Spends? && Belongs(op.spend, key) && Opened(init, key) then op.spend.price else 0.0
  }

  /** The tokens, of all four kinds. */
  function Used(ops: seq<Op>, key: Key): int {
    if ops == [] then 0
    else
      var init, op := ops[..|ops| - 1], ops[|ops| - 1];
      Used(init, key) +
      if op.Spends? && Belongs(op.spend, key) && Opened(init, key)
      then op.spend.input + op.spend.output + op.spend.cacheRead + op.spend.cacheCreation else 0
  }

  /** The arguments given for a row's money cap, in order. */
  function UsdChanges(ops: seq<Op>, key: Key): seq<Change<real>> {
    if ops == [] then []
    else
      var before, op := UsdChanges(ops[..|ops| - 1], key), ops[|ops| - 1];
      if op.SetsCap? && op.key == key then before + [op.usd] else before
  }

  function TokenChanges(ops: seq<Op>, key: Key): seq<Change<int>> {
    if ops == [] then []
    else
      var before, op := TokenChanges(ops[..|ops| - 1], key), ops[|ops| - 1];
      if op.SetsCap? && op.key == key then before + [op.tokens] else before
  }

  /** The last argument that was not left out is at `k`. */
  predicate LastGiven<T(==)>(changes: seq<Change<T>>, k: nat) {
    k < |changes| && changes[k] != Keep && forall j :: k < j < |changes| ==> changes[j] == Keep
  }

  /** A cap is what the last argument that was not left out says: its value, or none for null or if all were left out. */
  ghost predicate Stands<T>(changes: seq<Change<T>>, cap: Option<T>) {
    if cap.Some? then exists k: nat :: LastGiven(changes, k) && changes[k] == Put(cap.value)
    else (forall j :: 0 <= j < |changes| ==> changes[j] == Keep) || exists k: nat :: LastGiven(changes, k) && changes[k] == Wipe
  }

  ghost predicate RowFits(ops: seq<Op>, key: Key, b: Budget) {
    && Stands(UsdChanges(ops, key), b.capUsd) && Stands(TokenChanges(ops, key), b.capTokens)
    && b.spentUsd == Spent(ops, key) && b.spentTokens == Used(ops, key)
  }

  lemma StandsLonger<T>(changes: seq<Change<T>>, cap: Option<T>, c: Change<T>)
    requires Stands(changes, cap)
    ensures Stands(changes + [c], Changed(c, cap))
  {
    var more := changes + [c];
    if c != Keep {
      assert LastGiven(more, |changes|);
    } else if exists k: nat :: LastGiven(changes, k) {
      var k: nat :| LastGiven(changes, k) && (cap.Some? ==> changes[k] == Put(cap.value));
      assert cap.None? ==> changes[k] == Wipe;
      assert LastGiven(more, k) && more[k] == changes[k];
    }
  }

  lemma OpenedLonger(init: seq<Op>, op: Op, key: Key)
    ensures Opened(init + [op], key) <==> Opened(init, key) || (op.SetsCap? && op.key == key)
  {
    var ops := init + [op];
    if Opened(init, key) {
      var k :| 0 <= k < |init| && init[k].SetsCap? && init[k].key == key;
      assert ops[k] == init[k];
    } else if op.SetsCap? && op.key == key {
      assert ops[|init|] == op;
    }
  }

  lemma {:induction false} NothingBefore(ops: seq<Op>, key: Key)
    requires !Opened(ops, key)
    ensures Spent(ops, key) == 0.0 && Used(ops, key) == 0 && UsdChanges(ops, key) == [] && TokenChanges(ops, key) == []
  {
    if ops != [] {
      var init, op := ops[..|ops| - 1], ops[|ops| - 1];
      assert ops == init + [op];
      OpenedLonger(init, op, key);
      NothingBefore(init, key);
    }
  }

  lemma SpendFits(s: State, init: seq<Op>, x: Spend, key: Key)
    requires key in s.budgets <==> Opened(init, key)
    requires key in s.budgets ==> RowFits(init, key, s.budgets[key])
    ensures key in Record(s, x).budgets <==> Opened(init + [Spends(x)], key)
    ensures key in s.budgets ==> RowFits(init + [Spends(x)], key, Record(s, x).budgets[key])
  {
    var ops := init + [Spends(x)];
    assert ops[..|ops| - 1] == init;
    OpenedLonger(init, Spends(x), key);
  }

  lemma CapFits(s: State, init: seq<Op>, op: Op, key: Key)
    requires op.SetsCap?
    requires key in s.budgets <==> Opened(init, key)
    requires key in s.budgets ==> RowFits(init, key, s.budgets[key])
    ensures key in Do(s, op).budgets <==> Opened(init + [op], key)
    ensures key in Do(s, op).budgets ==> RowFits(init + [op], key, Do(s, op).budgets[key])
  {
    var ops := init + [op];
    assert ops[..|ops| - 1] == init;
    OpenedLonger(init, op, key);
    if key !in s.budgets {
      NothingBefore(init, key);
    }
    if op.key == key {
      var b := if key in s.budgets then s.budgets[key] else Budget(None, None, 0.0, 0);
      StandsLonger(UsdChanges(init, key), b.capUsd, op.usd);
      StandsLonger(TokenChanges(init, key), b.capTokens, op.tokens);
    }
  }

  /**
   A row exists from the first time its caps are set; it holds the money and all tokens charged since, and for each cap
   the last argument that was not left out.
   */
  lemma {:induction false} RowsAreTold(ops: seq<Op>, key: Key)
    ensures key in After(EMPTY, ops).budgets <==> Opened(ops, key)
    ensures Opened(ops, key) ==> RowFits(ops, key, After(EMPTY, ops).budgets[key])
  {
    if ops != [] {
      var init, op := ops[..|ops| - 1], ops[|ops| - 1];
      assert ops == init + [op];
      RowsAreTold(init, key);
      if op.Spends? {
        SpendFits(After(EMPTY, init), init, op.spend, key);
      } else {
        CapFits(After(EMPTY, init), init, op, key);
      }
    }
  }

  /** A spend is reported as over budget exactly if it leaves the row of its owner past its money cap. */
  lemma OverIsPastCap(ops: seq<Op>, x: Spend)
    ensures Over(After(EMPTY, ops), x) <==>
              exists key, cap :: Belongs(x, key) && Opened(ops, key) && Stands(UsdChanges(ops, key), Some(cap)) &&
                Spent(ops + [Spends(x)], key) > cap
  {
    var s, all := After(EMPTY, ops), ops + [Spends(x)];
    assert all[..|ops|] == ops;
    if Over(s, x) {
      var key := Charged(s, x).value;
      RowsAreTold(ops, key);
      assert Belongs(x, key) && Stands(UsdChanges(ops, key), Some(s.budgets[key].capUsd.value));
    }
    forall key, cap | Belongs(x, key) && Opened(ops, key) && Stands(UsdChanges(ops, key), Some(cap)) &&
        Spent(all, key) > cap
      ensures Over(s, x)
    {
      RowsAreTold(ops, key);
      OneStands(UsdChanges(ops, key), s.budgets[key].capUsd, Some(cap));
      assert Charged(s, x) == Some(key);
    }
  }

  lemma OneStands<T>(changes: seq<Change<T>>, a: Option<T>, b: Option<T>)
    requires Stands(changes, a) && Stands(changes, b)
    ensures a == b
  {
  }

  // ---------- Entries and notices ----------

  function SpendsOf(ops: seq<Op>): seq<Spend> {
    if ops == [] then []
    else
      var before, op := SpendsOf(ops[..|ops| - 1]), ops[|ops| - 1];
      if op.Spends? then before + [op.spend] else before
  }

  /** What a row's way from `from` to `to` announces under `cap`: first four fifths of it, then all. */
  function Announced(key: Key, cap: real, from: real, to: real): seq<Notice> {
    if cap <= 0.0 then []
    else
      (if from < cap * 0.8 <= to then [Notice(key, 0.8, cap, to)] else []) +
      (if from < cap <= to then [Notice(key, 1.0, cap, to)] else [])
  }

  lemma NoticesAreAnnounced(key: Key, b: Budget, price: real)
    ensures NoticesOf(key, b, price, |THRESHOLDS|) ==
            if b.capUsd.Some? then Announced(key, b.capUsd.value, b.spentUsd, b.spentUsd + price) else []
  {
    if b.capUsd.None? || b.capUsd.value <= 0.0 {
      NoCapNoNotices(key, b, price, |THRESHOLDS|);
    } else {
      var first := NoticesOf(key, b, price, 1);
      assert NoticesOf(key, b, price, 0) == [];
      assert first == if Crosses(b, price, 0.8) then [Notice(key, 0.8, b.capUsd.value, b.spentUsd + price)] else [];
    }
  }

  /** Every spend is entered in order, charged or not. */
  lemma {:induction false} EntriesAreSpends(ops: seq<Op>)
    ensures After(EMPTY, ops).entries == SpendsOf(ops)
  {
    if ops != [] {
      EntriesAreSpends(ops[..|ops| - 1]);
    }
  }

  lemma RecordAnnounces(s: State, x: Spend, key: Key)
    requires Belongs(x, key)
    ensures Record(s, x).notices ==
            s.notices +
            if key in s.budgets && s.budgets[key].capUsd.Some?
            then var b := s.budgets[key]; Announced(key, b.capUsd.value, b.spentUsd, b.spentUsd + x.price) else []
  {
    assert Key(x.owner.value, Some(x.agent), x.period) == key;
    if key in s.budgets {
      NoticesAreAnnounced(key, s.budgets[key], x.price);
    }
    assert s.notices + [] == s.notices;
  }

  lemma SpentLonger(ops: seq<Op>, x: Spend, key: Key)
    requires Belongs(x, key) && Opened(ops, key)
    ensures Spent(ops + [Spends(x)], key) == Spent(ops, key) + x.price
  {
    assert (ops + [Spends(x)])[..|ops|] == ops;
  }

  lemma AfterSpend(ops: seq<Op>, x: Spend)
    ensures After(EMPTY, ops + [Spends(x)]) == Record(After(EMPTY, ops), x)
  {
    assert (ops + [Spends(x)])[..|ops|] == ops;
  }

  /** A spend announces the thresholds of its row's cap that it takes the row past, and nothing else does. */
  lemma SpendAnnounces(ops: seq<Op>, x: Spend, key: Key, cap: Option<real>)
    requires Belongs(x, key) && (Opened(ops, key) ==> Stands(UsdChanges(ops, key), cap))
    ensures After(EMPTY, ops + [Spends(x)]).notices ==
            After(EMPTY, ops).notices +
            if Opened(ops, key) && cap.Some?
            then Announced(key, cap.value, Spent(ops, key), Spent(ops + [Spends(x)], key)) else []
  {
    AfterSpend(ops, x);
    RowsAreTold(ops, key);
    RecordAnnounces(After(EMPTY, ops), x, key);
    if Opened(ops, key) {
      SpentLonger(ops, x, key);
      OneStands(UsdChanges(ops, key), After(EMPTY, ops).budgets[key].capUsd, cap);
    }
  }

  lemma OthersAnnounceNothing(ops: seq<Op>, op: Op)
    requires op.Spends? ==> op.spend.owner.None?
    ensures After(EMPTY, ops + [op]).notices == After(EMPTY, ops).notices
  {
    assert (ops + [op])[..|ops|] == ops;
  }
}
