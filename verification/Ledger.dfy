/**
 Spend against a budget (src/ledger/ledger.ts, src/ledger/budget.ts): accumulation, threshold events and cap changes.
 Amounts of money are reals; prices and token counts come from outside.
 */
module Ledger {
  import opened Basics

  /** A budget row's key; the agent is absent on the owner's own row. */
  datatype Key = Key(owner: string, agent: Option<string>, period: string)

  datatype Budget = Budget(capUsd: Option<real>, capTokens: Option<int>, spentUsd: real, spentTokens: int)

  /** `budget.threshold`, or `budget.exceeded` at a threshold of one. */
  datatype Notice = Notice(key: Key, threshold: real, capUsd: real, spentUsd: real)

  const THRESHOLDS := [0.8, 1.0]

  datatype Spend = Spend(
    owner: Option<string>,
    agent: string,
    period: string,
    price: real,
    input: nat,
    output: nat,
    cacheRead: nat,
    cacheCreation: nat
  )

  /** An argument that is left out, null or a value. */
  datatype Change<T> = Keep | Wipe | Put(value: T)

  datatype State = State(budgets: map<Key, Budget>, entries: seq<Spend>, notices: seq<Notice>)

  function TokensOf(x: Spend): nat {
    x.input + x.output + x.cacheRead + x.cacheCreation
  }

  /** The row that a spend is charged to, if there is one. */
  function Charged(s: State, x: Spend): Option<Key> {
    if x.owner.Some? && Key(x.owner.value, Some(x.agent), x.period) in s.budgets
    then Some(Key(x.owner.value, Some(x.agent), x.period)) else None
  }

  predicate Crosses(b: Budget, price: real, threshold: real) {
    b.capUsd.Some? && b.capUsd.value > 0.0 && b.spentUsd < b.capUsd.value * threshold <= b.spentUsd + price
  }

  /** The events for the first `n` thresholds. */
  function NoticesOf(key: Key, b: Budget, price: real, n: nat): seq<Notice>
    requires n <= |THRESHOLDS|
  {
    if n == 0 then []
    else
      var before, t := NoticesOf(key, b, price, n - 1), THRESHOLDS[n - 1];
      if Crosses(b, price, t) then before + [Notice(key, t, b.capUsd.value, b.spentUsd + price)] else before
  }

  function Record(s: State, x: Spend): State {
    var t := s.(entries := s.entries + [x]);
    match Charged(s, x)
    case None => t
    case Some(key) =>
      var b := s.budgets[key];
      t.(budgets := s.budgets[key := b.(spentUsd := b.spentUsd + x.price, spentTokens := b.spentTokens + TokensOf(x))],
         notices := s.notices + NoticesOf(key, b, x.price, |THRESHOLDS|))
  }

  /** Over is past the cap; reaching it exactly already publishes the event, but is not over. */
  predicate Over(s: State, x: Spend) {
    match Charged(s, x)
    case None => false
    case Some(key) => s.budgets[key].capUsd.Some? && s.budgets[key].spentUsd + x.price > s.budgets[key].capUsd.value
  }

  function Changed<T>(c: Change<T>, old': Option<T>): Option<T> {
    match c
    case Keep => old'
    case Wipe => None
    case Put(v) => Some(v)
  }

  function SetBudget(s: State, key: Key, usd: Change<real>, tokens: Change<int>): State {
    var b := if key in s.budgets then s.budgets[key] else Budget(None, None, 0.0, 0);
    s.(budgets := s.budgets[key := b.(capUsd := Changed(usd, b.capUsd), capTokens := Changed(tokens, b.capTokens))])
  }

  class Book {
    var budgets: map<Key, Budget>
    var entries: seq<Spend>
    var notices: seq<Notice>

    constructor ()
      ensures Now() == State(map[], [], [])
    {
      budgets, entries, notices := map[], [], [];
    }

    function Now(): State
      reads this
    {
      State(budgets, entries, notices)
    }

    method RecordSpend(x: Spend) returns (over: bool)
      modifies this
      ensures Now() == Record(old(Now()), x) && over == Over(old(Now()), x)
    {
      entries := entries + [x];
      over := false;
      if x.owner.Some? {
        over := ApplyToBudget(x);
      }
    }

    method ApplyToBudget(x: Spend) returns (over: bool)
      requires x.owner.Some?
      modifies this`budgets, this`notices
      ensures Now() == Record(old(Now()), x).(entries := entries) && over == Over(old(Now()), x)
    {
      var key := Key(x.owner.value, Some(x.agent), x.period);
      if key !in budgets {
        return false;
      }
      var b := budgets[key];
      var afterUsd, afterTokens := b.spentUsd + x.price, b.spentTokens + TokensOf(x);
      budgets := budgets[key := b.(spentUsd := afterUsd, spentTokens := afterTokens)];
      if b.capUsd.Some? && b.capUsd.value > 0.0 {
        for i := 0 to |THRESHOLDS|
          invariant notices == old(notices) + NoticesOf(key, b, x.price, i)
          invariant budgets == old(budgets)[key := b.(spentUsd := afterUsd, spentTokens := afterTokens)]
        {
          var boundary := b.capUsd.value * THRESHOLDS[i];
          if b.spentUsd < boundary && afterUsd >= boundary {
            notices := notices + [Notice(key, THRESHOLDS[i], b.capUsd.value, afterUsd)];
          }
        }
      } else {
        NoCapNoNotices(key, b, x.price, |THRESHOLDS|);
        assert notices == old(notices) + [];
      }
      over := b.capUsd.Some? && afterUsd > b.capUsd.value;
    }

    method SetCap(key: Key, usd: Change<real>, tokens: Change<int>) returns (created: bool)
      modifies this`budgets
      ensures Now() == SetBudget(old(Now()), key, usd, tokens) && created == (key !in old(budgets))
    {
      if key in budgets {
        var b := budgets[key];
        budgets := budgets[key := b.(capUsd := Changed(usd, b.capUsd), capTokens := Changed(tokens, b.capTokens))];
        return false;
      }
      budgets := budgets[key := Budget(Changed(usd, None), Changed(tokens, None), 0.0, 0)];
      return true;
    }
  }

  lemma {:induction false} NoCapNoNotices(key: Key, b: Budget, price: real, n: nat)
    requires n <= |THRESHOLDS| && (b.capUsd.None? || b.capUsd.value <= 0.0)
    ensures NoticesOf(key, b, price, n) == []
  {
    if n > 0 {
      NoCapNoNotices(key, b, price, n - 1);
    }
  }

  // ---------- Runs ----------

  datatype Op = Spends(spend: Spend) | SetsCap(key: Key, usd: Change<real>, tokens: Change<int>)

  function Do(s: State, op: Op): State {
    match op
    case Spends(x) => Record(s, x)
    case SetsCap(key, usd, tokens) => SetBudget(s, key, usd, tokens)
  }

  function After(s: State, ops: seq<Op>): State {
    if ops == [] then s else Do(After(s, ops[..|ops| - 1]), ops[|ops| - 1])
  }

  predicate Charges(op: Op, key: Key) {
    op.Spends? && op.spend.owner.Some? && key == Key(op.spend.owner.value, Some(op.spend.agent), op.spend.period)
  }

  function Prices(ops: seq<Op>, key: Key): real {
    if ops == [] then 0.0
    else Prices(ops[..|ops| - 1], key) + (if Charges(ops[|ops| - 1], key) then ops[|ops| - 1].spend.price else 0.0)
  }

  function Tokens(ops: seq<Op>, key: Key): nat {
    if ops == [] then 0
    else Tokens(ops[..|ops| - 1], key) + (if Charges(ops[|ops| - 1], key) then TokensOf(ops[|ops| - 1].spend) else 0)
  }

  /** What a row has spent is what it had spent plus everything charged to it since, whatever happens to its caps. */
  lemma {:induction false} SpendAccumulates(s: State, ops: seq<Op>, key: Key)
    requires key in s.budgets
    ensures key in After(s, ops).budgets
    ensures After(s, ops).budgets[key].spentUsd == s.budgets[key].spentUsd + Prices(ops, key)
    ensures After(s, ops).budgets[key].spentTokens == s.budgets[key].spentTokens + Tokens(ops, key)
  {
    if ops != [] {
      SpendAccumulates(s, ops[..|ops| - 1], key);
    }
  }

  /** How many notices of a key and threshold there are. */
  function Count(notices: seq<Notice>, key: Key, t: real): nat {
    if notices == [] then 0
    else
      var n := notices[|notices| - 1];
      Count(notices[..|notices| - 1], key, t) + (if n.key == key && n.threshold == t then 1 else 0)
  }

  lemma {:induction false} CountAppend(a: seq<Notice>, b: seq<Notice>, key: Key, t: real)
    ensures Count(a + b, key, t) == Count(a, key, t) + Count(b, key, t)
  {
    if b == [] {
      assert a + b == a;
    } else {
      assert (a + b)[..|a + b| - 1] == a + b[..|b| - 1];
      CountAppend(a, b[..|b| - 1], key, t);
    }
  }

  lemma {:induction false} CountOfOne(k: Key, b: Budget, price: real, n: nat, key: Key, t: real)
    requires n == 2 && t in THRESHOLDS
    ensures Count(NoticesOf(k, b, price, n), key, t) == if k == key && Crosses(b, price, t) then 1 else 0
  {
    var first := NoticesOf(k, b, price, 1);
    assert NoticesOf(k, b, price, 0) == [] && Count([], key, t) == 0;
    var cap := if b.capUsd.Some? then b.capUsd.value else 0.0;
    var x, y := Notice(k, 0.8, cap, b.spentUsd + price), Notice(k, 1.0, cap, b.spentUsd + price);
    assert first == if Crosses(b, price, 0.8) then [x] else [];
    assert [x][..0] == [] && [y][..0] == [] && [x, y][..1] == [x];
    assert NoticesOf(k, b, price, n) == first + if Crosses(b, price, 1.0) then [y] else [];
  }

  /** No cap of `key` is touched, and nobody is refunded. */
  predicate Steady(ops: seq<Op>, key: Key) {
    forall op <- ops ::
      (op.SetsCap? && op.key == key ==> op.usd == Keep) && (Charges(op, key) ==> op.spend.price >= 0.0)
  }

  predicate Reaches(from: real, to: real, boundary: real) {
    from < boundary <= to
  }

  /**
   Under an unchanged positive cap each threshold is announced at most once, and once exactly if spend has reached it.
   */
  lemma {:induction false} OncePerCrossing(s: State, ops: seq<Op>, key: Key, t: real)
    requires key in s.budgets && s.budgets[key].capUsd.Some? && s.budgets[key].capUsd.value > 0.0
    requires t in THRESHOLDS && Steady(ops, key)
    ensures key in After(s, ops).budgets && After(s, ops).budgets[key].capUsd == s.budgets[key].capUsd
    ensures s.budgets[key].spentUsd <= After(s, ops).budgets[key].spentUsd
    ensures Count(After(s, ops).notices, key, t) ==
            Count(s.notices, key, t) +
            (if Reaches(s.budgets[key].spentUsd, After(s, ops).budgets[key].spentUsd, s.budgets[key].capUsd.value * t) then 1 else 0)
  {
    if ops != [] {
      var init, op := ops[..|ops| - 1], ops[|ops| - 1];
      var m := After(s, init);
      OncePerCrossing(s, init, key, t);
      if op.Spends? && Charged(m, op.spend).Some? {
        var k := Charged(m, op.spend).value;
        var more := NoticesOf(k, m.budgets[k], op.spend.price, 2);
        CountAppend(m.notices, more, key, t);
        CountOfOne(k, m.budgets[k], op.spend.price, 2, key, t);
      }
    }
  }

  /** A spend is reported as over budget only if the run has announced that the cap was reached. */
  lemma {:induction false} OverIsAnnounced(s: State, ops: seq<Op>, x: Spend, key: Key)
    requires key in s.budgets && s.budgets[key].capUsd.Some? && s.budgets[key].capUsd.value > 0.0
    requires s.budgets[key].spentUsd < s.budgets[key].capUsd.value && Steady(ops + [Spends(x)], key)
    requires Charges(Spends(x), key)
    requires Over(After(s, ops), x)
    ensures Count(After(s, ops + [Spends(x)]).notices, key, 1.0) == Count(s.notices, key, 1.0) + 1
  {
    var all := ops + [Spends(x)];
    assert all[..|all| - 1] == ops;
    OncePerCrossing(s, ops, key, 1.0);
    OncePerCrossing(s, all, key, 1.0);
  }
}
