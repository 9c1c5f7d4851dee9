/** What the scheduler is told in runs in which a host may register for an arbitration again. */
module ClaimTold {
  import opened Basics
  import opened Claims
  import opened ClaimRuns

  /** The calls made about one registration. */
  function Told(calls: seq<Call>, c: Claim): seq<Call> {
    if calls == [] then []
    else
      var init, call := Told(calls[..|calls| - 1], c), calls[|calls| - 1];
      if !call.Released? && call.claim == c then init + [call] else init
  }

  /** The window of this registration is open. */
  predicate Waits(s: Host, c: Claim) {
    KeyOf(c) in s.pending && s.pending[KeyOf(c)] == c.claimId
  }

  // ---------- The invariant of all runs ----------

  ghost predicate UniqueIds(pool: set<Claim>) {
    forall c, d :: c in pool && d in pool && c.claimId == d.claimId ==> c == d
  }

  /** An open window is one of the host's registrations. */
  ghost predicate Windows(pool: set<Claim>, s: Host) {
    forall k :: k in s.pending ==>
      exists c :: c in pool && c.hostId == s.hostId && KeyOf(c) == k && c.claimId == s.pending[k]
  }

  ghost predicate CallsFit(pool: set<Claim>, s: Host) {
    forall call :: call in s.calls ==> call.Released? || call.claim in pool
  }

  ghost predicate Fits(pool: set<Claim>, s: Host) {
    TableInv(pool, s) && Windows(pool, s) && CallsFit(pool, s)
  }

  ghost predicate AllFit(sys: System) {
    && UniqueIds(sys.pool)
    && (forall c :: c in sys.pool ==> c.hostId in sys.hosts)
    && forall h :: h in sys.hosts ==> sys.hosts[h].hostId == h && Fits(sys.pool, sys.hosts[h])
  }

  lemma InsertRows(pool: set<Claim>, rows: seq<Row>, c: Claim)
    requires UniqueIds(pool) && ClaimsOf(rows) <= pool && DistinctIds(rows) && c in pool
    ensures ClaimsOf(Insert(rows, c)) == ClaimsOf(rows) + {c} && DistinctIds(Insert(rows, c))
  {
    if i :| 0 <= i < |rows| && rows[i].claim.claimId == c.claimId {
      assert rows[i].claim in ClaimsOf(rows);
    }
  }

  lemma HandleLeaves(s: Host, c: Claim)
    ensures var t := Handle(s, c); t.hostId == s.hostId && t.pending == s.pending && t.calls == s.calls
  {
  }

  /** Receiving a claim only adds it to the table. */
  lemma HandleRows(pool: set<Claim>, s: Host, c: Claim)
    requires UniqueIds(pool) && ClaimsOf(s.rows) <= pool && DistinctIds(s.rows) && c in pool
    ensures ClaimsOf(Handle(s, c).rows) == ClaimsOf(s.rows) + {c} && DistinctIds(Handle(s, c).rows)
  {
    InsertRows(pool, s.rows, c);
    var ours := FirstOf(Select(Insert(s.rows, c), KeyOf(c)), s.hostId);
    if ours.Some? {
      SetStatusRows(Insert(s.rows, c), ours.value.claim.claimId, SplitBrain);
    }
  }

  lemma HandleFits(pool: set<Claim>, s: Host, c: Claim)
    requires UniqueIds(pool) && Fits(pool, s) && c in pool
    ensures Fits(pool, Handle(s, c))
  {
    HandleLeaves(s, c);
    HandleRows(pool, s, c);
  }

  lemma {:induction false} FindIn(rows: seq<Row>, id: string)
    ensures Find(rows, id).Some? ==> Find(rows, id).value in rows && Find(rows, id).value.claim.claimId == id
    ensures Find(rows, id).None? ==> forall r :: r in rows ==> r.claim.claimId != id
  {
    if rows != [] && rows[0].claim.claimId != id {
      FindIn(rows[1..], id);
      assert rows == [rows[0]] + rows[1..];
    }
  }

  /** A closing window finds the row of the registration that opened it. */
  lemma WindowFindsClaim(pool: set<Claim>, s: Host, k: Key) returns (c: Claim)
    requires UniqueIds(pool) && Fits(pool, s) && k in s.pending
    ensures c in pool && c.hostId == s.hostId && KeyOf(c) == k && c.claimId == s.pending[k]
    ensures Select(s.rows, k) != [] && Find(Select(s.rows, k), s.pending[k]).Some?
    ensures Find(Select(s.rows, k), s.pending[k]).value.claim == c
  {
    c :| c in pool && c.hostId == s.hostId && KeyOf(c) == k && c.claimId == s.pending[k];
    var r :| r in s.rows && r.claim == c;
    var rows := Select(s.rows, k);
    SelectRows(s.rows, k);
    assert r in rows;
    FindIn(rows, c.claimId);
    var found := Find(rows, c.claimId).value;
    assert found.claim in ClaimsOf(s.rows);
  }

  lemma DecideIs(s: Host, k: Key, c: Claim) returns (win: bool)
    requires k in s.pending && c.claimId == s.pending[k] && Select(s.rows, k) != []
    requires Find(Select(s.rows, k), c.claimId).Some? && Find(Select(s.rows, k), c.claimId).value.claim == c
    ensures Decide(s, k) == if win then WonHost(s, k, c) else LostHost(s, k, c)
  {
    win := Lowest(Select(s.rows, k)).claim.claimId == s.pending[k];
  }

  /** A firing timer closes the window with one call, about the registration that opened it. */
  lemma DecideTells(pool: set<Claim>, s: Host, k: Key) returns (c: Claim, call: Call)
    requires UniqueIds(pool) && Fits(pool, s) && k in s.pending
    ensures c in pool && c.hostId == s.hostId && KeyOf(c) == k && Waits(s, c)
    ensures !call.Released? && call.claim == c
    ensures var t := Decide(s, k);
            && t.hostId == s.hostId && t.pending == s.pending - {k} && t.calls == s.calls + [call]
            && ClaimsOf(t.rows) == ClaimsOf(s.rows) && DistinctIds(t.rows)
  {
    c := WindowFindsClaim(pool, s, k);
    SetStatusRows(s.rows, c.claimId, Lost);
    SetStatusRows(s.rows, c.claimId, Won);
    LoseOthersRows(SetStatus(s.rows, c.claimId, Won), k, c.claimId);
    var win := DecideIs(s, k, c);
    call := if win then OnWin(k, c, s.rows) else OnLose(k, c, s.rows);
  }

  lemma DecideFits(pool: set<Claim>, s: Host, k: Key)
    requires UniqueIds(pool) && Fits(pool, s)
    ensures Fits(pool, Decide(s, k)) && Decide(s, k).hostId == s.hostId
  {
    if k in s.pending {
      var c, call := DecideTells(pool, s, k);
    }
  }

  lemma GrowFits(pool: set<Claim>, s: Host, c: Claim)
    requires Fits(pool, s)
    ensures c.hostId != s.hostId ==> Fits(pool + {c}, s)
    ensures Windows(pool + {c}, s) && CallsFit(pool + {c}, s)
  {
    forall k | k in s.pending
      ensures exists d :: d in pool + {c} && d.hostId == s.hostId && KeyOf(d) == k && d.claimId == s.pending[k]
    {
      var d :| d in pool && d.hostId == s.hostId && KeyOf(d) == k && d.claimId == s.pending[k];
      assert d in pool + {c};
    }
  }

  lemma WindowsOpened(pool: set<Claim>, s: Host, t: Host, c: Claim)
    requires Windows(pool, s) && c in pool && c.hostId == s.hostId == t.hostId
    requires t.pending == s.pending[KeyOf(c) := c.claimId]
    ensures Windows(pool, t)
  {
    forall k | k in t.pending
      ensures exists d :: d in pool && d.hostId == t.hostId && KeyOf(d) == k && d.claimId == t.pending[k]
    {
      if k != KeyOf(c) {
        var d :| d in pool && d.hostId == s.hostId && KeyOf(d) == k && d.claimId == s.pending[k];
      }
    }
  }

  /** A registration opens a window of its own, in place of one that was open for the same arbitration. */
  lemma RegisterFits(pool: set<Claim>, s: Host, c: Claim)
    requires UniqueIds(pool) && Fits(pool, s) && c.hostId == s.hostId
    requires forall d :: d in pool ==> d.claimId != c.claimId
    ensures UniqueIds(pool + {c}) && Fits(pool + {c}, Register(s, c))
    ensures var t := Register(s, c);
            t.hostId == s.hostId && t.pending == s.pending[KeyOf(c) := c.claimId] && t.calls == s.calls
  {
    var t := Register(s, c);
    HandleLeaves(s, c);
    HandleRows(pool + {c}, s, c);
    InsertRows(pool + {c}, Handle(s, c).rows, c);
    GrowFits(pool, s, c);
    WindowsOpened(pool + {c}, s, t, c);
  }

  lemma StepFits(sys: System, st: Step)
    requires AllFit(sys) && Enabled(sys, st)
    ensures AllFit(Do(sys, st))
  {
    var s := sys.hosts[st.host];
    match st
    case Registers(h, c) =>
      RegisterFits(sys.pool, s, c);
      forall g | g in sys.hosts && g != h ensures Fits(sys.pool + {c}, sys.hosts[g]) {
        GrowFits(sys.pool, sys.hosts[g], c);
      }
    case Delivers(h, c) =>
      HandleLeaves(s, c);
      HandleFits(sys.pool, s, c);
    case Fires(h, k) =>
      DecideFits(sys.pool, s, k);
  }

  lemma {:induction false} RunsFit(start: System, sts: seq<Step>)
    requires Initial(start)
    ensures AllFit(After(start, sts))
  {
    if sts != [] {
      var init, st := sts[..|sts| - 1], sts[|sts| - 1];
      RunsFit(start, init);
      if Enabled(After(start, init), st) {
        StepFits(After(start, init), st);
      }
    }
  }

  // ---------- Exactly when a registration is told ----------

  /** The step is another registration of the host for the arbitration of `c`, while the window of `c` is open. */
  ghost predicate Overwrites(sys: System, st: Step, c: Claim) {
    && st.Registers? && Enabled(sys, st) && st.host == c.hostId && KeyOf(st.claim) == KeyOf(c)
    && Waits(sys.hosts[st.host], c)
  }

  ghost predicate Closes(sys: System, st: Step, c: Claim) {
    st == Fires(c.hostId, KeyOf(c)) && Enabled(sys, st) && Waits(sys.hosts[st.host], c)
  }

  lemma ToldMore(calls: seq<Call>, call: Call, c: Claim)
    ensures Told(calls + [call], c) == Told(calls, c) + if !call.Released? && call.claim == c then [call] else []
  {
    assert (calls + [call])[..|calls|] == calls;
  }

  lemma DecideClosesOwn(pool: set<Claim>, s: Host, k: Key, d: Claim, c: Claim)
    requires UniqueIds(pool) && c in pool && d in pool && Waits(s, d) && KeyOf(d) == k
    ensures c == d <==> KeyOf(c) == k && Waits(s, c)
  {
  }

  lemma ToldByFire(pool: set<Claim>, s: Host, k: Key, c: Claim)
    requires UniqueIds(pool) && Fits(pool, s) && c in pool && c.hostId == s.hostId
    ensures var t, closes := Decide(s, k), k == KeyOf(c) && Waits(s, c);
            && (Waits(t, c) <==> Waits(s, c) && !closes)
            && |Told(t.calls, c)| == |Told(s.calls, c)| + if closes then 1 else 0
  {
    if k in s.pending {
      var d, call := DecideTells(pool, s, k);
      ToldMore(s.calls, call, c);
      DecideClosesOwn(pool, s, k, d, c);
    }
  }

  lemma ToldByRegister(pool: set<Claim>, s: Host, d: Claim, c: Claim)
    requires UniqueIds(pool) && Fits(pool, s) && c in pool && d.hostId == s.hostId
    requires forall e :: e in pool ==> e.claimId != d.claimId
    ensures var t := Register(s, d);
            t.calls == s.calls && (Waits(t, c) <==> Waits(s, c) && KeyOf(d) != KeyOf(c))
  {
    RegisterFits(pool, s, d);
  }

  /** What one step does to the window and the calls of a registration. */
  lemma ToldByStep(sys: System, st: Step, c: Claim)
    requires AllFit(sys) && Enabled(sys, st) && c in sys.pool
    ensures c.hostId in Do(sys, st).hosts
    ensures var s, t := sys.hosts[c.hostId], Do(sys, st).hosts[c.hostId];
            && (Waits(t, c) <==> Waits(s, c) && !Overwrites(sys, st, c) && !Closes(sys, st, c))
            && |Told(t.calls, c)| == |Told(s.calls, c)| + if Closes(sys, st, c) then 1 else 0
  {
    var s := sys.hosts[st.host];
    if st.host == c.hostId {
      match st
      case Registers(_, d) => ToldByRegister(sys.pool, s, d, c);
      case Delivers(_, d) => HandleLeaves(s, d);
      case Fires(_, k) => ToldByFire(sys.pool, s, k, c);
    }
  }

  /** The `n`-th step of the run overwrites, or closes, the window of `c`. */
  ghost predicate OverwrittenAt(start: System, sts: seq<Step>, n: nat, c: Claim) {
    n < |sts| && Overwrites(After(start, sts[..n]), sts[n], c)
  }

  /** The timer for the arbitration of `c` fires as the `n`-th step, later than the `i`-th. */
  predicate FiredAfter(sts: seq<Step>, i: nat, n: nat, c: Claim) {
    i < n < |sts| && sts[n] == Fires(c.hostId, KeyOf(c))
  }

  ghost predicate Overwritten(start: System, sts: seq<Step>, c: Claim) {
    exists j :: OverwrittenAt(start, sts, j, c)
  }

  ghost predicate Fired(sts: seq<Step>, i: nat, c: Claim) {
    exists n :: FiredAfter(sts, i, n, c)
  }

  lemma OverwrittenLonger(start: System, sts: seq<Step>, c: Claim)
    requires sts != []
    ensures var n := |sts| - 1;
            Overwritten(start, sts, c) <==>
            Overwritten(start, sts[..n], c) || Overwrites(After(start, sts[..n]), sts[n], c)
  {
    var n := |sts| - 1;
    forall j: nat | j < n ensures OverwrittenAt(start, sts, j, c) <==> OverwrittenAt(start, sts[..n], j, c) {
      assert sts[..n][..j] == sts[..j];
    }
    assert OverwrittenAt(start, sts, n, c) <==> Overwrites(After(start, sts[..n]), sts[n], c);
  }

  lemma FiredLonger(sts: seq<Step>, i: nat, c: Claim)
    requires i < |sts| - 1
    ensures Fired(sts, i, c) <==> Fired(sts[..|sts| - 1], i, c) || sts[|sts| - 1] == Fires(c.hostId, KeyOf(c))
  {
    var n := |sts| - 1;
    forall m: nat | m < n ensures FiredAfter(sts, i, m, c) <==> FiredAfter(sts[..n], i, m, c) {
    }
    assert FiredAfter(sts, i, n, c) <==> sts[n] == Fires(c.hostId, KeyOf(c));
  }

  /** A registration not yet made has no window and no calls. */
  lemma {:induction false} UntoldBefore(calls: seq<Call>, c: Claim)
    requires forall call :: call in calls ==> call.Released? || call.claim != c
    ensures Told(calls, c) == []
  {
    if calls != [] {
      assert calls[|calls| - 1] in calls;
      UntoldBefore(calls[..|calls| - 1], c);
    }
  }

  lemma UnregisteredDoesNotWait(pool: set<Claim>, s: Host, c: Claim)
    requires Fits(pool, s) && forall d :: d in pool ==> d.claimId != c.claimId
    ensures !Waits(s, c) && Told(s.calls, c) == []
  {
    UntoldBefore(s.calls, c);
  }

  lemma {:induction false} UnregisteredIsNotOverwritten(start: System, sts: seq<Step>, c: Claim)
    requires Initial(start) && forall d :: d in After(start, sts).pool ==> d.claimId != c.claimId
    ensures !Overwritten(start, sts, c)
  {
    if sts != [] {
      var n := |sts| - 1;
      var before := After(start, sts[..n]);
      assert before.pool <= After(start, sts).pool;
      UnregisteredIsNotOverwritten(start, sts[..n], c);
      OverwrittenLonger(start, sts, c);
      RunsFit(start, sts[..n]);
      if sts[n].host in before.hosts {
        UnregisteredDoesNotWait(before.pool, before.hosts[sts[n].host], c);
      }
    }
  }

  ghost predicate Registration(start: System, sts: seq<Step>, i: nat, c: Claim) {
    Initial(start) && i < |sts| && sts[i] == Registers(c.hostId, c) && Enabled(After(start, sts[..i]), sts[i])
  }

  /** How the window, the calls and the run go together, `over` being whether the window was overwritten. */
  ghost predicate Accounted(sys: System, c: Claim, over: bool, fired: bool) {
    && c in sys.pool && c.hostId in sys.hosts
    && var s := sys.hosts[c.hostId];
       && |Told(s.calls, c)| == (if Waits(s, c) || over then 0 else 1)
       && !(Waits(s, c) && (over || fired))
       && (!Waits(s, c) ==> over || fired)
  }

  lemma AccountedAtStart(start: System, sts: seq<Step>, i: nat, c: Claim)
    requires Registration(start, sts, i, c) && |sts| == i + 1
    ensures Accounted(After(start, sts), c, false, false) && !Overwritten(start, sts, c)
  {
    var before := After(start, sts[..i]);
    RunsFit(start, sts[..i]);
    RegisterFits(before.pool, before.hosts[c.hostId], c);
    UnregisteredDoesNotWait(before.pool, before.hosts[c.hostId], c);
    UnregisteredIsNotOverwritten(start, sts[..i], c);
    OverwrittenLonger(start, sts, c);
  }

  lemma AccountedByStep(sys: System, st: Step, c: Claim, over: bool, fired: bool)
    requires AllFit(sys) && Accounted(sys, c, over, fired)
    ensures Accounted(if Enabled(sys, st) then Do(sys, st) else sys, c,
                      over || Overwrites(sys, st, c), fired || st == Fires(c.hostId, KeyOf(c)))
  {
    if Enabled(sys, st) {
      ToldByStep(sys, st, c);
    }
  }

  lemma {:induction false} AlwaysAccounted(start: System, sts: seq<Step>, i: nat, c: Claim)
    requires Registration(start, sts, i, c)
    ensures Accounted(After(start, sts), c, Overwritten(start, sts, c), Fired(sts, i, c))
  {
    if |sts| == i + 1 {
      AccountedAtStart(start, sts, i, c);
      assert !Fired(sts, i, c);
    } else {
      var init, st := sts[..|sts| - 1], sts[|sts| - 1];
      assert init[..i] == sts[..i];
      AlwaysAccounted(start, init, i, c);
      RunsFit(start, init);
      OverwrittenLonger(start, sts, c);
      FiredLonger(sts, i, c);
      AccountedByStep(After(start, init), st, c, Overwritten(start, init, c), Fired(init, i, c));
    }
  }

  /**
   In every run, a registration whose timer has fired has been told its outcome exactly once if and only if the host
   did not register for the same arbitration again while the window was open; else it is never told.
   */
  lemma {:induction false} ToldOnceIff(start: System, sts: seq<Step>, i: nat, c: Claim)
    requires Registration(start, sts, i, c) && Fired(sts, i, c)
    ensures c.hostId in After(start, sts).hosts
    ensures |Told(After(start, sts).hosts[c.hostId].calls, c)| <= 1
    ensures |Told(After(start, sts).hosts[c.hostId].calls, c)| == 1 <==> !Overwritten(start, sts, c)
  {
    AlwaysAccounted(start, sts, i, c);
  }

  /** Before its timer has fired a registration is not told anything. */
  lemma {:induction false} NotToldBefore(start: System, sts: seq<Step>, i: nat, c: Claim)
    requires Registration(start, sts, i, c) && !Fired(sts, i, c)
    ensures c.hostId in After(start, sts).hosts
    ensures Told(After(start, sts).hosts[c.hostId].calls, c) == []
  {
    AlwaysAccounted(start, sts, i, c);
  }
}
