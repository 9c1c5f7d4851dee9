/**
 Runs of many arbiters over an unordered, duplicating, delaying network: who wins, who is flagged, and what the
 scheduler of each host is told.
 */
module ClaimRuns {
  import opened Basics
  import opened Order
  import opened Claims

  /** `pool` holds every claim published so far; any of them may reach any host at any time, any number of times. */
  datatype System = System(hosts: map<string, Host>, pool: set<Claim>)

  datatype Step =
    | Registers(host: string, claim: Claim)
    | Delivers(host: string, claim: Claim)
    | Fires(host: string, key: Key)

  /** Every registration mints a new claim id. */
  ghost predicate Enabled(sys: System, st: Step) {
    && st.host in sys.hosts
    && match st
       case Registers(h, c) => c.hostId == h && forall d :: d in sys.pool ==> d.claimId != c.claimId
       case Delivers(h, c) => c in sys.pool
       case Fires(h, k) => true
  }

  function Do(sys: System, st: Step): System
    requires st.host in sys.hosts
  {
    var s := sys.hosts[st.host];
    match st
    case Registers(h, c) => System(sys.hosts[h := Register(s, c)], sys.pool + {c})
    case Delivers(h, c) => sys.(hosts := sys.hosts[h := Handle(s, c)])
    case Fires(h, k) => sys.(hosts := sys.hosts[h := Decide(s, k)])
  }

  ghost predicate Initial(sys: System) {
    sys.pool == {} && forall h :: h in sys.hosts ==> sys.hosts[h] == Host(h, [], map[], {}, [], [])
  }

  /** What is not enabled does nothing. */
  ghost function After(start: System, sts: seq<Step>): System {
    if sts == [] then start
    else
      var before, st := After(start, sts[..|sts| - 1]), sts[|sts| - 1];
      if Enabled(before, st) then Do(before, st) else before
  }

  /** No host registers for an arbitration again. */
  ghost predicate Once(sys: System, st: Step) {
    st.Registers? ==> forall d :: d in sys.pool ==> !(d.hostId == st.host && KeyOf(d) == KeyOf(st.claim))
  }

  ghost predicate OnceRun(start: System, sts: seq<Step>) {
    && Initial(start)
    && forall n: nat :: n < |sts| ==> Once(After(start, sts[..n]), sts[n])
  }

  // ---------- The invariant ----------

  function ClaimsOf(rows: seq<Row>): set<Claim> {
    set r <- rows :: r.claim
  }

  /** Some other claim in `cs` on the same arbitration goes before `c`. */
  ghost predicate Beaten(cs: set<Claim>, c: Claim) {
    exists d :: d in cs && KeyOf(d) == KeyOf(c) && Lower(d, c)
  }

  function CallsFor(calls: seq<Call>, k: Key): seq<Call> {
    if calls == [] then []
    else if !calls[0].Released? && calls[0].key == k then [calls[0]] + CallsFor(calls[1..], k)
    else CallsFor(calls[1..], k)
  }

  /** The one call about an arbitration, told with the table as it was. */
  ghost predicate CalledOnce(calls: seq<Call>, c: Claim, win: bool) {
    var told := CallsFor(calls, KeyOf(c));
    && |told| == 1
    && !told[0].Released?
    && told[0].claim == c
    && (told[0].OnWin? <==> win)
    && c in ClaimsOf(told[0].seen)
    && (told[0].OnWin? <==> !Beaten(ClaimsOf(told[0].seen), c))
  }

  /** What the status of a host's own row says about its window, its store and its scheduler. */
  ghost predicate OwnRow(s: Host, r: Row) {
    var c, k := r.claim, KeyOf(r.claim);
    match r.status
    case Intent => k in s.pending && s.pending[k] == c.claimId && k !in s.won && CallsFor(s.calls, k) == []
    case Won => k !in s.pending && k in s.won && !Beaten(ClaimsOf(s.rows), c) && CalledOnce(s.calls, c, true)
    case SplitBrain => k !in s.pending && k in s.won && Beaten(ClaimsOf(s.rows), c) && CalledOnce(s.calls, c, true)
    case Lost => k !in s.pending && k !in s.won && Beaten(ClaimsOf(s.rows), c) && CalledOnce(s.calls, c, false)
  }

  predicate DistinctIds(rows: seq<Row>) {
    forall i, j :: 0 <= i < j < |rows| ==> rows[i].claim.claimId != rows[j].claim.claimId
  }

  ghost predicate PoolInv(pool: set<Claim>) {
    && (forall c, d :: c in pool && d in pool && c.claimId == d.claimId ==> c == d)
    && (forall c, d :: c in pool && d in pool && c.hostId == d.hostId && KeyOf(c) == KeyOf(d) ==> c == d)
  }

  ghost predicate Registered(pool: set<Claim>, h: string, k: Key) {
    exists c :: c in pool && c.hostId == h && KeyOf(c) == k
  }

  /** The table holds published claims only, each once, and all of the host's own. */
  ghost predicate TableInv(pool: set<Claim>, s: Host) {
    && ClaimsOf(s.rows) <= pool
    && DistinctIds(s.rows)
    && forall c :: c in pool && c.hostId == s.hostId ==> c in ClaimsOf(s.rows)
  }

  ghost predicate OwnRows(s: Host) {
    forall r :: r in s.rows && r.claim.hostId == s.hostId ==> OwnRow(s, r)
  }

  /** Only arbitrations that the host registered for leave a trace. */
  ghost predicate Traces(pool: set<Claim>, s: Host) {
    && (forall k :: k in s.pending ==> Registered(pool, s.hostId, k))
    && (forall k :: k in s.won ==> Registered(pool, s.hostId, k))
    && (forall k :: CallsFor(s.calls, k) != [] ==> Registered(pool, s.hostId, k))
  }

  /** The host's own claims whose rows are flagged. */
  function Splits(s: Host): set<Claim> {
    set r <- s.rows | r.claim.hostId == s.hostId && r.status == SplitBrain :: r.claim
  }

  function Locals(flags: seq<Flag>): set<Claim> {
    set f <- flags :: f.local
  }

  /** Each flagged row was announced once, with a claim from the table that goes before it. */
  ghost predicate FlagsFit(s: Host) {
    && Locals(s.flags) == Splits(s)
    && (forall i, j :: 0 <= i < j < |s.flags| ==> s.flags[i].local != s.flags[j].local)
    && forall f :: f in s.flags ==>
         f.late in ClaimsOf(s.rows) && KeyOf(f.late) == KeyOf(f.local) && Lower(f.late, f.local)
  }

  ghost predicate HostInv(pool: set<Claim>, s: Host) {
    TableInv(pool, s) && OwnRows(s) && Traces(pool, s) && FlagsFit(s)
  }

  ghost predicate Inv(sys: System) {
    && PoolInv(sys.pool)
    && (forall c :: c in sys.pool ==> c.hostId in sys.hosts)
    && forall h :: h in sys.hosts ==> sys.hosts[h].hostId == h && HostInv(sys.pool, sys.hosts[h])
  }

  // ---------- Table facts ----------

  lemma InsertClaims(pool: set<Claim>, rows: seq<Row>, c: Claim)
    requires PoolInv(pool) && ClaimsOf(rows) <= pool && DistinctIds(rows) && c in pool
    ensures ClaimsOf(Insert(rows, c)) == ClaimsOf(rows) + {c}
    ensures DistinctIds(Insert(rows, c))
    ensures forall r :: r in Insert(rows, c) <==> r in rows || (c !in ClaimsOf(rows) && r == Row(c, Intent))
    ensures c in ClaimsOf(rows) ==> Insert(rows, c) == rows
  {
    if i :| 0 <= i < |rows| && rows[i].claim.claimId == c.claimId {
      assert rows[i] in rows;
      assert rows[i].claim in ClaimsOf(rows);
      assert rows[i].claim == c;
    } else {
      assert c !in ClaimsOf(rows);
    }
  }

  lemma {:induction false} SelectRows(rows: seq<Row>, k: Key)
    ensures forall r :: r in Select(rows, k) <==> r in rows && KeyOf(r.claim) == k
  {
    if rows != [] {
      SelectRows(rows[1..], k);
      assert rows == [rows[0]] + rows[1..];
    }
  }

  lemma {:induction false} FirstOfRow(rows: seq<Row>, host: string, r: Row)
    requires r in rows && r.claim.hostId == host && forall q :: q in rows && q.claim.hostId == host ==> q == r
    ensures FirstOf(rows, host) == Some(r)
  {
    if rows[0] != r {
      assert rows == [rows[0]] + rows[1..];
      FirstOfRow(rows[1..], host, r);
    }
  }

  lemma {:induction false} FindRow(rows: seq<Row>, r: Row)
    requires r in rows && forall q :: q in rows && q.claim.claimId == r.claim.claimId ==> q == r
    ensures Find(rows, r.claim.claimId) == Some(r)
  {
    if rows[0] != r {
      assert rows == [rows[0]] + rows[1..];
      FindRow(rows[1..], r);
    }
  }

  lemma {:induction false} LowestIsLowest(rows: seq<Row>)
    requires rows != []
    ensures forall r :: r in rows ==> !Lower(r.claim, Lowest(rows).claim)
  {
    if |rows| == 1 {
      LowerIsStrict(rows[0].claim, rows[0].claim);
    } else {
      var init, last := rows[..|rows| - 1], rows[|rows| - 1];
      assert rows == init + [last];
      LowestIsLowest(init);
      var lo := Lowest(init);
      LowerIsStrict(last.claim, last.claim);
      forall r | r in rows ensures !Lower(r.claim, Lowest(rows).claim) {
        if Lower(last.claim, lo.claim) && r in init && Lower(r.claim, last.claim) {
          LowerTransitive(r.claim, last.claim, lo.claim);
        }
      }
    }
  }

  lemma SetStatusRows(rows: seq<Row>, id: string, st: Status)
    ensures ClaimsOf(SetStatus(rows, id, st)) == ClaimsOf(rows)
    ensures DistinctIds(rows) ==> DistinctIds(SetStatus(rows, id, st))
    ensures forall q :: q in SetStatus(rows, id, st) ==>
              exists r :: r in rows && q == if r.claim.claimId == id then r.(status := st) else r
  {
    var after := SetStatus(rows, id, st);
    forall q | q in after ensures exists r :: r in rows && q == if r.claim.claimId == id then r.(status := st) else r {
      var i :| 0 <= i < |after| && after[i] == q;
      assert rows[i] in rows;
    }
    forall c | c in ClaimsOf(rows) ensures c in ClaimsOf(after) {
      var r :| r in rows && r.claim == c;
      var i :| 0 <= i < |rows| && rows[i] == r;
      assert after[i] in after;
    }
  }

  lemma LoseOthersRows(rows: seq<Row>, k: Key, id: string)
    ensures ClaimsOf(LoseOthers(rows, k, id)) == ClaimsOf(rows)
    ensures DistinctIds(rows) ==> DistinctIds(LoseOthers(rows, k, id))
    ensures forall q :: q in LoseOthers(rows, k, id) ==>
              exists r :: r in rows && q == if KeyOf(r.claim) == k && r.claim.claimId != id then r.(status := Lost) else r
  {
    var after := LoseOthers(rows, k, id);
    forall q | q in after
      ensures exists r :: r in rows && q == if KeyOf(r.claim) == k && r.claim.claimId != id then r.(status := Lost) else r
    {
      var i :| 0 <= i < |after| && after[i] == q;
      assert rows[i] in rows;
    }
    forall c | c in ClaimsOf(rows) ensures c in ClaimsOf(after) {
      var r :| r in rows && r.claim == c;
      var i :| 0 <= i < |rows| && rows[i] == r;
      assert after[i] in after;
    }
  }

  lemma SetStatusHas(rows: seq<Row>, id: string, st: Status, r: Row)
    requires r in rows
    ensures (if r.claim.claimId == id then r.(status := st) else r) in SetStatus(rows, id, st)
  {
    var i :| 0 <= i < |rows| && rows[i] == r;
    assert SetStatus(rows, id, st)[i] in SetStatus(rows, id, st);
  }

  lemma LoseOthersHas(rows: seq<Row>, k: Key, id: string, r: Row)
    requires r in rows && (KeyOf(r.claim) != k || r.claim.claimId == id)
    ensures r in LoseOthers(rows, k, id)
  {
    var i :| 0 <= i < |rows| && rows[i] == r;
    assert LoseOthers(rows, k, id)[i] in LoseOthers(rows, k, id);
  }

  lemma FlagsKept(s: Host, t: Host)
    requires FlagsFit(s) && t.flags == s.flags && Splits(t) == Splits(s) && ClaimsOf(s.rows) <= ClaimsOf(t.rows)
    ensures FlagsFit(t)
  {
  }

  lemma FlagAdded(s: Host, t: Host, own: Claim, c: Claim)
    requires FlagsFit(s) && t.flags == s.flags + [Flag(own, c)] && own !in Splits(s) && Splits(t) == Splits(s) + {own}
    requires ClaimsOf(s.rows) <= ClaimsOf(t.rows) && c in ClaimsOf(t.rows) && KeyOf(c) == KeyOf(own) && Lower(c, own)
    ensures FlagsFit(t)
  {
    assert Locals(t.flags) == Locals(s.flags) + {own};
    forall i | 0 <= i < |s.flags| ensures s.flags[i].local != own {
      assert s.flags[i] in s.flags && s.flags[i].local in Locals(s.flags);
    }
  }

  lemma {:induction false} CallsForSnoc(calls: seq<Call>, call: Call, k: Key)
    ensures CallsFor(calls + [call], k) ==
            if !call.Released? && call.key == k then CallsFor(calls, k) + [call] else CallsFor(calls, k)
  {
    if calls == [] {
      assert calls + [call] == [call] && [call][1..] == [];
    } else {
      assert (calls + [call])[1..] == calls[1..] + [call];
      CallsForSnoc(calls[1..], call, k);
    }
  }

  // ---------- Preservation, one step at a time ----------

  /** The pool may grow by other hosts' claims without disturbing a host. */
  lemma GrowPool(pool: set<Claim>, s: Host, c: Claim)
    requires HostInv(pool, s) && c.hostId != s.hostId
    ensures HostInv(pool + {c}, s)
  {
    GrowTraces(pool, s, c);
  }

  lemma GrowTraces(pool: set<Claim>, s: Host, c: Claim)
    requires Traces(pool, s)
    ensures Traces(pool + {c}, s)
  {
    forall k | Registered(pool, s.hostId, k) ensures Registered(pool + {c}, s.hostId, k) {
      var d :| d in pool && d.hostId == s.hostId && KeyOf(d) == k;
      assert d in pool + {c};
    }
  }

  lemma OwnRowOf(pool: set<Claim>, s: Host, k: Key) returns (own: Row)
    requires PoolInv(pool) && HostInv(pool, s) && Registered(pool, s.hostId, k)
    ensures own in s.rows && own.claim.hostId == s.hostId && KeyOf(own.claim) == k && OwnRow(s, own)
  {
    var c :| c in pool && c.hostId == s.hostId && KeyOf(c) == k;
    own :| own in s.rows && own.claim == c;
  }

  /** The row that the handler compares with is the host's only one. */
  lemma HandlerFinds(pool: set<Claim>, s: Host, c: Claim) returns (own: Row)
    requires PoolInv(pool) && HostInv(pool, s) && c in pool && KeyOf(c) in s.won
    ensures own in s.rows && own.claim.hostId == s.hostId && KeyOf(own.claim) == KeyOf(c) && OwnRow(s, own)
    ensures FirstOf(Select(Insert(s.rows, c), KeyOf(c)), s.hostId) == Some(own)
  {
    own := OwnRowOf(pool, s, KeyOf(c));
    var rows := Insert(s.rows, c);
    InsertClaims(pool, s.rows, c);
    SelectRows(rows, KeyOf(c));
    FirstOfRow(Select(rows, KeyOf(c)), s.hostId, own);
  }

  function Flagged(s: Host, own: Claim, c: Claim): Host {
    s.(rows := SetStatus(Insert(s.rows, c), own.claimId, SplitBrain), flags := s.flags + [Flag(own, c)])
  }

  /** Receiving a claim of the pool: it is stored, and if it undercuts a win, that row is flagged. */
  lemma HandleKeeps(pool: set<Claim>, s: Host, c: Claim)
    requires PoolInv(pool) && HostInv(pool, s) && c in pool
    ensures HostInv(pool, Handle(s, c)) && Handle(s, c).hostId == s.hostId
    ensures ClaimsOf(Handle(s, c).rows) == ClaimsOf(s.rows) + {c}
  {
    InsertClaims(pool, s.rows, c);
    if KeyOf(c) in s.won {
      var own := HandlerFinds(pool, s, c);
      if own.claim.claimId == c.claimId || own.status == SplitBrain || !Lower(c, own.claim) {
        LowerIsStrict(own.claim, own.claim);
        UnflaggedKeeps(pool, s, c);
        assert Handle(s, c) == s.(rows := Insert(s.rows, c));
      } else {
        FlagKeeps(pool, s, c, own);
        assert Handle(s, c) == Flagged(s, own.claim, c);
      }
    } else {
      UnflaggedKeeps(pool, s, c);
      assert Handle(s, c) == s.(rows := Insert(s.rows, c));
    }
  }

  lemma BeatenGrows(cs: set<Claim>, ds: set<Claim>, c: Claim)
    requires Beaten(cs, c) && cs <= ds
    ensures Beaten(ds, c)
  {
    var d :| d in cs && KeyOf(d) == KeyOf(c) && Lower(d, c);
    assert d in ds;
  }

  /** A claim that does not undercut a win only adds a row. */
  lemma UnflaggedKeeps(pool: set<Claim>, s: Host, c: Claim)
    requires PoolInv(pool) && HostInv(pool, s) && c in pool
    requires forall r :: r in s.rows && r.claim.hostId == s.hostId && KeyOf(r.claim) == KeyOf(c) && r.status == Won ==>
               r.claim == c || !Lower(c, r.claim)
    ensures HostInv(pool, s.(rows := Insert(s.rows, c)))
  {
    var t := s.(rows := Insert(s.rows, c));
    InsertClaims(pool, s.rows, c);
    forall r | r in t.rows && r.claim.hostId == t.hostId ensures OwnRow(t, r) {
      assert r in s.rows;
      assert OwnRow(s, r);
      if Beaten(ClaimsOf(s.rows), r.claim) {
        BeatenGrows(ClaimsOf(s.rows), ClaimsOf(t.rows), r.claim);
      } else {
        LowerIsStrict(r.claim, r.claim);
      }
    }
    assert Splits(t) == Splits(s);
    FlagsKept(s, t);
  }

  /** Setting the status of one own row, and of rows of others, changes which claims are flagged by that one. */
  lemma SplitsSet(s: Host, t: Host, own: Row, status: Status)
    requires own in s.rows && own.claim.hostId == s.hostId == t.hostId && own.status != SplitBrain
    requires forall q :: q in t.rows && q.claim.hostId == t.hostId ==>
               if q.claim == own.claim then q.status == status else q in s.rows
    requires forall r :: r in s.rows && r.claim.hostId == s.hostId && r.claim == own.claim ==> r == own
    requires forall r :: r in s.rows && r.claim.hostId == s.hostId && r != own ==> r in t.rows
    requires own.(status := status) in t.rows
    ensures own.claim !in Splits(s)
    ensures Splits(t) == Splits(s) + if status == SplitBrain then {own.claim} else {}
  {
    forall c ensures c in Splits(t) <==> c in Splits(s) || (status == SplitBrain && c == own.claim) {
      if c in Splits(s) {
        var r :| r in s.rows && r.claim.hostId == s.hostId && r.status == SplitBrain && r.claim == c;
        assert r in t.rows;
      }
    }
  }

  lemma FlagOwnRows(pool: set<Claim>, s: Host, c: Claim, own: Row)
    requires PoolInv(pool) && TableInv(pool, s) && OwnRows(s) && c in pool
    requires own in s.rows && own.claim.hostId == s.hostId && KeyOf(own.claim) == KeyOf(c) && KeyOf(c) in s.won
    requires Lower(c, own.claim)
    requires ClaimsOf(Flagged(s, own.claim, c).rows) == ClaimsOf(s.rows) + {c}
    ensures OwnRows(Flagged(s, own.claim, c))
  {
    var rows := Insert(s.rows, c);
    var t := Flagged(s, own.claim, c);
    InsertClaims(pool, s.rows, c);
    SetStatusRows(rows, own.claim.claimId, SplitBrain);
    forall q | q in t.rows && q.claim.hostId == t.hostId ensures OwnRow(t, q) {
      var r :| r in rows && q == if r.claim.claimId == own.claim.claimId then r.(status := SplitBrain) else r;
      assert r in s.rows && r.claim in ClaimsOf(s.rows) && own.claim in ClaimsOf(s.rows);
      assert OwnRow(s, r) && OwnRow(s, own);
      FlagKeepsRow(s, t, c, own, r, q);
    }
  }

  lemma FlaggedSplits(pool: set<Claim>, s: Host, c: Claim, own: Row)
    requires PoolInv(pool) && TableInv(pool, s) && c in pool
    requires own in s.rows && own.claim.hostId == s.hostId && own.status != SplitBrain
    ensures own.claim !in Splits(s) && Splits(Flagged(s, own.claim, c)) == Splits(s) + {own.claim}
  {
    var rows, t := Insert(s.rows, c), Flagged(s, own.claim, c);
    InsertClaims(pool, s.rows, c);
    SetStatusRows(rows, own.claim.claimId, SplitBrain);
    forall r | r in s.rows && r.claim.hostId == s.hostId && r != own ensures r in t.rows {
      SetStatusHas(rows, own.claim.claimId, SplitBrain, r);
    }
    SetStatusHas(rows, own.claim.claimId, SplitBrain, own);
    SplitsSet(s, t, own, SplitBrain);
  }

  /** A claim that undercuts a win flags exactly that row. */
  lemma FlagKeeps(pool: set<Claim>, s: Host, c: Claim, own: Row)
    requires PoolInv(pool) && HostInv(pool, s) && c in pool
    requires own in s.rows && own.claim.hostId == s.hostId && KeyOf(own.claim) == KeyOf(c) && KeyOf(c) in s.won
    requires Lower(c, own.claim) && own.status != SplitBrain
    ensures HostInv(pool, Flagged(s, own.claim, c))
    ensures ClaimsOf(Flagged(s, own.claim, c).rows) == ClaimsOf(s.rows) + {c}
  {
    InsertClaims(pool, s.rows, c);
    SetStatusRows(Insert(s.rows, c), own.claim.claimId, SplitBrain);
    FlagOwnRows(pool, s, c, own);
    FlaggedSplits(pool, s, c, own);
    FlagAdded(s, Flagged(s, own.claim, c), own.claim, c);
  }

  lemma FlagKeepsRow(s: Host, t: Host, c: Claim, own: Row, r: Row, q: Row)
    requires OwnRow(s, r) && OwnRow(s, own) && KeyOf(own.claim) == KeyOf(c) && KeyOf(c) in s.won && Lower(c, own.claim)
    requires t.pending == s.pending && t.won == s.won && t.calls == s.calls
    requires ClaimsOf(t.rows) == ClaimsOf(s.rows) + {c}
    requires (r == own && q == own.(status := SplitBrain)) || (KeyOf(r.claim) != KeyOf(c) && q == r)
    ensures OwnRow(t, q)
  {
    if r == own {
      assert c in ClaimsOf(t.rows);
    } else if Beaten(ClaimsOf(s.rows), r.claim) {
      BeatenGrows(ClaimsOf(s.rows), ClaimsOf(t.rows), r.claim);
    }
  }

  /** Registering: the own handler runs first, then the window is armed. */
  lemma RegisterIs(pool: set<Claim>, s: Host, c: Claim)
    requires PoolInv(pool) && HostInv(pool, s) && c.hostId == s.hostId
    requires forall d :: d in pool ==> d.claimId != c.claimId && !(d.hostId == c.hostId && KeyOf(d) == KeyOf(c))
    ensures KeyOf(c) !in s.won && KeyOf(c) !in s.pending && CallsFor(s.calls, KeyOf(c)) == [] && c !in ClaimsOf(s.rows)
    ensures !Contains(s.rows, c.claimId)
    ensures Register(s, c) == s.(rows := s.rows + [Row(c, Intent)], pending := s.pending[KeyOf(c) := c.claimId])
    ensures ClaimsOf(Register(s, c).rows) == ClaimsOf(s.rows) + {c}
  {
    assert !Registered(pool, s.hostId, KeyOf(c));
    forall i | 0 <= i < |s.rows| ensures s.rows[i].claim.claimId != c.claimId {
      assert s.rows[i].claim in ClaimsOf(s.rows);
    }
    var rows := s.rows + [Row(c, Intent)];
    assert rows[|s.rows|].claim == c;
    assert forall d :: d in ClaimsOf(rows) <==> d in ClaimsOf(s.rows) || d == c by {
      assert forall r :: r in rows <==> r in s.rows || r == Row(c, Intent);
    }
  }

  lemma RegisterOwnRows(pool: set<Claim>, s: Host, t: Host, c: Claim)
    requires OwnRows(s) && c.hostId == s.hostId
    requires t == s.(rows := s.rows + [Row(c, Intent)], pending := s.pending[KeyOf(c) := c.claimId])
    requires KeyOf(c) !in s.won && CallsFor(s.calls, KeyOf(c)) == []
    requires forall r :: r in s.rows && r.claim.hostId == s.hostId ==> KeyOf(r.claim) != KeyOf(c)
    requires ClaimsOf(t.rows) == ClaimsOf(s.rows) + {c}
    ensures OwnRows(t)
  {
    forall r | r in t.rows && r.claim.hostId == t.hostId ensures OwnRow(t, r) {
      if r in s.rows {
        assert OwnRow(s, r);
        if Beaten(ClaimsOf(s.rows), r.claim) {
          BeatenGrows(ClaimsOf(s.rows), ClaimsOf(t.rows), r.claim);
        }
      }
    }
  }

  lemma RegisterTable(pool: set<Claim>, s: Host, t: Host, c: Claim)
    requires TableInv(pool, s) && FlagsFit(s) && c.hostId == s.hostId && forall d :: d in pool ==> d.claimId != c.claimId
    requires t.hostId == s.hostId && t.flags == s.flags && t.rows == s.rows + [Row(c, Intent)]
    requires ClaimsOf(t.rows) == ClaimsOf(s.rows) + {c}
    ensures TableInv(pool + {c}, t) && FlagsFit(t)
  {
    forall i | 0 <= i < |s.rows| ensures s.rows[i].claim.claimId != c.claimId {
      assert s.rows[i].claim in ClaimsOf(s.rows);
    }
    assert Splits(t) == Splits(s);
    FlagsKept(s, t);
  }

  lemma RegisterPool(pool: set<Claim>, c: Claim)
    requires PoolInv(pool)
    requires forall d :: d in pool ==> d.claimId != c.claimId && !(d.hostId == c.hostId && KeyOf(d) == KeyOf(c))
    ensures PoolInv(pool + {c})
  {
  }

  lemma RegisterTraces(pool: set<Claim>, s: Host, t: Host, c: Claim)
    requires Traces(pool, s) && c.hostId == s.hostId == t.hostId && t.won == s.won && t.calls == s.calls
    requires t.pending == s.pending[KeyOf(c) := c.claimId]
    ensures Traces(pool + {c}, t)
  {
    GrowTraces(pool, s, c);
    assert c in pool + {c};
    assert Registered(pool + {c}, s.hostId, KeyOf(c));
  }

  lemma RegisterKeeps(pool: set<Claim>, s: Host, c: Claim)
    requires PoolInv(pool) && HostInv(pool, s) && c.hostId == s.hostId
    requires forall d :: d in pool ==> d.claimId != c.claimId && !(d.hostId == c.hostId && KeyOf(d) == KeyOf(c))
    ensures PoolInv(pool + {c}) && HostInv(pool + {c}, Register(s, c)) && Register(s, c).hostId == s.hostId
  {
    var t := Register(s, c);
    RegisterIs(pool, s, c);
    forall r | r in s.rows && r.claim.hostId == s.hostId ensures KeyOf(r.claim) != KeyOf(c) {
      assert r.claim in ClaimsOf(s.rows);
    }
    RegisterOwnRows(pool, s, t, c);
    RegisterTable(pool, s, t, c);
    RegisterPool(pool, c);
    RegisterTraces(pool, s, t, c);
  }

  /** What a closing window finds: the host's own row, and whether anything in the table goes before it. */
  lemma WindowFinds(pool: set<Claim>, s: Host, k: Key) returns (own: Row)
    requires PoolInv(pool) && HostInv(pool, s) && k in s.pending
    ensures own in s.rows && own.claim.hostId == s.hostId && KeyOf(own.claim) == k && own.status == Intent
    ensures OwnRow(s, own)
    ensures own.claim.claimId == s.pending[k]
    ensures Select(s.rows, k) != [] && Find(Select(s.rows, k), s.pending[k]) == Some(own)
    ensures Lowest(Select(s.rows, k)).claim.claimId == s.pending[k] <==> !Beaten(ClaimsOf(s.rows), own.claim)
  {
    own := OwnRowOf(pool, s, k);
    SelectRows(s.rows, k);
    var rows := Select(s.rows, k);
    assert own in rows;
    FindRow(rows, own);
    LowestIsLowest(rows);
    var lo := Lowest(rows);
    assert lo in s.rows;
    assert lo.claim in ClaimsOf(s.rows);
    if lo.claim.claimId == own.claim.claimId {
      forall d | d in ClaimsOf(s.rows) && KeyOf(d) == k ensures !Lower(d, own.claim) {
        var r :| r in s.rows && r.claim == d;
        assert r in rows;
      }
    } else {
      LowerIsStrict(lo.claim, own.claim);
      assert Lower(lo.claim, own.claim);
    }
  }

  function LostHost(s: Host, k: Key, own: Claim): Host {
    s.(pending := s.pending - {k}, rows := SetStatus(s.rows, own.claimId, Lost), calls := s.calls + [OnLose(k, own, s.rows)])
  }

  function WonHost(s: Host, k: Key, own: Claim): Host {
    s.(pending := s.pending - {k},
       rows := LoseOthers(SetStatus(s.rows, own.claimId, Won), k, own.claimId),
       won := s.won + {k},
       calls := s.calls + [OnWin(k, own, s.rows)])
  }

  /** The other own rows of a host do not notice that one window closed. */
  lemma OtherRowKept(s: Host, t: Host, r: Row, call: Call)
    requires OwnRow(s, r) && !call.Released? && KeyOf(r.claim) != call.key
    requires ClaimsOf(t.rows) == ClaimsOf(s.rows) && t.calls == s.calls + [call]
    requires KeyOf(r.claim) in t.pending <==> KeyOf(r.claim) in s.pending
    requires KeyOf(r.claim) in s.pending ==> t.pending[KeyOf(r.claim)] == s.pending[KeyOf(r.claim)]
    requires KeyOf(r.claim) in t.won <==> KeyOf(r.claim) in s.won
    ensures OwnRow(t, r)
  {
    CallsForSnoc(s.calls, call, KeyOf(r.claim));
  }

  /** The decided row itself. */
  lemma DecidedRow(s: Host, t: Host, own: Row, call: Call, status: Status)
    requires own in s.rows && OwnRow(s, own) && own.status == Intent && !call.Released?
    requires call.key == KeyOf(own.claim) && call.claim == own.claim && call.seen == s.rows
    requires call.OnWin? <==> !Beaten(ClaimsOf(s.rows), own.claim)
    requires status == if call.OnWin? then Won else Lost
    requires ClaimsOf(t.rows) == ClaimsOf(s.rows) && t.calls == s.calls + [call]
    requires call.key !in t.pending && (call.key in t.won <==> call.OnWin?)
    ensures OwnRow(t, own.(status := status))
  {
    CallsForSnoc(s.calls, call, call.key);
    assert CallsFor(t.calls, call.key) == [call];
  }

  lemma DecidedTraces(pool: set<Claim>, s: Host, t: Host, call: Call)
    requires Traces(pool, s) && !call.Released? && Registered(pool, s.hostId, call.key)
    requires t.hostId == s.hostId && t.calls == s.calls + [call]
    requires t.won <= s.won + {call.key} && t.pending.Keys <= s.pending.Keys
    ensures Traces(pool, t)
  {
    forall k | CallsFor(t.calls, k) != [] ensures Registered(pool, s.hostId, k) {
      CallsForSnoc(s.calls, call, k);
    }
  }

  lemma LoseOwnRows(pool: set<Claim>, s: Host, k: Key, own: Row)
    requires PoolInv(pool) && TableInv(pool, s) && OwnRows(s) && k in s.pending
    requires own in s.rows && own.claim.hostId == s.hostId && KeyOf(own.claim) == k && own.status == Intent
    requires Beaten(ClaimsOf(s.rows), own.claim)
    requires ClaimsOf(LostHost(s, k, own.claim).rows) == ClaimsOf(s.rows)
    ensures OwnRows(LostHost(s, k, own.claim))
  {
    var t := LostHost(s, k, own.claim);
    var call := OnLose(k, own.claim, s.rows);
    SetStatusRows(s.rows, own.claim.claimId, Lost);
    forall q | q in t.rows && q.claim.hostId == t.hostId ensures OwnRow(t, q) {
      var r :| r in s.rows && q == if r.claim.claimId == own.claim.claimId then r.(status := Lost) else r;
      assert OwnRow(s, r);
      if r == own {
        DecidedRow(s, t, own, call, Lost);
      } else {
        OtherRowKept(s, t, r, call);
      }
    }
  }

  lemma LostSplits(pool: set<Claim>, s: Host, k: Key, own: Row)
    requires PoolInv(pool) && TableInv(pool, s)
    requires own in s.rows && own.claim.hostId == s.hostId && own.status == Intent
    ensures Splits(LostHost(s, k, own.claim)) == Splits(s)
  {
    var t, id := LostHost(s, k, own.claim), own.claim.claimId;
    SetStatusRows(s.rows, id, Lost);
    forall r | r in s.rows && r.claim.hostId == s.hostId && r != own ensures r in t.rows {
      SetStatusHas(s.rows, id, Lost, r);
    }
    SetStatusHas(s.rows, id, Lost, own);
    SplitsSet(s, t, own, Lost);
  }

  lemma LoseKeeps(pool: set<Claim>, s: Host, k: Key, own: Row)
    requires PoolInv(pool) && HostInv(pool, s) && k in s.pending
    requires own in s.rows && own.claim.hostId == s.hostId && KeyOf(own.claim) == k && own.status == Intent
    requires Beaten(ClaimsOf(s.rows), own.claim)
    ensures HostInv(pool, LostHost(s, k, own.claim)) && ClaimsOf(LostHost(s, k, own.claim).rows) == ClaimsOf(s.rows)
  {
    SetStatusRows(s.rows, own.claim.claimId, Lost);
    LoseOwnRows(pool, s, k, own);
    LostSplits(pool, s, k, own);
    FlagsKept(s, LostHost(s, k, own.claim));
    DecidedTraces(pool, s, LostHost(s, k, own.claim), OnLose(k, own.claim, s.rows));
  }

  /** Which row each row of the winner's new table was. */
  lemma WonRows(rows: seq<Row>, k: Key, id: string, q: Row) returns (r: Row)
    requires q in LoseOthers(SetStatus(rows, id, Won), k, id)
    ensures r in rows && q.claim == r.claim
    ensures r.claim.claimId == id ==> q == r.(status := Won)
    ensures r.claim.claimId != id && KeyOf(r.claim) != k ==> q == r
  {
    var mid := SetStatus(rows, id, Won);
    SetStatusRows(rows, id, Won);
    LoseOthersRows(mid, k, id);
    var p :| p in mid && q == if KeyOf(p.claim) == k && p.claim.claimId != id then p.(status := Lost) else p;
    r :| r in rows && p == if r.claim.claimId == id then r.(status := Won) else r;
  }

  lemma WinOwnRows(pool: set<Claim>, s: Host, k: Key, own: Row)
    requires PoolInv(pool) && TableInv(pool, s) && OwnRows(s) && k in s.pending
    requires own in s.rows && own.claim.hostId == s.hostId && KeyOf(own.claim) == k && own.status == Intent
    requires !Beaten(ClaimsOf(s.rows), own.claim)
    requires ClaimsOf(WonHost(s, k, own.claim).rows) == ClaimsOf(s.rows)
    ensures OwnRows(WonHost(s, k, own.claim))
  {
    var t := WonHost(s, k, own.claim);
    var call := OnWin(k, own.claim, s.rows);
    forall q | q in t.rows && q.claim.hostId == t.hostId ensures OwnRow(t, q) {
      var r := WonRows(s.rows, k, own.claim.claimId, q);
      assert OwnRow(s, r);
      if r == own {
        DecidedRow(s, t, own, call, Won);
      } else {
        OtherRowKept(s, t, r, call);
      }
    }
  }

  lemma WonSplits(pool: set<Claim>, s: Host, k: Key, own: Row)
    requires PoolInv(pool) && TableInv(pool, s)
    requires own in s.rows && own.claim.hostId == s.hostId && KeyOf(own.claim) == k && own.status == Intent
    ensures Splits(WonHost(s, k, own.claim)) == Splits(s)
  {
    var t, id := WonHost(s, k, own.claim), own.claim.claimId;
    var mid := SetStatus(s.rows, id, Won);
    forall r | r in s.rows && r.claim.hostId == s.hostId && r != own ensures r in t.rows {
      assert r.claim in ClaimsOf(s.rows) && own.claim in ClaimsOf(s.rows);
      SetStatusHas(s.rows, id, Won, r);
      LoseOthersHas(mid, k, id, r);
    }
    SetStatusHas(s.rows, id, Won, own);
    LoseOthersHas(mid, k, id, own.(status := Won));
    forall q | q in t.rows && q.claim.hostId == t.hostId
      ensures if q.claim == own.claim then q.status == Won else q in s.rows
    {
      var r := WonRows(s.rows, k, id, q);
      assert r.claim in ClaimsOf(s.rows) && own.claim in ClaimsOf(s.rows);
    }
    SplitsSet(s, t, own, Won);
  }

  lemma WinKeeps(pool: set<Claim>, s: Host, k: Key, own: Row)
    requires PoolInv(pool) && HostInv(pool, s) && k in s.pending
    requires own in s.rows && own.claim.hostId == s.hostId && KeyOf(own.claim) == k && own.status == Intent
    requires !Beaten(ClaimsOf(s.rows), own.claim)
    ensures HostInv(pool, WonHost(s, k, own.claim)) && ClaimsOf(WonHost(s, k, own.claim).rows) == ClaimsOf(s.rows)
  {
    var t := WonHost(s, k, own.claim);
    SetStatusRows(s.rows, own.claim.claimId, Won);
    LoseOthersRows(SetStatus(s.rows, own.claim.claimId, Won), k, own.claim.claimId);
    WinOwnRows(pool, s, k, own);
    WonSplits(pool, s, k, own);
    FlagsKept(s, t);
    DecidedTraces(pool, s, t, OnWin(k, own.claim, s.rows));
  }

  lemma DecideKeeps(pool: set<Claim>, s: Host, k: Key)
    requires PoolInv(pool) && HostInv(pool, s)
    ensures HostInv(pool, Decide(s, k)) && Decide(s, k).hostId == s.hostId
    ensures ClaimsOf(Decide(s, k).rows) == ClaimsOf(s.rows)
  {
    if k in s.pending {
      var own := WindowFinds(pool, s, k);
      if Beaten(ClaimsOf(s.rows), own.claim) {
        LoseKeeps(pool, s, k, own);
        assert Decide(s, k) == LostHost(s, k, own.claim);
      } else {
        WinKeeps(pool, s, k, own);
        assert Decide(s, k) == WonHost(s, k, own.claim);
      }
    }
  }

  lemma RegistersKeeps(sys: System, h: string, c: Claim)
    requires Inv(sys) && Enabled(sys, Registers(h, c)) && Once(sys, Registers(h, c))
    ensures Inv(Do(sys, Registers(h, c)))
  {
    RegisterKeeps(sys.pool, sys.hosts[h], c);
    forall g | g in sys.hosts && g != h ensures HostInv(sys.pool + {c}, sys.hosts[g]) {
      GrowPool(sys.pool, sys.hosts[g], c);
    }
  }

  lemma StepKeeps(sys: System, st: Step)
    requires Inv(sys) && Enabled(sys, st) && Once(sys, st)
    ensures Inv(Do(sys, st))
  {
    var s := sys.hosts[st.host];
    match st
    case Registers(h, c) =>
      RegistersKeeps(sys, h, c);
    case Delivers(h, c) =>
      HandleKeeps(sys.pool, s, c);
    case Fires(h, k) =>
      DecideKeeps(sys.pool, s, k);
  }

  /** Every system that such a run reaches satisfies the invariant. */
  lemma {:induction false} RunsKeepInv(start: System, sts: seq<Step>)
    requires OnceRun(start, sts)
    ensures Inv(After(start, sts))
  {
    if sts != [] {
      var n := |sts| - 1;
      var init := sts[..n];
      forall m: nat | m < n ensures Once(After(start, init[..m]), init[m]) {
        assert init[..m] == sts[..m];
      }
      RunsKeepInv(start, init);
      if Enabled(After(start, init), sts[n]) {
        StepKeeps(After(start, init), sts[n]);
      }
    }
  }

  // ---------- Results ----------

  /** `c` is the claim that goes before all others of its arbitration. */
  ghost predicate First(pool: set<Claim>, c: Claim) {
    c in pool && !Beaten(pool, c)
  }

  /**
   In every run without repeated registrations the owner of the first claim has not lost it and is not flagged, nor is
   the claim ever announced as a split brain; once its window has closed it has won, and its scheduler was told so once.
   */
  lemma {:induction false} FirstClaimWins(start: System, sts: seq<Step>, sys: System, c: Claim)
    requires OnceRun(start, sts) && sys == After(start, sts) && First(sys.pool, c)
    ensures c.hostId in sys.hosts
    ensures forall r :: r in sys.hosts[c.hostId].rows && r.claim == c ==> r.status == Intent || r.status == Won
    ensures forall h, f :: h in sys.hosts && f in sys.hosts[h].flags ==> f.local != c
    ensures KeyOf(c) !in sys.hosts[c.hostId].pending ==>
              Row(c, Won) in sys.hosts[c.hostId].rows && CalledOnce(sys.hosts[c.hostId].calls, c, true)
  {
    RunsKeepInv(start, sts);
    var s := sys.hosts[c.hostId];
    forall r | r in s.rows && r.claim == c ensures r.status == Intent || r.status == Won {
      assert OwnRow(s, r);
      if Beaten(ClaimsOf(s.rows), c) {
        BeatenGrows(ClaimsOf(s.rows), sys.pool, c);
      }
    }
    forall h, f | h in sys.hosts && f in sys.hosts[h].flags ensures f.local != c {
      assert f.late in ClaimsOf(sys.hosts[h].rows);
    }
    if KeyOf(c) !in s.pending {
      var r :| r in s.rows && r.claim == c;
      assert OwnRow(s, r);
      assert r == Row(c, Won);
    }
  }

  /**
   A host's row is flagged exactly if the split brain was announced, which happens at most once per claim and names a
   claim of the same arbitration that goes before it and has arrived.
   */
  lemma {:induction false} SplitBrainAnnouncedOnce(start: System, sts: seq<Step>, sys: System, h: string, c: Claim)
    requires OnceRun(start, sts) && sys == After(start, sts) && h in sys.hosts && c.hostId == h
    ensures var s := sys.hosts[h];
            && (Row(c, SplitBrain) in s.rows <==> exists f :: f in s.flags && f.local == c)
            && (forall i, j :: 0 <= i < j < |s.flags| ==> !(s.flags[i].local == c && s.flags[j].local == c))
            && (forall f :: f in s.flags && f.local == c ==>
                  f.late in ClaimsOf(s.rows) && KeyOf(f.late) == KeyOf(c) && Lower(f.late, c))
  {
    RunsKeepInv(start, sts);
    var s := sys.hosts[h];
    assert Row(c, SplitBrain) in s.rows <==> c in Splits(s);
    assert c in Locals(s.flags) <==> exists f :: f in s.flags && f.local == c;
  }

  /** Every window of the arbitration has closed, and every claim on it has reached every host. */
  ghost predicate Settled(sys: System, k: Key) {
    forall h :: h in sys.hosts ==>
      k !in sys.hosts[h].pending && forall c :: c in sys.pool && KeyOf(c) == k ==> c in ClaimsOf(sys.hosts[h].rows)
  }

  /**
   Once settled, the first claim's own row is `Won`, every other own row is `Lost` or `SplitBrain`.
   */
  lemma {:induction false} SettledHasOneWinner(
      start: System, sts: seq<Step>, sys: System, first: Claim, c: Claim, r: Row)
    requires OnceRun(start, sts) && sys == After(start, sts) && First(sys.pool, first) && Settled(sys, KeyOf(first))
    requires c in sys.pool && KeyOf(c) == KeyOf(first)
    requires c.hostId in sys.hosts && r in sys.hosts[c.hostId].rows && r.claim == c
    ensures r.status == Won <==> c == first
    ensures r.status == Lost || r.status == SplitBrain <==> c != first
  {
    RunsKeepInv(start, sts);
    var s := sys.hosts[c.hostId];
    assert OwnRow(s, r);
    if c == first {
      FirstClaimWins(start, sts, sys, c);
    } else {
      LowerIsStrict(c, first);
      assert Beaten(ClaimsOf(s.rows), c) by {
        assert first in ClaimsOf(s.rows) && Lower(first, c);
      }
    }
  }

  /** Among the claims on an arbitration there is a first one, and only one. */
  lemma {:induction false} FirstExists(pool: set<Claim>, k: Key) returns (first: Claim)
    requires PoolInv(pool) && exists c :: c in pool && KeyOf(c) == k
    ensures First(pool, first) && KeyOf(first) == k
    ensures forall c :: First(pool, c) && KeyOf(c) == k ==> c == first
    decreases |pool|
  {
    first :| first in pool && KeyOf(first) == k;
    var rest := pool - {first};
    if exists c :: c in rest && KeyOf(c) == k {
      var other := FirstExists(rest, k);
      LowerIsStrict(first, other);
      LowerIsStrict(first, first);
      if Lower(first, other) {
        forall d | d in pool && KeyOf(d) == k ensures !Lower(d, first) {
          if d != first && Lower(d, first) {
            LowerTransitive(d, first, other);
          }
        }
      } else {
        first := other;
      }
    } else {
      LowerIsStrict(first, first);
    }
    forall c | First(pool, c) && KeyOf(c) == k ensures c == first {
      LowerIsStrict(c, first);
    }
  }

  /** Every registration is told the outcome exactly once when its window closes, with the table as it was then. */
  lemma {:induction false} ToldWhenClosed(start: System, sts: seq<Step>, sys: System, c: Claim)
    requires OnceRun(start, sts) && sys == After(start, sts) && c in sys.pool
    ensures c.hostId in sys.hosts
    ensures var s := sys.hosts[c.hostId];
            if KeyOf(c) in s.pending then CallsFor(s.calls, KeyOf(c)) == []
            else exists win :: CalledOnce(s.calls, c, win)
  {
    RunsKeepInv(start, sts);
    var s := sys.hosts[c.hostId];
    var r :| r in s.rows && r.claim == c;
    assert OwnRow(s, r);
  }

  /**
   Two hosts both win one arbitration only if the lower claim was missing from the other's table when that window
   closed.
   */
  lemma {:induction false} DoubleWinNeedsLateClaim(
      start: System, sts: seq<Step>, sys: System, low: Claim, high: Claim)
    requires OnceRun(start, sts) && sys == After(start, sts)
    requires low in sys.pool && high in sys.pool && KeyOf(low) == KeyOf(high) && Lower(low, high)
    requires high.hostId in sys.hosts && KeyOf(high) in sys.hosts[high.hostId].won
    ensures CalledOnce(sys.hosts[high.hostId].calls, high, true)
    ensures low !in ClaimsOf(CallsFor(sys.hosts[high.hostId].calls, KeyOf(high))[0].seen)
  {
    RunsKeepInv(start, sts);
    var s := sys.hosts[high.hostId];
    var r :| r in s.rows && r.claim == high;
    assert OwnRow(s, r);
  }

  lemma {:induction false} FindHasId(rows: seq<Row>, id: string)
    ensures Find(rows, id).Some? ==> Find(rows, id).value.claim.claimId == id
  {
    if rows != [] && rows[0].claim.claimId != id {
      FindHasId(rows[1..], id);
    }
  }

  /**
   A second registration for the same arbitration replaces the first one's window: after both timers there is one call
   at most, and none for the first claim.
   */
  lemma SecondRegistrationDropsFirst(s: Host, c: Claim, d: Claim)
    requires KeyOf(c) == KeyOf(d) && c.claimId != d.claimId
    ensures var t := Register(Register(s, c), d);
            var u := Decide(Decide(t, KeyOf(d)), KeyOf(d));
            && t.calls == s.calls
            && KeyOf(d) !in u.pending
            && s.calls <= u.calls && |u.calls| <= |s.calls| + 1
            && (|u.calls| > |s.calls| ==> !u.calls[|s.calls|].Released? && u.calls[|s.calls|].claim.claimId == d.claimId)
  {
    var t := Register(Register(s, c), d);
    FindHasId(Select(t.rows, KeyOf(d)), d.claimId);
  }

  // ---------- The same by stamps and names ----------

  predicate SameTask(c: Claim, eventId: string, fingerprint: string) {
    c.eventId == eventId && c.fingerprint == fingerprint
  }

  /** Every window of the task on the event has closed, and every claim on it is in every host's table. */
  ghost predicate SettledOn(sys: System, eventId: string, fingerprint: string) {
    forall h :: h in sys.hosts ==>
      && Key(eventId, fingerprint) !in sys.hosts[h].pending
      && forall c :: c in sys.pool && SameTask(c, eventId, fingerprint) ==>
           exists r :: r in sys.hosts[h].rows && r.claim == c
  }

  lemma FirstIsEarliest(pool: set<Claim>, c: Claim)
    requires c in pool
    ensures First(pool, c) <==> forall d :: d in pool && SameTask(d, c.eventId, c.fingerprint) ==> !Earlier(d, c)
  {
    forall d ensures Lower(d, c) <==> Earlier(d, c) {
      LowerIsEarlier(d, c);
    }
  }

  lemma {:induction false} WonIffFirst(start: System, sts: seq<Step>, sys: System, c: Claim)
    requires OnceRun(start, sts) && sys == After(start, sts) && c in sys.pool && Settled(sys, KeyOf(c))
    ensures c.hostId in sys.hosts
    ensures Row(c, Won) in sys.hosts[c.hostId].rows <==> First(sys.pool, c)
  {
    RunsKeepInv(start, sts);
    var s := sys.hosts[c.hostId];
    var first := FirstExists(sys.pool, KeyOf(c));
    var r :| r in s.rows && r.claim == c;
    SettledHasOneWinner(start, sts, sys, first, c, r);
    OneRowOf(s, c, r);
  }

  lemma SettledOnIsSettled(sys: System, c: Claim)
    requires SettledOn(sys, c.eventId, c.fingerprint)
    ensures Settled(sys, KeyOf(c))
  {
  }

  lemma EarliestOf(pool: set<Claim>, c: Claim)
    requires PoolInv(pool) && c in pool
    ensures First(pool, c) <==>
              forall d :: d in pool && SameTask(d, c.eventId, c.fingerprint) ==>
                Less(c.hlc, d.hlc) || (c.hlc == d.hlc && AtMost(c.hostId, d.hostId))
  {
    FirstIsEarliest(pool, c);
    forall d | d in pool && SameTask(d, c.eventId, c.fingerprint)
      ensures !Earlier(d, c) <==> Less(c.hlc, d.hlc) || (c.hlc == d.hlc && AtMost(c.hostId, d.hostId))
    {
      NotEarlier(pool, d, c);
    }
  }

  /**
   Once settled, a claim has won if and only if no claim on the same event and task has an earlier stamp, nor the same
   stamp and a lower host id.
   */
  lemma {:induction false} WonIffEarliest(start: System, sts: seq<Step>, sys: System, c: Claim)
    requires OnceRun(start, sts) && sys == After(start, sts) && c in sys.pool
    requires SettledOn(sys, c.eventId, c.fingerprint)
    ensures c.hostId in sys.hosts
    ensures Row(c, Won) in sys.hosts[c.hostId].rows <==>
              forall d :: d in sys.pool && SameTask(d, c.eventId, c.fingerprint) ==>
                Less(c.hlc, d.hlc) || (c.hlc == d.hlc && AtMost(c.hostId, d.hostId))
  {
    SettledOnIsSettled(sys, c);
    WonIffFirst(start, sts, sys, c);
    RunsKeepInv(start, sts);
    EarliestOf(sys.pool, c);
  }

  lemma OneRowOf(s: Host, c: Claim, r: Row)
    requires DistinctIds(s.rows) && r in s.rows && r.claim == c
    ensures Row(c, Won) in s.rows <==> r.status == Won
  {
    if Row(c, Won) in s.rows {
      var i :| 0 <= i < |s.rows| && s.rows[i] == r;
      var j :| 0 <= j < |s.rows| && s.rows[j] == Row(c, Won);
    }
  }

  lemma NotEarlier(pool: set<Claim>, d: Claim, c: Claim)
    requires PoolInv(pool) && c in pool && d in pool && KeyOf(c) == KeyOf(d)
    ensures !Earlier(d, c) <==> Less(c.hlc, d.hlc) || (c.hlc == d.hlc && AtMost(c.hostId, d.hostId))
  {
    Compose(c.hlc, d.hlc, c.hlc);
    Compose(c.hostId, d.hostId, c.hostId);
    Irreflexive(c.claimId);
    Irreflexive(c.hlc);
    Irreflexive(c.hostId);
  }

  /**
   What a closing window told its scheduler: a win if and only if the table then held no earlier claim on the same event
   and task.
   */
  lemma {:induction false} ToldByStamp(start: System, sts: seq<Step>, sys: System, c: Claim) returns (call: Call)
    requires OnceRun(start, sts) && sys == After(start, sts) && c in sys.pool && c.hostId in sys.hosts
    requires Key(c.eventId, c.fingerprint) !in sys.hosts[c.hostId].pending
    ensures call in sys.hosts[c.hostId].calls && !call.Released? && call.claim == c
    ensures exists r :: r in call.seen && r.claim == c
    ensures call.OnWin? <==>
              forall r :: r in call.seen && SameTask(r.claim, c.eventId, c.fingerprint) ==> !Earlier(r.claim, c)
  {
    ToldWhenClosed(start, sts, sys, c);
    var s := sys.hosts[c.hostId];
    var win :| CalledOnce(s.calls, c, win);
    call := CallsFor(s.calls, KeyOf(c))[0];
    CallsForIn(s.calls, KeyOf(c));
    forall r | r in call.seen ensures Lower(r.claim, c) <==> Earlier(r.claim, c) {
      LowerIsEarlier(r.claim, c);
    }
    assert Beaten(ClaimsOf(call.seen), c) <==>
           exists r :: r in call.seen && KeyOf(r.claim) == KeyOf(c) && Lower(r.claim, c);
  }

  lemma {:induction false} CallsForIn(calls: seq<Call>, k: Key)
    ensures forall call :: call in CallsFor(calls, k) ==> call in calls
  {
    if calls != [] {
      CallsForIn(calls[1..], k);
    }
  }
}
