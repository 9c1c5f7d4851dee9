/** Many buses wired to one mesh (src/mesh/wire.ts); the network may lose, reorder, delay and repeat, but not forge. */
module Mesh {
  import opened Order
  import opened Hlc
  import opened Json
  import opened Events
  import opened Bus

  datatype System = System(hosts: map<string, State>, issued: seq<Event>)

  datatype Op =
    | Publishes(host: string, input: PublishInput, id: string, physical: nat)
    | Delivers(host: string, event: Event, physical: nat)

  /** What the subscription of `wireBridgeToBus` hands to `bridge.broadcast`. */
  predicate Mirrors(d: Dispatch) {
    d.event.durable && !d.remote
  }

  /**
   `e` is `f` as another host receives it: its payload may have its keys reordered and undefined properties dropped.
   */
  predicate Copy(f: Event, e: Event) {
    f.durable && e == f.(payload := e.payload) && WellKeyed(e.payload) && Normal(e.payload) == Normal(f.payload)
  }

  function IdsOf(events: seq<Event>): set<string> {
    set e <- events :: e.id
  }

  /** A publisher names its own host and draws an identifier that nobody has drawn before. */
  ghost predicate Enabled(s: System, op: Op) {
    && op.host in s.hosts
    && match op
       case Publishes(h, input, id, _) => input.hostId == h && id !in IdsOf(s.issued) && WellKeyed(input.payload)
       case Delivers(_, e, _) => exists f :: f in s.issued && Copy(f, e)
  }

  ghost function Do(s: System, op: Op): System
    requires Enabled(s, op)
  {
    var t := s.hosts[op.host];
    match op
    case Publishes(h, input, id, physical) =>
      System(s.hosts[h := Publish(t, input, id, physical)], s.issued + [Stamped(t.last, input, id, physical)])
    case Delivers(h, e, physical) => s.(hosts := s.hosts[h := Inject(t, e, physical)])
  }

  /** The system of `names` after `ops`, the first one first; an operation that is not enabled does nothing. */
  ghost function After(names: set<string>, ops: seq<Op>): System {
    if ops == [] then System(map h <- names :: FRESH, [])
    else
      var s := After(names, ops[..|ops| - 1]);
      if Enabled(s, ops[|ops| - 1]) then Do(s, ops[|ops| - 1]) else s
  }

  // ---------- What every run keeps ----------

  /** Every dispatch is of an issued event or a copy of one; local ones are the host's own. */
  ghost predicate Sourced(issued: seq<Event>, h: string, d: Dispatch) {
    if d.remote then exists f :: f in issued && Copy(f, d.event)
    else d.event in issued && d.event.hostId == h && WellKeyed(d.event.payload)
  }

  ghost predicate LogSourced(issued: seq<Event>, h: string, t: State) {
    forall d :: d in t.log ==> Sourced(issued, h, d)
  }

  /** A local dispatch has an id that the host had not dispatched before. */
  predicate LocalsNew(log: seq<Dispatch>) {
    forall i, j :: 0 <= i < j < |log| && !log[j].remote ==> log[i].event.id != log[j].event.id
  }

  /** The clock is at or past every stamp that was dispatched. */
  ghost predicate ClockAhead(t: State) {
    forall d :: d in t.log && Decode(d.event.hlc).Ok? ==> !Before(t.last, Decode(d.event.hlc).value)
  }

  /** A local dispatch carries a stamp later than everything dispatched before it, up to the bounds of the encoding. */
  ghost predicate LocalsLater(log: seq<Dispatch>) {
    forall i, j :: 0 <= i < j < |log| && !log[j].remote ==> Later(log[i].event, log[j].event)
  }

  predicate Later(e: Event, f: Event) {
    Decode(e.hlc).Ok? && Decode(f.hlc).Ok? ==> Less(e.hlc, f.hlc)
  }

  ghost predicate HostInv(issued: seq<Event>, h: string, t: State) {
    LogSourced(issued, h, t) && LocalsNew(t.log) && ClockAhead(t) && LocalsLater(t.log)
  }

  ghost predicate UniqueIds(issued: seq<Event>) {
    forall i, j :: 0 <= i < j < |issued| ==> issued[i].id != issued[j].id
  }

  ghost predicate Inv(s: System) {
    UniqueIds(s.issued) && forall h :: h in s.hosts ==> HostInv(s.issued, h, s.hosts[h])
  }

  lemma SourcedId(issued: seq<Event>, h: string, t: State, d: Dispatch)
    requires LogSourced(issued, h, t) && d in t.log
    ensures d.event.id in IdsOf(issued)
  {
    if d.remote {
      var f :| f in issued && Copy(f, d.event);
    }
  }

  lemma IssuedGrows(issued: seq<Event>, e: Event, h: string, t: State)
    requires LogSourced(issued, h, t)
    ensures LogSourced(issued + [e], h, t)
  {
    forall d | d in t.log ensures Sourced(issued + [e], h, d) {
      assert Sourced(issued, h, d);
      if d.remote {
        var f :| f in issued && Copy(f, d.event);
        assert f in issued + [e];
      }
    }
  }

  /** A fresh tick is later than any decoded stamp the clock has passed. */
  lemma {:induction false} TickIsLater(last: Stamp, physical: nat, hlc: string)
    requires Decode(hlc).Ok? ==> !Before(last, Decode(hlc).value)
    ensures Decode(hlc).Ok? && Decode(Encode(NowStep(last, physical))).Ok? ==> Less(hlc, Encode(NowStep(last, physical)))
  {
    var s := NowStep(last, physical);
    DecodeInvertsEncode(s);
    if Decode(hlc).Ok? && InBounds(s) {
      EncodeInvertsDecode(hlc);
      EncodePreservesOrder(Decode(hlc).value, s);
    }
  }

  lemma TickAhead(last: Stamp, physical: nat)
    ensures Before(last, NowStep(last, physical))
    ensures Decode(Encode(NowStep(last, physical))).Ok? ==>
              !Before(NowStep(last, physical), Decode(Encode(NowStep(last, physical))).value)
  {
    DecodeInvertsEncode(NowStep(last, physical));
  }

  lemma BeforeTransfers(a: Stamp, b: Stamp, c: Stamp)
    requires !Before(b, a) && !Before(c, b)
    ensures !Before(c, a)
  {
  }

  lemma PublishKeepsHost(issued: seq<Event>, h: string, t: State, input: PublishInput, id: string, physical: nat)
    requires HostInv(issued, h, t) && input.hostId == h && id !in IdsOf(issued) && WellKeyed(input.payload)
    ensures HostInv(issued + [Stamped(t.last, input, id, physical)], h, Publish(t, input, id, physical))
  {
    var e := Stamped(t.last, input, id, physical);
    var u := Publish(t, input, id, physical);
    var grown := issued + [e];
    IssuedGrows(issued, e, h, t);
    assert e in grown && u.log == t.log + [Dispatch(e, false)];
    TickAhead(t.last, physical);
    forall d | d in t.log ensures d.event.id != id && Later(d.event, e) {
      SourcedId(issued, h, t, d);
      TickIsLater(t.last, physical, d.event.hlc);
    }
    forall d | d in u.log && Decode(d.event.hlc).Ok? ensures !Before(u.last, Decode(d.event.hlc).value) {
      if d in t.log {
        BeforeTransfers(Decode(d.event.hlc).value, t.last, u.last);
      }
    }
    forall i, j | 0 <= i < j < |u.log| && !u.log[j].remote
      ensures u.log[i].event.id != u.log[j].event.id && Later(u.log[i].event, u.log[j].event)
    {
      assert u.log[i] in t.log;
    }
  }

  lemma ReceiveAhead(last: Stamp, hlc: string, physical: nat)
    ensures !Before(Receive(last, hlc, physical), last)
    ensures Decode(hlc).Ok? ==> !Before(Receive(last, hlc, physical), Decode(hlc).value)
  {
  }

  lemma InjectKeepsHost(issued: seq<Event>, h: string, t: State, f: Event, e: Event, physical: nat)
    requires HostInv(issued, h, t) && f in issued && Copy(f, e)
    ensures HostInv(issued, h, Inject(t, e, physical))
  {
    var u := Inject(t, e, physical);
    if e.id !in t.memo {
      ReceiveAhead(t.last, e.hlc, physical);
      assert Sourced(issued, h, Dispatch(e, true));
      forall d | d in u.log && Decode(d.event.hlc).Ok? ensures !Before(u.last, Decode(d.event.hlc).value) {
        if d in t.log {
          BeforeTransfers(Decode(d.event.hlc).value, t.last, u.last);
        }
      }
    }
  }

  lemma DoKeepsInv(s: System, op: Op)
    requires Inv(s) && Enabled(s, op)
    ensures Inv(Do(s, op))
  {
    var t := s.hosts[op.host];
    match op
    case Publishes(h, input, id, physical) => {
      var e := Stamped(t.last, input, id, physical);
      PublishKeepsHost(s.issued, h, t, input, id, physical);
      forall g | g in s.hosts && g != h ensures HostInv(s.issued + [e], g, s.hosts[g]) {
        IssuedGrows(s.issued, e, g, s.hosts[g]);
      }
      forall i | 0 <= i < |s.issued| ensures s.issued[i].id != id {
        assert s.issued[i].id in IdsOf(s.issued);
      }
    }
    case Delivers(h, e, physical) => {
      var f :| f in s.issued && Copy(f, e);
      InjectKeepsHost(s.issued, h, t, f, e, physical);
    }
  }

  lemma {:induction false} RunsKeepInv(names: set<string>, ops: seq<Op>)
    ensures Inv(After(names, ops)) && After(names, ops).hosts.Keys == names
  {
    if ops != [] {
      var op := ops[|ops| - 1];
      var s := After(names, ops[..|ops| - 1]);
      RunsKeepInv(names, ops[..|ops| - 1]);
      if Enabled(s, op) {
        DoKeepsInv(s, op);
      }
    }
  }

  /** What `h` dispatched in the run, in order. */
  ghost function Log(names: set<string>, ops: seq<Op>, h: string): seq<Dispatch> {
    var s := After(names, ops);
    if h in s.hosts then s.hosts[h].log else []
  }

  lemma {:induction false} LogFacts(names: set<string>, ops: seq<Op>, h: string)
    ensures LocalsNew(Log(names, ops, h)) && LocalsLater(Log(names, ops, h))
    ensures UniqueIds(After(names, ops).issued)
    ensures forall d :: d in Log(names, ops, h) ==> Sourced(After(names, ops).issued, h, d)
  {
    RunsKeepInv(names, ops);
  }

  // ---------- No echo ----------

  lemma IssuedById(issued: seq<Event>, e: Event, f: Event)
    requires UniqueIds(issued) && e in issued && f in issued && e.id == f.id
    ensures e == f
  {
  }

  /**
   Over the whole mesh an event is handed to a bridge's `broadcast` at most once, and only by the host that it names.
   */
  lemma BroadcastOnceByOrigin(names: set<string>, ops: seq<Op>, g: string, i: nat, h: string, j: nat)
    requires i < |Log(names, ops, g)| && Mirrors(Log(names, ops, g)[i])
    requires j < |Log(names, ops, h)| && Mirrors(Log(names, ops, h)[j])
    requires Log(names, ops, g)[i].event.id == Log(names, ops, h)[j].event.id
    ensures g == h == Log(names, ops, g)[i].event.hostId && i == j
  {
    LogFacts(names, ops, g);
    LogFacts(names, ops, h);
    var d, e := Log(names, ops, g)[i], Log(names, ops, h)[j];
    assert Sourced(After(names, ops).issued, g, d) && Sourced(After(names, ops).issued, h, e);
    IssuedById(After(names, ops).issued, d.event, e.event);
  }

  lemma DoAnnounces(s: System, op: Op, e: Event)
    requires Enabled(s, op) && e in Do(s, op).issued
    requires e in s.issued ==> e.hostId in s.hosts && Dispatch(e, false) in s.hosts[e.hostId].log
    ensures e.hostId in s.hosts && Dispatch(e, false) in Do(s, op).hosts[e.hostId].log
  {
    if op.Publishes? && e !in s.issued {
      assert e == Stamped(s.hosts[op.host].last, op.input, op.id, op.physical);
    }
  }

  /**
   And it is handed over at least once: every issued event was dispatched as a local one by the host that it names.
   */
  lemma {:induction false} IssuedIsAnnounced(names: set<string>, ops: seq<Op>, e: Event)
    requires e in After(names, ops).issued
    ensures Dispatch(e, false) in Log(names, ops, e.hostId)
  {
    var op := ops[|ops| - 1];
    var s := After(names, ops[..|ops| - 1]);
    if e in s.issued {
      IssuedIsAnnounced(names, ops[..|ops| - 1], e);
    }
    if Enabled(s, op) {
      DoAnnounces(s, op, e);
    }
  }

  /** One host never issues two events with one stamp, as far as the stamp fits the encoding. */
  lemma OwnStampIsUnique(names: set<string>, ops: seq<Op>, e: Event, f: Event)
    requires e in After(names, ops).issued && f in After(names, ops).issued
    requires e.hostId == f.hostId && e.hlc == f.hlc && Decode(e.hlc).Ok?
    ensures e == f
  {
    var i := Announced(names, ops, e);
    var j := Announced(names, ops, f);
    LogFacts(names, ops, e.hostId);
    StampsDiffer(Log(names, ops, e.hostId), i, j);
  }

  lemma StampsDiffer(log: seq<Dispatch>, i: nat, j: nat)
    requires LocalsLater(log) && i < |log| && j < |log| && !log[i].remote && !log[j].remote
    requires Decode(log[i].event.hlc).Ok?
    ensures i != j ==> log[i].event.hlc != log[j].event.hlc
  {
    Irreflexive(log[i].event.hlc);
  }

  lemma Announced(names: set<string>, ops: seq<Op>, e: Event) returns (i: nat)
    requires e in After(names, ops).issued
    ensures i < |Log(names, ops, e.hostId)| && Log(names, ops, e.hostId)[i] == Dispatch(e, false)
  {
    IssuedIsAnnounced(names, ops, e);
    var k :| 0 <= k < |Log(names, ops, e.hostId)| && Log(names, ops, e.hostId)[k] == Dispatch(e, false);
    i := k;
  }

  /**
   A broadcast that comes back to a host, or that a peer repeats, is never mirrored again: every further dispatch of
   its id is remote.
   */
  lemma EchoIsRemote(names: set<string>, ops: seq<Op>, h: string, i: nat, j: nat)
    requires i < j < |Log(names, ops, h)| && Log(names, ops, h)[i].event.id == Log(names, ops, h)[j].event.id
    ensures !Mirrors(Log(names, ops, h)[j])
  {
    LogFacts(names, ops, h);
  }

  // ---------- Causality ----------

  /** `h` published `f` after it had published or injected `e`. */
  predicate Follows(log: seq<Dispatch>, i: nat, j: nat, e: Event, f: Event) {
    && i < j < |log| && !log[j].remote
    && log[i].event.id == e.id && log[i].event.hlc == e.hlc
    && log[j].event.id == f.id && log[j].event.hlc == f.hlc
  }

  ghost predicate Precedes(names: set<string>, ops: seq<Op>, e: Event, f: Event) {
    exists h, i, j :: Follows(Log(names, ops, h), i, j, e, f)
  }

  /** A host's later events carry later stamps than everything it had seen, as long as the stamps fit the encoding. */
  lemma PrecedesIsLater(names: set<string>, ops: seq<Op>, e: Event, f: Event)
    requires Precedes(names, ops, e, f)
    ensures Later(e, f)
  {
    var h, i, j :| Follows(Log(names, ops, h), i, j, e, f);
    LogFacts(names, ops, h);
  }

  /**
   Each event of `chain` caused the next, possibly on different hosts, and every stamp is within the encoding's bounds.
   */
  ghost predicate Chain(names: set<string>, ops: seq<Op>, chain: seq<Event>) {
    && (forall e :: e in chain ==> Decode(e.hlc).Ok?)
    && (forall k :: 0 <= k < |chain| - 1 ==> Precedes(names, ops, chain[k], chain[k + 1]))
  }

  lemma LinkAscends(names: set<string>, ops: seq<Op>, chain: seq<Event>, k: nat)
    requires Chain(names, ops, chain) && k < |chain| - 1
    ensures Less(chain[k].hlc, chain[k + 1].hlc)
  {
    PrecedesIsLater(names, ops, chain[k], chain[k + 1]);
  }

  lemma {:induction false} StepsAscend(chain: seq<Event>, a: nat, b: nat)
    requires a < b < |chain|
    requires forall k :: a <= k < b ==> Less(chain[k].hlc, chain[k + 1].hlc)
    ensures Less(chain[a].hlc, chain[b].hlc)
    decreases b
  {
    if a < b - 1 {
      StepsAscend(chain, a, b - 1);
      Transitive(chain[a].hlc, chain[b - 1].hlc, chain[b].hlc);
    }
  }

  /** Along any causal chain through any number of hosts, encoded stamps strictly increase. */
  lemma ChainAscends(names: set<string>, ops: seq<Op>, chain: seq<Event>, a: nat, b: nat)
    requires Chain(names, ops, chain) && a < b < |chain|
    ensures Less(chain[a].hlc, chain[b].hlc)
  {
    forall k | a <= k < b ensures Less(chain[k].hlc, chain[k + 1].hlc) {
      LinkAscends(names, ops, chain, k);
    }
    StepsAscend(chain, a, b);
  }

  // ---------- What was published is what arrives ----------

  /** The event carries what the publisher passed, and the millisecond of its stamp. */
  predicate Carries(op: Op, e: Event) {
    && op.Publishes?
    && e.id == op.id && e.hostId == op.host && e.hostId == op.input.hostId && e.kind == op.input.kind
    && e.actorId == op.input.actorId && e.payload == op.input.payload && e.durable == op.input.durable
    && (Decode(e.hlc).Ok? ==> e.createdAt == Decode(e.hlc).value.l)
  }

  /** Step `k` of the run is a publication of `e`. */
  ghost predicate PublishedAt(names: set<string>, ops: seq<Op>, k: nat, e: Event) {
    k < |ops| && Enabled(After(names, ops[..k]), ops[k]) && Carries(ops[k], e)
  }

  lemma StampedCarries(s: System, op: Op)
    requires Enabled(s, op) && op.Publishes?
    ensures var issued := Do(s, op).issued; |issued| == |s.issued| + 1 && Carries(op, issued[|s.issued|])
  {
    DecodeInvertsEncode(NowStep(s.hosts[op.host].last, op.physical));
  }

  lemma PublishedLonger(names: set<string>, ops: seq<Op>, k: nat, e: Event)
    requires ops != [] && PublishedAt(names, ops[..|ops| - 1], k, e)
    ensures PublishedAt(names, ops, k, e)
  {
    assert ops[..|ops| - 1][..k] == ops[..k];
  }

  /** Every issued event was published by an operation of the run, with exactly the fields that the publisher passed. */
  lemma {:induction false} IssuedWasPublished(names: set<string>, ops: seq<Op>, e: Event) returns (k: nat)
    requires e in After(names, ops).issued
    ensures PublishedAt(names, ops, k, e)
  {
    var n := |ops| - 1;
    var s := After(names, ops[..n]);
    if e in s.issued {
      k := IssuedWasPublished(names, ops[..n], e);
      PublishedLonger(names, ops, k, e);
    } else {
      k := n;
      StampedCarries(s, ops[n]);
    }
  }

  lemma {:induction false} IssuedStays(names: set<string>, ops: seq<Op>, k: nat, e: Event)
    requires k <= |ops| && e in After(names, ops[..k]).issued
    ensures e in After(names, ops).issued
    decreases |ops| - k
  {
    if k == |ops| {
      assert ops[..k] == ops;
    } else {
      assert ops[..k + 1][..k] == ops[..k] && ops[..k + 1][k] == ops[k];
      IssuedStays(names, ops, k + 1, e);
    }
  }

  /** And every publication of the run issued such an event. */
  lemma {:induction false} PublishedIsIssued(names: set<string>, ops: seq<Op>, k: nat) returns (e: Event)
    requires k < |ops| && Enabled(After(names, ops[..k]), ops[k]) && ops[k].Publishes?
    ensures e in After(names, ops).issued && Carries(ops[k], e)
  {
    var s := After(names, ops[..k]);
    assert ops[..k + 1][..k] == ops[..k] && ops[..k + 1][k] == ops[k];
    StampedCarries(s, ops[k]);
    e := Do(s, ops[k]).issued[|s.issued|];
    IssuedStays(names, ops, k + 1, e);
  }

  /**
   Whatever handlers on any host see was published in the run: all fields are the publisher's, the payload exactly so on
   the publisher's own host and up to key order and undefined properties on another.
   */
  lemma {:induction false} DispatchWasPublished(names: set<string>, ops: seq<Op>, h: string, d: Dispatch)
    returns (k: nat, e: Event)
    requires d in Log(names, ops, h)
    ensures PublishedAt(names, ops, k, e) && d.event == e.(payload := d.event.payload)
    ensures Normal(d.event.payload) == Normal(e.payload)
    ensures !d.remote ==> d.event == e && e.hostId == h
    ensures d.remote ==> e.durable
  {
    LogFacts(names, ops, h);
    var issued := After(names, ops).issued;
    assert Sourced(issued, h, d);
    if d.remote {
      e :| e in issued && Copy(e, d.event);
    } else {
      e := d.event;
    }
    k := IssuedWasPublished(names, ops, e);
  }

  predicate MemoDispatched(t: State) {
    forall id :: id in t.memo ==> exists d :: d in t.log && d.event.id == id
  }

  lemma StepDispatches(s: System, op: Op, h: string)
    requires Enabled(s, op) && h in s.hosts && MemoDispatched(s.hosts[h])
    ensures h in Do(s, op).hosts && MemoDispatched(Do(s, op).hosts[h]) && s.hosts[h].log <= Do(s, op).hosts[h].log
    ensures op.Delivers? && op.host == h ==> exists d :: d in Do(s, op).hosts[h].log && d.event.id == op.event.id
  {
    var t, u := s.hosts[h], Do(s, op).hosts[h];
    forall id | id in u.memo ensures exists d :: d in u.log && d.event.id == id {
      if id in t.memo {
        var d :| d in t.log && d.event.id == id;
        assert d in u.log;
      } else {
        assert u.log[|u.log| - 1].event.id == id;
      }
    }
    if op.Delivers? && op.host == h {
      if op.event.id in t.memo {
        var d :| d in t.log && d.event.id == op.event.id;
        assert d in u.log;
      } else {
        assert Dispatch(op.event, true) in u.log;
      }
    }
  }

  lemma {:induction false} MemosDispatched(names: set<string>, ops: seq<Op>, h: string)
    requires h in names
    ensures h in After(names, ops).hosts && MemoDispatched(After(names, ops).hosts[h])
  {
    if ops != [] {
      var s, op := After(names, ops[..|ops| - 1]), ops[|ops| - 1];
      MemosDispatched(names, ops[..|ops| - 1], h);
      if Enabled(s, op) {
        StepDispatches(s, op, h);
      }
    }
  }

  lemma {:induction false} LogGrows(names: set<string>, ops: seq<Op>, k: nat, h: string)
    requires k <= |ops|
    ensures Log(names, ops[..k], h) <= Log(names, ops, h)
    decreases |ops| - k
  {
    if k == |ops| {
      assert ops[..k] == ops;
    } else {
      var s := After(names, ops[..k]);
      assert ops[..k + 1][..k] == ops[..k] && ops[..k + 1][k] == ops[k];
      RunsKeepInv(names, ops[..k]);
      if Enabled(s, ops[k]) && h in s.hosts {
        MemosDispatched(names, ops[..k], h);
        StepDispatches(s, ops[k], h);
      }
      LogGrows(names, ops, k + 1, h);
    }
  }

  /** An event that was delivered to a host has been seen by that host's handlers. */
  lemma {:induction false} DeliveredIsDispatched(names: set<string>, ops: seq<Op>, k: nat) returns (d: Dispatch)
    requires k < |ops| && Enabled(After(names, ops[..k]), ops[k]) && ops[k].Delivers?
    ensures d in Log(names, ops, ops[k].host) && d.event.id == ops[k].event.id
  {
    var s, op := After(names, ops[..k]), ops[k];
    RunsKeepInv(names, ops[..k]);
    MemosDispatched(names, ops[..k], op.host);
    StepDispatches(s, op, op.host);
    assert ops[..k + 1][..k] == ops[..k] && ops[..k + 1][k] == op;
    d :| d in Do(s, op).hosts[op.host].log && d.event.id == op.event.id;
    LogGrows(names, ops, k + 1, op.host);
  }
}
