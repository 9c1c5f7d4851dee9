/** Catchup (src/mesh/catchup.ts) over the event table that src/bus/bus.ts and src/bus/persist.ts really built. */
module Recovery {
  import opened Basics
  import opened Order
  import opened Json
  import opened JsonLaws
  import opened Events
  import opened EventTable
  import opened Scope
  import B = Bus
  import C = Catchup
  import Envelope
  import M = Mesh

  /** The event that an operation puts into the table, if it puts one. */
  function PutBy(s: B.State, op: B.Op): Option<Event> {
    match op
    case Publishes(input, id, physical) =>
      if input.durable then Some(B.Stamped(s.last, input, id, physical)) else None
    case Injects(e, _) => Some(e)
  }

  /** Everything that a run put, in order. */
  function Puts(ops: seq<B.Op>): seq<Event> {
    if ops == [] then []
    else
      var before := Puts(ops[..|ops| - 1]);
      match PutBy(B.After(ops[..|ops| - 1]), ops[|ops| - 1])
      case Some(e) => before + [e]
      case None => before
  }

  /** `e` and `f` are one event, up to what JSON forgets of a payload. */
  predicate Alike(e: Event, f: Event) {
    && e == f.(payload := e.payload, durable := e.durable)
    && WellKeyed(e.payload) && WellKeyed(f.payload) && Normal(e.payload) == Normal(f.payload)
  }

  /** Identifiers identify: what a run puts under one id is one event. */
  ghost predicate Identified(ops: seq<B.Op>) {
    forall e, f :: e in Puts(ops) && f in Puts(ops) && e.id == f.id ==> Alike(e, f)
  }

  // ---------- The table of a run ----------

  lemma {:induction false} StoredFieldKeys(fs: seq<Field>, key: string)
    requires forall f <- fs :: f.key != key
    ensures forall f <- StoredFields(fs) :: f.key != key
  {
    if fs != [] {
      StoredFieldKeys(fs[1..], key);
    }
  }

  lemma {:induction false} StoredWellKeyed(v: Js)
    requires WellKeyed(v)
    ensures WellKeyed(Stored(v))
    decreases v, 1
  {
    match v
    case Arr(items) => StoredItemsWellKeyed(items);
    case Obj(fields) => StoredFieldsWellKeyed(fields);
    case _ =>
  }

  lemma {:induction false} StoredItemsWellKeyed(items: seq<Js>)
    requires forall w <- items :: WellKeyed(w)
    ensures forall w <- StoredItems(items) :: WellKeyed(w)
    decreases items, 0
  {
    if items != [] {
      assert items[0] in items;
      StoredWellKeyed(items[0]);
      StoredItemsWellKeyed(items[1..]);
    }
  }

  lemma {:induction false} StoredFieldsWellKeyed(fs: seq<Field>)
    requires DistinctKeys(fs) && forall f <- fs :: WellKeyed(f.value)
    ensures DistinctKeys(StoredFields(fs)) && forall f <- StoredFields(fs) :: WellKeyed(f.value)
    decreases fs, 0
  {
    if fs != [] {
      var tail := StoredFields(fs[1..]);
      assert fs[0] in fs;
      StoredWellKeyed(fs[0].value);
      StoredFieldsWellKeyed(fs[1..]);
      forall f | f in fs[1..] ensures f.key != fs[0].key {
        var i :| 0 <= i < |fs[1..]| && fs[1..][i] == f;
        assert fs[i + 1] == f;
      }
      StoredFieldKeys(fs[1..], fs[0].key);
      assert forall i :: 0 <= i < |tail| ==> tail[i] in tail;
    }
  }

  /** The table of a run is in id order and holds, for each id that was put, the record of an event put under it. */
  lemma {:induction false} TableOfRun(ops: seq<B.Op>)
    ensures Ascending(B.After(ops).rows)
    ensures forall r :: r in B.After(ops).rows ==> exists e :: e in Puts(ops) && r == Record(e)
    ensures forall e :: e in Puts(ops) ==> e.id in Ids(B.After(ops).rows)
  {
    if ops != [] {
      var init, op := ops[..|ops| - 1], ops[|ops| - 1];
      TableOfRun(init);
      if PutBy(B.After(init), op).Some? {
        var e := PutBy(B.After(init), op).value;
        PutGrows(B.After(init).rows, Puts(init), e);
      }
    }
  }

  lemma PutGrows(rows: seq<Event>, puts: seq<Event>, e: Event)
    requires Ascending(rows)
    requires forall r :: r in rows ==> exists f :: f in puts && r == Record(f)
    requires forall f :: f in puts ==> f.id in Ids(rows)
    ensures Ascending(Put(rows, e))
    ensures forall r :: r in Put(rows, e) ==> exists f :: f in puts + [e] && r == Record(f)
    ensures forall f :: f in puts + [e] ==> f.id in Ids(Put(rows, e))
  {
    PutRows(rows, e);
    PutIsInsertOrIgnore(rows, e);
    forall r | r in Put(rows, e) ensures exists f :: f in puts + [e] && r == Record(f) {
      if r in rows {
        var f :| f in puts && r == Record(f);
        assert f in puts + [e];
      } else {
        assert e in puts + [e];
      }
    }
  }

  /** Whatever handlers saw that was durable or remote had been put into the table. */
  lemma {:induction false} DispatchedWasPut(ops: seq<B.Op>, d: B.Dispatch)
    requires d in B.After(ops).log && (d.remote || d.event.durable)
    ensures d.event in Puts(ops)
  {
    var init, op := ops[..|ops| - 1], ops[|ops| - 1];
    if d in B.After(init).log {
      DispatchedWasPut(init, d);
    }
  }

  lemma TableIsServable(ops: seq<B.Op>)
    requires Identified(ops)
    ensures C.Table(B.After(ops).rows)
  {
    TableOfRun(ops);
    forall r | r in B.After(ops).rows ensures WellKeyed(r.payload) {
      var e :| e in Puts(ops) && r == Record(e);
      assert Alike(e, e);
      StoredWellKeyed(e.payload);
    }
  }

  // ---------- Acceptance survives the table ----------

  /** An accepted memory event whose scope reference the query cannot use. */
  predicate Unserved(e: Event) {
    IsMemoryEvent(e) && PayloadOf(e).Some? && Unusable(Envelope.Get(PayloadOf(e).value, "scopeRef"))
  }

  lemma AlikeProperty(fs: seq<Field>, gs: seq<Field>, key: string, text: string)
    requires DistinctKeys(fs) && DistinctKeys(gs) && NormalFields(fs) == NormalFields(gs)
    ensures StringField(fs, key) == StringField(gs, key)
    ensures Envelope.Get(fs, key) == Str(text) <==> Envelope.Get(gs, key) == Str(text)
    ensures Unusable(Envelope.Get(fs, key)) <==> Unusable(Envelope.Get(gs, key))
  {
    Envelope.GetNormal(fs, key);
    Envelope.GetNormal(gs, key);
  }

  lemma AlikeDecidesAlike(e: Event, f: Event, team: string)
    requires Alike(e, f)
    ensures Accepts(e, team) <==> Accepts(f, team)
    ensures Unserved(e) <==> Unserved(f)
  {
    if e.payload.Obj? && f.payload.Obj? {
      AlikeProperty(e.payload.fields, f.payload.fields, "scope", "team");
      AlikeProperty(e.payload.fields, f.payload.fields, "scopeRef", team);
      AlikeProperty(e.payload.fields, f.payload.fields, "teamId", team);
    }
  }

  lemma RecordUnserved(e: Event)
    requires WellKeyed(e.payload)
    ensures Unserved(Record(e)) <==> Unserved(e)
  {
    if e.payload.Obj? {
      GetStored(e.payload.fields, "scopeRef");
    }
  }

  lemma RecordIsServed(e: Event, f: Event, team: string)
    requires Alike(e, f) && TeamId(team) && Accepts(f, team) && !Unserved(f)
    ensures SqlServes(Record(e), team)
  {
    AlikeDecidesAlike(e, f, team);
    StoredAccepted(e, team);
    RecordUnserved(e);
    StoredWellKeyed(e.payload);
    ServedIffAccepted(Record(e), team);
    RecordAccepted(e, team);
  }

  lemma RecordAccepted(e: Event, team: string)
    ensures Accepts(Record(e), team) <==> Accepts(e.(payload := Stored(e.payload)), team)
  {
  }

  lemma {:induction false} RepresentableAlike(v: Js, w: Js)
    requires Normal(v) == Normal(w) && Representable(v)
    ensures Representable(w)
    decreases w
  {
    match w
    case Arr(items) =>
      forall x | x in items ensures Representable(x) {
        var i :| 0 <= i < |items| && items[i] == x;
        NormalItemsAt(items, i);
        NormalItemsAt(v.items, i);
        RepresentableAlike(v.items[i], x);
      }
    case Obj(fields) =>
      forall f | f in fields && !f.value.Undefined? ensures Representable(f.value) {
        NormalFieldsElements(fields);
        NormalFieldsElements(v.fields);
        assert Field(f.key, Normal(f.value)) in NormalFields(v.fields);
        var g :| g in v.fields && !g.value.Undefined? && Field(f.key, Normal(f.value)) == Field(g.key, Normal(g.value));
        RepresentableAlike(g.value, f.value);
      }
    case _ =>
  }

  /** `e` is `d` as it was published: same id, stamp, host, actor, kind and time, and its payload up to key order. */
  predicate Recovered(e: Event, d: Event) {
    && e.id == d.id && e.hlc == d.hlc && e.hostId == d.hostId && e.actorId == d.actorId && e.kind == d.kind
    && e.createdAt == d.createdAt && e.durable
    && (Representable(d.payload) ==> e.payload == Normal(d.payload))
  }

  lemma RowRecovers(f: Event, d: Event)
    requires Alike(f, d)
    ensures Recovered(C.Arrived(Record(f)), d)
  {
    if Representable(d.payload) {
      RepresentableAlike(d.payload, f.payload);
      StoredIsSame(f.payload);
    }
  }

  /** The row of a dispatched event is served to its team, if the query can serve the event at all. */
  lemma RowIsServed(ops: seq<B.Op>, d: B.Dispatch, team: string) returns (r: Event)
    requires Identified(ops) && TeamId(team)
    requires d in B.After(ops).log && (d.remote || d.event.durable)
    requires Accepts(d.event, team) && !Unserved(d.event)
    ensures r in B.After(ops).rows && r.id == d.event.id && SqlServes(r, team) && Recovered(C.Arrived(r), d.event)
  {
    TableOfRun(ops);
    DispatchedWasPut(ops, d);
    r :| r in B.After(ops).rows && r.id == d.event.id;
    var e :| e in Puts(ops) && r == Record(e);
    RecordIsServed(e, d.event, team);
    RowRecovers(e, d.event);
  }

  /** Recovery from one bus, as long as ids identify events there. */
  lemma RecoveryFromBus(ops: seq<B.Op>, s: C.State, team: string, peer: string, chunkSize: nat, d: B.Dispatch)
    returns (end: C.State, out: seq<C.Effect>, e: Event)
    requires Identified(ops) && TeamId(team) && chunkSize >= 1 && C.Waiting(s, team, peer)
    requires d in B.After(ops).log && (d.remote || d.event.durable)
    requires Accepts(d.event, team) && !Unserved(d.event)
    requires Less(C.Since(s.inFlight[C.Key(team, peer)].watermark), d.event.id)
    ensures exists count: nat :: end == C.Rounds(s, team, peer, B.After(ops).rows, chunkSize, count)
    ensures C.Key(team, peer) !in end.inFlight && end.effects == s.effects + out && C.NoViolation(out)
    ensures e in C.InjectedOf(out) && Recovered(e, d.event) && Accepts(e, team)
  {
    var rows := B.After(ops).rows;
    var since := C.Since(s.inFlight[C.Key(team, peer)].watermark);
    var es := C.Eligible(rows, team, since);
    TableIsServable(ops);
    var r := RowIsServed(ops, d, team);
    C.EligibleElements(rows, team, since, r);
    var i :| 0 <= i < |es| && es[i] == r;
    e := C.ArrivedAll(es)[i];
    C.ServedIsAccepted(r, team);
    var count: nat := |es| + 1;
    end, out := C.ExchangeCompletes(s, team, peer, rows, chunkSize, count, es);
  }

  // ---------- The buses of a mesh ----------

  function BusOp(op: M.Op): B.Op {
    match op
    case Publishes(_, input, id, physical) => B.Publishes(input, id, physical)
    case Delivers(_, e, physical) => B.Injects(e, physical)
  }

  /** What the bus of host `h` does in a run of the mesh. */
  ghost function BusOps(names: set<string>, ops: seq<M.Op>, h: string): seq<B.Op> {
    if ops == [] then []
    else
      var init, op := ops[..|ops| - 1], ops[|ops| - 1];
      if M.Enabled(M.After(names, init), op) && op.host == h then BusOps(names, init, h) + [BusOp(op)]
      else BusOps(names, init, h)
  }

  lemma BusStep(s: M.System, op: M.Op)
    requires M.Enabled(s, op)
    ensures M.Do(s, op).hosts.Keys == s.hosts.Keys
    ensures M.Do(s, op).hosts[op.host] == B.Do(s.hosts[op.host], BusOp(op))
    ensures forall h :: h in s.hosts && h != op.host ==> M.Do(s, op).hosts[h] == s.hosts[h]
  {
  }

  /** The state of a host is that of its own bus after its own operations. */
  lemma {:induction false} HostIsItsBus(names: set<string>, ops: seq<M.Op>, h: string)
    requires h in names
    ensures h in M.After(names, ops).hosts && M.After(names, ops).hosts[h] == B.After(BusOps(names, ops, h))
  {
    if ops != [] {
      var init, op := ops[..|ops| - 1], ops[|ops| - 1];
      HostIsItsBus(names, init, h);
      if M.Enabled(M.After(names, init), op) {
        BusStep(M.After(names, init), op);
        var before := BusOps(names, init, h);
        assert (before + [BusOp(op)])[..|before|] == before;
      }
    }
  }

  predicate Resembles(f: Event, e: Event) {
    e == f.(payload := e.payload) && Normal(e.payload) == Normal(f.payload)
  }

  /** `e` is an event the mesh issued, or a copy of one. */
  ghost predicate Known(issued: seq<Event>, e: Event) {
    WellKeyed(e.payload) && exists f :: f in issued && Resembles(f, e)
  }

  lemma KnownStays(s: M.System, op: M.Op, e: Event)
    requires M.Enabled(s, op) && Known(s.issued, e)
    ensures Known(M.Do(s, op).issued, e)
  {
    var f :| f in s.issued && Resembles(f, e);
    assert f in M.Do(s, op).issued;
  }

  lemma PutIsKnown(s: M.System, op: M.Op)
    requires M.Enabled(s, op) && PutBy(s.hosts[op.host], BusOp(op)).Some?
    ensures Known(M.Do(s, op).issued, PutBy(s.hosts[op.host], BusOp(op)).value)
  {
    var e := PutBy(s.hosts[op.host], BusOp(op)).value;
    if op.Publishes? {
      assert e in M.Do(s, op).issued && Resembles(e, e);
    } else {
      var f :| f in s.issued && M.Copy(f, e);
      assert f in M.Do(s, op).issued && Resembles(f, e);
    }
  }

  lemma {:induction false} PutsAreKnown(names: set<string>, ops: seq<M.Op>, h: string, e: Event)
    requires h in names && e in Puts(BusOps(names, ops, h))
    ensures Known(M.After(names, ops).issued, e)
  {
    var init, op := ops[..|ops| - 1], ops[|ops| - 1];
    var s, before := M.After(names, init), BusOps(names, init, h);
    HostIsItsBus(names, init, h);
    if M.Enabled(s, op) {
      assert (before + [BusOp(op)])[..|before|] == before;
      if e in Puts(before) {
        PutsAreKnown(names, init, h, e);
        KnownStays(s, op, e);
      } else {
        PutIsKnown(s, op);
      }
    } else {
      PutsAreKnown(names, init, h, e);
    }
  }

  lemma KnownAlike(issued: seq<Event>, e: Event, f: Event)
    requires M.UniqueIds(issued) && Known(issued, e) && Known(issued, f) && e.id == f.id
    ensures Alike(e, f)
  {
    var a :| a in issued && Resembles(a, e);
    var b :| b in issued && Resembles(b, f);
    assert a == b;
  }

  /** In every run of the mesh, ids identify events on every bus. */
  lemma {:induction false} MeshIdentifies(names: set<string>, ops: seq<M.Op>, h: string)
    requires h in names
    ensures Identified(BusOps(names, ops, h))
  {
    M.RunsKeepInv(names, ops);
    forall e, f | e in Puts(BusOps(names, ops, h)) && f in Puts(BusOps(names, ops, h)) && e.id == f.id
      ensures Alike(e, f)
    {
      PutsAreKnown(names, ops, h, e);
      PutsAreKnown(names, ops, h, f);
      KnownAlike(M.After(names, ops).issued, e, f);
    }
  }

  /**
   Recovery is complete: when the exchange with a host of the mesh has ended, the peer has injected every event for its
   team that the host had dispatched, durable or remote, above the watermark that the peer started from.
   */
  lemma RecoveryIsComplete(names: set<string>, ops: seq<M.Op>, h: string, s: C.State, team: string, peer: string,
      chunkSize: nat, d: B.Dispatch)
    returns (end: C.State, out: seq<C.Effect>, e: Event)
    requires h in M.After(names, ops).hosts
    requires TeamId(team) && chunkSize >= 1 && C.Waiting(s, team, peer)
    requires d in M.After(names, ops).hosts[h].log && (d.remote || d.event.durable)
    requires Accepts(d.event, team) && !Unserved(d.event)
    requires Less(C.Since(s.inFlight[C.Key(team, peer)].watermark), d.event.id)
    ensures exists count: nat :: end == C.Rounds(s, team, peer, M.After(names, ops).hosts[h].rows, chunkSize, count)
    ensures C.Key(team, peer) !in end.inFlight && end.effects == s.effects + out && C.NoViolation(out)
    ensures e in C.InjectedOf(out) && Recovered(e, d.event) && Accepts(e, team)
  {
    M.RunsKeepInv(names, ops);
    HostIsItsBus(names, ops, h);
    MeshIdentifies(names, ops, h);
    end, out, e := RecoveryFromBus(BusOps(names, ops, h), s, team, peer, chunkSize, d);
  }
}
