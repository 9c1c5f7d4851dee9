/** The memory table of every host of a mesh: src/memory/projector.ts fed by the dispatches of src/bus/bus.ts. */
module Federation {
  import opened Basics
  import opened Order
  import Hlc
  import opened Json
  import opened JsonLaws
  import opened Envelope
  import B = Bus
  import E = Events
  import M = Mesh
  import P = Projector

  function TextOf(fs: seq<Field>, key: string): Option<string> {
    match Get(fs, key)
    case Str(s) => Some(s)
    case _ => None
  }

  function IntOf(fs: seq<Field>, key: string): Option<int> {
    match Get(fs, key)
    case Num(n) => Some(n)
    case _ => None
  }

  predicate AllText(items: seq<Js>) {
    forall v <- items :: v.Str?
  }

  function Texts(items: seq<Js>): seq<string>
    requires AllText(items)
  {
    seq(|items|, i requires 0 <= i < |items| => items[i].s)
  }

  function TextsOf(fs: seq<Field>, key: string): Option<seq<string>> {
    match Get(fs, key)
    case Arr(items) => if AllText(items) then Some(Texts(items)) else None
    case _ => None
  }

  /** The subscriptions of the projector: which handler an event reaches, and what it reads of the payload. */
  function Read(e: E.Event): P.Event {
    var payload :=
      if !e.payload.Obj? then P.NotAnObject
      else
        var fs := e.payload.fields;
        if e.kind == "memory.wrote" then
          P.WrotePayload(
            TextOf(fs, "id"), TextOf(fs, "actorId"), TextOf(fs, "scope"), TextOf(fs, "scopeRef"), TextOf(fs, "role"),
            IntOf(fs, "depth"), TextOf(fs, "authoredBy"), TextOf(fs, "seededFrom"), TextOf(fs, "title"),
            TextOf(fs, "bodyMd"), TextsOf(fs, "tags"))
        else if e.kind == "memory.forgotten" then P.ForgottenPayload(TextOf(fs, "id"))
        else P.NotAnObject;
    P.Event(e.hlc, e.hostId, e.actorId, e.createdAt, payload)
  }

  function Reads(log: seq<B.Dispatch>): (es: seq<P.Event>)
    ensures |es| == |log|
    ensures forall i :: 0 <= i < |log| ==> es[i] == Read(log[i].event)
  {
    seq(|log|, i requires 0 <= i < |log| => Read(log[i].event))
  }

  /** The cell of memory `m` on host `h` after the run. */
  ghost function CellOn(names: set<string>, ops: seq<M.Op>, h: string, m: string): P.Cell {
    P.CellAfter(Reads(M.Log(names, ops, h)), m)
  }

  // ---------- Copies read the same ----------

  lemma {:induction false} PropertyReadsSame(fs: seq<Field>, gs: seq<Field>, key: string)
    requires DistinctKeys(fs) && DistinctKeys(gs) && NormalFields(fs) == NormalFields(gs)
    ensures TextOf(fs, key) == TextOf(gs, key)
    ensures IntOf(fs, key) == IntOf(gs, key)
  {
    GetNormal(fs, key);
    GetNormal(gs, key);
  }

  lemma {:induction false} ItemsReadSame(items: seq<Js>, others: seq<Js>)
    requires NormalItems(items) == NormalItems(others)
    ensures AllText(items) <==> AllText(others)
    ensures AllText(items) ==> Texts(items) == Texts(others)
  {
    forall i | 0 <= i < |items|
      ensures items[i].Str? <==> others[i].Str?
      ensures items[i].Str? ==> items[i] == others[i]
    {
      NormalItemsAt(items, i);
      NormalItemsAt(others, i);
    }
    assert AllText(items) <==> forall i :: 0 <= i < |items| ==> items[i].Str?;
    assert AllText(others) <==> forall i :: 0 <= i < |others| ==> others[i].Str?;
  }

  lemma {:induction false} TagsReadSame(fs: seq<Field>, gs: seq<Field>, key: string)
    requires DistinctKeys(fs) && DistinctKeys(gs) && NormalFields(fs) == NormalFields(gs)
    ensures TextsOf(fs, key) == TextsOf(gs, key)
  {
    GetNormal(fs, key);
    GetNormal(gs, key);
    if Get(fs, key).Arr? && Get(gs, key).Arr? {
      ItemsReadSame(Get(fs, key).items, Get(gs, key).items);
    }
  }

  lemma CopyReadsSame(f: E.Event, e: E.Event)
    requires M.Copy(f, e) && WellKeyed(f.payload)
    ensures Read(e) == Read(f)
  {
    if f.payload.Obj? && e.payload.Obj? {
      var fs, gs := f.payload.fields, e.payload.fields;
      PropertyReadsSame(fs, gs, "id");
      PropertyReadsSame(fs, gs, "actorId");
      PropertyReadsSame(fs, gs, "scope");
      PropertyReadsSame(fs, gs, "scopeRef");
      PropertyReadsSame(fs, gs, "role");
      PropertyReadsSame(fs, gs, "depth");
      PropertyReadsSame(fs, gs, "authoredBy");
      PropertyReadsSame(fs, gs, "seededFrom");
      PropertyReadsSame(fs, gs, "title");
      PropertyReadsSame(fs, gs, "bodyMd");
      TagsReadSame(fs, gs, "tags");
    }
  }

  // ---------- One identifier, one event ----------

  /** The issued event behind a dispatch. */
  lemma Source(names: set<string>, ops: seq<M.Op>, g: string, d: B.Dispatch) returns (f: E.Event)
    requires d in M.Log(names, ops, g)
    ensures f in M.After(names, ops).issued && f.id == d.event.id && f.hlc == d.event.hlc && f.hostId == d.event.hostId
    ensures Read(f) == Read(d.event)
  {
    M.LogFacts(names, ops, g);
    var issued := M.After(names, ops).issued;
    assert M.Sourced(issued, g, d);
    if d.remote {
      f :| f in issued && M.Copy(f, d.event);
      IssuedIsWellKeyed(names, ops, f);
      CopyReadsSame(f, d.event);
    } else {
      f := d.event;
    }
  }

  lemma {:induction false} IssuedIsWellKeyed(names: set<string>, ops: seq<M.Op>, f: E.Event)
    requires f in M.After(names, ops).issued
    ensures WellKeyed(f.payload)
  {
    M.IssuedIsAnnounced(names, ops, f);
    M.LogFacts(names, ops, f.hostId);
    assert M.Sourced(M.After(names, ops).issued, f.hostId, B.Dispatch(f, false));
  }

  /** Whatever two hosts dispatched under one identifier is one event, and their projectors read the same from it. */
  lemma OneIdOneRead(names: set<string>, ops: seq<M.Op>, g: string, d: B.Dispatch, h: string, e: B.Dispatch)
    requires d in M.Log(names, ops, g) && e in M.Log(names, ops, h) && d.event.id == e.event.id
    ensures d.event.hlc == e.event.hlc && Read(d.event) == Read(e.event)
  {
    var f := Source(names, ops, g, d);
    var f' := Source(names, ops, h, e);
    M.LogFacts(names, ops, g);
    M.IssuedById(M.After(names, ops).issued, f, f');
  }

  // ---------- Causality decides ----------

  predicate About(p: P.Event, m: string) {
    P.Writes(p, m) || P.Forgets(p, m)
  }

  /**
   Nothing with stamp `hlc` shows in the row, and an event with that stamp leaves the row alone when it is delivered
   again.
   */
  ghost predicate Superseded(c: P.Cell, hlc: string, m: string) {
    && (c.row.Some? ==> Less(hlc, c.row.value.hlc))
    && (c.row.None? ==> c.tomb.Some? && Less(hlc, c.tomb.value.hlc))
    && forall p: P.Event :: p.hlc == hlc ==> P.CellStep(c, p, m).row == c.row
  }

  lemma {:induction false} LessAtMost(a: string, b: string, c: string)
    ensures Less(a, b) && AtMost(b, c) ==> Less(a, c)
  {
    if Less(a, b) && Less(b, c) {
      Transitive(a, b, c);
    }
  }

  lemma {:induction false} LaterSupersedes(es: seq<P.Event>, m: string, hlc: string, w: P.Event)
    requires w in es && About(w, m) && Less(hlc, w.hlc)
    ensures Superseded(P.CellAfter(es, m), hlc, m)
    ensures P.Forgets(w, m) ==> P.CellAfter(es, m).tomb.Some? && Less(hlc, P.CellAfter(es, m).tomb.value.hlc)
  {
    var c := P.CellAfter(es, m);
    P.ReplayReflects(es, m);
    if c.tomb.Some? {
      var f :| P.TopForget(es, m, f) && c.tomb.value == P.TombOf(f);
      LessAtMost(hlc, w.hlc, c.tomb.value.hlc);
      if c.row.Some? {
        LessAtMost(hlc, c.tomb.value.hlc, c.row.value.hlc);
      }
    }
    if c.row.Some? {
      var v :| P.TopWrite(es, m, v) && P.RowFrom(c.row.value, v);
      LessAtMost(hlc, w.hlc, c.row.value.hlc);
      Asymmetric(hlc, c.row.value.hlc);
    }
  }

  /** A caused event has one stamp, on whichever host it is seen. */
  lemma CausedStamp(names: set<string>, ops: seq<M.Op>, e: E.Event, f: E.Event, g: string, d: B.Dispatch)
    requires M.Precedes(names, ops, e, f) && d in M.Log(names, ops, g) && d.event.id == f.id
    ensures d.event.hlc == f.hlc
  {
    var h: string, i: nat, j: nat :| M.Follows(M.Log(names, ops, h), i, j, e, f);
    OneIdOneRead(names, ops, g, d, h, M.Log(names, ops, h)[j]);
  }

  /**
   On every host that has the last event of a causal chain, an earlier event of the chain about the same memory is
   superseded: whatever order, loss and repetition the network produced.
   */
  lemma CausallyLaterWins(names: set<string>, ops: seq<M.Op>, chain: seq<E.Event>, a: nat, b: nat, g: string,
      d: B.Dispatch, m: string)
    requires M.Chain(names, ops, chain) && a < b < |chain|
    requires d in M.Log(names, ops, g) && d.event.id == chain[b].id && About(Read(d.event), m)
    ensures Superseded(CellOn(names, ops, g, m), chain[a].hlc, m)
    ensures P.Forgets(Read(d.event), m) ==>
              CellOn(names, ops, g, m).tomb.Some? && Less(chain[a].hlc, CellOn(names, ops, g, m).tomb.value.hlc)
  {
    M.ChainAscends(names, ops, chain, a, b);
    var k := b - 1;
    assert M.Precedes(names, ops, chain[k], chain[k + 1]);
    CausedStamp(names, ops, chain[k], chain[b], g, d);
    ReadsContain(M.Log(names, ops, g), d);
    LaterSupersedes(Reads(M.Log(names, ops, g)), m, chain[a].hlc, Read(d.event));
  }

  // ---------- Hosts agree ----------

  /** The deliveries about `m`. */
  function Keep(es: seq<P.Event>, m: string): (ks: seq<P.Event>)
    ensures forall p :: p in ks <==> p in es && About(p, m)
  {
    if es == [] then []
    else
      var init, e := es[..|es| - 1], es[|es| - 1];
      assert es == init + [e];
      if About(e, m) then Keep(init, m) + [e] else Keep(init, m)
  }

  lemma {:induction false} KeepSameCell(es: seq<P.Event>, m: string)
    ensures P.CellAfter(Keep(es, m), m) == P.CellAfter(es, m)
  {
    if es != [] {
      var init, e := es[..|es| - 1], es[|es| - 1];
      assert es == init + [e];
      KeepSameCell(init, m);
      P.CellSnoc(init, e, m);
      P.CellSnoc(Keep(init, m), e, m);
    }
  }

  ghost predicate Has(log: seq<B.Dispatch>, id: string, m: string) {
    exists d :: d in log && d.event.id == id && About(Read(d.event), m)
  }

  /** Stamps of events about `m` fit the encoding, and no two hosts stamped such events alike. */
  ghost predicate NoStampClash(log: seq<B.Dispatch>, m: string) {
    && (forall d :: d in log && About(Read(d.event), m) ==> Hlc.Decode(d.event.hlc).Ok?)
    && (forall d, e :: d in log && e in log && About(Read(d.event), m) && About(Read(e.event), m) ==>
          d.event.hostId == e.event.hostId || d.event.hlc != e.event.hlc)
  }

  lemma ReadsElement(log: seq<B.Dispatch>, p: P.Event) returns (d: B.Dispatch)
    requires p in Reads(log)
    ensures d in log && p == Read(d.event)
  {
    var i :| 0 <= i < |log| && Reads(log)[i] == p;
    d := log[i];
  }

  lemma ReadsContain(log: seq<B.Dispatch>, d: B.Dispatch)
    requires d in log
    ensures Read(d.event) in Reads(log)
  {
    var i :| 0 <= i < |log| && log[i] == d;
    assert Reads(log)[i] == Read(d.event);
  }

  /** Different events of one origin carry different stamps on every host they reach. */
  lemma OriginsDiffer(names: set<string>, ops: seq<M.Op>, g: string, d: B.Dispatch, e: B.Dispatch)
    requires d in M.Log(names, ops, g) && e in M.Log(names, ops, g)
    requires d.event.hostId == e.event.hostId && d.event.hlc == e.event.hlc && Hlc.Decode(d.event.hlc).Ok?
    ensures d.event.id == e.event.id
  {
    var x := Source(names, ops, g, d);
    var y := Source(names, ops, g, e);
    M.OwnStampIsUnique(names, ops, x, y);
  }

  lemma {:induction false} ClashFreeIsDistinct(names: set<string>, ops: seq<M.Op>, g: string, m: string)
    requires NoStampClash(M.Log(names, ops, g), m)
    ensures P.DistinctStamps(Keep(Reads(M.Log(names, ops, g)), m), m)
  {
    var log := M.Log(names, ops, g);
    var es := Keep(Reads(log), m);
    forall p, q | p in es && q in es && p.hlc == q.hlc ensures p == q {
      var d := ReadsElement(log, p);
      var e := ReadsElement(log, q);
      OriginsDiffer(names, ops, g, d, e);
      OneIdOneRead(names, ops, g, d, g, e);
    }
  }

  lemma {:induction false} SameIdsSameReads(names: set<string>, ops: seq<M.Op>, g: string, h: string, m: string,
      p: P.Event)
    requires forall id :: Has(M.Log(names, ops, g), id, m) ==> Has(M.Log(names, ops, h), id, m)
    requires p in Keep(Reads(M.Log(names, ops, g)), m)
    ensures p in Keep(Reads(M.Log(names, ops, h)), m)
  {
    var d := ReadsElement(M.Log(names, ops, g), p);
    assert Has(M.Log(names, ops, g), d.event.id, m);
    var e :| e in M.Log(names, ops, h) && e.event.id == d.event.id && About(Read(e.event), m);
    OneIdOneRead(names, ops, g, d, h, e);
    ReadsContain(M.Log(names, ops, h), e);
  }

  /**
   Two hosts that dispatched the same memory events, in whatever orders and however often, show the same memory, unless
   two hosts' clocks drew one stamp.
   */
  lemma HostsAgree(names: set<string>, ops: seq<M.Op>, g: string, h: string, m: string)
    requires forall id :: Has(M.Log(names, ops, g), id, m) <==> Has(M.Log(names, ops, h), id, m)
    requires NoStampClash(M.Log(names, ops, g), m)
    ensures P.View(CellOn(names, ops, g, m)) == P.View(CellOn(names, ops, h, m))
  {
    var es, fs := Keep(Reads(M.Log(names, ops, g)), m), Keep(Reads(M.Log(names, ops, h)), m);
    forall p ensures p in es <==> p in fs {
      if p in es {
        SameIdsSameReads(names, ops, g, h, m, p);
      }
      if p in fs {
        SameIdsSameReads(names, ops, h, g, m, p);
      }
    }
    ClashFreeIsDistinct(names, ops, g, m);
    P.DistinctStampsConverge(es, es, m);
    KeepSameCell(Reads(M.Log(names, ops, g)), m);
    KeepSameCell(Reads(M.Log(names, ops, h)), m);
  }

  // ---------- From the publisher's payload to every host's row ----------

  /** The property is the string, or no string if there is none. */
  predicate HasText(fs: seq<Field>, key: string, value: Option<string>) {
    if value.Some? then Get(fs, key) == Str(value.value) else !Get(fs, key).Str?
  }

  predicate HasTags(fs: seq<Field>, tags: seq<string>) {
    var v := Get(fs, "tags");
    if v.Arr? && forall w <- v.items :: w.Str? then
      |tags| == |v.items| && forall i :: 0 <= i < |tags| ==> v.items[i] == Str(tags[i])
    else tags == []
  }

  /** The row of memory `m` holds what the payload of a `memory.wrote` says. */
  predicate Holds(c: P.Content, fs: seq<Field>, m: string) {
    && m != "" && c.actorId != ""
    && Get(fs, "id") == Str(m) && Get(fs, "actorId") == Str(c.actorId) && Get(fs, "scope") == Str(c.scope)
    && Get(fs, "title") == Str(c.title) && Get(fs, "bodyMd") == Str(c.body)
    && HasText(fs, "scopeRef", c.scopeRef) && HasText(fs, "authoredBy", c.authoredBy)
    && HasText(fs, "seededFrom", c.seededFrom)
    && (Get(fs, "role") == Str(c.role) || (c.role == "" && !Get(fs, "role").Str?))
    && (Get(fs, "depth") == Num(c.depth) || (c.depth == 1 && !Get(fs, "depth").Num?))
    && HasTags(fs, c.tags)
  }

  lemma TagsHold(fs: seq<Field>, tags: seq<string>)
    requires tags == match TextsOf(fs, "tags") case Some(ts) => ts case None => []
    ensures HasTags(fs, tags)
  {
    var v := Get(fs, "tags");
    if v.Arr? && AllText(v.items) {
      forall i | 0 <= i < |tags| ensures v.items[i] == Str(tags[i]) {
        assert v.items[i] in v.items;
      }
    }
  }

  lemma ReadHolds(e: E.Event, m: string, c: P.Content)
    requires P.IsWriteTo(Read(e).payload, m) && P.HasFields(c, Read(e).payload)
    ensures e.kind == "memory.wrote" && e.payload.Obj? && Holds(c, e.payload.fields, m)
  {
    TagsHold(e.payload.fields, c.tags);
  }

  /**
   Every row on every host comes from a publication of the run: some host published a `memory.wrote` whose payload is
   what the row holds, with the row's stamp and time.
   */
  lemma RowWasPublished(names: set<string>, ops: seq<M.Op>, h: string, m: string) returns (k: nat, e: E.Event)
    requires m in P.Replay(Reads(M.Log(names, ops, h))).rows
    ensures M.PublishedAt(names, ops, k, e)
    ensures var row, input := P.Replay(Reads(M.Log(names, ops, h))).rows[m], ops[k].input;
            && input.kind == "memory.wrote" && input.payload.Obj? && Holds(row.content, input.payload.fields, m)
            && row.hlc == e.hlc && row.updatedAt == e.createdAt
  {
    var log := M.Log(names, ops, h);
    var w, first := P.RowHoldsPayload(Reads(log), m);
    var d := ReadsElement(log, w);
    e := Source(names, ops, h, d);
    k := M.IssuedWasPublished(names, ops, e);
    ReadHolds(e, m, P.Replay(Reads(log)).rows[m].content);
  }
}
