/**
 The memory projection (src/memory/projector.ts): `memory.wrote` and `memory.forgotten` events folded into
 rows and tombstones, last writer wins by clock stamp.
 */
module Projector {
  import opened Basics
  import opened Order

  /** The content of a `memory.wrote` payload that passed the projector's checks, with its defaults filled in. */
  datatype Content = Content(
    actorId: string,
    scope: string,
    scopeRef: Option<string>,
    role: string,
    depth: int,
    authoredBy: Option<string>,
    seededFrom: Option<string>,
    title: string,
    body: string,
    tags: seq<string>
  )

  /** A payload as it arrives: a field of the wrong type is `None`. */
  datatype Payload =
    | WrotePayload(
        id: Option<string>,
        actorId: Option<string>,
        scope: Option<string>,
        scopeRef: Option<string>,
        role: Option<string>,
        depth: Option<int>,
        authoredBy: Option<string>,
        seededFrom: Option<string>,
        title: Option<string>,
        body: Option<string>,
        tags: Option<seq<string>>)
    | ForgottenPayload(forgottenId: Option<string>)
    | NotAnObject

  datatype Event = Event(hlc: string, hostId: string, actorId: string, createdAt: int, payload: Payload)

  datatype Row = Row(hlc: string, hostId: string, content: Content, createdAt: int, updatedAt: int)

  datatype Tomb = Tomb(hlc: string, hostId: string, actorId: string, forgottenAt: int)

  datatype State = State(rows: map<string, Row>, tombs: map<string, Tomb>)

  const EMPTY := State(map[], map[])

  /** The write that an event makes, if it is a write the projector does not skip as malformed. */
  function WriteOf(e: Event): Option<(string, Content)> {
    match e.payload
    case WrotePayload(Some(id), Some(actor), Some(scope), scopeRef, role, depth, authoredBy, seededFrom,
                      Some(title), Some(body), tags) =>
      if id == "" || actor == "" then None
      else
        Some((id, Content(actor, scope, scopeRef, Default(role, ""), Default(depth, 1), authoredBy, seededFrom,
                          title, body, Default(tags, []))))
    case _ => None
  }

  function Default<T>(o: Option<T>, d: T): T {
    match o
    case Some(v) => v
    case None => d
  }

  predicate Writes(e: Event, m: string) {
    WriteOf(e).Some? && WriteOf(e).value.0 == m
  }

  predicate Forgets(e: Event, m: string) {
    e.payload.ForgottenPayload? && e.payload.forgottenId == Some(m)
  }

  function TombOf(e: Event): Tomb {
    Tomb(e.hlc, e.hostId, e.actorId, e.createdAt)
  }

  function ApplyWrote(s: State, e: Event): State {
    if WriteOf(e).None? then s
    else
      var (m, content) := WriteOf(e).value;
      if m in s.tombs && AtMost(e.hlc, s.tombs[m].hlc) then s
      else if m !in s.rows then
        s.(rows := s.rows[m := Row(e.hlc, e.hostId, content, e.createdAt, e.createdAt)])
      else if AtMost(e.hlc, s.rows[m].hlc) then s
      else
        s.(rows := s.rows[m := s.rows[m].(hlc := e.hlc, content := content, updatedAt := e.createdAt)])
  }

  function ApplyForgotten(s: State, e: Event): State {
    if !e.payload.ForgottenPayload? || e.payload.forgottenId.None? then s
    else
      var m := e.payload.forgottenId.value;
      var tombs := if m in s.tombs && AtMost(e.hlc, s.tombs[m].hlc) then s.tombs else s.tombs[m := TombOf(e)];
      var rows := if m in s.rows && Less(s.rows[m].hlc, e.hlc) then s.rows - {m} else s.rows;
      State(rows, tombs)
  }

  /** One delivery: the handler subscribed to the event's type runs. */
  function Apply(s: State, e: Event): State {
    if e.payload.ForgottenPayload? then ApplyForgotten(s, e) else ApplyWrote(s, e)
  }

  /** The tables after the deliveries `es`, the first one first. */
  function Replay(es: seq<Event>): State {
    if es == [] then EMPTY else Apply(Replay(es[..|es| - 1]), es[|es| - 1])
  }

  /** The two tables, changed in place by the event handlers. */
  class Tables {
    var rows: map<string, Row>
    var tombs: map<string, Tomb>

    constructor ()
      ensures Now() == EMPTY
    {
      rows, tombs := map[], map[];
    }

    function Now(): State
      reads this
    {
      State(rows, tombs)
    }

    method OnWrote(e: Event)
      modifies this
      ensures Now() == ApplyWrote(old(Now()), e)
    {
      match WriteOf(e)
      case None => return;
      case Some((m, content)) =>
        if m in tombs && AtMost(e.hlc, tombs[m].hlc) {
          return;
        }
        if m !in rows {
          rows := rows[m := Row(e.hlc, e.hostId, content, e.createdAt, e.createdAt)];
          return;
        }
        var existing := rows[m];
        if AtMost(e.hlc, existing.hlc) {
          return;
        }
        rows := rows[m := existing.(hlc := e.hlc, content := content, updatedAt := e.createdAt)];
    }

    method OnForgotten(e: Event)
      modifies this
      ensures Now() == ApplyForgotten(old(Now()), e)
    {
      if !e.payload.ForgottenPayload? || e.payload.forgottenId.None? {
        return;
      }
      var m := e.payload.forgottenId.value;
      Total(e.hlc, if m in tombs then tombs[m].hlc else "");
      if m !in tombs || !AtMost(e.hlc, tombs[m].hlc) {
        tombs := tombs[m := TombOf(e)];
      }
      if m !in rows {
        return;
      }
      if Less(rows[m].hlc, e.hlc) {
        rows := rows - {m};
      }
    }
  }

  // ---------- One memory at a time ----------

  datatype Cell = Cell(row: Option<Row>, tomb: Option<Tomb>)

  function CellOf(s: State, m: string): Cell {
    Cell(if m in s.rows then Some(s.rows[m]) else None, if m in s.tombs then Some(s.tombs[m]) else None)
  }

  function CellStep(c: Cell, e: Event, m: string): Cell {
    if Writes(e, m) then
      var content := WriteOf(e).value.1;
      if c.tomb.Some? && AtMost(e.hlc, c.tomb.value.hlc) then c
      else if c.row.None? then c.(row := Some(Row(e.hlc, e.hostId, content, e.createdAt, e.createdAt)))
      else if AtMost(e.hlc, c.row.value.hlc) then c
      else c.(row := Some(c.row.value.(hlc := e.hlc, content := content, updatedAt := e.createdAt)))
    else if Forgets(e, m) then
      Cell(
        if c.row.Some? && Less(c.row.value.hlc, e.hlc) then None else c.row,
        if c.tomb.Some? && AtMost(e.hlc, c.tomb.value.hlc) then c.tomb else Some(TombOf(e)))
    else c
  }

  function CellAfter(es: seq<Event>, m: string): Cell {
    CellOf(Replay(es), m)
  }

  lemma CellSnoc(es: seq<Event>, e: Event, m: string)
    ensures CellAfter(es + [e], m) == CellStep(CellAfter(es, m), e, m)
  {
    assert (es + [e])[..|es|] == es;
  }

  // ---------- What a cell holds after any deliveries ----------

  ghost predicate TopWrite(es: seq<Event>, m: string, w: Event) {
    w in es && Writes(w, m) && forall e :: e in es && Writes(e, m) ==> AtMost(e.hlc, w.hlc)
  }

  ghost predicate TopForget(es: seq<Event>, m: string, f: Event) {
    f in es && Forgets(f, m) && forall e :: e in es && Forgets(e, m) ==> AtMost(e.hlc, f.hlc)
  }

  /** The columns of a row that come from its last effective write. */
  predicate RowFrom(r: Row, w: Event) {
    WriteOf(w).Some? && r.hlc == w.hlc && r.content == WriteOf(w).value.1 && r.updatedAt == w.createdAt
  }

  /** The columns that only the insertion sets. */
  predicate CreatedBy(r: Row, w: Event) {
    r.hostId == w.hostId && r.createdAt == w.createdAt
  }

  /**
   A tombstone is from a top forget; a row is from a top write and created by some write; without a row, every write is
   dead.
   */
  ghost predicate Reflects(es: seq<Event>, c: Cell, m: string) {
    && (c.tomb.None? ==> forall e :: e in es ==> !Forgets(e, m))
    && (c.tomb.Some? ==> exists f :: TopForget(es, m, f) && c.tomb.value == TombOf(f))
    && (c.row.Some? ==> exists w :: TopWrite(es, m, w) && RowFrom(c.row.value, w))
    && (c.row.Some? ==> exists w :: w in es && Writes(w, m) && CreatedBy(c.row.value, w))
    && (c.row.Some? && c.tomb.Some? ==> AtMost(c.tomb.value.hlc, c.row.value.hlc))
    && (c.row.None? ==> forall e :: e in es && Writes(e, m) ==> c.tomb.Some? && AtMost(e.hlc, c.tomb.value.hlc))
  }

  lemma TopWriteSnoc(es: seq<Event>, e: Event, m: string, w: Event)
    requires w == e || TopWrite(es, m, w)
    requires w == e ==> Writes(e, m) && forall x :: x in es && Writes(x, m) ==> AtMost(x.hlc, e.hlc)
    requires w != e && Writes(e, m) ==> AtMost(e.hlc, w.hlc)
    ensures TopWrite(es + [e], m, w)
  {
  }

  lemma TopForgetSnoc(es: seq<Event>, e: Event, m: string, f: Event)
    requires f == e || TopForget(es, m, f)
    requires f == e ==> Forgets(e, m) && forall x :: x in es && Forgets(x, m) ==> AtMost(x.hlc, e.hlc)
    requires f != e && Forgets(e, m) ==> AtMost(e.hlc, f.hlc)
    ensures TopForget(es + [e], m, f)
  {
  }

  lemma AfterWrite(es: seq<Event>, c: Cell, e: Event, m: string)
    requires Reflects(es, c, m) && Writes(e, m)
    ensures Reflects(es + [e], CellStep(c, e, m), m)
  {
    StrictTotalOrder();
    var d := CellStep(c, e, m);
    if c.tomb.Some? {
      var f :| TopForget(es, m, f) && c.tomb.value == TombOf(f);
      TopForgetSnoc(es, e, m, f);
    }
    assert e in es + [e];
    if d.row.Some? && d.row != c.row {
      if c.row.Some? {
        var w :| TopWrite(es, m, w) && RowFrom(c.row.value, w);
      }
      TopWriteSnoc(es, e, m, e);
      if c.row.Some? {
        var w :| w in es && Writes(w, m) && CreatedBy(c.row.value, w);
        assert w in es + [e];
      } else {
        assert CreatedBy(d.row.value, e);
      }
    } else if c.row.Some? {
      var w :| TopWrite(es, m, w) && RowFrom(c.row.value, w);
      TopWriteSnoc(es, e, m, w);
      var v :| v in es && Writes(v, m) && CreatedBy(c.row.value, v);
      assert v in es + [e];
    }
  }

  lemma AfterForget(es: seq<Event>, c: Cell, e: Event, m: string)
    requires Reflects(es, c, m) && Forgets(e, m)
    ensures Reflects(es + [e], CellStep(c, e, m), m)
  {
    StrictTotalOrder();
    var d := CellStep(c, e, m);
    if c.tomb.Some? {
      var f :| TopForget(es, m, f) && c.tomb.value == TombOf(f);
      if d.tomb == c.tomb {
        TopForgetSnoc(es, e, m, f);
      }
    }
    if d.tomb == Some(TombOf(e)) && d.tomb != c.tomb {
      TopForgetSnoc(es, e, m, e);
    }
    if c.row.Some? {
      var w :| TopWrite(es, m, w) && RowFrom(c.row.value, w);
      TopWriteSnoc(es, e, m, w);
      var v :| v in es && Writes(v, m) && CreatedBy(c.row.value, v);
      assert v in es + [e];
    }
  }

  lemma AfterOther(es: seq<Event>, c: Cell, e: Event, m: string)
    requires Reflects(es, c, m) && !Writes(e, m) && !Forgets(e, m)
    ensures Reflects(es + [e], c, m)
  {
    if c.tomb.Some? {
      var f :| TopForget(es, m, f) && c.tomb.value == TombOf(f);
      TopForgetSnoc(es, e, m, f);
    }
    if c.row.Some? {
      var w :| TopWrite(es, m, w) && RowFrom(c.row.value, w);
      TopWriteSnoc(es, e, m, w);
      var v :| v in es && Writes(v, m) && CreatedBy(c.row.value, v);
      assert v in es + [e];
    }
  }

  /** Whatever is delivered, in whatever order and however often, the cell reflects it. */
  lemma {:induction false} ReplayReflects(es: seq<Event>, m: string)
    ensures Reflects(es, CellAfter(es, m), m)
  {
    if es != [] {
      var init, e := es[..|es| - 1], es[|es| - 1];
      assert es == init + [e];
      ReplayReflects(init, m);
      CellSnoc(init, e, m);
      var c := CellAfter(init, m);
      if Writes(e, m) {
        AfterWrite(init, c, e, m);
      } else if Forgets(e, m) {
        AfterForget(init, c, e, m);
      } else {
        AfterOther(init, c, e, m);
      }
    }
  }

  // ---------- Convergence ----------

  /** `fs` delivers exactly the events of `es`, possibly reordered and repeated. */
  ghost predicate SameEvents(es: seq<Event>, fs: seq<Event>) {
    forall e :: e in es <==> e in fs
  }

  /** What readers of a memory see of a cell: everything but the two insertion columns. */
  function View(c: Cell): (Option<(string, Content, int)>, Option<Tomb>) {
    (if c.row.None? then None else Some((c.row.value.hlc, c.row.value.content, c.row.value.updatedAt)), c.tomb)
  }

  /** Every delivery schedule of the same events leaves the same view of `m`. */
  ghost predicate Converges(es: seq<Event>, m: string) {
    forall fs, gs :: SameEvents(es, fs) && SameEvents(es, gs) ==> View(CellAfter(fs, m)) == View(CellAfter(gs, m))
  }

  /** The memory outlives every forget. */
  ghost predicate Survives(es: seq<Event>, m: string, w: Event) {
    TopWrite(es, m, w) && forall f :: f in es && Forgets(f, m) ==> Less(f.hlc, w.hlc)
  }

  /** No two latest events about `m` carry the same stamp while disagreeing. */
  ghost predicate NoTopTie(es: seq<Event>, m: string) {
    && (forall w, f :: TopWrite(es, m, w) && TopForget(es, m, f) ==> w.hlc != f.hlc)
    && (forall w, v :: Survives(es, m, w) && Survives(es, m, v) ==> WriteOf(w) == WriteOf(v) && w.createdAt == v.createdAt)
    && (forall f, g :: TopForget(es, m, f) && TopForget(es, m, g) ==> TombOf(f) == TombOf(g))
  }

  /** Events about one memory never share a stamp: the promise that a host's clock keeps for its own events. */
  ghost predicate DistinctStamps(es: seq<Event>, m: string) {
    forall e, f ::
      e in es && f in es && (Writes(e, m) || Forgets(e, m)) && (Writes(f, m) || Forgets(f, m)) && e.hlc == f.hlc ==> e == f
  }

  lemma SameStamp(es: seq<Event>, m: string, e: Event, f: Event)
    requires (TopWrite(es, m, e) && TopWrite(es, m, f)) || (TopForget(es, m, e) && TopForget(es, m, f))
    ensures e.hlc == f.hlc
  {
    AtMostAntisymmetric(e.hlc, f.hlc);
  }

  /** Without a top tie, a row is there only if the memory survives, and then it is the surviving write's. */
  lemma RowSurvives(es: seq<Event>, fs: seq<Event>, m: string) returns (w: Event)
    requires SameEvents(es, fs) && NoTopTie(es, m) && CellAfter(fs, m).row.Some?
    ensures Survives(es, m, w) && RowFrom(CellAfter(fs, m).row.value, w)
  {
    var c := CellAfter(fs, m);
    ReplayReflects(fs, m);
    w :| TopWrite(fs, m, w) && RowFrom(c.row.value, w);
    forall f | f in es && Forgets(f, m) ensures Less(f.hlc, w.hlc) {
      var g :| TopForget(fs, m, g) && c.tomb.value == TombOf(g);
      AtMostTransitive(f.hlc, g.hlc, w.hlc);
      assert g.hlc != w.hlc;
    }
  }

  lemma SurvivorHasRow(es: seq<Event>, fs: seq<Event>, m: string, w: Event)
    requires SameEvents(es, fs) && NoTopTie(es, m) && Survives(es, m, w)
    ensures CellAfter(fs, m).row.Some? && RowFrom(CellAfter(fs, m).row.value, w)
  {
    var c := CellAfter(fs, m);
    if c.row.None? {
      ReplayReflects(fs, m);
      assert w in fs;
      var f :| TopForget(fs, m, f) && c.tomb.value == TombOf(f);
      assert f in es;
      Asymmetric(f.hlc, w.hlc);
      assert false;
    } else {
      var v := RowSurvives(es, fs, m);
      SameStamp(es, m, v, w);
    }
  }

  lemma TombDetermined(es: seq<Event>, fs: seq<Event>, m: string)
    requires SameEvents(es, fs) && NoTopTie(es, m)
    ensures CellAfter(fs, m).tomb.Some? <==> exists f :: TopForget(es, m, f)
    ensures forall f :: TopForget(es, m, f) ==> CellAfter(fs, m).tomb == Some(TombOf(f))
  {
    var c := CellAfter(fs, m);
    ReplayReflects(fs, m);
    if c.tomb.Some? {
      var f :| TopForget(fs, m, f) && c.tomb.value == TombOf(f);
    } else {
      forall f ensures !TopForget(es, m, f) {
        assert f in fs ==> !Forgets(f, m);
      }
    }
  }

  lemma ViewDetermined(es: seq<Event>, fs: seq<Event>, gs: seq<Event>, m: string)
    requires SameEvents(es, fs) && SameEvents(es, gs) && NoTopTie(es, m)
    ensures View(CellAfter(fs, m)) == View(CellAfter(gs, m))
  {
    TombDetermined(es, fs, m);
    TombDetermined(es, gs, m);
    if CellAfter(fs, m).tomb.Some? {
      var f :| TopForget(es, m, f);
    }
    if CellAfter(fs, m).row.Some? {
      var w := RowSurvives(es, fs, m);
      SurvivorHasRow(es, gs, m, w);
    } else if CellAfter(gs, m).row.Some? {
      var w := RowSurvives(es, gs, m);
      SurvivorHasRow(es, fs, m, w);
    }
  }

  /** Once a row is at least as late as everything still to come, it stays as it is. */
  lemma {:induction false} RowSteady(pre: seq<Event>, es: seq<Event>, m: string)
    requires CellAfter(pre, m).row.Some?
    requires forall e :: e in es && (Writes(e, m) || Forgets(e, m)) ==> AtMost(e.hlc, CellAfter(pre, m).row.value.hlc)
    ensures CellAfter(pre + es, m).row == CellAfter(pre, m).row
  {
    if es == [] {
      assert pre + es == pre;
    } else {
      var init, e := es[..|es| - 1], es[|es| - 1];
      assert es == init + [e] && pre + es == (pre + init) + [e];
      RowSteady(pre, init, m);
      CellSnoc(pre + init, e, m);
      StrictTotalOrder();
    }
  }

  /**
   A tombstone at least as late as every forget still to come stays; if it is as late as every write too, no row
   appears.
   */
  lemma {:induction false} TombSteady(pre: seq<Event>, es: seq<Event>, m: string)
    requires CellAfter(pre, m).tomb.Some?
    requires forall e :: e in es && Forgets(e, m) ==> AtMost(e.hlc, CellAfter(pre, m).tomb.value.hlc)
    ensures CellAfter(pre + es, m).tomb == CellAfter(pre, m).tomb
    ensures && CellAfter(pre, m).row.None?
            && (forall e :: e in es && Writes(e, m) ==> AtMost(e.hlc, CellAfter(pre, m).tomb.value.hlc)) ==>
              CellAfter(pre + es, m).row.None?
  {
    if es == [] {
      assert pre + es == pre;
    } else {
      var init, e := es[..|es| - 1], es[|es| - 1];
      assert es == init + [e] && pre + es == (pre + init) + [e];
      TombSteady(pre, init, m);
      CellSnoc(pre + init, e, m);
    }
  }

  lemma First(e: Event, m: string)
    ensures CellAfter([e], m) == CellStep(Cell(None, None), e, m)
  {
    CellSnoc([], e, m);
    assert [] + [e] == [e];
  }

  /** Delivering a top write first makes it the one that stays, unless a forget is strictly later. */
  lemma LeadingWrite(es: seq<Event>, m: string, w: Event)
    requires TopWrite(es, m, w) && forall f :: f in es && Forgets(f, m) ==> AtMost(f.hlc, w.hlc)
    ensures SameEvents(es, [w] + es)
    ensures CellAfter([w] + es, m).row.Some? && RowFrom(CellAfter([w] + es, m).row.value, w)
  {
    First(w, m);
    RowSteady([w], es, m);
  }

  lemma LeadingForget(es: seq<Event>, m: string, f: Event)
    requires TopForget(es, m, f)
    ensures SameEvents(es, [f] + es)
    ensures CellAfter([f] + es, m).tomb == Some(TombOf(f))
    ensures (forall w :: w in es && Writes(w, m) ==> AtMost(w.hlc, f.hlc)) ==> CellAfter([f] + es, m).row.None?
  {
    First(f, m);
    TombSteady([f], es, m);
  }

  lemma WriteForgetTie(es: seq<Event>, m: string, w: Event, f: Event)
    requires TopWrite(es, m, w) && TopForget(es, m, f) && w.hlc == f.hlc
    ensures !Converges(es, m)
  {
    LeadingWrite(es, m, w);
    LeadingForget(es, m, f);
    assert View(CellAfter([w] + es, m)) != View(CellAfter([f] + es, m));
  }

  lemma WriteTie(es: seq<Event>, m: string, w: Event, v: Event)
    requires Survives(es, m, w) && Survives(es, m, v) && !(WriteOf(w) == WriteOf(v) && w.createdAt == v.createdAt)
    ensures !Converges(es, m)
  {
    LeadingWrite(es, m, w);
    LeadingWrite(es, m, v);
    assert View(CellAfter([w] + es, m)) != View(CellAfter([v] + es, m));
  }

  lemma ForgetTie(es: seq<Event>, m: string, f: Event, g: Event)
    requires TopForget(es, m, f) && TopForget(es, m, g) && TombOf(f) != TombOf(g)
    ensures !Converges(es, m)
  {
    LeadingForget(es, m, f);
    LeadingForget(es, m, g);
    assert View(CellAfter([f] + es, m)) != View(CellAfter([g] + es, m));
  }

  lemma TieDiverges(es: seq<Event>, m: string)
    requires !NoTopTie(es, m)
    ensures !Converges(es, m)
  {
    if w, f :| TopWrite(es, m, w) && TopForget(es, m, f) && w.hlc == f.hlc {
      WriteForgetTie(es, m, w, f);
    } else if w, v :| Survives(es, m, w) && Survives(es, m, v) && !(WriteOf(w) == WriteOf(v) && w.createdAt == v.createdAt) {
      WriteTie(es, m, w, v);
    } else {
      var f, g :| TopForget(es, m, f) && TopForget(es, m, g) && TombOf(f) != TombOf(g);
      ForgetTie(es, m, f, g);
    }
  }

  /**
   Delivery order and repetition are invisible exactly when no two latest events about the memory tie and disagree.
   */
  lemma ConvergesIff(es: seq<Event>, m: string)
    ensures Converges(es, m) <==> NoTopTie(es, m)
  {
    if NoTopTie(es, m) {
      forall fs, gs | SameEvents(es, fs) && SameEvents(es, gs)
        ensures View(CellAfter(fs, m)) == View(CellAfter(gs, m))
      {
        ViewDetermined(es, fs, gs, m);
      }
    } else {
      TieDiverges(es, m);
    }
  }

  lemma DistinctStampsDoNotTie(es: seq<Event>, m: string)
    requires DistinctStamps(es, m)
    ensures NoTopTie(es, m)
  {
    forall w, v | Survives(es, m, w) && Survives(es, m, v) ensures w == v {
      SameStamp(es, m, w, v);
    }
    forall f, g | TopForget(es, m, f) && TopForget(es, m, g) ensures f == g {
      SameStamp(es, m, f, g);
    }
    forall w, f | TopWrite(es, m, w) && TopForget(es, m, f) ensures w.hlc != f.hlc {
      assert w != f;
    }
  }

  /**
   With distinct stamps every schedule converges: to the latest write if and only if it is later than every forget.
   */
  lemma DistinctStampsConverge(es: seq<Event>, fs: seq<Event>, m: string)
    requires DistinctStamps(es, m) && SameEvents(es, fs)
    ensures Converges(es, m)
    ensures CellAfter(fs, m).row.Some? <==> exists w :: Survives(es, m, w)
    ensures forall w :: Survives(es, m, w) ==> CellAfter(fs, m).row.Some? && RowFrom(CellAfter(fs, m).row.value, w)
    ensures forall f :: TopForget(es, m, f) ==> CellAfter(fs, m).tomb == Some(TombOf(f))
  {
    DistinctStampsDoNotTie(es, m);
    ConvergesIff(es, m);
    TombDetermined(es, fs, m);
    forall w | Survives(es, m, w) ensures CellAfter(fs, m).row.Some? && RowFrom(CellAfter(fs, m).row.value, w) {
      SurvivorHasRow(es, fs, m, w);
    }
    if CellAfter(fs, m).row.Some? {
      var w := RowSurvives(es, fs, m);
    }
  }

  // ---------- The insertion columns ----------

  ghost predicate ConvergesFully(es: seq<Event>, m: string) {
    forall fs, gs :: SameEvents(es, fs) && SameEvents(es, gs) ==> CellAfter(fs, m) == CellAfter(gs, m)
  }

  /** All writes of `m` agree on the columns that only an insertion sets. */
  ghost predicate SameOrigin(es: seq<Event>, m: string) {
    forall w, v :: w in es && v in es && Writes(w, m) && Writes(v, m) ==> w.hostId == v.hostId && w.createdAt == v.createdAt
  }

  /** Any write can be made the creator of a surviving row: deliver it first and the top write next. */
  lemma LeadingCreator(es: seq<Event>, m: string, v: Event, w: Event)
    requires Survives(es, m, w) && v in es && Writes(v, m)
    ensures SameEvents(es, [v, w] + es)
    ensures CellAfter([v, w] + es, m).row.Some? && CreatedBy(CellAfter([v, w] + es, m).row.value, v)
  {
    First(v, m);
    CellSnoc([v], w, m);
    assert [v] + [w] == [v, w];
    StrictTotalOrder();
    RowSteady([v, w], es, m);
  }

  lemma OriginsDiverge(es: seq<Event>, m: string, w: Event)
    requires Survives(es, m, w) && !SameOrigin(es, m)
    ensures !ConvergesFully(es, m)
  {
    var u, v :| u in es && v in es && Writes(u, m) && Writes(v, m) && !(u.hostId == v.hostId && u.createdAt == v.createdAt);
    LeadingCreator(es, m, u, w);
    LeadingCreator(es, m, v, w);
    assert CellAfter([u, w] + es, m) != CellAfter([v, w] + es, m);
  }

  lemma CreatorDetermined(es: seq<Event>, fs: seq<Event>, gs: seq<Event>, m: string)
    requires SameEvents(es, fs) && SameEvents(es, gs) && SameOrigin(es, m)
    requires CellAfter(fs, m).row.Some? && CellAfter(gs, m).row.Some?
    ensures CellAfter(fs, m).row.value.hostId == CellAfter(gs, m).row.value.hostId
    ensures CellAfter(fs, m).row.value.createdAt == CellAfter(gs, m).row.value.createdAt
  {
    ReplayReflects(fs, m);
    ReplayReflects(gs, m);
    var u :| u in fs && Writes(u, m) && CreatedBy(CellAfter(fs, m).row.value, u);
    var v :| v in gs && Writes(v, m) && CreatedBy(CellAfter(gs, m).row.value, v);
    assert u in es && v in es;
  }

  /**
   The whole row, `hostId` and `createdAt` included, is independent of the schedule exactly when moreover no row
   survives or all its writes came from one host at one time.
   */
  lemma ConvergesFullyIff(es: seq<Event>, m: string)
    ensures ConvergesFully(es, m) <==> NoTopTie(es, m) && ((exists w :: Survives(es, m, w)) ==> SameOrigin(es, m))
  {
    if !NoTopTie(es, m) {
      TieDiverges(es, m);
    } else if w :| Survives(es, m, w) && !SameOrigin(es, m) {
      OriginsDiverge(es, m, w);
    } else {
      forall fs, gs | SameEvents(es, fs) && SameEvents(es, gs) ensures CellAfter(fs, m) == CellAfter(gs, m) {
        ViewDetermined(es, fs, gs, m);
        if CellAfter(fs, m).row.Some? {
          var w := RowSurvives(es, fs, m);
          CreatorDetermined(es, fs, gs, m);
        }
      }
    }
  }

  /** Two hosts write one memory with different stamps: which host the row names depends on the order of delivery. */
  lemma HostColumnDependsOnOrder(m: string, w: Event, v: Event)
    requires Writes(w, m) && Writes(v, m) && Less(v.hlc, w.hlc) && w.hostId != v.hostId
    ensures DistinctStamps([w, v], m) && Converges([w, v], m) && !ConvergesFully([w, v], m)
  {
    var es := [w, v];
    StrictTotalOrder();
    DistinctStampsConverge(es, es, m);
    assert Survives(es, m, w);
    assert !SameOrigin(es, m) by {
      assert w in es && v in es;
    }
    ConvergesFullyIff(es, m);
  }

  // ---------- Rows in terms of payloads ----------

  /** The payload names memory `m` and an actor, and has a scope, a title and a body. */
  predicate IsWriteTo(p: Payload, m: string) {
    && p.WrotePayload?
    && p.id == Some(m) && m != ""
    && p.actorId.Some? && p.actorId != Some("")
    && p.scope.Some? && p.title.Some? && p.body.Some?
  }

  /** The columns that a write sets are the payload's fields, an absent one at its default. */
  predicate HasFields(c: Content, p: Payload)
    requires p.WrotePayload?
  {
    && Some(c.actorId) == p.actorId && Some(c.scope) == p.scope && Some(c.title) == p.title && Some(c.body) == p.body
    && c.scopeRef == p.scopeRef && c.authoredBy == p.authoredBy && c.seededFrom == p.seededFrom
    && (match p.role case Some(role) => c.role == role case None => c.role == "")
    && (match p.depth case Some(depth) => c.depth == depth case None => c.depth == 1)
    && (match p.tags case Some(tags) => c.tags == tags case None => c.tags == [])
  }

  lemma WritesExactly(e: Event, m: string)
    ensures Writes(e, m) <==> IsWriteTo(e.payload, m)
    ensures Writes(e, m) ==> HasFields(WriteOf(e).value.1, e.payload)
  {
  }

  predicate IsForgetOf(p: Payload, m: string) {
    p.ForgottenPayload? && p.forgottenId == Some(m)
  }

  /** `e` is a delivered write to `m` that no delivered write to `m` exceeds. */
  ghost predicate LatestWrite(es: seq<Event>, m: string, e: Event) {
    && e in es && IsWriteTo(e.payload, m)
    && forall x :: x in es && IsWriteTo(x.payload, m) ==> AtMost(x.hlc, e.hlc)
  }

  ghost predicate LatestForget(es: seq<Event>, m: string, e: Event) {
    && e in es && IsForgetOf(e.payload, m)
    && forall x :: x in es && IsForgetOf(x.payload, m) ==> AtMost(x.hlc, e.hlc)
  }

  /** A row is under the id that its payload names, and holds that payload's fields and its event's stamp and time. */
  lemma {:induction false} RowHoldsPayload(es: seq<Event>, m: string) returns (w: Event, first: Event)
    requires m in Replay(es).rows
    ensures var row := Replay(es).rows[m];
            && LatestWrite(es, m, w) && HasFields(row.content, w.payload)
            && row.hlc == w.hlc && row.updatedAt == w.createdAt
            && first in es && IsWriteTo(first.payload, m)
            && row.hostId == first.hostId && row.createdAt == first.createdAt
  {
    ReplayReflects(es, m);
    var row := Replay(es).rows[m];
    assert CellAfter(es, m).row == Some(row);
    w :| TopWrite(es, m, w) && RowFrom(row, w);
    first :| first in es && Writes(first, m) && CreatedBy(row, first);
    forall e ensures Writes(e, m) <==> IsWriteTo(e.payload, m) {
      WritesExactly(e, m);
    }
    WritesExactly(w, m);
  }

  /** A tombstone is a latest forgetting event's stamp, host, actor and time. */
  lemma {:induction false} TombHoldsEvent(es: seq<Event>, m: string) returns (f: Event)
    requires m in Replay(es).tombs
    ensures LatestForget(es, m, f)
    ensures var tomb := Replay(es).tombs[m];
            tomb.hlc == f.hlc && tomb.hostId == f.hostId && tomb.actorId == f.actorId && tomb.forgottenAt == f.createdAt
  {
    ReplayReflects(es, m);
    var tomb := Replay(es).tombs[m];
    assert CellAfter(es, m).tomb == Some(tomb);
    f :| TopForget(es, m, f) && tomb == TombOf(f);
  }

  /** A write without a row is no later than a forgetting, and a row is no earlier than any. */
  lemma {:induction false} NoRowMeansForgotten(es: seq<Event>, m: string, e: Event)
    requires e in es
    ensures IsForgetOf(e.payload, m) ==> m in Replay(es).tombs && AtMost(e.hlc, Replay(es).tombs[m].hlc)
    ensures IsWriteTo(e.payload, m) && m !in Replay(es).rows ==>
              m in Replay(es).tombs && AtMost(e.hlc, Replay(es).tombs[m].hlc)
    ensures m in Replay(es).rows && m in Replay(es).tombs ==> AtMost(Replay(es).tombs[m].hlc, Replay(es).rows[m].hlc)
  {
    ReplayReflects(es, m);
    WritesExactly(e, m);
    if m in Replay(es).tombs {
      var f :| TopForget(es, m, f) && Replay(es).tombs[m] == TombOf(f);
    }
    assert CellAfter(es, m) == CellOf(Replay(es), m);
  }
}
