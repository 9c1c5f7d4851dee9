/**
 Paged gap recovery (src/mesh/catchup.ts): the serving query, the in-flight requests of the asking side, and the
 exchange between the two.
 */
module Catchup {
  import opened Basics
  import opened Order
  import opened Json
  import opened Events
  import opened EventTable
  import opened Scope
  import Envelope

  datatype Chunk = Chunk(events: seq<Event>, hasMore: bool)

  datatype InFlight = InFlight(team: string, peer: string, watermark: Option<string>)

  /** What the asking side does to the outside, in order. */
  datatype Effect =
    | Asked(team: string, peer: string, since: Option<string>)
    | Injected(event: Event)
    | InjectFailed(event: Event)
    | Violated(event: Event, reason: Violation)
    | Advanced(watermark: string)
    | Resolved(key: string)
    | Rejected(key: string)

  datatype State = State(inFlight: map<string, InFlight>, effects: seq<Effect>)

  function Key(team: string, peer: string): string {
    team + "::" + peer
  }

  // ---------- Serving ----------

  function Since(watermark: Option<string>): string {
    match watermark
    case Some(id) => id
    case None => ""
  }

  predicate Serves(r: Event, team: string, since: string) {
    SqlServes(r, team) && Less(since, r.id)
  }

  /** The rows the query selects before its limit; the table is kept in id order. */
  function Eligible(rows: seq<Event>, team: string, since: string): seq<Event> {
    if rows == [] then []
    else if Serves(rows[0], team, since) then [rows[0]] + Eligible(rows[1..], team, since)
    else Eligible(rows[1..], team, since)
  }

  function Serve(rows: seq<Event>, team: string, watermark: Option<string>, chunkSize: nat): Chunk {
    var eligible := Eligible(rows, team, Since(watermark));
    var page := if chunkSize < |eligible| then eligible[..chunkSize] else eligible;
    Chunk(page, |page| == chunkSize)
  }

  // ---------- Asking ----------

  function Raise(watermark: Option<string>, id: string): Option<string> {
    if watermark.None? || Less(watermark.value, id) then Some(id) else watermark
  }

  function Highest(watermark: Option<string>, events: seq<Event>): Option<string> {
    if events == [] then watermark else Raise(Highest(watermark, events[..|events| - 1]), events[|events| - 1].id)
  }

  /** `failing` are the ids of the events whose injection throws. */
  function EffectOf(e: Event, team: string, failing: set<string>): Effect {
    match ValidateTeamScope(e, team)
    case Err(v) => Violated(e, v)
    case Ok(_) => if e.id in failing then InjectFailed(e) else Injected(e)
  }

  function EffectsOf(events: seq<Event>, team: string, failing: set<string>): (fs: seq<Effect>)
    ensures |fs| == |events|
    ensures forall i :: 0 <= i < |fs| ==> fs[i] == EffectOf(events[i], team, failing)
  {
    seq(|events|, i requires 0 <= i < |events| => EffectOf(events[i], team, failing))
  }

  function Ask(s: State, team: string, peer: string, since: Option<string>): State {
    var k := Key(team, peer);
    State(
      s.inFlight[k := InFlight(team, peer, since)],
      s.effects + (if k in s.inFlight then [Rejected(k)] else []) + [Asked(team, peer, since)])
  }

  function Cancelled(s: State, team: string, peer: string): State {
    var k := Key(team, peer);
    if k in s.inFlight then State(s.inFlight - {k}, s.effects + [Rejected(k)]) else s
  }

  /** What follows the events of a chunk. */
  function Closing(key: string, f: InFlight, watermark: Option<string>, hasMore: bool): seq<Effect> {
    (if watermark != f.watermark && watermark.Some? then [Advanced(watermark.value)] else []) +
    (if hasMore then [Asked(f.team, f.peer, watermark)] else [Resolved(key)])
  }

  function Handle(s: State, team: string, from: string, chunk: Chunk, failing: set<string>): State {
    var k := Key(team, from);
    if k !in s.inFlight then s
    else
      var f := s.inFlight[k];
      var w := Highest(f.watermark, chunk.events);
      State(
        if chunk.hasMore then s.inFlight[k := f.(watermark := w)] else s.inFlight - {k},
        s.effects + EffectsOf(chunk.events, team, failing) + Closing(k, f, w, chunk.hasMore))
  }

  lemma TakeOneMore<T>(before: seq<T>, all: seq<T>, i: nat)
    requires i < |all|
    ensures before + all[..i + 1] == before + all[..i] + [all[i]]
  {
  }

  class Client {
    var inFlight: map<string, InFlight>
    var effects: seq<Effect>

    constructor ()
      ensures Now() == State(map[], [])
    {
      inFlight, effects := map[], [];
    }

    function Now(): State
      reads this
    {
      State(inFlight, effects)
    }

    method SendRequest(f: InFlight)
      modifies this`effects
      ensures effects == old(effects) + [Asked(f.team, f.peer, f.watermark)]
    {
      effects := effects + [Asked(f.team, f.peer, f.watermark)];
    }

    method Request(team: string, peer: string, since: Option<string>)
      modifies this
      ensures Now() == Ask(old(Now()), team, peer, since)
    {
      var k := Key(team, peer);
      if k in inFlight {
        effects := effects + [Rejected(k)];
        inFlight := inFlight - {k};
      }
      var f := InFlight(team, peer, since);
      inFlight := inFlight[k := f];
      SendRequest(f);
    }

    method Reaction(e: Event, team: string, failing: set<string>) returns (effect: Effect)
      ensures effect == EffectOf(e, team, failing)
    {
      var scope := ValidateTeamScope(e, team);
      if scope.Err? {
        effect := Violated(e, scope.error);
      } else if e.id in failing {
        effect := InjectFailed(e);
      } else {
        effect := Injected(e);
      }
    }

    /** The loop over a chunk's events: returns the highest id seen. */
    method Feed(events: seq<Event>, team: string, failing: set<string>, watermark: Option<string>)
      returns (highest: Option<string>)
      modifies this`effects
      ensures highest == Highest(watermark, events)
      ensures effects == old(effects) + EffectsOf(events, team, failing)
    {
      highest := watermark;
      ghost var all := EffectsOf(events, team, failing);
      var i := 0;
      while i < |events|
        invariant 0 <= i <= |events|
        invariant highest == Highest(watermark, events[..i])
        invariant effects == old(effects) + all[..i]
      {
        var e := events[i];
        assert events[..i + 1][..i] == events[..i];
        if highest.None? || Less(highest.value, e.id) {
          highest := Some(e.id);
        }
        var effect := Reaction(e, team, failing);
        TakeOneMore(old(effects), all, i);
        effects := effects + [effect];
        i := i + 1;
      }
      assert events[..i] == events && all[..i] == all;
    }

    /** Returns whether a request was waiting for the chunk. */
    method HandleChunk(team: string, from: string, chunk: Chunk, failing: set<string>) returns (waiting: bool)
      modifies this
      ensures Now() == Handle(old(Now()), team, from, chunk, failing)
      ensures waiting == (Key(team, from) in old(inFlight))
    {
      var k := Key(team, from);
      if k !in inFlight {
        return false;
      }
      var f := inFlight[k];
      var highest := Feed(chunk.events, team, failing, f.watermark);
      if highest != f.watermark && highest.Some? {
        f := f.(watermark := highest);
        inFlight := inFlight[k := f];
        effects := effects + [Advanced(highest.value)];
      }
      RaisesOnly(old(inFlight)[k].watermark, chunk.events);
      if chunk.hasMore {
        SendRequest(f);
      } else {
        inFlight := inFlight - {k};
        effects := effects + [Resolved(k)];
      }
      return true;
    }

    method Cancel(team: string, peer: string)
      modifies this
      ensures Now() == Cancelled(old(Now()), team, peer)
    {
      var k := Key(team, peer);
      if k !in inFlight {
        return;
      }
      inFlight := inFlight - {k};
      effects := effects + [Rejected(k)];
    }
  }

  // ---------- The watermark ----------

  /** `a` is no further than `b`; a request without a watermark is behind every other. */
  predicate Behind(a: Option<string>, b: Option<string>) {
    a.None? || (b.Some? && AtMost(a.value, b.value))
  }

  lemma BehindTransitive(a: Option<string>, b: Option<string>, c: Option<string>)
    requires Behind(a, b) && Behind(b, c)
    ensures Behind(a, c)
  {
    if a.Some? {
      AtMostTransitive(a.value, b.value, c.value);
    }
  }

  lemma RaiseIsHigher(w: Option<string>, id: string)
    ensures Behind(w, Raise(w, id)) && Behind(Some(id), Raise(w, id))
  {
    if w.Some? {
      AtMostOrLess(id, w.value);
    }
  }

  lemma {:induction false} RaisesOnly(w: Option<string>, events: seq<Event>)
    ensures w.Some? ==> Highest(w, events).Some?
  {
    if events != [] {
      RaisesOnly(w, events[..|events| - 1]);
    }
  }

  /**
   Whatever a peer puts into a chunk, the in-flight watermark becomes the highest id among the old one and the chunk's,
   rejected events included.
   */
  lemma {:induction false} HighestIsHighest(w: Option<string>, events: seq<Event>)
    ensures Behind(w, Highest(w, events))
    ensures forall e :: e in events ==> Behind(Some(e.id), Highest(w, events))
    ensures Highest(w, events) == w || exists e :: e in events && Highest(w, events) == Some(e.id)
  {
    if events != [] {
      var init, last := events[..|events| - 1], events[|events| - 1];
      assert events == init + [last];
      HighestIsHighest(w, init);
      var h := Highest(w, init);
      RaiseIsHigher(h, last.id);
      BehindTransitive(w, h, Highest(w, events));
      forall e | e in init ensures Behind(Some(e.id), Highest(w, events)) {
        BehindTransitive(Some(e.id), h, Highest(w, events));
      }
    }
  }

  // ---------- The exchange over a fixed server log ----------

  /** A server's table: in id order, with payloads parsed from JSON. */
  ghost predicate Table(rows: seq<Event>) {
    Ascending(rows) && forall r :: r in rows ==> WellKeyed(r.payload)
  }

  /** An event as the asking side decodes it. */
  function Arrived(e: Event): Event {
    e.(payload := Normal(e.payload))
  }

  function ArrivedAll(events: seq<Event>): (r: seq<Event>)
    ensures |r| == |events| && forall i :: 0 <= i < |r| ==> r[i] == Arrived(events[i])
  {
    seq(|events|, i requires 0 <= i < |events| => Arrived(events[i]))
  }

  function Reply(rows: seq<Event>, team: string, watermark: Option<string>, chunkSize: nat): Chunk {
    var c := Serve(rows, team, watermark, chunkSize);
    Chunk(ArrivedAll(c.events), c.hasMore)
  }

  /** One request of the waiting side is served and its reply handled. */
  function Round(s: State, team: string, peer: string, rows: seq<Event>, chunkSize: nat): State {
    var k := Key(team, peer);
    if k !in s.inFlight then s
    else Handle(s, team, peer, Reply(rows, team, s.inFlight[k].watermark, chunkSize), {})
  }

  function Rounds(s: State, team: string, peer: string, rows: seq<Event>, chunkSize: nat, count: nat): State
    decreases count
  {
    if count == 0 then s else Rounds(Round(s, team, peer, rows, chunkSize), team, peer, rows, chunkSize, count - 1)
  }

  function InjectedOf(effects: seq<Effect>): seq<Event> {
    if effects == [] then []
    else if effects[0].Injected? then [effects[0].event] + InjectedOf(effects[1..])
    else InjectedOf(effects[1..])
  }

  lemma {:induction false} InjectedOfAppend(a: seq<Effect>, b: seq<Effect>)
    ensures InjectedOf(a + b) == InjectedOf(a) + InjectedOf(b)
  {
    if a == [] {
      assert a + b == b;
    } else {
      assert (a + b)[1..] == a[1..] + b;
      InjectedOfAppend(a[1..], b);
    }
  }

  lemma {:induction false} InjectedOfEffects(events: seq<Event>, team: string)
    requires forall e :: e in events ==> Accepts(e, team)
    ensures InjectedOf(EffectsOf(events, team, {})) == events
  {
    if events != [] {
      var fs := EffectsOf(events, team, {});
      assert fs[1..] == EffectsOf(events[1..], team, {});
      assert events[0] in events;
      InjectedOfEffects(events[1..], team);
    }
  }

  lemma {:induction false} EligibleElements(rows: seq<Event>, team: string, since: string, e: Event)
    ensures e in Eligible(rows, team, since) <==> e in rows && Serves(e, team, since)
  {
    if rows != [] {
      assert rows == [rows[0]] + rows[1..];
      EligibleElements(rows[1..], team, since, e);
    }
  }

  lemma {:induction false} EligibleAscends(rows: seq<Event>, team: string, since: string)
    requires Ascending(rows)
    ensures Ascending(Eligible(rows, team, since))
  {
    if rows != [] {
      EligibleAscends(rows[1..], team, since);
      var tail := Eligible(rows[1..], team, since);
      forall i | 0 <= i < |tail| ensures Less(rows[0].id, tail[i].id) {
        EligibleElements(rows[1..], team, since, tail[i]);
      }
    }
  }

  /** Moving the bound below all rows of a table changes nothing. */
  lemma {:induction false} EligibleAbove(rows: seq<Event>, team: string, low: string, high: string)
    requires AtMost(low, high) && forall r :: r in rows ==> Less(high, r.id)
    ensures Eligible(rows, team, low) == Eligible(rows, team, high)
  {
    if rows != [] {
      assert rows[0] in rows;
      AtMostTransitive(low, high, rows[0].id);
      EligibleAbove(rows[1..], team, low, high);
    }
  }

  /** Asking again from the last id of a page selects exactly the rest. */
  lemma {:induction false} EligibleRest(rows: seq<Event>, team: string, since: string, n: nat)
    requires Ascending(rows) && 0 < n <= |Eligible(rows, team, since)|
    ensures Eligible(rows, team, Eligible(rows, team, since)[n - 1].id) == Eligible(rows, team, since)[n..]
  {
    var es := Eligible(rows, team, since);
    var last := es[n - 1];
    var tail := Eligible(rows[1..], team, since);
    if !Serves(rows[0], team, since) {
      EligibleElements(rows[1..], team, since, last);
      EligibleRest(rows[1..], team, since, n);
      if Less(last.id, rows[0].id) {
        Transitive(since, last.id, rows[0].id);
      }
    } else if n == 1 {
      Irreflexive(last.id);
      EligibleAbove(rows[1..], team, since, last.id);
    } else {
      assert last == tail[n - 2];
      EligibleElements(rows[1..], team, since, last);
      Asymmetric(rows[0].id, last.id);
      EligibleRest(rows[1..], team, since, n - 1);
    }
  }

  lemma ServedIsAccepted(r: Event, team: string)
    requires WellKeyed(r.payload) && TeamId(team) && SqlServes(r, team)
    ensures Accepts(Arrived(r), team)
  {
    ServedIffAccepted(r, team);
    if r.payload.Obj? {
      Envelope.NormalKeepsProperty(r.payload.fields, "scope");
      Envelope.NormalKeepsProperty(r.payload.fields, "scopeRef");
      Envelope.NormalKeepsProperty(r.payload.fields, "teamId");
    }
  }

  lemma ReplyIsAccepted(rows: seq<Event>, team: string, watermark: Option<string>, chunkSize: nat)
    requires Table(rows) && TeamId(team)
    ensures forall e :: e in Reply(rows, team, watermark, chunkSize).events ==> Accepts(e, team)
  {
    var es := Serve(rows, team, watermark, chunkSize).events;
    var cs := ArrivedAll(es);
    forall e | e in cs ensures Accepts(e, team) {
      var i :| 0 <= i < |cs| && cs[i] == e;
      EligibleElements(rows, team, Since(watermark), es[i]);
      ServedIsAccepted(es[i], team);
    }
  }

  /** Over ascending events above the watermark, the highest id is the last. */
  lemma {:induction false} HighestOfAscending(w: Option<string>, events: seq<Event>)
    requires Ascending(events) && events != [] && forall e :: e in events ==> w.None? || Less(w.value, e.id)
    ensures Highest(w, events) == Some(events[|events| - 1].id)
  {
    HighestIsHighest(w, events);
    var last := events[|events| - 1];
    assert last in events;
    if Highest(w, events) == w {
      AtMostOrLess(last.id, w.value);
    } else {
      var e :| e in events && Highest(w, events) == Some(e.id);
      var i :| 0 <= i < |events| && events[i] == e;
      AtMostOrLess(last.id, e.id);
    }
  }

  lemma {:induction false} ReplyHighest(rows: seq<Event>, team: string, w: Option<string>, chunkSize: nat)
    requires Table(rows) && Serve(rows, team, w, chunkSize).events != []
    ensures Highest(w, Reply(rows, team, w, chunkSize).events) ==
            Some(Serve(rows, team, w, chunkSize).events[|Serve(rows, team, w, chunkSize).events| - 1].id)
  {
    var es := Serve(rows, team, w, chunkSize).events;
    var cs := ArrivedAll(es);
    EligibleAscends(rows, team, Since(w));
    forall c | c in cs ensures w.None? || Less(w.value, c.id) {
      var i :| 0 <= i < |cs| && cs[i] == c;
      EligibleElements(rows, team, Since(w), es[i]);
    }
    HighestOfAscending(w, cs);
  }

  /** A reply that promises more strictly raises the in-flight watermark, as long as pages are not empty. */
  lemma {:induction false} HasMoreRaises(rows: seq<Event>, team: string, w: Option<string>, chunkSize: nat)
    requires Table(rows) && chunkSize >= 1 && Reply(rows, team, w, chunkSize).hasMore
    ensures var h := Highest(w, Reply(rows, team, w, chunkSize).events);
            h.Some? && Less(Since(w), h.value)
  {
    var es := Serve(rows, team, w, chunkSize).events;
    ReplyHighest(rows, team, w, chunkSize);
    EligibleElements(rows, team, Since(w), es[|es| - 1]);
  }

  ghost predicate NoViolation(effects: seq<Effect>) {
    forall f :: f in effects ==> !f.Violated? && !f.InjectFailed?
  }

  lemma ClosingInjectsNothing(key: string, f: InFlight, w: Option<string>, hasMore: bool)
    ensures InjectedOf(Closing(key, f, w, hasMore)) == [] && NoViolation(Closing(key, f, w, hasMore))
  {
    var moved := if w != f.watermark && w.Some? then [Advanced(w.value)] else [];
    var last := if hasMore then [Asked(f.team, f.peer, w)] else [Resolved(key)];
    InjectedOfAppend(moved, last);
  }

  lemma FedInjectsAll(events: seq<Event>, team: string)
    requires forall e :: e in events ==> Accepts(e, team)
    ensures InjectedOf(EffectsOf(events, team, {})) == events && NoViolation(EffectsOf(events, team, {}))
  {
    InjectedOfEffects(events, team);
    forall i | 0 <= i < |events| ensures EffectOf(events[i], team, {}).Injected? {
      assert events[i] in events;
    }
  }

  /** One round injects the page and nothing else. */
  lemma RoundInjectsPage(s: State, team: string, peer: string, rows: seq<Event>, chunkSize: nat)
    returns (out: seq<Effect>)
    requires Table(rows) && TeamId(team) && Key(team, peer) in s.inFlight
    ensures Round(s, team, peer, rows, chunkSize).effects == s.effects + out && NoViolation(out)
    ensures InjectedOf(out) == Reply(rows, team, s.inFlight[Key(team, peer)].watermark, chunkSize).events
  {
    var k := Key(team, peer);
    var f := s.inFlight[k];
    var c := Reply(rows, team, f.watermark, chunkSize);
    var w := Highest(f.watermark, c.events);
    var fed, closing := EffectsOf(c.events, team, {}), Closing(k, f, w, c.hasMore);
    ReplyIsAccepted(rows, team, f.watermark, chunkSize);
    FedInjectsAll(c.events, team);
    ClosingInjectsNothing(k, f, w, c.hasMore);
    InjectedOfAppend(fed, closing);
    out := fed + closing;
    assert s.effects + fed + closing == s.effects + out;
  }

  lemma ArrivedSplit(es: seq<Event>, n: nat)
    requires n <= |es|
    ensures ArrivedAll(es) == ArrivedAll(es[..n]) + ArrivedAll(es[n..])
  {
  }

  /** What is left to serve after a full page. */
  lemma {:induction false} RestAfterPage(rows: seq<Event>, team: string, w: Option<string>, chunkSize: nat,
      es: seq<Event>)
    requires Table(rows) && chunkSize >= 1 && es == Eligible(rows, team, Since(w)) && |es| >= chunkSize
    ensures Reply(rows, team, w, chunkSize) == Chunk(ArrivedAll(es[..chunkSize]), true)
    ensures Eligible(rows, team, Since(Highest(w, ArrivedAll(es[..chunkSize])))) == es[chunkSize..]
  {
    assert Serve(rows, team, w, chunkSize).events == es[..chunkSize];
    ReplyHighest(rows, team, w, chunkSize);
    EligibleRest(rows, team, Since(w), chunkSize);
  }

  /**
   The outcome of a completed exchange: the request is settled, others are untouched, and `injected` were injected
   without any violation.
   */
  ghost predicate Settled(s: State, t: State, key: string, out: seq<Effect>, injected: seq<Event>) {
    && t.inFlight == s.inFlight - {key}
    && t.effects == s.effects + out && out != [] && out[|out| - 1] == Resolved(key)
    && NoViolation(out) && InjectedOf(out) == injected
  }

  lemma {:induction false} RoundsAfterSettled(s: State, team: string, peer: string, rows: seq<Event>,
      chunkSize: nat, count: nat)
    requires Key(team, peer) !in s.inFlight
    ensures Rounds(s, team, peer, rows, chunkSize, count) == s
    decreases count
  {
    if count > 0 {
      RoundsAfterSettled(s, team, peer, rows, chunkSize, count - 1);
    }
  }

  lemma LastReply(rows: seq<Event>, team: string, w: Option<string>, chunkSize: nat, es: seq<Event>)
    requires Table(rows) && es == Eligible(rows, team, Since(w)) && |es| < chunkSize
    ensures Reply(rows, team, w, chunkSize) == Chunk(ArrivedAll(es), false)
  {
  }

  lemma SettlingRound(s: State, team: string, peer: string, rows: seq<Event>, chunkSize: nat)
    requires Table(rows) && TeamId(team) && Key(team, peer) in s.inFlight
    requires !Reply(rows, team, s.inFlight[Key(team, peer)].watermark, chunkSize).hasMore
    ensures var t := Round(s, team, peer, rows, chunkSize);
            && t.inFlight == s.inFlight - {Key(team, peer)}
            && |t.effects| > |s.effects| && t.effects[|t.effects| - 1] == Resolved(Key(team, peer))
  {
  }

  lemma LastRound(s: State, team: string, peer: string, rows: seq<Event>, chunkSize: nat, es: seq<Event>)
    returns (t: State, out: seq<Effect>)
    requires Table(rows) && TeamId(team) && Key(team, peer) in s.inFlight
    requires es == Eligible(rows, team, Since(s.inFlight[Key(team, peer)].watermark)) && |es| < chunkSize
    ensures t == Round(s, team, peer, rows, chunkSize) && Settled(s, t, Key(team, peer), out, ArrivedAll(es))
  {
    var k := Key(team, peer);
    var f := s.inFlight[k];
    LastReply(rows, team, f.watermark, chunkSize, es);
    SettlingRound(s, team, peer, rows, chunkSize);
    out := RoundInjectsPage(s, team, peer, rows, chunkSize);
    t := Round(s, team, peer, rows, chunkSize);
  }

  lemma {:induction false} SettledStep(s: State, t: State, u: State, key: string, page: seq<Effect>,
      rest: seq<Effect>, a: seq<Event>, b: seq<Event>)
    requires t.effects == s.effects + page && NoViolation(page) && InjectedOf(page) == a
    requires t.inFlight - {key} == s.inFlight - {key} && Settled(t, u, key, rest, b)
    ensures Settled(s, u, key, page + rest, a + b)
  {
    InjectedOfAppend(page, rest);
    assert s.effects + page + rest == s.effects + (page + rest);
    assert (page + rest)[|page + rest| - 1] == rest[|rest| - 1];
  }

  /** A request as `request` leaves it: filed under its own team and peer. */
  predicate Waiting(s: State, team: string, peer: string) {
    Key(team, peer) in s.inFlight && s.inFlight[Key(team, peer)].team == team && s.inFlight[Key(team, peer)].peer == peer
  }

  lemma FullRound(s: State, team: string, peer: string, rows: seq<Event>, chunkSize: nat, c: Chunk)
    requires Waiting(s, team, peer) && c == Reply(rows, team, s.inFlight[Key(team, peer)].watermark, chunkSize)
    requires c.hasMore
    ensures Round(s, team, peer, rows, chunkSize).inFlight ==
            s.inFlight[Key(team, peer) := InFlight(team, peer, Highest(s.inFlight[Key(team, peer)].watermark, c.events))]
  {
  }

  /** A round that injects a full page leaves a request for the rest. */
  lemma PageRound(s: State, team: string, peer: string, rows: seq<Event>, chunkSize: nat, es: seq<Event>)
    returns (t: State, page: seq<Effect>)
    requires Table(rows) && TeamId(team) && chunkSize >= 1 && Waiting(s, team, peer)
    requires es == Eligible(rows, team, Since(s.inFlight[Key(team, peer)].watermark)) && chunkSize <= |es|
    ensures t == Round(s, team, peer, rows, chunkSize) && Waiting(t, team, peer)
    ensures t.inFlight - {Key(team, peer)} == s.inFlight - {Key(team, peer)}
    ensures t.effects == s.effects + page && NoViolation(page) && InjectedOf(page) == ArrivedAll(es[..chunkSize])
    ensures Eligible(rows, team, Since(t.inFlight[Key(team, peer)].watermark)) == es[chunkSize..]
  {
    var w := s.inFlight[Key(team, peer)].watermark;
    t := Round(s, team, peer, rows, chunkSize);
    page := RoundInjectsPage(s, team, peer, rows, chunkSize);
    RestAfterPage(rows, team, w, chunkSize, es);
    FullRound(s, team, peer, rows, chunkSize, Chunk(ArrivedAll(es[..chunkSize]), true));
  }

  lemma RoundsSplit(s: State, team: string, peer: string, rows: seq<Event>, chunkSize: nat, count: nat)
    requires count > 0
    ensures Rounds(s, team, peer, rows, chunkSize, count) ==
            Rounds(Round(s, team, peer, rows, chunkSize), team, peer, rows, chunkSize, count - 1)
  {
  }

  lemma RoundsFrom(s: State, t: State, end: State, team: string, peer: string, rows: seq<Event>, chunkSize: nat,
      count: nat)
    requires count > 0 && t == Round(s, team, peer, rows, chunkSize)
    requires end == Rounds(t, team, peer, rows, chunkSize, count - 1)
    ensures end == Rounds(s, team, peer, rows, chunkSize, count)
  {
    RoundsSplit(s, team, peer, rows, chunkSize, count);
  }

  lemma LastExchange(s: State, team: string, peer: string, rows: seq<Event>, chunkSize: nat, count: nat, es: seq<Event>)
    returns (end: State, out: seq<Effect>)
    requires Table(rows) && TeamId(team) && Key(team, peer) in s.inFlight && count > 0
    requires es == Eligible(rows, team, Since(s.inFlight[Key(team, peer)].watermark)) && |es| < chunkSize
    ensures end == Rounds(s, team, peer, rows, chunkSize, count)
    ensures Settled(s, end, Key(team, peer), out, ArrivedAll(es))
  {
    end, out := LastRound(s, team, peer, rows, chunkSize, es);
    RoundsSplit(s, team, peer, rows, chunkSize, count);
    RoundsAfterSettled(end, team, peer, rows, chunkSize, count - 1);
  }

  lemma PageThenRest(s: State, t: State, end: State, key: string, page: seq<Effect>, rest: seq<Effect>, es: seq<Event>,
      chunkSize: nat)
    requires chunkSize <= |es| && t.inFlight - {key} == s.inFlight - {key} && t.effects == s.effects + page
    requires NoViolation(page) && InjectedOf(page) == ArrivedAll(es[..chunkSize])
    requires Settled(t, end, key, rest, ArrivedAll(es[chunkSize..]))
    ensures Settled(s, end, key, page + rest, ArrivedAll(es))
  {
    SettledStep(s, t, end, key, page, rest, ArrivedAll(es[..chunkSize]), ArrivedAll(es[chunkSize..]));
    ArrivedSplit(es, chunkSize);
  }

  /**
   For a fixed server log and pages of at least one event the exchange ends, having injected exactly the eligible
   events above the initial watermark, in id order and once each.
   */
  lemma {:induction false} ExchangeCompletes(s: State, team: string, peer: string, rows: seq<Event>,
      chunkSize: nat, count: nat, es: seq<Event>)
    returns (end: State, out: seq<Effect>)
    requires Table(rows) && TeamId(team) && chunkSize >= 1 && Waiting(s, team, peer)
    requires es == Eligible(rows, team, Since(s.inFlight[Key(team, peer)].watermark)) && count > |es|
    ensures end == Rounds(s, team, peer, rows, chunkSize, count)
    ensures Settled(s, end, Key(team, peer), out, ArrivedAll(es))
    decreases count
  {
    if |es| >= chunkSize {
      var t, page := PageRound(s, team, peer, rows, chunkSize, es);
      var rest;
      end, rest := ExchangeCompletes(t, team, peer, rows, chunkSize, count - 1, es[chunkSize..]);
      out := page + rest;
      PageThenRest(s, t, end, Key(team, peer), page, rest, es, chunkSize);
      RoundsFrom(s, t, end, team, peer, rows, chunkSize, count);
    } else {
      end, out := LastExchange(s, team, peer, rows, chunkSize, count, es);
    }
  }

  /**
   What is injected is the accepted part of the log above the watermark, less the memory events whose scope reference
   the query cannot use.
   */
  lemma {:induction false} EligibleIsAcceptedLog(rows: seq<Event>, team: string, since: string, e: Event)
    requires Table(rows) && TeamId(team)
    ensures Ascending(Eligible(rows, team, since))
    ensures e in Eligible(rows, team, since) <==>
              e in rows && Less(since, e.id) && Accepts(e, team) &&
              !(IsMemoryEvent(e) && Unusable(Envelope.Get(PayloadOf(e).value, "scopeRef")))
  {
    EligibleAscends(rows, team, since);
    EligibleElements(rows, team, since, e);
    if e in rows {
      ServedIffAccepted(e, team);
    }
  }

  /**
   Pages of size zero: the reply always promises more, carries nothing, and the same request goes out again, for ever.
   */
  lemma {:induction false} ZeroPagesNeverEnd(s: State, team: string, peer: string, rows: seq<Event>, count: nat)
    requires Key(team, peer) in s.inFlight
    ensures Rounds(s, team, peer, rows, 0, count).inFlight == s.inFlight
    ensures InjectedOf(Rounds(s, team, peer, rows, 0, count).effects) == InjectedOf(s.effects)
    decreases count
  {
    if count > 0 {
      var k := Key(team, peer);
      var f := s.inFlight[k];
      var t := Round(s, team, peer, rows, 0);
      var c := Reply(rows, team, f.watermark, 0);
      assert c.events == [] && c.hasMore;
      var closing := Closing(k, f, f.watermark, true);
      assert t.effects == s.effects + closing && t.inFlight == s.inFlight;
      ClosingInjectsNothing(k, f, f.watermark, true);
      InjectedOfAppend(s.effects, closing);
      ZeroPagesNeverEnd(t, team, peer, rows, count - 1);
    }
  }

  /** The exchange ends exactly when pages hold at least one event. */
  lemma EndsIff(s: State, team: string, peer: string, rows: seq<Event>, chunkSize: nat)
    requires Table(rows) && TeamId(team) && Waiting(s, team, peer)
    ensures (exists count: nat :: !Waiting(Rounds(s, team, peer, rows, chunkSize, count), team, peer)) <==> chunkSize >= 1
  {
    if chunkSize >= 1 {
      var es := Eligible(rows, team, Since(s.inFlight[Key(team, peer)].watermark));
      var count: nat := |es| + 1;
      var end, out := ExchangeCompletes(s, team, peer, rows, chunkSize, count, es);
      assert !Waiting(Rounds(s, team, peer, rows, chunkSize, count), team, peer);
    } else {
      forall count: nat ensures Waiting(Rounds(s, team, peer, rows, chunkSize, count), team, peer) {
        ZeroPagesNeverEnd(s, team, peer, rows, count);
      }
    }
  }

  // ---------- Runs of the asking side ----------

  datatype Op =
    | Requests(team: string, peer: string, since: Option<string>)
    | Receives(team: string, peer: string, chunk: Chunk, failing: set<string>)
    | Cancels(team: string, peer: string)

  function Do(s: State, op: Op): State {
    match op
    case Requests(team, peer, since) => Ask(s, team, peer, since)
    case Receives(team, peer, chunk, failing) => Handle(s, team, peer, chunk, failing)
    case Cancels(team, peer) => Cancelled(s, team, peer)
  }

  /** The client after `ops`, the first one first. */
  function After(ops: seq<Op>): State {
    if ops == [] then State(map[], []) else Do(After(ops[..|ops| - 1]), ops[|ops| - 1])
  }

  /** A request that has not been settled: where it started, and the ids that chunks have brought since. */
  datatype Story = Story(team: string, peer: string, since: Option<string>, heard: seq<string>)

  function IdsIn(events: seq<Event>): (ids: seq<string>)
    ensures |ids| == |events| && forall i :: 0 <= i < |ids| ==> ids[i] == events[i].id
  {
    seq(|events|, i requires 0 <= i < |events| => events[i].id)
  }

  /** The unsettled request under `k`, told from the calls alone. */
  function StoryOf(ops: seq<Op>, k: string): Option<Story> {
    if ops == [] then None
    else
      var story, op := StoryOf(ops[..|ops| - 1], k), ops[|ops| - 1];
      if Key(op.team, op.peer) != k then story
      else match op
        case Requests(team, peer, since) => Some(Story(team, peer, since, []))
        case Cancels(_, _) => None
        case Receives(_, _, chunk, _) =>
          if story.None? || !chunk.hasMore then None
          else Some(story.value.(heard := story.value.heard + IdsIn(chunk.events)))
  }

  /** `w` is the highest of where the request started and what it heard. */
  predicate IsHighest(w: Option<string>, since: Option<string>, heard: seq<string>) {
    && Behind(since, w) && (forall id :: id in heard ==> Behind(Some(id), w))
    && (w == since || exists id :: id in heard && w == Some(id))
  }

  /** What was last sent under `k`. */
  function LastAsk(effects: seq<Effect>, k: string): Option<Effect> {
    if effects == [] then None
    else
      var last := effects[|effects| - 1];
      if last.Asked? && Key(last.team, last.peer) == k then Some(last) else LastAsk(effects[..|effects| - 1], k)
  }

  /** Every request is filed under its own team and peer. */
  predicate Filed(s: State) {
    forall k :: k in s.inFlight ==> Key(s.inFlight[k].team, s.inFlight[k].peer) == k
  }

  ghost predicate Tracks(s: State, k: string, story: Option<Story>) {
    && (k in s.inFlight <==> story.Some?)
    && (story.Some? ==>
          var f := s.inFlight[k];
          && f.team == story.value.team && f.peer == story.value.peer
          && IsHighest(f.watermark, story.value.since, story.value.heard)
          && LastAsk(s.effects, k) == Some(Asked(f.team, f.peer, f.watermark)))
  }

  lemma {:induction false} LastAskAppend(a: seq<Effect>, b: seq<Effect>, k: string)
    ensures LastAsk(a + b, k) == if LastAsk(b, k).Some? then LastAsk(b, k) else LastAsk(a, k)
  {
    if b == [] {
      assert a + b == a;
    } else {
      assert (a + b)[..|a + b| - 1] == a + b[..|b| - 1];
      LastAskAppend(a, b[..|b| - 1], k);
    }
  }

  lemma {:induction false} NoAsk(b: seq<Effect>, k: string)
    requires forall e :: e in b ==> !e.Asked? || Key(e.team, e.peer) != k
    ensures LastAsk(b, k).None?
  {
    if b != [] {
      assert b[|b| - 1] in b;
      NoAsk(b[..|b| - 1], k);
    }
  }

  lemma HigherHeard(w: Option<string>, since: Option<string>, heard: seq<string>, events: seq<Event>)
    requires IsHighest(w, since, heard)
    ensures IsHighest(Highest(w, events), since, heard + IdsIn(events))
  {
    var h := Highest(w, events);
    HighestIsHighest(w, events);
    BehindTransitive(since, w, h);
    forall id | id in heard + IdsIn(events) ensures Behind(Some(id), h) {
      if id in heard {
        BehindTransitive(Some(id), w, h);
      } else {
        var i :| 0 <= i < |events| && IdsIn(events)[i] == id;
        assert events[i] in events;
      }
    }
    if h != w {
      var e :| e in events && h == Some(e.id);
      var i :| 0 <= i < |events| && events[i] == e;
      assert IdsIn(events)[i] in heard + IdsIn(events);
    }
  }

  lemma AskTracks(s: State, team: string, peer: string, since: Option<string>, k: string, story: Option<Story>)
    requires Tracks(s, k, story)
    ensures Tracks(Ask(s, team, peer, since), k,
                   if Key(team, peer) == k then Some(Story(team, peer, since, [])) else story)
  {
    var mine := Key(team, peer);
    var more := (if mine in s.inFlight then [Rejected(mine)] else []) + [Asked(team, peer, since)];
    assert Ask(s, team, peer, since).effects == s.effects + more;
    LastAskAppend(s.effects, more, k);
    if mine != k {
      NoAsk(more, k);
    }
    if since.Some? {
      AtMostOrLess(since.value, since.value);
    }
  }

  lemma ClosingAsks(key: string, f: InFlight, w: Option<string>, hasMore: bool, k: string)
    requires Key(f.team, f.peer) == key
    ensures LastAsk(Closing(key, f, w, hasMore), k) ==
            if hasMore && key == k then Some(Asked(f.team, f.peer, w)) else None
  {
    var moved := if w != f.watermark && w.Some? then [Advanced(w.value)] else [];
    var last := if hasMore then [Asked(f.team, f.peer, w)] else [Resolved(key)];
    LastAskAppend(moved, last, k);
    NoAsk(moved, k);
    assert last[..0] == [];
  }

  lemma HandleAsks(s: State, team: string, peer: string, chunk: Chunk, failing: set<string>, k: string)
    requires Filed(s) && Key(team, peer) in s.inFlight
    ensures var mine := Key(team, peer);
            var f := s.inFlight[mine];
            LastAsk(Handle(s, team, peer, chunk, failing).effects, k) ==
            if chunk.hasMore && mine == k then Some(Asked(f.team, f.peer, Highest(f.watermark, chunk.events)))
            else LastAsk(s.effects, k)
  {
    var mine := Key(team, peer);
    var f := s.inFlight[mine];
    var w := Highest(f.watermark, chunk.events);
    var fed, closing := EffectsOf(chunk.events, team, failing), Closing(mine, f, w, chunk.hasMore);
    LastAskAppend(s.effects + fed, closing, k);
    LastAskAppend(s.effects, fed, k);
    NoAsk(fed, k);
    ClosingAsks(mine, f, w, chunk.hasMore, k);
  }

  lemma HandleTracks(s: State, team: string, peer: string, chunk: Chunk, failing: set<string>, k: string,
      story: Option<Story>)
    requires Tracks(s, k, story) && Filed(s)
    ensures Tracks(Handle(s, team, peer, chunk, failing), k,
                   if Key(team, peer) != k then story
                   else if story.None? || !chunk.hasMore then None
                   else Some(story.value.(heard := story.value.heard + IdsIn(chunk.events))))
  {
    var mine := Key(team, peer);
    if mine in s.inFlight {
      HandleAsks(s, team, peer, chunk, failing, k);
      if mine == k {
        HigherHeard(s.inFlight[mine].watermark, story.value.since, story.value.heard, chunk.events);
      }
    }
  }

  lemma DoFiles(s: State, op: Op)
    requires Filed(s)
    ensures Filed(Do(s, op))
  {
  }

  /**
   At any moment a request is in flight exactly if one was made and neither cancelled nor finished since; what was last
   asked of the peer for it starts at the highest id among its own start and all that chunks have brought since.
   */
  lemma {:induction false} AsksFromHighest(ops: seq<Op>, k: string)
    ensures Tracks(After(ops), k, StoryOf(ops, k)) && Filed(After(ops))
  {
    if ops != [] {
      var init, op := ops[..|ops| - 1], ops[|ops| - 1];
      AsksFromHighest(init, k);
      DoFiles(After(init), op);
      match op
      case Requests(team, peer, since) => AskTracks(After(init), team, peer, since, k, StoryOf(init, k));
      case Receives(team, peer, chunk, failing) =>
        HandleTracks(After(init), team, peer, chunk, failing, k, StoryOf(init, k));
      case Cancels(team, peer) => CancelTracks(After(init), team, peer, k, StoryOf(init, k));
    }
  }

  lemma CancelTracks(s: State, team: string, peer: string, k: string, story: Option<Story>)
    requires Tracks(s, k, story)
    ensures Tracks(Cancelled(s, team, peer), k, if Key(team, peer) == k then None else story)
  {
    LastAskAppend(s.effects, [Rejected(Key(team, peer))], k);
    NoAsk([Rejected(Key(team, peer))], k);
  }

  // ---------- What is injected, and how requests end ----------

  /** The events that chunks for a waiting request brought, accepted for the request's team and not failing. */
  function Welcome(events: seq<Event>, team: string, failing: set<string>): seq<Event> {
    if events == [] then []
    else
      var init, e := Welcome(events[..|events| - 1], team, failing), events[|events| - 1];
      if Accepts(e, team) && e.id !in failing then init + [e] else init
  }

  function Brought(ops: seq<Op>): seq<Event> {
    if ops == [] then []
    else
      var init, op := ops[..|ops| - 1], ops[|ops| - 1];
      if op.Receives? && StoryOf(init, Key(op.team, op.peer)).Some?
      then Brought(init) + Welcome(op.chunk.events, op.team, op.failing) else Brought(init)
  }

  lemma {:induction false} InjectedIsWelcome(events: seq<Event>, team: string, failing: set<string>)
    ensures InjectedOf(EffectsOf(events, team, failing)) == Welcome(events, team, failing)
  {
    if events != [] {
      var init, e := events[..|events| - 1], events[|events| - 1];
      InjectedIsWelcome(init, team, failing);
      assert EffectsOf(events, team, failing) == EffectsOf(init, team, failing) + [EffectOf(e, team, failing)];
      InjectedOfAppend(EffectsOf(init, team, failing), [EffectOf(e, team, failing)]);
    }
  }

  lemma HandleInjects(s: State, team: string, peer: string, chunk: Chunk, failing: set<string>)
    requires Key(team, peer) in s.inFlight
    ensures InjectedOf(Handle(s, team, peer, chunk, failing).effects) ==
            InjectedOf(s.effects) + Welcome(chunk.events, team, failing)
  {
    var k := Key(team, peer);
    var f := s.inFlight[k];
    var w := Highest(f.watermark, chunk.events);
    var fed, closing := EffectsOf(chunk.events, team, failing), Closing(k, f, w, chunk.hasMore);
    InjectedOfAppend(s.effects + fed, closing);
    InjectedOfAppend(s.effects, fed);
    ClosingInjectsNothing(k, f, w, chunk.hasMore);
    InjectedIsWelcome(chunk.events, team, failing);
  }

  lemma {:induction false} QuietInjects(effects: seq<Effect>, more: seq<Effect>)
    requires forall e :: e in more ==> !e.Injected?
    ensures InjectedOf(effects + more) == InjectedOf(effects)
    decreases |more|
  {
    if more == [] {
      assert effects + more == effects;
    } else {
      assert effects + more == effects + [more[0]] + more[1..];
      assert [more[0]][1..] == [];
      InjectedOfAppend(effects, [more[0]]);
      QuietInjects(effects + [more[0]], more[1..]);
    }
  }

  /** Over any calls exactly these events are injected, once each time they are brought and in that order. */
  lemma {:induction false} InjectsExactly(ops: seq<Op>)
    ensures InjectedOf(After(ops).effects) == Brought(ops)
  {
    if ops != [] {
      var init, op := ops[..|ops| - 1], ops[|ops| - 1];
      var s, k := After(init), Key(op.team, op.peer);
      InjectsExactly(init);
      AsksFromHighest(init, k);
      match op
      case Requests(team, peer, since) =>
        var more := (if k in s.inFlight then [Rejected(k)] else []) + [Asked(team, peer, since)];
        assert After(ops).effects == s.effects + more;
        QuietInjects(s.effects, more);
      case Receives(team, peer, chunk, failing) =>
        if k in s.inFlight {
          HandleInjects(s, team, peer, chunk, failing);
        }
      case Cancels(_, _) => QuietInjects(s.effects, [Rejected(k)]);
    }
  }

  /** How often a request under `k` was resolved or rejected. */
  function Settlements(effects: seq<Effect>, k: string): nat {
    if effects == [] then 0
    else
      var last := effects[|effects| - 1];
      Settlements(effects[..|effects| - 1], k) +
      if (last.Resolved? || last.Rejected?) && last.key == k then 1 else 0
  }

  function RequestsMade(ops: seq<Op>, k: string): nat {
    if ops == [] then 0
    else
      var last := ops[|ops| - 1];
      RequestsMade(ops[..|ops| - 1], k) + if last.Requests? && Key(last.team, last.peer) == k then 1 else 0
  }

  lemma {:induction false} SettlementsAppend(a: seq<Effect>, b: seq<Effect>, k: string)
    ensures Settlements(a + b, k) == Settlements(a, k) + Settlements(b, k)
  {
    if b == [] {
      assert a + b == a;
    } else {
      assert (a + b)[..|a + b| - 1] == a + b[..|b| - 1];
      SettlementsAppend(a, b[..|b| - 1], k);
    }
  }

  lemma {:induction false} NoSettlement(b: seq<Effect>, k: string)
    requires forall e :: e in b ==> !((e.Resolved? || e.Rejected?) && e.key == k)
    ensures Settlements(b, k) == 0
  {
    if b != [] {
      assert b[|b| - 1] in b;
      NoSettlement(b[..|b| - 1], k);
    }
  }

  lemma HandleSettles(s: State, team: string, peer: string, chunk: Chunk, failing: set<string>, k: string)
    ensures var mine := Key(team, peer);
            Settlements(Handle(s, team, peer, chunk, failing).effects, k) ==
            Settlements(s.effects, k) + if mine in s.inFlight && mine == k && !chunk.hasMore then 1 else 0
  {
    var mine := Key(team, peer);
    if mine in s.inFlight {
      var f := s.inFlight[mine];
      var w := Highest(f.watermark, chunk.events);
      var fed, closing := EffectsOf(chunk.events, team, failing), Closing(mine, f, w, chunk.hasMore);
      SettlementsAppend(s.effects + fed, closing, k);
      SettlementsAppend(s.effects, fed, k);
      NoSettlement(fed, k);
      ClosingSettles(mine, f, w, chunk.hasMore, k);
    }
  }

  lemma ClosingSettles(key: string, f: InFlight, w: Option<string>, hasMore: bool, k: string)
    ensures Settlements(Closing(key, f, w, hasMore), k) == if !hasMore && key == k then 1 else 0
  {
    var moved := if w != f.watermark && w.Some? then [Advanced(w.value)] else [];
    var last := if hasMore then [Asked(f.team, f.peer, w)] else [Resolved(key)];
    SettlementsAppend(moved, last, k);
    NoSettlement(moved, k);
    assert last[..0] == [];
  }

  /** Every request that was made is resolved or rejected exactly once, or is the one still in flight. */
  lemma {:induction false} SettledOnce(ops: seq<Op>, k: string)
    ensures RequestsMade(ops, k) == Settlements(After(ops).effects, k) + if k in After(ops).inFlight then 1 else 0
  {
    if ops != [] {
      var init, op := ops[..|ops| - 1], ops[|ops| - 1];
      var s, mine := After(init), Key(op.team, op.peer);
      SettledOnce(init, k);
      match op
      case Requests(team, peer, since) =>
        SettlementsAppend(s.effects + (if mine in s.inFlight then [Rejected(mine)] else []), [Asked(team, peer, since)], k);
        SettlementsAppend(s.effects, if mine in s.inFlight then [Rejected(mine)] else [], k);
        OneSettlement(mine, k);
        NoSettlement([Asked(team, peer, since)], k);
      case Receives(team, peer, chunk, failing) => HandleSettles(s, team, peer, chunk, failing, k);
      case Cancels(_, _) =>
        SettlementsAppend(s.effects, [Rejected(mine)], k);
        OneSettlement(mine, k);
    }
  }

  lemma OneSettlement(mine: string, k: string)
    ensures Settlements([Rejected(mine)], k) == if mine == k then 1 else 0
  {
    assert [Rejected(mine)][..0] == [];
  }

  // ---------- What a chunk brings about ----------

  /** What becomes of one event: injected if it is the team's, unless that fails; otherwise reported with the reason. */
  predicate ReactsTo(e: Event, team: string, failing: set<string>, effect: Effect) {
    if Accepts(e, team) then effect == if e.id in failing then InjectFailed(e) else Injected(e)
    else effect.Violated? && effect.event == e && Tells(e, effect.reason)
  }

  /** A memory event that is not scoped to a team is reported as such, anything else with the team it is for, if any. */
  predicate Tells(e: Event, reason: Violation) {
    match PayloadOf(e)
    case None => reason == PayloadTeamMismatch(None)
    case Some(fs) =>
      if IsMemoryEvent(e) && Envelope.Get(fs, "scope") != Str("team") then reason == MemoryNonTeamScope(StringField(fs, "teamId"))
      else reason == PayloadTeamMismatch(RoutableTeamId(e))
  }

  /** The watermark if it moved, and then the next request or the end. */
  function Following(story: Story, key: string, before: Option<string>, now: Option<string>, hasMore: bool): seq<Effect> {
    (if now != before && now.Some? then [Advanced(now.value)] else []) +
    (if hasMore then [Asked(story.team, story.peer, now)] else [Resolved(key)])
  }

  /**
   A chunk for a waiting request brings about one thing per event, in order; then the watermark is reported if it moved,
   and the request goes on from there or ends. A chunk that nobody waits for brings about nothing.
   */
  lemma ChunkBringsAbout(ops: seq<Op>, team: string, peer: string, chunk: Chunk, failing: set<string>)
    returns (reactions: seq<Effect>, before: Option<string>, now: Option<string>)
    ensures var k := Key(team, peer);
            var effects, more := After(ops).effects, After(ops + [Receives(team, peer, chunk, failing)]).effects;
            match StoryOf(ops, k)
            case None => more == effects
            case Some(story) =>
              && IsHighest(before, story.since, story.heard)
              && IsHighest(now, story.since, story.heard + IdsIn(chunk.events))
              && |reactions| == |chunk.events|
              && (forall i :: 0 <= i < |reactions| ==> ReactsTo(chunk.events[i], team, failing, reactions[i]))
              && more == effects + (reactions + Following(story, k, before, now, chunk.hasMore))
  {
    var k, s := Key(team, peer), After(ops);
    var all := ops + [Receives(team, peer, chunk, failing)];
    assert all[..|ops|] == ops;
    AsksFromHighest(ops, k);
    reactions, before, now := EffectsOf(chunk.events, team, failing), None, None;
    if k in s.inFlight {
      var story := StoryOf(ops, k).value;
      before := s.inFlight[k].watermark;
      now := Highest(before, chunk.events);
      HigherHeard(before, story.since, story.heard, chunk.events);
      assert After(all) == Handle(s, team, peer, chunk, failing);
    }
  }
}
