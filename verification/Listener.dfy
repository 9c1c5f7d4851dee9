/** The accepting side of a peer connection (src/mesh/listener.ts), and how it fares with a peer link. */
module Listener {
  import opened Basics
  import opened Json
  import opened Envelope
  import opened PeerLink
  import opened LinkRuns

  datatype Phase = AwaitingHello | Live | Refused

  /** The data attached to a socket; `delivered` are the envelopes handed to the bridge. */
  datatype SocketData = SocketData(phase: Phase, team: Option<string>, from: Option<string>, delivered: seq<Env>)

  const ACCEPTED := SocketData(AwaitingHello, None, None, [])

  /** What the bridge does with a verified hello. */
  datatype HelloVerdict = Welcomes | Declines | Throws

  function TextAt(env: Env, key: string): string {
    match Get(env, key)
    case Str(s) => s
    case _ => ""
  }

  /** The listener knows a team if it has a non-empty secret for it. */
  predicate Knows(secrets: map<string, string>, team: string) {
    team in secrets && secrets[team] != ""
  }

  function Message(d: SocketData, raw: string, mac: Mac, secrets: map<string, string>, verdict: HelloVerdict): SocketData {
    if d.phase == Refused then d
    else match Decode(raw)
      case Err(_) => d.(phase := Refused)
      case Ok(env) => if d.phase == AwaitingHello then First(d, env, mac, secrets, verdict) else Next(d, env, mac, secrets)
  }

  function First(d: SocketData, env: Env, mac: Mac, secrets: map<string, string>, verdict: HelloVerdict): SocketData {
    var team := TextAt(env, "teamId");
    if TextAt(env, "kind") != "hello" || !Knows(secrets, team) then d.(phase := Refused)
    else match Verify(mac, env, secrets[team])
      case None => d
      case Some(valid) =>
        if !valid then d.(phase := Refused)
        else SocketData(if verdict == Welcomes then Live else Refused, Some(team), Some(TextAt(env, "fromHostId")), d.delivered)
  }

  function Next(d: SocketData, env: Env, mac: Mac, secrets: map<string, string>): SocketData {
    var team := TextAt(env, "teamId");
    if d.team != Some(team) then d
    else if !Knows(secrets, team) then d.(phase := Refused)
    else match Verify(mac, env, secrets[team])
      case None => d
      case Some(valid) => if valid then d.(delivered := d.delivered + [env]) else d.(phase := Refused)
  }

  class InboundSocket {
    var phase: Phase
    var team: Option<string>
    var from: Option<string>
    var delivered: seq<Env>

    constructor ()
      ensures Now() == ACCEPTED
    {
      phase, team, from, delivered := AwaitingHello, None, None, [];
    }

    function Now(): SocketData
      reads this
    {
      SocketData(phase, team, from, delivered)
    }

    /** The socket is closed from this side. */
    method Refuse()
      modifies this`phase
      ensures Now() == old(Now()).(phase := Refused)
    {
      phase := Refused;
    }

    method OnMessage(raw: string, mac: Mac, secrets: map<string, string>, verdict: HelloVerdict)
      modifies this
      ensures Now() == Message(old(Now()), raw, mac, secrets, verdict)
    {
      if phase == Refused {
        return;
      }
      var decoded := Decode(raw);
      if decoded.Err? {
        Refuse();
      } else if phase == AwaitingHello {
        OnHello(decoded.value, mac, secrets, verdict);
      } else {
        OnEnvelope(decoded.value, mac, secrets);
      }
    }

    method OnHello(env: Env, mac: Mac, secrets: map<string, string>, verdict: HelloVerdict)
      requires phase == AwaitingHello
      modifies this
      ensures Now() == First(old(Now()), env, mac, secrets, verdict)
    {
      var teamId := TextAt(env, "teamId");
      if TextAt(env, "kind") != "hello" || !Knows(secrets, teamId) {
        Refuse();
        return;
      }
      var verified := Verify(mac, env, secrets[teamId]);
      if verified == Some(false) {
        Refuse();
      } else if verified == Some(true) {
        team, from := Some(teamId), Some(TextAt(env, "fromHostId"));
        if verdict == Welcomes {
          phase := Live;
        } else {
          Refuse();
        }
      }
    }

    method OnEnvelope(env: Env, mac: Mac, secrets: map<string, string>)
      requires phase == Live
      modifies this
      ensures Now() == Next(old(Now()), env, mac, secrets)
    {
      var teamId := TextAt(env, "teamId");
      if team != Some(teamId) {
        return;
      }
      if !Knows(secrets, teamId) {
        Refuse();
        return;
      }
      var verified := Verify(mac, env, secrets[teamId]);
      if verified == Some(false) {
        Refuse();
      } else if verified == Some(true) {
        delivered := delivered + [env];
      }
    }
  }

  // ---------- The other end: what the link makes of a message ----------

  /** The checks of the link's message handler. */
  function Judge(raw: string, mac: Mac, team: string, secret: string): Verdict {
    match Decode(raw)
    case Err(_) => Ignored
    case Ok(env) =>
      if TextAt(env, "teamId") != team then Ignored
      else match Verify(mac, env, secret)
        case None => Ignored
        case Some(valid) => if valid then Genuine else Forged
  }

  // ---------- Envelopes of a team member ----------

  /** What goes over the wire for an envelope that can be encoded. */
  function Wire(env: Env): string {
    match Encode(env)
    case Some(text) => text
    case None => ""
  }

  /** `env` was signed with the team's secret by somebody who holds it. */
  ghost predicate SignedBy(env: Env, mac: Mac, team: string, secret: string) {
    exists u ::
      && Unsigned(u) && Sign(mac, u, secret).Some? && env == Signed(u, Sign(mac, u, secret).value)
      && Get(u, "teamId") == Str(team)
  }

  lemma SignedTexts(u: Env, tag: string, team: string)
    requires Unsigned(u) && Get(u, "teamId") == Str(team)
    ensures TextAt(NormalFields(Signed(u, tag)), "teamId") == team
    ensures TextAt(NormalFields(Signed(u, tag)), "kind") == TextAt(Signed(u, tag), "kind")
  {
    SignedFacts(u, tag);
    GetOfSigned(u, tag, "teamId");
    NormalKeepsProperty(Signed(u, tag), "teamId");
    NormalKeepsProperty(Signed(u, tag), "kind");
  }

  lemma {:induction false} SignedArrives(env: Env, mac: Mac, team: string, secret: string)
    requires Digesting(mac) && SignedBy(env, mac, team, secret)
    ensures Encodable(env) && Decode(Wire(env)) == Ok(NormalFields(env))
    ensures Verify(mac, NormalFields(env), secret) == Some(true)
    ensures TextAt(NormalFields(env), "teamId") == team && TextAt(NormalFields(env), "kind") == TextAt(env, "kind")
  {
    var u :|
      && Unsigned(u) && Sign(mac, u, secret).Some? && env == Signed(u, Sign(mac, u, secret).value)
      && Get(u, "teamId") == Str(team);
    SignedRoundTrip(mac, u, secret);
    SignedTexts(u, Sign(mac, u, secret).value, team);
  }

  /** `makeHelloEnvelope` and `makeHeartbeatEnvelope`, before signing. */
  function Draft(team: string, host: string, id: string, kind: string, payload: seq<Field>, sentAt: int): Env {
    [Field("proto", Str(PROTO)), Field("envelopeId", Str(id)), Field("teamId", Str(team)), Field("fromHostId", Str(host)),
     Field("kind", Str(kind)), Field("payload", Obj(payload)), Field("sentAt", Num(sentAt))]
  }

  function HelloPayload(team: string, host: string, addr: Option<string>): seq<Field> {
    [Field("teamId", Str(team)), Field("fromHostId", Str(host))] +
    (if addr.Some? && addr.value != "" then [Field("listenerAddr", Str(addr.value))] else [])
  }

  lemma Lookups(team: string, host: string, id: string, kind: string, payload: seq<Field>, sentAt: int, tag: string)
    ensures var fs := Signed(Draft(team, host, id, kind, payload, sentAt), tag);
            && Get(fs, "proto") == Str(PROTO) && Get(fs, "envelopeId") == Str(id) && Get(fs, "teamId") == Str(team)
            && Get(fs, "fromHostId") == Str(host) && Get(fs, "kind") == Str(kind) && Get(fs, "payload") == Obj(payload)
            && Get(fs, "sentAt") == Num(sentAt) && Get(fs, "hmac") == Str(tag)
  {
    var fs := Signed(Draft(team, host, id, kind, payload, sentAt), tag);
    forall i: nat | i < |fs| ensures Get(fs, fs[i].key) == fs[i].value {
      GetFirst(fs, i);
    }
    assert fs[0].key == "proto" && fs[1].key == "envelopeId" && fs[2].key == "teamId" && fs[3].key == "fromHostId";
    assert fs[4].key == "kind" && fs[5].key == "payload" && fs[6].key == "sentAt" && fs[7].key == "hmac";
  }

  /** What the link signs itself, hello and heartbeats, is a member's envelope. */
  lemma OwnEnvelopesAreSigned(mac: Mac, team: string, host: string, addr: Option<string>, id: string, sentAt: int,
      secret: string)
    requires Digesting(mac)
    ensures var u := Draft(team, host, id, "hello", HelloPayload(team, host, addr), sentAt);
            Sign(mac, u, secret).Some? && SignedBy(Signed(u, Sign(mac, u, secret).value), mac, team, secret) &&
            TextAt(Signed(u, Sign(mac, u, secret).value), "kind") == "hello"
    ensures var u := Draft(team, host, id, "heartbeat", [], sentAt);
            Sign(mac, u, secret).Some? && SignedBy(Signed(u, Sign(mac, u, secret).value), mac, team, secret)
  {
    OwnIsSigned(mac, team, host, id, "hello", HelloPayload(team, host, addr), sentAt, secret);
    OwnIsSigned(mac, team, host, id, "heartbeat", [], sentAt, secret);
  }

  lemma DraftKeys(team: string, host: string, id: string, kind: string, payload: seq<Field>, sentAt: int)
    ensures DistinctKeys(Draft(team, host, id, kind, payload, sentAt))
    ensures forall f <- Draft(team, host, id, kind, payload, sentAt) :: f.key != "hmac"
  {
    var u := Draft(team, host, id, kind, payload, sentAt);
    assert u[0].key[0] == 'p' && u[1].key[0] == 'e' && u[2].key[0] == 't' && u[3].key[0] == 'f';
    assert u[4].key[0] == 'k' && u[5].key[..2] == "pa" && u[6].key[0] == 's' && u[0].key[..2] == "pr";
  }

  lemma DraftValues(team: string, host: string, id: string, kind: string, payload: seq<Field>, sentAt: int)
    requires DistinctKeys(payload) && forall f <- payload :: f.value.Str?
    ensures forall f <- Draft(team, host, id, kind, payload, sentAt) :: WellKeyed(f.value) && Representable(f.value)
  {
    assert WellKeyed(Obj(payload)) && Representable(Obj(payload));
  }

  lemma DraftShape(team: string, host: string, id: string, kind: string, payload: seq<Field>, sentAt: int)
    requires kind in ["hello", "heartbeat"]
    ensures ShapeError(Signed(Draft(team, host, id, kind, payload, sentAt), "")).None?
  {
    Lookups(team, host, id, kind, payload, sentAt, "");
  }

  lemma DraftIsUnsigned(team: string, host: string, id: string, kind: string, payload: seq<Field>, sentAt: int)
    requires kind in ["hello", "heartbeat"] && DistinctKeys(payload) && forall f <- payload :: f.value.Str?
    ensures Unsigned(Draft(team, host, id, kind, payload, sentAt))
  {
    DraftShape(team, host, id, kind, payload, sentAt);
    DraftKeys(team, host, id, kind, payload, sentAt);
    DraftValues(team, host, id, kind, payload, sentAt);
  }

  lemma OwnIsSigned(mac: Mac, team: string, host: string, id: string, kind: string, payload: seq<Field>,
      sentAt: int, secret: string)
    requires Digesting(mac) && kind in ["hello", "heartbeat"]
    requires DistinctKeys(payload) && forall f <- payload :: f.value.Str?
    ensures var u := Draft(team, host, id, kind, payload, sentAt);
            Sign(mac, u, secret).Some? && SignedBy(Signed(u, Sign(mac, u, secret).value), mac, team, secret) &&
            TextAt(Signed(u, Sign(mac, u, secret).value), "kind") == kind
  {
    var u := Draft(team, host, id, kind, payload, sentAt);
    DraftIsUnsigned(team, host, id, kind, payload, sentAt);
    SignedRoundTrip(mac, u, secret);
    var tag := Sign(mac, u, secret).value;
    Lookups(team, host, id, kind, payload, sentAt, tag);
    GetOfSigned(u, tag, "teamId");
  }

  /** A member's envelope never makes the link reject the connection. */
  lemma SignedIsNotForged(env: Env, mac: Mac, team: string, secret: string)
    requires Digesting(mac) && SignedBy(env, mac, team, secret)
    ensures Encodable(env) && Judge(Wire(env), mac, team, secret) == Genuine
  {
    SignedArrives(env, mac, team, secret);
  }

  // ---------- Listening to a wire ----------

  type Ear = (SocketData, string) -> SocketData

  /** A listener whose bridge welcomes every hello. */
  function Welcoming(mac: Mac, secrets: map<string, string>): Ear {
    (d: SocketData, raw: string) => Message(d, raw, mac, secrets, Welcomes)
  }

  /** The socket's data after the first `k` items of a wire arrived. */
  function Heard(wire: seq<Item>, k: nat, ear: Ear): SocketData
    requires k <= |wire|
  {
    if k == 0 then ACCEPTED else ear(Heard(wire, k - 1, ear), Wire(wire[k - 1].env))
  }

  function Decoded(wire: seq<Item>): seq<Env> {
    seq(|wire|, i requires 0 <= i < |wire| => NormalFields(wire[i].env))
  }

  /** An item as a team member's link puts it on a wire. */
  ghost predicate Proper(item: Item, mac: Mac, team: string, secret: string) {
    SignedBy(item.env, mac, team, secret) && (item.Hello? ==> TextAt(item.env, "kind") == "hello")
  }

  lemma HearHello(item: Item, mac: Mac, secrets: map<string, string>, team: string)
    requires Digesting(mac) && Knows(secrets, team) && Proper(item, mac, team, secrets[team]) && item.Hello?
    ensures var d := Message(ACCEPTED, Wire(item.env), mac, secrets, Welcomes);
            d.phase == Live && d.team == Some(team) && d.delivered == []
  {
    SignedArrives(item.env, mac, team, secrets[team]);
  }

  lemma HearNext(d: SocketData, item: Item, mac: Mac, secrets: map<string, string>, team: string)
    requires Digesting(mac) && Knows(secrets, team) && Proper(item, mac, team, secrets[team])
    requires d.phase == Live && d.team == Some(team)
    ensures Message(d, Wire(item.env), mac, secrets, Welcomes) == d.(delivered := d.delivered + [NormalFields(item.env)])
  {
    SignedArrives(item.env, mac, team, secrets[team]);
  }

  lemma DecodedSnoc(wire: seq<Item>, k: nat)
    requires 1 < k <= |wire|
    ensures Decoded(wire[1..k]) == Decoded(wire[1..k - 1]) + [NormalFields(wire[k - 1].env)]
  {
  }

  /** The socket is live for `team` from the first item on, and has delivered all the later ones in order. */
  predicate Hears(d: SocketData, wire: seq<Item>, k: nat, team: string)
    requires k <= |wire|
  {
    if k == 0 then d == ACCEPTED
    else d.phase == Live && d.team == Some(team) && d.delivered == Decoded(wire[1..k])
  }

  lemma HearsFirst(d: SocketData, wire: seq<Item>, team: string)
    requires wire != [] && d.phase == Live && d.team == Some(team) && d.delivered == []
    ensures Hears(d, wire, 1, team)
  {
  }

  lemma HearsMore(d: SocketData, wire: seq<Item>, k: nat, team: string)
    requires 0 < k < |wire| && Hears(d, wire, k, team)
    ensures Hears(d.(delivered := d.delivered + [NormalFields(wire[k].env)]), wire, k + 1, team)
  {
    DecodedSnoc(wire, k + 1);
  }

  lemma HearStep(d: SocketData, wire: seq<Item>, k: nat, mac: Mac, secrets: map<string, string>, team: string)
    requires Digesting(mac) && Knows(secrets, team) && k < |wire| && Hears(d, wire, k, team)
    requires Proper(wire[k], mac, team, secrets[team]) && (wire[k].Hello? <==> k == 0)
    ensures Hears(Message(d, Wire(wire[k].env), mac, secrets, Welcomes), wire, k + 1, team)
  {
    if k == 0 {
      HearHello(wire[0], mac, secrets, team);
      HearsFirst(Message(ACCEPTED, Wire(wire[0].env), mac, secrets, Welcomes), wire, team);
    } else {
      HearNext(d, wire[k], mac, secrets, team);
      HearsMore(d, wire, k, team);
    }
  }

  /** An ear that keeps up with each item keeps up with the whole wire. */
  lemma {:induction false} StepByStep(wire: seq<Item>, k: nat, ear: Ear, team: string)
    requires k <= |wire|
    requires forall d: SocketData, i ::
               0 <= i < |wire| && Hears(d, wire, i, team) ==> Hears(ear(d, Wire(wire[i].env)), wire, i + 1, team)
    ensures Hears(Heard(wire, k, ear), wire, k, team)
  {
    if k > 0 {
      StepByStep(wire, k - 1, ear, team);
    }
  }

  lemma WireIsHeard(wire: seq<Item>, k: nat, mac: Mac, secrets: map<string, string>, team: string)
    requires Digesting(mac) && Knows(secrets, team) && k <= |wire|
    requires forall i :: 0 <= i < |wire| ==> Proper(wire[i], mac, team, secrets[team]) && (wire[i].Hello? <==> i == 0)
    ensures Hears(Heard(wire, k, Welcoming(mac, secrets)), wire, k, team)
  {
    forall d: SocketData, i | 0 <= i < |wire| && Hears(d, wire, i, team)
      ensures Hears(Welcoming(mac, secrets)(d, Wire(wire[i].env)), wire, i + 1, team)
    {
      HearStep(d, wire, i, mac, secrets, team);
    }
    StepByStep(wire, k, Welcoming(mac, secrets), team);
  }

  // ---------- Runs of a link among members ----------

  /** Everything the link is given was signed by a member, and so was everything that arrives on its sockets. */
  ghost predicate MemberOp(op: Op, mac: Mac, team: string, secret: string) {
    match op
    case SocketOpens(_, hello, greeting) =>
      SignedBy(hello, mac, team, secret) && TextAt(hello, "kind") == "hello" && AllSigned(greeting, mac, team, secret)
    case SocketReceives(_, verdict, replies) =>
      && (exists env :: SignedBy(env, mac, team, secret) && verdict == Judge(Wire(env), mac, team, secret))
      && AllSigned(replies, mac, team, secret)
    case Beats(beat) => SignedBy(beat, mac, team, secret)
    case Sending(env) => SignedBy(env, mac, team, secret)
    case _ => true
  }

  ghost predicate AllSigned(envs: seq<Env>, mac: Mac, team: string, secret: string) {
    forall e :: e in envs ==> SignedBy(e, mac, team, secret)
  }

  ghost predicate AllProper(s: State, mac: Mac, team: string, secret: string) {
    && !s.rejected && s.status != Rejected
    && AllSigned(s.queue, mac, team, secret)
    && forall n :: 0 <= n < |s.sockets| ==> WireProper(s.sockets[n].wire, mac, team, secret)
  }

  ghost predicate WireProper(wire: seq<Item>, mac: Mac, team: string, secret: string) {
    forall j :: 0 <= j < |wire| ==> Proper(wire[j], mac, team, secret)
  }

  lemma RawSendProper(s: State, item: Item, mac: Mac, team: string, secret: string)
    requires AllProper(s, mac, team, secret) && Proper(item, mac, team, secret)
    ensures AllProper(RawSend(s, item), mac, team, secret)
  {
  }

  lemma SendProper(s: State, env: Env, maxQueue: nat, mac: Mac, team: string, secret: string)
    requires AllProper(s, mac, team, secret) && SignedBy(env, mac, team, secret)
    ensures AllProper(Send(s, env, maxQueue), mac, team, secret)
  {
    var t := s.(accepted := s.accepted + [env]);
    if Sends(t, Data(env)) {
      RawSendProper(t, Data(env), mac, team, secret);
    } else {
      EnqueueProper(t, env, maxQueue, mac, team, secret);
    }
  }

  lemma QueueProper(s: State, q: seq<Env>, mac: Mac, team: string, secret: string)
    requires AllProper(s, mac, team, secret) && AllSigned(q, mac, team, secret)
    ensures AllProper(s.(queue := q), mac, team, secret)
  {
  }

  lemma EnqueueProper(s: State, env: Env, maxQueue: nat, mac: Mac, team: string, secret: string)
    requires AllProper(s, mac, team, secret) && SignedBy(env, mac, team, secret)
    ensures AllProper(Enqueue(s, env, maxQueue), mac, team, secret)
  {
    var q := s.queue + [env];
    assert AllSigned(q, mac, team, secret) && AllSigned(q[1..], mac, team, secret);
    QueueProper(s, if |q| > maxQueue then q[1..] else q, mac, team, secret);
  }

  lemma {:induction false} SendAllProper(s: State, envs: seq<Env>, maxQueue: nat, mac: Mac, team: string,
      secret: string)
    requires AllProper(s, mac, team, secret) && AllSigned(envs, mac, team, secret)
    ensures AllProper(SendAll(s, envs, maxQueue), mac, team, secret)
  {
    if envs != [] {
      SendAllProper(s, envs[..|envs| - 1], maxQueue, mac, team, secret);
      SendProper(SendAll(s, envs[..|envs| - 1], maxQueue), envs[|envs| - 1], maxQueue, mac, team, secret);
    }
  }

  lemma {:induction false} FlushProper(s: State, mac: Mac, team: string, secret: string)
    requires AllProper(s, mac, team, secret)
    ensures AllProper(Flush(s), mac, team, secret)
    decreases |s.queue|
  {
    if s.queue != [] && Sends(s, Data(s.queue[0])) {
      assert s.queue[0] in s.queue;
      RawSendProper(s, Data(s.queue[0]), mac, team, secret);
      FlushProper(RawSend(s, Data(s.queue[0])).(queue := s.queue[1..]), mac, team, secret);
    }
  }

  lemma AnnounceProper(s: State, hello: Env, greeting: seq<Env>, maxQueue: nat, mac: Mac, team: string, secret: string)
    requires AllProper(s, mac, team, secret) && AllSigned(greeting, mac, team, secret)
    requires SignedBy(hello, mac, team, secret) && TextAt(hello, "kind") == "hello"
    ensures AllProper(Announce(s, hello, greeting, maxQueue), mac, team, secret)
  {
    var t := RawSend(s.(backoffIdx := 0), Hello(hello));
    RawSendProper(s.(backoffIdx := 0), Hello(hello), mac, team, secret);
    if t.status == Connected {
      FlushProper(t, mac, team, secret);
    } else {
      SendAllProper(t.(status := Connected), greeting, maxQueue, mac, team, secret);
      FlushProper(SendAll(t.(status := Connected), greeting, maxQueue), mac, team, secret);
    }
  }

  lemma ReadyProper(s: State, n: nat, ready: Ready, mac: Mac, team: string, secret: string)
    requires AllProper(s, mac, team, secret) && n < |s.sockets|
    ensures AllProper(s.(sockets := s.sockets[n := s.sockets[n].(ready := ready)]), mac, team, secret)
  {
  }

  lemma OpensProper(s: State, n: nat, hello: Env, greeting: seq<Env>, maxQueue: nat, mac: Mac, team: string,
      secret: string)
    requires AllProper(s, mac, team, secret) && n < |s.sockets| && AllSigned(greeting, mac, team, secret)
    requires SignedBy(hello, mac, team, secret) && TextAt(hello, "kind") == "hello"
    ensures AllProper(Opens(s, n, hello, greeting, maxQueue), mac, team, secret)
  {
    ReadyProper(s, n, Open, mac, team, secret);
    var t := s.(sockets := s.sockets[n := s.sockets[n].(ready := Open)]);
    if s.Dead() {
      ReadyProper(t, n, Closing, mac, team, secret);
    } else {
      AnnounceProper(t, hello, greeting, maxQueue, mac, team, secret);
    }
  }

  lemma NotForged(verdict: Verdict, mac: Mac, team: string, secret: string)
    requires Digesting(mac) && exists env :: SignedBy(env, mac, team, secret) && verdict == Judge(Wire(env), mac, team, secret)
    ensures verdict == Genuine
  {
    var env :| SignedBy(env, mac, team, secret) && verdict == Judge(Wire(env), mac, team, secret);
    SignedIsNotForged(env, mac, team, secret);
  }

  lemma ConnectProper(s: State, constructs: bool, mac: Mac, team: string, secret: string)
    requires AllProper(s, mac, team, secret)
    ensures AllProper(Connect(s, constructs), mac, team, secret)
  {
  }

  lemma CloseSocketProper(s: State, mac: Mac, team: string, secret: string)
    requires AllProper(s, mac, team, secret)
    ensures s.ws.Some? ==> AllProper(CloseSocket(s, s.ws.value), mac, team, secret)
  {
    if s.ws.Some? && s.ws.value < |s.sockets| {
      ReadyProper(s, s.ws.value, Closing, mac, team, secret);
    }
  }

  lemma ReceivesProper(s: State, n: nat, verdict: Verdict, replies: seq<Env>, maxQueue: nat, mac: Mac, team: string,
      secret: string)
    requires Digesting(mac) && AllProper(s, mac, team, secret) && n < |s.sockets| && s.sockets[n].ready == Open
    requires MemberOp(SocketReceives(n, verdict, replies), mac, team, secret)
    ensures AllProper(Receives(s, n, verdict, replies, maxQueue), mac, team, secret)
  {
    NotForged(verdict, mac, team, secret);
    SendAllProper(s, replies, maxQueue, mac, team, secret);
  }

  lemma ClosesProper(s: State, n: nat, mac: Mac, team: string, secret: string)
    requires AllProper(s, mac, team, secret) && n < |s.sockets|
    ensures AllProper(Closes(s, n), mac, team, secret)
  {
    ReadyProper(s, n, Closed, mac, team, secret);
  }

  lemma DoProper(s: State, op: Op, maxQueue: nat, mac: Mac, team: string, secret: string)
    requires Digesting(mac) && AllProper(s, mac, team, secret) && Enabled(s, op) && MemberOp(op, mac, team, secret)
    ensures AllProper(Do(s, op, maxQueue), mac, team, secret)
  {
    match op
    case Starts(constructs) => ConnectProper(s.(started := true), constructs, mac, team, secret);
    case Reconnects(constructs) => ConnectProper(s.(reconnect := false), constructs, mac, team, secret);
    case BecomesStale => CloseSocketProper(s.(status := Stale), mac, team, secret);
    case Shutting =>
      CloseSocketProper(s.(closed := true, timers := false, reconnect := false, status := Disconnected), mac, team, secret);
    case SocketOpens(n, hello, greeting) => OpensProper(s, n, hello, greeting, maxQueue, mac, team, secret);
    case SocketReceives(n, verdict, replies) => ReceivesProper(s, n, verdict, replies, maxQueue, mac, team, secret);
    case SocketCloses(n) => ClosesProper(s, n, mac, team, secret);
    case Beats(beat) => RawSendProper(s, Beat(beat), mac, team, secret);
    case Sending(env) => SendProper(s, env, maxQueue, mac, team, secret);
  }

  lemma {:induction false} RunProper(ops: seq<Op>, maxQueue: nat, mac: Mac, team: string, secret: string)
    requires Digesting(mac) && forall op :: op in ops ==> MemberOp(op, mac, team, secret)
    ensures AllProper(After(ops, maxQueue), mac, team, secret)
  {
    if ops != [] {
      var s, op := After(ops[..|ops| - 1], maxQueue), ops[|ops| - 1];
      RunProper(ops[..|ops| - 1], maxQueue, mac, team, secret);
      if Enabled(s, op) {
        DoProper(s, op, maxQueue, mac, team, secret);
      }
    }
  }

  /**
   A link and a listener that share the team's secret never reject each other: whatever the sockets and timers do, the
   listener's end of every socket goes live with the first item and delivers every later one, once and in order.
   */
  lemma {:induction false} MembersUnderstandEachOther(ops: seq<Op>, maxQueue: nat, mac: Mac,
      secrets: map<string, string>, team: string, n: nat, k: nat)
    requires Digesting(mac) && Knows(secrets, team) && forall op :: op in ops ==> MemberOp(op, mac, team, secrets[team])
    ensures !After(ops, maxQueue).rejected && After(ops, maxQueue).status != Rejected
    ensures n < |After(ops, maxQueue).sockets| && k <= |After(ops, maxQueue).sockets[n].wire| ==>
              var wire := After(ops, maxQueue).sockets[n].wire; Hears(Heard(wire, k, Welcoming(mac, secrets)), wire, k, team)
  {
    var s := After(ops, maxQueue);
    RunProper(ops, maxQueue, mac, team, secrets[team]);
    if n < |s.sockets| && k <= |s.sockets[n].wire| {
      var wire := s.sockets[n].wire;
      forall i | 0 <= i < |wire| ensures Proper(wire[i], mac, team, secrets[team]) && (wire[i].Hello? <==> i == 0) {
        HelloIsFirst(ops, maxQueue, n, i);
      }
      WireIsHeard(wire, k, mac, secrets, team);
    }
  }

  // ---------- Arbitrary messages ----------

  /** A message as it arrives, from anybody, and what the bridge would do with it if it is a verified hello. */
  datatype Arrival = Arrival(raw: string, verdict: HelloVerdict)

  /** A socket after the messages `arrivals`, the first one first. */
  function SocketAfter(arrivals: seq<Arrival>, mac: Mac, secrets: map<string, string>): SocketData {
    if arrivals == [] then ACCEPTED
    else
      var last := arrivals[|arrivals| - 1];
      Message(SocketAfter(arrivals[..|arrivals| - 1], mac, secrets), last.raw, mac, secrets, last.verdict)
  }

  /** The message is an envelope for the team that carries the MAC of its content under the team's secret. */
  predicate FromMember(raw: string, mac: Mac, secrets: map<string, string>, team: string) {
    && team in secrets && secrets[team] != "" && Decode(raw).Ok?
    && Get(Decode(raw).value, "teamId") == Str(team) && Authentic(Decode(raw).value, mac, secrets[team])
  }

  /** The message is a member's hello that the bridge welcomes. */
  predicate WelcomeHello(a: Arrival, mac: Mac, secrets: map<string, string>, team: string) {
    FromMember(a.raw, mac, secrets, team) && Get(Decode(a.raw).value, "kind") == Str("hello") && a.verdict == Welcomes
  }

  /** The members' envelopes among the messages, in order. */
  function MembersOf(arrivals: seq<Arrival>, mac: Mac, secrets: map<string, string>, team: string): seq<Env> {
    if arrivals == [] then []
    else
      var init, raw := MembersOf(arrivals[..|arrivals| - 1], mac, secrets, team), arrivals[|arrivals| - 1].raw;
      if FromMember(raw, mac, secrets, team) then init + [Decode(raw).value] else init
  }

  /** What ends a connection, by what has happened on it so far. */
  ghost predicate Unacceptable(d: SocketData, a: Arrival, mac: Mac, secrets: map<string, string>) {
    || Decode(a.raw).Err?
    || (d.phase == AwaitingHello && forall team :: !WelcomeHello(a, mac, secrets, team))
    || (d.phase == Live && d.team.Some? && Get(Decode(a.raw).value, "teamId") == Str(d.team.value)
        && !FromMember(a.raw, mac, secrets, d.team.value))
  }

  lemma TextOfDecoded(raw: string)
    requires Decode(raw).Ok?
    ensures var env := Decode(raw).value;
            && Get(env, "teamId") == Str(TextAt(env, "teamId")) && Get(env, "kind") == Str(TextAt(env, "kind"))
            && Get(env, "fromHostId") == Str(TextAt(env, "fromHostId"))
  {
    DecodesExactly(raw, Decode(raw).value);
  }

  /** The socket is known by the host that the envelope names as its sender. */
  predicate Named(d: SocketData, env: Env) {
    d.from.Some? && Get(env, "fromHostId") == Str(d.from.value)
  }

  lemma HelloEffect(d: SocketData, a: Arrival, env: Env, team: string, mac: Mac, secrets: map<string, string>)
    requires Digesting(mac) && Decode(a.raw) == Ok(env) && Get(env, "teamId") == Str(team)
    ensures var e := First(d, env, mac, secrets, a.verdict);
            && e.delivered == d.delivered
            && if WelcomeHello(a, mac, secrets, team) then e.phase == Live && e.team == Some(team) && Named(e, env)
               else e.phase == Refused
  {
    TextOfDecoded(a.raw);
    if team in secrets {
      ReceivedVerifiesIff(mac, a.raw, env, secrets[team]);
    }
  }

  lemma LiveEffect(d: SocketData, raw: string, env: Env, team: string, mac: Mac, secrets: map<string, string>)
    requires Digesting(mac) && Decode(raw) == Ok(env) && d.phase == Live && d.team == Some(team)
    ensures var e := Next(d, env, mac, secrets);
            if FromMember(raw, mac, secrets, team) then e == d.(delivered := d.delivered + [env])
            else if Get(env, "teamId") == Str(team) then e == d.(phase := Refused)
            else e == d
  {
    TextOfDecoded(raw);
    if team in secrets {
      ReceivedVerifiesIff(mac, raw, env, secrets[team]);
    }
  }

  /** What the first message does to a socket. */
  lemma FirstArrival(d: SocketData, a: Arrival, mac: Mac, secrets: map<string, string>)
    requires Digesting(mac) && d.phase == AwaitingHello
    ensures var e := Message(d, a.raw, mac, secrets, a.verdict);
            && e.delivered == d.delivered
            && (e.phase == Refused <==> Unacceptable(d, a, mac, secrets))
            && (e.phase != Refused ==> e.phase == Live && e.team.Some? && WelcomeHello(a, mac, secrets, e.team.value))
            && (e.phase != Refused ==> Named(e, Decode(a.raw).value))
  {
    if Decode(a.raw).Ok? {
      var env := Decode(a.raw).value;
      TextOfDecoded(a.raw);
      HelloEffect(d, a, env, TextAt(env, "teamId"), mac, secrets);
      assert forall team :: WelcomeHello(a, mac, secrets, team) ==> team == TextAt(env, "teamId");
    }
  }

  /** What a later message does to a live socket. */
  lemma LaterArrival(d: SocketData, a: Arrival, mac: Mac, secrets: map<string, string>)
    requires Digesting(mac) && d.phase == Live && d.team.Some?
    ensures var e := Message(d, a.raw, mac, secrets, a.verdict);
            && e.team == d.team && e.from == d.from && (e.phase == Live || e.phase == Refused)
            && (e.phase == Refused <==> Unacceptable(d, a, mac, secrets))
            && e.delivered == d.delivered +
               if FromMember(a.raw, mac, secrets, d.team.value) then [Decode(a.raw).value] else []
  {
    if Decode(a.raw).Ok? {
      LiveEffect(d, a.raw, Decode(a.raw).value, d.team.value, mac, secrets);
    }
  }

  /** Before a socket is live nothing has been delivered; after, exactly the members' envelopes since its hello. */
  ghost predicate Explained(d: SocketData, arrivals: seq<Arrival>, mac: Mac, secrets: map<string, string>) {
    match d.phase
    case AwaitingHello => arrivals == [] && d == ACCEPTED
    case Live =>
      && d.team.Some? && arrivals != [] && WelcomeHello(arrivals[0], mac, secrets, d.team.value)
      && Named(d, Decode(arrivals[0].raw).value) && d.delivered == MembersOf(arrivals[1..], mac, secrets, d.team.value)
    case Refused =>
      || d.delivered == []
      || (d.team.Some? && arrivals != [] && WelcomeHello(arrivals[0], mac, secrets, d.team.value)
          && d.delivered <= MembersOf(arrivals[1..], mac, secrets, d.team.value))
  }

  lemma MembersSnoc(arrivals: seq<Arrival>, a: Arrival, mac: Mac, secrets: map<string, string>, team: string)
    ensures MembersOf(arrivals + [a], mac, secrets, team) ==
            MembersOf(arrivals, mac, secrets, team) +
            if FromMember(a.raw, mac, secrets, team) then [Decode(a.raw).value] else []
  {
    assert (arrivals + [a])[..|arrivals|] == arrivals;
  }

  lemma ArrivalExplained(d: SocketData, arrivals: seq<Arrival>, a: Arrival, mac: Mac, secrets: map<string, string>)
    requires Digesting(mac) && Explained(d, arrivals, mac, secrets)
    ensures Explained(Message(d, a.raw, mac, secrets, a.verdict), arrivals + [a], mac, secrets)
  {
    var all := arrivals + [a];
    if d.phase == AwaitingHello {
      FirstArrival(d, a, mac, secrets);
      assert all[1..] == [];
    } else if arrivals != [] {
      assert all[1..] == arrivals[1..] + [a];
      if d.phase == Live {
        LaterArrival(d, a, mac, secrets);
        MembersSnoc(arrivals[1..], a, mac, secrets, d.team.value);
      } else if d.team.Some? {
        MembersSnoc(arrivals[1..], a, mac, secrets, d.team.value);
      }
    }
  }

  /**
   Whatever anybody sends: a socket is live only after a welcomed hello with the team's MAC as its first message, and it
   has then handed over exactly the envelopes with that MAC that came later, in order; a refused one a part of them.
   */
  lemma {:induction false} OnlyMembersAreHeard(arrivals: seq<Arrival>, mac: Mac, secrets: map<string, string>)
    requires Digesting(mac)
    ensures Explained(SocketAfter(arrivals, mac, secrets), arrivals, mac, secrets)
  {
    if arrivals != [] {
      var init, last := arrivals[..|arrivals| - 1], arrivals[|arrivals| - 1];
      assert arrivals == init + [last];
      OnlyMembersAreHeard(init, mac, secrets);
      ArrivalExplained(SocketAfter(init, mac, secrets), init, last, mac, secrets);
    }
  }

  /**
   A socket is closed by exactly the first message that is no envelope, or no welcomed hello with its team's MAC at the
   start, or later one for its team without the team's MAC; and it stays as it then is.
   */
  lemma {:induction false} RefusedExactly(arrivals: seq<Arrival>, a: Arrival, mac: Mac, secrets: map<string, string>)
    requires Digesting(mac)
    ensures var d, e := SocketAfter(arrivals, mac, secrets), SocketAfter(arrivals + [a], mac, secrets);
            && (d.phase == Refused ==> e == d)
            && (d.phase != Refused ==> (e.phase == Refused <==> Unacceptable(d, a, mac, secrets)))
            && (e.phase == Refused ==> e.delivered == d.delivered)
  {
    var d := SocketAfter(arrivals, mac, secrets);
    assert (arrivals + [a])[..|arrivals|] == arrivals;
    OnlyMembersAreHeard(arrivals, mac, secrets);
    if d.phase == AwaitingHello {
      FirstArrival(d, a, mac, secrets);
    } else if d.phase == Live {
      LaterArrival(d, a, mac, secrets);
    }
  }

  // ---------- The link and forged messages ----------

  /** The link takes a message for forged exactly if it is an envelope for its team without the team's MAC. */
  lemma JudgedExactly(raw: string, mac: Mac, team: string, secret: string)
    requires Digesting(mac)
    ensures Judge(raw, mac, team, secret) == Forged <==>
              Decode(raw).Ok? && Get(Decode(raw).value, "teamId") == Str(team) && !Authentic(Decode(raw).value, mac, secret)
    ensures Judge(raw, mac, team, secret) == Genuine <==>
              Decode(raw).Ok? && Get(Decode(raw).value, "teamId") == Str(team) && Authentic(Decode(raw).value, mac, secret)
  {
    if Decode(raw).Ok? {
      TextOfDecoded(raw);
      ReceivedVerifiesIff(mac, raw, Decode(raw).value, secret);
    }
  }

  /** Step `k` hands a living link a message that it takes for forged. */
  predicate ForgedAt(ops: seq<Op>, maxQueue: nat, k: nat) {
    && k < |ops| && ops[k].SocketReceives? && ops[k].verdict == Forged
    && Enabled(After(ops[..k], maxQueue), ops[k]) && !After(ops[..k], maxQueue).Dead()
  }

  lemma {:induction false} SendAllSpares(s: State, envs: seq<Env>, maxQueue: nat)
    ensures SendAll(s, envs, maxQueue).rejected == s.rejected && SendAll(s, envs, maxQueue).closed == s.closed
  {
    if envs != [] {
      SendAllSpares(s, envs[..|envs| - 1], maxQueue);
    }
  }

  lemma {:induction false} FlushSpares(s: State)
    ensures Flush(s).rejected == s.rejected && Flush(s).closed == s.closed
    decreases |s.queue|
  {
    if s.queue != [] && Sends(s, Data(s.queue[0])) {
      FlushSpares(RawSend(s, Data(s.queue[0])).(queue := s.queue[1..]));
    }
  }

  lemma AnnounceSpares(s: State, hello: Env, greeting: seq<Env>, maxQueue: nat)
    ensures Announce(s, hello, greeting, maxQueue).rejected == s.rejected
  {
    var t := RawSend(s.(backoffIdx := 0), Hello(hello));
    SendAllSpares(t.(status := Connected), greeting, maxQueue);
    FlushSpares(Greet(t, greeting, maxQueue));
  }

  lemma RejectedByStep(s: State, op: Op, maxQueue: nat)
    requires Enabled(s, op)
    ensures Do(s, op, maxQueue).rejected <==>
              s.rejected || (op.SocketReceives? && op.verdict == Forged && !s.Dead())
  {
    match op
    case SocketOpens(n, hello, greeting) =>
      AnnounceSpares(s.(sockets := s.sockets[n := s.sockets[n].(ready := Open)]), hello, greeting, maxQueue);
    case SocketReceives(n, verdict, replies) => SendAllSpares(s, replies, maxQueue);
    case _ =>
  }

  /** A link gives up for good exactly if it has received a forged message while it was alive. */
  lemma {:induction false} RejectedIffForged(ops: seq<Op>, maxQueue: nat)
    ensures After(ops, maxQueue).rejected <==> exists k :: ForgedAt(ops, maxQueue, k)
  {
    if ops != [] {
      var n := |ops| - 1;
      var init, op := ops[..n], ops[n];
      RejectedIffForged(init, maxQueue);
      forall k: nat | k < n ensures ForgedAt(ops, maxQueue, k) <==> ForgedAt(init, maxQueue, k) {
        assert init[..k] == ops[..k];
      }
      assert ForgedAt(ops, maxQueue, n) <==>
             op.SocketReceives? && op.verdict == Forged && Enabled(After(init, maxQueue), op) && !After(init, maxQueue).Dead();
      if Enabled(After(init, maxQueue), op) {
        RejectedByStep(After(init, maxQueue), op, maxQueue);
      }
    }
  }
}
