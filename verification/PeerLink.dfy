/**
 The dialing side of a peer connection (src/mesh/peer.ts): one WebSocket at a time, a bounded queue for what cannot
 be sent now, and callbacks that arrive in any order the sockets and timers allow.
 */
module PeerLink {
  import opened Basics
  import opened Json
  import Envelope

  type Env = seq<Field>

  /** `encodeEnvelope` does not throw. */
  predicate Encodable(e: Env) {
    Envelope.Encode(e).Some?
  }

  datatype Ready = Opening | Open | Closing | Closed

  datatype Status = Connecting | Connected | Stale | Disconnected | Rejected

  datatype Item = Hello(env: Env) | Beat(env: Env) | Data(env: Env)

  /** A WebSocket as the link sees it: its ready state, and what was handed to it so far. */
  datatype Socket = Socket(ready: Ready, wire: seq<Item>)

  /** `accepted` and `dropped` are histories: what `send` took on, and what it threw away from a full queue. */
  datatype State = State(
    ws: Option<nat>,
    sockets: seq<Socket>,
    status: Status,
    closed: bool,
    rejected: bool,
    backoffIdx: nat,
    timers: bool,
    reconnect: bool,
    started: bool,
    queue: seq<Env>,
    accepted: seq<Env>,
    dropped: seq<Env>)
  {
    predicate Dead() {
      closed || rejected
    }

    predicate CanSend() {
      ws.Some? && ws.value < |sockets| && sockets[ws.value].ready == Open
    }
  }

  const FRESH := State(None, [], Connecting, false, false, 0, false, false, false, [], [], [])

  // ---------- What each callback does ----------

  function RawSend(s: State, item: Item): State {
    if s.CanSend() && Encodable(item.env) then
      var n := s.ws.value;
      s.(sockets := s.sockets[n := s.sockets[n].(wire := s.sockets[n].wire + [item])])
    else s
  }

  predicate Sends(s: State, item: Item) {
    s.CanSend() && Encodable(item.env)
  }

  /** Stops at the first envelope that cannot be sent. */
  function Flush(s: State): State
    decreases |s.queue|
  {
    if s.queue == [] || !Sends(s, Data(s.queue[0])) then s
    else Flush(RawSend(s, Data(s.queue[0])).(queue := s.queue[1..]))
  }

  function Enqueue(s: State, env: Env, maxQueue: nat): State {
    var q := s.queue + [env];
    if |q| > maxQueue then s.(queue := q[1..], dropped := s.dropped + [q[0]]) else s.(queue := q)
  }

  function Send(s: State, env: Env, maxQueue: nat): State {
    if s.Dead() then s
    else
      var t := s.(accepted := s.accepted + [env]);
      if Sends(t, Data(env)) then RawSend(t, Data(env)) else Enqueue(t, env, maxQueue)
  }

  function SendAll(s: State, envs: seq<Env>, maxQueue: nat): State {
    if envs == [] then s else Send(SendAll(s, envs[..|envs| - 1], maxQueue), envs[|envs| - 1], maxQueue)
  }

  function ScheduleReconnect(s: State): State {
    if s.Dead() || s.reconnect then s
    else s.(status := Connecting, backoffIdx := s.backoffIdx + 1, reconnect := true)
  }

  /** `constructs` is false where the WebSocket constructor throws. */
  function Connect(s: State, constructs: bool): State {
    if s.Dead() then s
    else if !constructs then ScheduleReconnect(s.(status := Connecting))
    else s.(status := Connecting, ws := Some(|s.sockets|), sockets := s.sockets + [Socket(Opening, [])])
  }

  function CloseSocket(s: State, n: nat): State {
    if n < |s.sockets| && s.sockets[n].ready in {Opening, Open}
    then s.(sockets := s.sockets[n := s.sockets[n].(ready := Closing)])
    else s
  }

  /** Hello goes out before the status change, whose handlers send `greeting`; then the queue follows. */
  function Announce(s: State, hello: Env, greeting: seq<Env>, maxQueue: nat): State {
    Flush(Greet(RawSend(s.(backoffIdx := 0), Hello(hello)), greeting, maxQueue)).(timers := true)
  }

  function Greet(s: State, greeting: seq<Env>, maxQueue: nat): State {
    if s.status == Connected then s else SendAll(s.(status := Connected), greeting, maxQueue)
  }

  function Opens(s: State, n: nat, hello: Env, greeting: seq<Env>, maxQueue: nat): State
    requires n < |s.sockets|
  {
    var t := s.(sockets := s.sockets[n := s.sockets[n].(ready := Open)]);
    if s.Dead() then CloseSocket(t, n) else Announce(t, hello, greeting, maxQueue)
  }

  datatype Verdict = Ignored | Forged | Genuine

  /** `replies` are what the bridge sends while it handles a genuine envelope. */
  function Receives(s: State, n: nat, verdict: Verdict, replies: seq<Env>, maxQueue: nat): State {
    if s.Dead() then s
    else match verdict
      case Ignored => s
      case Forged => CloseSocket(s.(rejected := true, status := Rejected, timers := false), n)
      case Genuine => SendAll(s, replies, maxQueue)
  }

  function Closes(s: State, n: nat): State
    requires n < |s.sockets|
  {
    var t := s.(sockets := s.sockets[n := s.sockets[n].(ready := Closed)], timers := false, ws := None);
    if s.Dead() then t else ScheduleReconnect(t.(status := if s.status == Stale then Stale else Disconnected))
  }

  function GoesStale(s: State): State {
    var t := s.(status := Stale);
    if s.ws.Some? then CloseSocket(t, s.ws.value) else t
  }

  function Close(s: State): State {
    if s.closed then s
    else
      var t := s.(closed := true, timers := false, reconnect := false, status := Disconnected);
      if s.ws.Some? then CloseSocket(t, s.ws.value).(ws := None) else t
  }

  class Link {
    const maxQueue: nat
    var ws: Option<nat>
    var sockets: seq<Socket>
    var status: Status
    var closed: bool
    var rejected: bool
    var backoffIdx: nat
    var timers: bool
    var reconnect: bool
    var started: bool
    var queue: seq<Env>
    ghost var accepted: seq<Env>
    ghost var dropped: seq<Env>

    constructor (maxQueue: nat)
      ensures Now() == FRESH && this.maxQueue == maxQueue
    {
      this.maxQueue := maxQueue;
      ws, sockets, status, closed, rejected := None, [], Connecting, false, false;
      backoffIdx, timers, reconnect, started := 0, false, false, false;
      queue, accepted, dropped := [], [], [];
    }

    ghost function Now(): State
      reads this
    {
      State(ws, sockets, status, closed, rejected, backoffIdx, timers, reconnect, started, queue, accepted, dropped)
    }

    method TryRawSend(item: Item) returns (sent: bool)
      modifies this`sockets
      ensures Now() == RawSend(old(Now()), item) && sent == Sends(old(Now()), item)
    {
      if ws.None? || ws.value >= |sockets| || sockets[ws.value].ready != Open {
        return false;
      }
      var n := ws.value;
      if Envelope.Encode(item.env).None? {
        return false;
      }
      sockets := sockets[n := sockets[n].(wire := sockets[n].wire + [item])];
      return true;
    }

    method FlushQueue()
      modifies this`sockets, this`queue
      ensures Now() == Flush(old(Now()))
    {
      while |queue| > 0
        invariant Flush(Now()) == Flush(old(Now()))
        invariant Now() == old(Now()).(sockets := sockets, queue := queue)
        decreases |queue|
      {
        var env := queue[0];
        var sent := TryRawSend(Data(env));
        if !sent {
          return;
        }
        queue := queue[1..];
      }
    }

    method SendEnvelope(env: Env)
      modifies this
      ensures Now() == Send(old(Now()), env, maxQueue)
    {
      if closed || rejected {
        return;
      }
      accepted := accepted + [env];
      var sent := TryRawSend(Data(env));
      if sent {
        return;
      }
      queue := queue + [env];
      if |queue| > maxQueue {
        dropped := dropped + [queue[0]];
        queue := queue[1..];
      }
    }

    method SendEach(envs: seq<Env>)
      modifies this
      ensures Now() == SendAll(old(Now()), envs, maxQueue)
    {
      var i := 0;
      while i < |envs|
        invariant 0 <= i <= |envs|
        invariant Now() == SendAll(old(Now()), envs[..i], maxQueue)
      {
        SendEnvelope(envs[i]);
        assert envs[..i + 1][..i] == envs[..i];
        i := i + 1;
      }
      assert envs[..i] == envs;
    }

    method ScheduleAgain()
      modifies this
      ensures Now() == ScheduleReconnect(old(Now()))
    {
      if closed || rejected || reconnect {
        return;
      }
      status := Connecting;
      backoffIdx := backoffIdx + 1;
      reconnect := true;
    }

    method Dial(constructs: bool)
      modifies this
      ensures Now() == Connect(old(Now()), constructs)
    {
      if closed || rejected {
        return;
      }
      status := Connecting;
      if !constructs {
        ScheduleAgain();
        return;
      }
      ws := Some(|sockets|);
      sockets := sockets + [Socket(Opening, [])];
    }

    method CloseWs(n: nat)
      modifies this`sockets
      ensures Now() == CloseSocket(old(Now()), n)
    {
      if n < |sockets| && sockets[n].ready in {Opening, Open} {
        sockets := sockets[n := sockets[n].(ready := Closing)];
      }
    }

    method SayHello(hello: Env, greeting: seq<Env>)
      modifies this
      ensures Now() == Announce(old(Now()), hello, greeting, maxQueue)
    {
      backoffIdx := 0;
      var _ := TryRawSend(Hello(hello));
      SetConnected(greeting);
      FlushQueue();
      timers := true;
    }

    method SetConnected(greeting: seq<Env>)
      modifies this
      ensures Now() == Greet(old(Now()), greeting, maxQueue)
    {
      if status != Connected {
        status := Connected;
        SendEach(greeting);
      }
    }

    method OnOpen(n: nat, hello: Env, greeting: seq<Env>)
      requires n < |sockets|
      modifies this
      ensures Now() == Opens(old(Now()), n, hello, greeting, maxQueue)
    {
      sockets := sockets[n := sockets[n].(ready := Open)];
      if closed || rejected {
        CloseWs(n);
      } else {
        SayHello(hello, greeting);
      }
    }

    method OnMessage(n: nat, verdict: Verdict, replies: seq<Env>)
      modifies this
      ensures Now() == Receives(old(Now()), n, verdict, replies, maxQueue)
    {
      if closed || rejected || verdict == Ignored {
        return;
      }
      if verdict == Forged {
        rejected := true;
        status := Rejected;
        timers := false;
        CloseWs(n);
        return;
      }
      SendEach(replies);
    }

    method OnClose(n: nat)
      requires n < |sockets|
      modifies this
      ensures Now() == Closes(old(Now()), n)
    {
      sockets := sockets[n := sockets[n].(ready := Closed)];
      timers := false;
      ws := None;
      if closed || rejected {
        return;
      }
      if status != Stale {
        status := Disconnected;
      }
      ScheduleAgain();
    }

    method OnStale()
      modifies this
      ensures Now() == GoesStale(old(Now()))
    {
      status := Stale;
      if ws.Some? {
        CloseWs(ws.value);
      }
    }

    method CloseLink()
      modifies this
      ensures Now() == Close(old(Now()))
    {
      if closed {
        return;
      }
      closed := true;
      timers := false;
      reconnect := false;
      status := Disconnected;
      if ws.Some? {
        CloseWs(ws.value);
        ws := None;
      }
    }
  }

  // ---------- Runs ----------

  datatype Op =
    | Starts(constructs: bool)
    | Reconnects(constructs: bool)
    | SocketOpens(n: nat, hello: Env, greeting: seq<Env>)
    | SocketReceives(n: nat, verdict: Verdict, replies: seq<Env>)
    | SocketCloses(n: nat)
    | Beats(beat: Env)
    | BecomesStale
    | Sending(env: Env)
    | Shutting

  /** When the environment may run a callback. */
  predicate Enabled(s: State, op: Op) {
    match op
    case Starts(_) => !s.started
    case Reconnects(_) => s.reconnect
    case SocketOpens(n, hello, _) => n < |s.sockets| && s.sockets[n].ready == Opening && Encodable(hello)
    case SocketReceives(n, _, _) => n < |s.sockets| && s.sockets[n].ready == Open
    case SocketCloses(n) => n < |s.sockets| && s.sockets[n].ready != Closed
    case Beats(_) => s.timers
    case BecomesStale => s.timers
    case _ => true
  }

  function Do(s: State, op: Op, maxQueue: nat): State
    requires Enabled(s, op)
  {
    match op
    case Starts(constructs) => Connect(s.(started := true), constructs)
    case Reconnects(constructs) => Connect(s.(reconnect := false), constructs)
    case SocketOpens(n, hello, greeting) => Opens(s, n, hello, greeting, maxQueue)
    case SocketReceives(n, verdict, replies) => Receives(s, n, verdict, replies, maxQueue)
    case SocketCloses(n) => Closes(s, n)
    case Beats(beat) => RawSend(s, Beat(beat))
    case BecomesStale => GoesStale(s)
    case Sending(env) => Send(s, env, maxQueue)
    case Shutting => Close(s)
  }

  /** The link after `ops`, the first one first; a callback that the environment cannot run now does nothing. */
  function After(ops: seq<Op>, maxQueue: nat): State {
    if ops == [] then FRESH
    else
      var s, op := After(ops[..|ops| - 1], maxQueue), ops[|ops| - 1];
      if Enabled(s, op) then Do(s, op, maxQueue) else s
  }
}
