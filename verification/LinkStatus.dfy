/** What a peer link (src/mesh/peer.ts) shows of itself, and what it takes on, in every run. */
module LinkStatus {
  import opened Basics
  import opened PeerLink
  import opened LinkRuns

  // ---------- The status tells where the link is ----------

  /** What a link with a socket in this state shows. */
  function Shown(ready: Ready): Status {
    match ready
    case Opening => Connecting
    case Open => Connected
    case Closing => Stale
    case Closed => Disconnected
  }

  /** Until it starts a link waits; then it has a socket that is not closed yet, or a reconnect is scheduled. */
  predicate Trying(s: State) {
    if !s.started then s.status == Connecting && !s.timers && !s.reconnect && s.ws.None?
    else if s.reconnect then s.status == Connecting && !s.timers && s.ws.None?
    else
      && s.ws.Some? && s.ws.value < |s.sockets|
      && var ready := s.sockets[s.ws.value].ready;
         ready != Closed && s.status == Shown(ready) && (s.timers <==> ready != Opening)
  }

  /** A dead link says so, and nothing will wake it: no timer runs and no socket is open or opening. */
  predicate Resting(s: State) {
    && s.status == (if s.closed then Disconnected else Rejected)
    && !s.timers && !s.reconnect && (s.closed ==> s.ws.None?)
    && forall k <- s.sockets :: k.ready in {Closing, Closed}
  }

  predicate Truthful(s: State) {
    if s.Dead() then Resting(s) else Trying(s)
  }

  /** Sending changes only the wires and the queue. */
  predicate SameLink(s: State, t: State) {
    && t.ws == s.ws && t.status == s.status && t.closed == s.closed && t.rejected == s.rejected
    && t.backoffIdx == s.backoffIdx && t.timers == s.timers && t.reconnect == s.reconnect && t.started == s.started
    && |t.sockets| == |s.sockets| && forall i :: 0 <= i < |s.sockets| ==> t.sockets[i].ready == s.sockets[i].ready
  }

  lemma SendStays(s: State, env: Env, maxQueue: nat)
    ensures SameLink(s, Send(s, env, maxQueue))
    ensures Send(s, env, maxQueue).accepted == if s.Dead() then s.accepted else s.accepted + [env]
  {
  }

  lemma {:induction false} SendAllStays(s: State, envs: seq<Env>, maxQueue: nat)
    ensures SameLink(s, SendAll(s, envs, maxQueue))
    ensures SendAll(s, envs, maxQueue).accepted == if s.Dead() then s.accepted else s.accepted + envs
  {
    if envs != [] {
      var init, env := envs[..|envs| - 1], envs[|envs| - 1];
      var t := SendAll(s, init, maxQueue);
      SendAllStays(s, init, maxQueue);
      SendStays(t, env, maxQueue);
      assert s.accepted + envs == s.accepted + init + [env];
    }
  }

  lemma {:induction false} FlushStays(s: State)
    ensures SameLink(s, Flush(s)) && Flush(s).accepted == s.accepted
    decreases |s.queue|
  {
    if s.queue != [] && Sends(s, Data(s.queue[0])) {
      FlushStays(RawSend(s, Data(s.queue[0])).(queue := s.queue[1..]));
    }
  }

  lemma RawSendStays(s: State, item: Item)
    ensures SameLink(s, RawSend(s, item)) && RawSend(s, item).accepted == s.accepted
  {
  }

  lemma GreetStays(s: State, greeting: seq<Env>, maxQueue: nat)
    requires !s.Dead() && s.status != Connected
    ensures SameLink(s.(status := Connected), Greet(s, greeting, maxQueue))
    ensures Greet(s, greeting, maxQueue).accepted == s.accepted + greeting
  {
    SendAllStays(s.(status := Connected), greeting, maxQueue);
  }

  lemma AnnounceStays(s: State, hello: Env, greeting: seq<Env>, maxQueue: nat)
    requires !s.Dead() && s.status != Connected
    ensures SameLink(s.(backoffIdx := 0, status := Connected, timers := true), Announce(s, hello, greeting, maxQueue))
    ensures Announce(s, hello, greeting, maxQueue).accepted == s.accepted + greeting
  {
    var t := s.(backoffIdx := 0);
    var u := RawSend(t, Hello(hello));
    var v := Greet(u, greeting, maxQueue);
    RawSendStays(t, Hello(hello));
    GreetStays(u, greeting, maxQueue);
    FlushStays(v);
    SameChain(t, u, v, Flush(v));
  }

  lemma SameChain(s: State, t: State, u: State, v: State)
    requires SameLink(s, t) && SameLink(t.(status := Connected), u) && SameLink(u, v)
    ensures SameLink(s.(status := Connected, timers := true), v.(timers := true))
  {
  }

  /** What opening the current socket of a living link leaves. */
  lemma OpensInto(s: State, n: nat, hello: Env, greeting: seq<Env>, maxQueue: nat)
    requires n < |s.sockets| && !s.Dead() && s.status != Connected
    ensures var t := Opens(s, n, hello, greeting, maxQueue);
            && SameLink(s.(sockets := s.sockets[n := s.sockets[n].(ready := Open)], backoffIdx := 0, status := Connected,
                           timers := true), t)
            && t.accepted == s.accepted + greeting
  {
    AnnounceStays(s.(sockets := s.sockets[n := s.sockets[n].(ready := Open)]), hello, greeting, maxQueue);
  }

  lemma OpensTruthful(s: State, n: nat, hello: Env, greeting: seq<Env>, maxQueue: nat)
    requires Inv(s, maxQueue) && Truthful(s) && Enabled(s, SocketOpens(n, hello, greeting))
    ensures Truthful(Opens(s, n, hello, greeting, maxQueue))
  {
    OpeningIsCurrent(s, n, maxQueue);
    OpensInto(s, n, hello, greeting, maxQueue);
  }

  lemma ConnectTruthful(s: State, constructs: bool)
    requires s.started && !s.reconnect && (s.Dead() ==> Resting(s))
    requires !s.Dead() ==> s.ws.None? && !s.timers
    ensures Truthful(Connect(s, constructs))
  {
  }

  lemma ReceivesTruthful(s: State, n: nat, verdict: Verdict, replies: seq<Env>, maxQueue: nat)
    requires Inv(s, maxQueue) && Truthful(s) && n < |s.sockets| && s.sockets[n].ready == Open
    ensures Truthful(Receives(s, n, verdict, replies, maxQueue))
  {
    SendAllStays(s, replies, maxQueue);
    if !s.Dead() && verdict == Forged {
      var t := s.(rejected := true, status := Rejected, timers := false);
      CloseSocketKeeps(s, n, maxQueue);
      assert CloseSocket(t, n).sockets == CloseSocket(s, n).sockets;
    }
  }

  lemma ClosesTruthful(s: State, n: nat)
    requires OneSocket(s) && Truthful(s) && n < |s.sockets| && s.sockets[n].ready != Closed
    ensures Truthful(Closes(s, n))
  {
    var t := Closes(s, n);
    if s.Dead() {
      forall k | k in t.sockets ensures k.ready in {Closing, Closed} {
        var i :| 0 <= i < |t.sockets| && t.sockets[i] == k;
        assert i != n ==> s.sockets[i] in s.sockets;
      }
    } else {
      assert s.sockets[n] in s.sockets;
    }
  }

  lemma StaleTruthful(s: State)
    requires Truthful(s) && s.timers
    ensures Truthful(GoesStale(s))
  {
  }

  lemma CloseTruthful(s: State, maxQueue: nat)
    requires Inv(s, maxQueue) && Truthful(s)
    ensures Truthful(Close(s))
  {
    CloseKeeps(s, maxQueue);
  }

  lemma DoTruthful(s: State, op: Op, maxQueue: nat)
    requires Inv(s, maxQueue) && Truthful(s) && Enabled(s, op)
    ensures Truthful(Do(s, op, maxQueue))
  {
    match op
    case Starts(constructs) => ConnectTruthful(s.(started := true), constructs);
    case Reconnects(constructs) => ConnectTruthful(s.(reconnect := false), constructs);
    case SocketOpens(n, hello, greeting) => OpensTruthful(s, n, hello, greeting, maxQueue);
    case SocketReceives(n, verdict, replies) => ReceivesTruthful(s, n, verdict, replies, maxQueue);
    case SocketCloses(n) => ClosesTruthful(s, n);
    case Beats(_) =>
    case BecomesStale => StaleTruthful(s);
    case Sending(env) => SendStays(s, env, maxQueue);
    case Shutting => CloseTruthful(s, maxQueue);
  }

  /**
   A started link that is not dead always has a socket or a reconnect under way, and its status says which and how far;
   a dead one has neither.
   */
  lemma {:induction false} StatusIsTruthful(ops: seq<Op>, maxQueue: nat)
    ensures Truthful(After(ops, maxQueue))
  {
    if ops != [] {
      var init, op := ops[..|ops| - 1], ops[|ops| - 1];
      StatusIsTruthful(init, maxQueue);
      RunsKeepInv(init, maxQueue);
      if Enabled(After(init, maxQueue), op) {
        DoTruthful(After(init, maxQueue), op, maxQueue);
      }
    }
  }

  // ---------- Back-off ----------

  /** The reconnects scheduled since a socket last opened. */
  function Retries(ops: seq<Op>, maxQueue: nat): nat {
    if ops == [] then 0
    else
      var init, op := ops[..|ops| - 1], ops[|ops| - 1];
      var s, t := After(init, maxQueue), After(ops, maxQueue);
      if !Enabled(s, op) then Retries(init, maxQueue)
      else if op.SocketOpens? then 0
      else if t.reconnect && (op.Reconnects? || !s.reconnect) then Retries(init, maxQueue) + 1
      else Retries(init, maxQueue)
  }

  lemma RetriesByStep(s: State, op: Op, maxQueue: nat)
    requires Inv(s, maxQueue) && Enabled(s, op) && !op.SocketOpens?
    ensures var t := Do(s, op, maxQueue);
            t.backoffIdx == s.backoffIdx + if t.reconnect && (op.Reconnects? || !s.reconnect) then 1 else 0
  {
    match op
    case SocketReceives(_, _, replies) => SendAllStays(s, replies, maxQueue);
    case Sending(env) => SendStays(s, env, maxQueue);
    case _ =>
  }

  /** The back-off index counts the reconnects scheduled since a socket last opened. */
  lemma {:induction false} BackoffCountsRetries(ops: seq<Op>, maxQueue: nat)
    ensures After(ops, maxQueue).backoffIdx == Retries(ops, maxQueue)
  {
    if ops != [] {
      var init, op := ops[..|ops| - 1], ops[|ops| - 1];
      var s := After(init, maxQueue);
      BackoffCountsRetries(init, maxQueue);
      RunsKeepInv(init, maxQueue);
      StatusIsTruthful(init, maxQueue);
      if Enabled(s, op) {
        if op.SocketOpens? {
          OpeningIsCurrent(s, op.n, maxQueue);
          OpensInto(s, op.n, op.hello, op.greeting, maxQueue);
        } else {
          RetriesByStep(s, op, maxQueue);
        }
      }
    }
  }

  // ---------- What a living link takes on ----------

  /** What the bridge hands to a living link: what it sends, how it greets a new connection, what it replies. */
  function OfferedBy(s: State, op: Op): seq<Env> {
    if s.Dead() || !Enabled(s, op) then []
    else
      match op
      case Sending(env) => [env]
      case SocketOpens(_, _, greeting) => greeting
      case SocketReceives(_, verdict, replies) => if verdict == Genuine then replies else []
      case _ => []
  }

  function Offered(ops: seq<Op>, maxQueue: nat): seq<Env> {
    if ops == [] then []
    else
      var init := ops[..|ops| - 1];
      Offered(init, maxQueue) + OfferedBy(After(init, maxQueue), ops[|ops| - 1])
  }

  lemma AcceptedByStep(s: State, op: Op, maxQueue: nat)
    requires Inv(s, maxQueue) && Truthful(s) && Enabled(s, op)
    ensures Do(s, op, maxQueue).accepted == s.accepted + OfferedBy(s, op)
  {
    match op
    case SocketOpens(n, hello, greeting) =>
      OpeningIsCurrent(s, n, maxQueue);
      OpensInto(s, n, hello, greeting, maxQueue);
    case SocketReceives(_, _, replies) => SendAllStays(s, replies, maxQueue);
    case Sending(env) => SendStays(s, env, maxQueue);
    case _ =>
  }

  /** A link that is not dead takes on everything it is given, in that order. */
  lemma {:induction false} AcceptsWhatIsOffered(ops: seq<Op>, maxQueue: nat)
    ensures After(ops, maxQueue).accepted == Offered(ops, maxQueue)
  {
    if ops != [] {
      var init, op := ops[..|ops| - 1], ops[|ops| - 1];
      AcceptsWhatIsOffered(init, maxQueue);
      RunsKeepInv(init, maxQueue);
      StatusIsTruthful(init, maxQueue);
      if Enabled(After(init, maxQueue), op) {
        AcceptedByStep(After(init, maxQueue), op, maxQueue);
      }
    }
  }
}
