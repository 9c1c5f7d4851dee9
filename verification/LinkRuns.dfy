/** What every run of a peer link keeps, whatever the sockets, the timers and the senders do. */
module LinkRuns {
  import opened Basics
  import opened PeerLink

  // ---------- Histories ----------

  function DataOf(wire: seq<Item>): seq<Env> {
    if wire == [] then []
    else
      var init, item := wire[..|wire| - 1], wire[|wire| - 1];
      if item.Data? then DataOf(init) + [item.env] else DataOf(init)
  }

  /** What `send` was given and sockets were handed, oldest socket first. */
  function SentOn(sockets: seq<Socket>): seq<Env> {
    if sockets == [] then [] else SentOn(sockets[..|sockets| - 1]) + DataOf(sockets[|sockets| - 1].wire)
  }

  lemma SentAppend(sockets: seq<Socket>, item: Item)
    requires sockets != []
    ensures var n := |sockets| - 1;
            SentOn(sockets[n := sockets[n].(wire := sockets[n].wire + [item])]) ==
            SentOn(sockets) + (if item.Data? then [item.env] else [])
  {
    var n := |sockets| - 1;
    var wire := sockets[n].wire;
    var after := sockets[n := sockets[n].(wire := wire + [item])];
    assert (wire + [item])[..|wire|] == wire;
    assert after[..n] == sockets[..n];
  }

  lemma {:induction false} SentReady(sockets: seq<Socket>, n: nat, ready: Ready)
    requires n < |sockets|
    ensures SentOn(sockets[n := sockets[n].(ready := ready)]) == SentOn(sockets)
  {
    var last := |sockets| - 1;
    var after := sockets[n := sockets[n].(ready := ready)];
    if n == last {
      assert after[..last] == sockets[..last];
    } else {
      assert after[..last] == sockets[..last][n := sockets[n].(ready := ready)];
      SentReady(sockets[..last], n, ready);
    }
  }

  // ---------- The invariant ----------

  /**
   One socket at a time: all others are closed, and a link that is scheduled to reconnect or dead has none that is
   open.
   */
  predicate OneSocket(s: State) {
    && (forall i :: 0 <= i < |s.sockets| - 1 ==> s.sockets[i].ready == Closed)
    && (s.ws.Some? ==> s.ws.value == |s.sockets| - 1)
    && (!s.started ==> s.sockets == [] && !s.reconnect)
    && (s.reconnect ==> s.ws.None? && forall k <- s.sockets :: k.ready == Closed)
    && (!s.closed && s.sockets != [] && s.sockets[|s.sockets| - 1].ready != Closed ==> s.ws.Some?)
    && (s.Dead() ==> forall k <- s.sockets :: k.ready in {Closing, Closed})
  }

  /** Hello is the first item on a socket, and there is no second one. */
  predicate HelloFirst(k: Socket) {
    && (forall j :: 0 <= j < |k.wire| ==> (k.wire[j].Hello? <==> j == 0))
    && (k.ready == Opening ==> k.wire == [])
    && (k.ready == Open ==> k.wire != [])
  }

  /** Whatever `send` accepted is in exactly one place. */
  ghost predicate Conserved(s: State) {
    Parts(SentOn(s.sockets), s.queue, s.dropped, s.accepted)
  }

  ghost predicate Parts<T>(sent: seq<T>, queue: seq<T>, dropped: seq<T>, accepted: seq<T>) {
    multiset(sent) + multiset(queue) + multiset(dropped) == multiset(accepted)
  }

  /** While the socket is open, nothing is left waiting that could be sent if everything could. */
  predicate Drained(s: State) {
    s.CanSend() && (forall e <- s.queue :: Encodable(e)) ==> s.queue == []
  }

  ghost predicate Core(s: State, maxQueue: nat) {
    OneSocket(s) && (forall k <- s.sockets :: HelloFirst(k)) && |s.queue| <= maxQueue && Conserved(s)
  }

  ghost predicate Inv(s: State, maxQueue: nat) {
    Core(s, maxQueue) && Drained(s)
  }

  /** Handing an item to the open socket appends it, and changes nothing else. */
  lemma RawSendFacts(s: State, item: Item)
    requires OneSocket(s) && Sends(s, item)
    ensures var t := RawSend(s, item);
            && t == s.(sockets := t.sockets) && |t.sockets| == |s.sockets|
            && (forall i :: 0 <= i < |s.sockets| - 1 ==> t.sockets[i] == s.sockets[i])
            && s.sockets != []
            && (var k := s.sockets[|s.sockets| - 1]; t.sockets[|t.sockets| - 1] == k.(wire := k.wire + [item]))
            && SentOn(t.sockets) == SentOn(s.sockets) + (if item.Data? then [item.env] else [])
  {
    SentAppend(s.sockets, item);
  }

  lemma HelloFirstMore(k: Socket, item: Item)
    requires HelloFirst(k) && k.ready == Open && !item.Hello?
    ensures HelloFirst(k.(wire := k.wire + [item]))
  {
  }

  lemma RawSendKeepsOne(s: State, item: Item)
    requires OneSocket(s) && Sends(s, item)
    ensures OneSocket(RawSend(s, item)) && RawSend(s, item).CanSend()
  {
    RawSendFacts(s, item);
    assert !s.Dead() && !s.reconnect by {
      assert s.sockets[s.ws.value] in s.sockets;
    }
  }

  lemma RawSendKeepsShape(s: State, item: Item)
    requires OneSocket(s) && Sends(s, item) && (forall k <- s.sockets :: HelloFirst(k)) && !item.Hello?
    ensures OneSocket(RawSend(s, item)) && (forall k <- RawSend(s, item).sockets :: HelloFirst(k))
    ensures RawSend(s, item).CanSend()
  {
    RawSendFacts(s, item);
    RawSendKeepsOne(s, item);
    var n, t := |s.sockets| - 1, RawSend(s, item);
    assert s.sockets[n] in s.sockets;
    HelloFirstMore(s.sockets[n], item);
    forall k | k in t.sockets ensures HelloFirst(k) {
      var i :| 0 <= i < |t.sockets| && t.sockets[i] == k;
      assert i < n ==> s.sockets[i] in s.sockets;
    }
  }

  lemma Queued<T>(sent: seq<T>, q: seq<T>, d: seq<T>, accepted: seq<T>, x: T)
    requires Parts(sent, q, d, accepted)
    ensures Parts(sent, q + [x], d, accepted + [x])
    ensures Parts(sent + [x], q, d, accepted + [x])
  {
  }

  lemma OldestDropped<T>(sent: seq<T>, q: seq<T>, d: seq<T>, accepted: seq<T>)
    requires q != [] && Parts(sent, q, d, accepted)
    ensures Parts(sent, q[1..], d + [q[0]], accepted)
    ensures Parts(sent + [q[0]], q[1..], d, accepted)
  {
    assert q == [q[0]] + q[1..];
    assert multiset(q) == multiset{q[0]} + multiset(q[1..]);
  }

  lemma StuckStaysStuck(s: State, env: Env, maxQueue: nat)
    requires !Sends(s, Data(env)) && Drained(s) && |s.queue| <= maxQueue
    ensures Drained(Enqueue(s, env, maxQueue))
  {
    var q := s.queue + [env];
    if |q| > maxQueue {
      if |q| > 1 {
        assert q[1..][|q| - 2] == env;
      }
    } else {
      assert env in q;
    }
  }

  lemma EnqueueKeepsCore(s: State, env: Env, maxQueue: nat)
    requires Core(s, maxQueue)
    ensures Core(Enqueue(s.(accepted := s.accepted + [env]), env, maxQueue), maxQueue)
  {
    var sent, q := SentOn(s.sockets), s.queue + [env];
    Queued(sent, s.queue, s.dropped, s.accepted, env);
    if |q| > maxQueue {
      OldestDropped(sent, q, s.dropped, s.accepted + [env]);
    }
  }

  lemma DirectKeepsCore(s: State, env: Env, maxQueue: nat)
    requires Core(s, maxQueue) && Sends(s, Data(env))
    ensures Core(RawSend(s.(accepted := s.accepted + [env]), Data(env)), maxQueue)
  {
    var t := s.(accepted := s.accepted + [env]);
    RawSendFacts(t, Data(env));
    RawSendKeepsShape(t, Data(env));
    Queued(SentOn(s.sockets), s.queue, s.dropped, s.accepted, env);
  }

  lemma SendKeeps(s: State, env: Env, maxQueue: nat)
    requires Core(s, maxQueue)
    ensures Core(Send(s, env, maxQueue), maxQueue)
    ensures Send(s, env, maxQueue).Dead() == s.Dead()
    ensures Drained(s) ==> Drained(Send(s, env, maxQueue))
  {
    if s.Dead() {
    } else if Sends(s, Data(env)) {
      DirectKeepsCore(s, env, maxQueue);
    } else {
      EnqueueKeepsCore(s, env, maxQueue);
      if Drained(s) {
        StuckStaysStuck(s.(accepted := s.accepted + [env]), env, maxQueue);
      }
    }
  }

  lemma {:induction false} SendAllKeeps(s: State, envs: seq<Env>, maxQueue: nat)
    requires Core(s, maxQueue)
    ensures Core(SendAll(s, envs, maxQueue), maxQueue)
    ensures SendAll(s, envs, maxQueue).Dead() == s.Dead()
    ensures Drained(s) ==> Drained(SendAll(s, envs, maxQueue))
  {
    if envs != [] {
      SendAllKeeps(s, envs[..|envs| - 1], maxQueue);
      SendKeeps(SendAll(s, envs[..|envs| - 1], maxQueue), envs[|envs| - 1], maxQueue);
    }
  }

  lemma {:induction false} FlushKeeps(s: State, maxQueue: nat)
    requires Core(s, maxQueue)
    ensures Inv(Flush(s), maxQueue) && Flush(s).Dead() == s.Dead()
    decreases |s.queue|
  {
    if s.queue != [] && Sends(s, Data(s.queue[0])) {
      var head := s.queue[0];
      RawSendFacts(s, Data(head));
      RawSendKeepsShape(s, Data(head));
      OldestDropped(SentOn(s.sockets), s.queue, s.dropped, s.accepted);
      FlushKeeps(RawSend(s, Data(head)).(queue := s.queue[1..]), maxQueue);
    } else if s.queue != [] {
      assert s.queue[0] in s.queue;
    }
  }

  /** Closing a socket only changes its ready state. */
  lemma ReadyKeeps(s: State, n: nat, ready: Ready, maxQueue: nat)
    requires Core(s, maxQueue) && n < |s.sockets| && ready in {Closing, Closed}
    ensures var t := s.(sockets := s.sockets[n := s.sockets[n].(ready := ready)]);
            && Conserved(t) && |t.queue| <= maxQueue && (forall k <- t.sockets :: HelloFirst(k))
  {
    var t := s.(sockets := s.sockets[n := s.sockets[n].(ready := ready)]);
    SentReady(s.sockets, n, ready);
    forall k | k in t.sockets ensures HelloFirst(k) {
      var i :| 0 <= i < |t.sockets| && t.sockets[i] == k;
      assert s.sockets[i] in s.sockets;
    }
  }

  lemma CloseSocketKeeps(s: State, n: nat, maxQueue: nat)
    requires Inv(s, maxQueue) && n < |s.sockets| && s.sockets[n].ready != Closed
    ensures Inv(CloseSocket(s, n), maxQueue)
    ensures forall k <- CloseSocket(s, n).sockets :: k.ready in {Closing, Closed}
    ensures CloseSocket(s, n) == s.(sockets := CloseSocket(s, n).sockets) && !CloseSocket(s, n).CanSend()
  {
    var t := CloseSocket(s, n);
    ReadyKeeps(s, n, Closing, maxQueue);
    assert n == |s.sockets| - 1;
    forall k | k in t.sockets ensures k.ready in {Closing, Closed} {
      var i :| 0 <= i < |t.sockets| && t.sockets[i] == k;
    }
  }

  lemma ScheduleKeeps(s: State, maxQueue: nat)
    requires Inv(s, maxQueue) && s.started && s.ws.None? && forall k <- s.sockets :: k.ready == Closed
    ensures Inv(ScheduleReconnect(s), maxQueue)
  {
  }

  lemma ConnectKeeps(s: State, constructs: bool, maxQueue: nat)
    requires Inv(s, maxQueue) && s.started && !s.reconnect && s.ws.None? && forall k <- s.sockets :: k.ready == Closed
    ensures Inv(Connect(s, constructs), maxQueue)
  {
    if s.Dead() {
    } else if constructs {
    } else {
      ScheduleKeeps(s.(status := Connecting), maxQueue);
    }
  }

  lemma ClosesKeeps(s: State, n: nat, maxQueue: nat)
    requires Inv(s, maxQueue) && n < |s.sockets| && s.sockets[n].ready != Closed
    ensures Inv(Closes(s, n), maxQueue)
  {
    ReadyKeeps(s, n, Closed, maxQueue);
    var t := s.(sockets := s.sockets[n := s.sockets[n].(ready := Closed)], timers := false, ws := None);
    forall k | k in t.sockets ensures k.ready == Closed {
      var i :| 0 <= i < |t.sockets| && t.sockets[i] == k;
    }
    var u := t.(status := if s.status == Stale then Stale else Disconnected);
    if !s.Dead() {
      ScheduleKeeps(u, maxQueue);
    }
  }

  lemma GoesStaleKeeps(s: State, maxQueue: nat)
    requires Inv(s, maxQueue)
    ensures Inv(GoesStale(s), maxQueue)
  {
    var t := s.(status := Stale);
    if s.ws.Some? && s.sockets[s.ws.value].ready != Closed {
      CloseSocketKeeps(t, s.ws.value, maxQueue);
    }
  }

  lemma CloseKeeps(s: State, maxQueue: nat)
    requires Inv(s, maxQueue)
    ensures Inv(Close(s), maxQueue)
  {
    if !s.closed {
      var t := s.(timers := false, reconnect := false, status := Disconnected);
      if s.ws.Some? && s.sockets[s.ws.value].ready != Closed {
        CloseSocketKeeps(t, s.ws.value, maxQueue);
      } else {
        AllClosed(s);
      }
    }
  }

  lemma AllClosed(s: State)
    requires OneSocket(s) && !s.closed && (s.ws.Some? ==> s.sockets[s.ws.value].ready == Closed)
    ensures forall k <- s.sockets :: k.ready == Closed
  {
    forall k | k in s.sockets ensures k.ready == Closed {
      var i :| 0 <= i < |s.sockets| && s.sockets[i] == k;
    }
  }

  lemma ReceivesKeeps(s: State, n: nat, verdict: Verdict, replies: seq<Env>, maxQueue: nat)
    requires Inv(s, maxQueue) && n < |s.sockets| && s.sockets[n].ready == Open
    ensures Inv(Receives(s, n, verdict, replies, maxQueue), maxQueue)
  {
    if s.Dead() || verdict == Ignored {
    } else if verdict == Forged {
      var t := s.(status := Rejected, timers := false);
      CloseSocketKeeps(t, n, maxQueue);
    } else {
      SendAllKeeps(s, replies, maxQueue);
    }
  }

  /** Opening a socket: hello goes onto its empty wire, and only then anything else. */
  lemma OpensKeeps(s: State, n: nat, hello: Env, greeting: seq<Env>, maxQueue: nat)
    requires Inv(s, maxQueue) && n < |s.sockets| && s.sockets[n].ready == Opening && Encodable(hello)
    ensures Inv(Opens(s, n, hello, greeting, maxQueue), maxQueue)
  {
    assert s.sockets[n] in s.sockets;
    var t := s.(sockets := s.sockets[n := s.sockets[n].(ready := Open)], backoffIdx := 0);
    var u := RawSend(t, Hello(hello));
    GreetedKeeps(s, n, hello, t, u, maxQueue);
    AfterHelloKeeps(u, greeting, maxQueue);
  }

  lemma GreetKeeps(u: State, greeting: seq<Env>, maxQueue: nat)
    requires Core(u, maxQueue)
    ensures Core(Greet(u, greeting, maxQueue), maxQueue)
  {
    SendAllKeeps(u.(status := Connected), greeting, maxQueue);
  }

  lemma TimersKeep(s: State, maxQueue: nat)
    requires Inv(s, maxQueue)
    ensures Inv(s.(timers := true), maxQueue)
  {
  }

  lemma FlushedKeeps(v: State, maxQueue: nat)
    requires Core(v, maxQueue)
    ensures Inv(Flush(v).(timers := true), maxQueue)
  {
    FlushKeeps(v, maxQueue);
    TimersKeep(Flush(v), maxQueue);
  }

  lemma AfterHelloKeeps(u: State, greeting: seq<Env>, maxQueue: nat)
    requires Core(u, maxQueue)
    ensures Inv(Flush(Greet(u, greeting, maxQueue)).(timers := true), maxQueue)
  {
    GreetKeeps(u, greeting, maxQueue);
    FlushedKeeps(Greet(u, greeting, maxQueue), maxQueue);
  }

  lemma OpeningIsCurrent(s: State, n: nat, maxQueue: nat)
    requires Inv(s, maxQueue) && n < |s.sockets| && s.sockets[n].ready == Opening
    ensures n == |s.sockets| - 1 && s.ws == Some(n) && !s.Dead() && s.sockets[n].wire == []
  {
    assert s.sockets[n] in s.sockets;
  }

  lemma GreetedSockets(s: State, n: nat, hello: Env, t: State, u: State)
    requires n == |s.sockets| - 1 && s.ws == Some(n) && s.sockets[n].wire == [] && Encodable(hello)
    requires t == s.(sockets := s.sockets[n := s.sockets[n].(ready := Open)], backoffIdx := 0)
    requires u == RawSend(t, Hello(hello))
    ensures u == t.(sockets := s.sockets[n := Socket(Open, [Hello(hello)])]) && SentOn(u.sockets) == SentOn(s.sockets)
  {
    SentReady(s.sockets, n, Open);
    SentAppend(t.sockets, Hello(hello));
  }

  lemma GreetedKeeps(s: State, n: nat, hello: Env, t: State, u: State, maxQueue: nat)
    requires Inv(s, maxQueue) && n < |s.sockets| && s.sockets[n].ready == Opening && Encodable(hello)
    requires t == s.(sockets := s.sockets[n := s.sockets[n].(ready := Open)], backoffIdx := 0)
    requires u == RawSend(t, Hello(hello))
    ensures !s.Dead() && Core(u, maxQueue) && u == t.(sockets := u.sockets)
  {
    OpeningIsCurrent(s, n, maxQueue);
    GreetedSockets(s, n, hello, t, u);
    forall k | k in u.sockets ensures HelloFirst(k) {
      var i :| 0 <= i < |u.sockets| && u.sockets[i] == k;
      assert i != n ==> s.sockets[i] in s.sockets;
    }
  }

  lemma BeatKeeps(s: State, beat: Env, maxQueue: nat)
    requires Inv(s, maxQueue)
    ensures Inv(RawSend(s, Beat(beat)), maxQueue)
  {
    if Sends(s, Beat(beat)) {
      RawSendFacts(s, Beat(beat));
      RawSendKeepsShape(s, Beat(beat));
    }
  }

  lemma DoKeepsInv(s: State, op: Op, maxQueue: nat)
    requires Inv(s, maxQueue) && Enabled(s, op)
    ensures Inv(Do(s, op, maxQueue), maxQueue)
  {
    match op
    case Starts(constructs) => ConnectKeeps(s.(started := true), constructs, maxQueue);
    case Reconnects(constructs) => ConnectKeeps(s.(reconnect := false), constructs, maxQueue);
    case SocketOpens(n, hello, greeting) => OpensKeeps(s, n, hello, greeting, maxQueue);
    case SocketReceives(n, verdict, replies) => ReceivesKeeps(s, n, verdict, replies, maxQueue);
    case SocketCloses(n) => ClosesKeeps(s, n, maxQueue);
    case Beats(beat) => BeatKeeps(s, beat, maxQueue);
    case BecomesStale => GoesStaleKeeps(s, maxQueue);
    case Sending(env) => SendKeeps(s, env, maxQueue);
    case Shutting => CloseKeeps(s, maxQueue);
  }

  lemma {:induction false} RunsKeepInv(ops: seq<Op>, maxQueue: nat)
    ensures Inv(After(ops, maxQueue), maxQueue)
  {
    if ops != [] {
      var s, op := After(ops[..|ops| - 1], maxQueue), ops[|ops| - 1];
      RunsKeepInv(ops[..|ops| - 1], maxQueue);
      if Enabled(s, op) {
        DoKeepsInv(s, op, maxQueue);
      }
    }
  }

  // ---------- What runs promise ----------

  /** On every socket, hello is the first envelope and the only hello. */
  lemma {:induction false} HelloIsFirst(ops: seq<Op>, maxQueue: nat, n: nat, j: nat)
    requires n < |After(ops, maxQueue).sockets| && j < |After(ops, maxQueue).sockets[n].wire|
    ensures After(ops, maxQueue).sockets[n].wire[j].Hello? <==> j == 0
  {
    RunsKeepInv(ops, maxQueue);
    assert After(ops, maxQueue).sockets[n] in After(ops, maxQueue).sockets;
  }

  /** Every accepted envelope is handed to a socket, waiting or dropped, exactly once; and the queue is bounded. */
  lemma {:induction false} NothingIsLost(ops: seq<Op>, maxQueue: nat)
    ensures |After(ops, maxQueue).queue| <= maxQueue
    ensures var s := After(ops, maxQueue);
            multiset(SentOn(s.sockets)) + multiset(s.queue) + multiset(s.dropped) == multiset(s.accepted)
  {
    RunsKeepInv(ops, maxQueue);
  }

  /** While a socket is open the queue is empty, unless it holds an envelope that cannot be encoded. */
  lemma {:induction false} OpenMeansDrained(ops: seq<Op>, maxQueue: nat)
    requires After(ops, maxQueue).CanSend()
    ensures After(ops, maxQueue).queue == [] || exists e :: e in After(ops, maxQueue).queue && !Encodable(e)
  {
    RunsKeepInv(ops, maxQueue);
  }

  // ---------- A dead link ----------

  /** `t` differs from `s` in no envelope accepted, queued, dropped or sent, and has no further socket. */
  predicate SilentSince(s: State, t: State) {
    && t.accepted == s.accepted && t.queue == s.queue && t.dropped == s.dropped && |t.sockets| == |s.sockets|
    && forall i :: 0 <= i < |s.sockets| ==> t.sockets[i].wire == s.sockets[i].wire
  }

  lemma DeadByStep(s: State, op: Op, maxQueue: nat)
    requires Inv(s, maxQueue) && Enabled(s, op) && s.Dead()
    ensures Do(s, op, maxQueue).Dead() && SilentSince(s, Do(s, op, maxQueue))
  {
  }

  /** A link that was closed or rejected dials no more, takes nothing on and sends nothing, whatever happens next. */
  lemma {:induction false} DeadIsFinal(ops: seq<Op>, k: nat, maxQueue: nat)
    requires k <= |ops| && After(ops[..k], maxQueue).Dead()
    ensures After(ops, maxQueue).Dead() && SilentSince(After(ops[..k], maxQueue), After(ops, maxQueue))
  {
    if k == |ops| {
      assert ops[..k] == ops;
    } else {
      var init, op := ops[..|ops| - 1], ops[|ops| - 1];
      assert init[..k] == ops[..k];
      DeadIsFinal(init, k, maxQueue);
      RunsKeepInv(init, maxQueue);
      if Enabled(After(init, maxQueue), op) {
        DeadByStep(After(init, maxQueue), op, maxQueue);
      }
    }
  }

  // ---------- The order of what is sent ----------

  /** `all` is `a` and `b`, each in its order, merged in some way. */
  predicate Merge<T(==)>(a: seq<T>, b: seq<T>, all: seq<T>) {
    if all == [] then a == [] && b == []
    else
      var init, last := all[..|all| - 1], all[|all| - 1];
      || (a != [] && a[|a| - 1] == last && Merge(a[..|a| - 1], b, init))
      || (b != [] && b[|b| - 1] == last && Merge(a, b[..|b| - 1], init))
  }

  lemma MergeMore<T>(a: seq<T>, b: seq<T>, all: seq<T>, x: T)
    requires Merge(a, b, all)
    ensures Merge(a + [x], b, all + [x]) && Merge(a, b + [x], all + [x])
  {
    assert (all + [x])[..|all|] == all && (a + [x])[..|a|] == a && (b + [x])[..|b|] == b;
  }

  /** What waits is what was accepted last, in order; what came before it was sent or dropped, each in order. */
  predicate InOrder<T(==)>(sent: seq<T>, queue: seq<T>, dropped: seq<T>, accepted: seq<T>) {
    && |queue| <= |accepted|
    && queue == accepted[|accepted| - |queue|..]
    && Merge(dropped, sent, accepted[..|accepted| - |queue|])
  }

  predicate Ordered(s: State) {
    InOrder(SentOn(s.sockets), s.queue, s.dropped, s.accepted)
  }

  lemma OrderQueued<T>(sent: seq<T>, q: seq<T>, d: seq<T>, accepted: seq<T>, x: T)
    requires InOrder(sent, q, d, accepted)
    ensures InOrder(sent, q + [x], d, accepted + [x])
    ensures q == [] ==> InOrder(sent + [x], q, d, accepted + [x])
  {
    var n := |accepted| - |q|;
    assert (accepted + [x])[..n] == accepted[..n] && (accepted + [x])[n..] == accepted[n..] + [x];
    if q == [] {
      assert accepted[..n] == accepted && (accepted + [x])[..n + 1] == accepted + [x];
      MergeMore(d, sent, accepted, x);
    }
  }

  lemma OrderTaken<T>(sent: seq<T>, q: seq<T>, d: seq<T>, accepted: seq<T>)
    requires q != [] && InOrder(sent, q, d, accepted)
    ensures InOrder(sent, q[1..], d + [q[0]], accepted)
    ensures InOrder(sent + [q[0]], q[1..], d, accepted)
  {
    var n := |accepted| - |q|;
    assert q[0] == accepted[n] && accepted[..n + 1] == accepted[..n] + [q[0]] && q[1..] == accepted[n + 1..];
    MergeMore(d, sent, accepted[..n], q[0]);
  }

  predicate AllEncodable(envs: seq<Env>) {
    forall e <- envs :: Encodable(e)
  }

  /** The queue can be sent, and is in order. */
  predicate Flowing(s: State) {
    Ordered(s) && AllEncodable(s.queue)
  }

  lemma DirectFlows(s: State, env: Env)
    requires OneSocket(s) && Flowing(s) && s.queue == [] && Sends(s, Data(env))
    ensures Flowing(RawSend(s.(accepted := s.accepted + [env]), Data(env)))
  {
    var t := s.(accepted := s.accepted + [env]);
    OrderQueued(SentOn(s.sockets), s.queue, s.dropped, s.accepted, env);
    RawSendFacts(t, Data(env));
  }

  lemma EncodableTail(q: seq<Env>, env: Env)
    requires AllEncodable(q) && Encodable(env)
    ensures AllEncodable(q + [env]) && AllEncodable((q + [env])[1..])
  {
  }

  lemma QueueFlows(s: State, env: Env, maxQueue: nat)
    requires Flowing(s) && Encodable(env)
    ensures Flowing(Enqueue(s.(accepted := s.accepted + [env]), env, maxQueue))
  {
    var sent, q, accepted := SentOn(s.sockets), s.queue + [env], s.accepted + [env];
    EncodableTail(s.queue, env);
    OrderQueued(sent, s.queue, s.dropped, s.accepted, env);
    OrderTaken(sent, q, s.dropped, accepted);
    var t := Enqueue(s.(accepted := accepted), env, maxQueue);
    assert t.accepted == accepted && t.sockets == s.sockets;
    if |q| > maxQueue {
      assert t.queue == q[1..] && t.dropped == s.dropped + [q[0]];
    } else {
      assert t.queue == q && t.dropped == s.dropped;
    }
  }

  lemma SendFlows(s: State, env: Env, maxQueue: nat)
    requires OneSocket(s) && Flowing(s) && Drained(s) && Encodable(env)
    ensures Flowing(Send(s, env, maxQueue))
  {
    if s.Dead() {
    } else if Sends(s, Data(env)) {
      DirectFlows(s, env);
    } else {
      QueueFlows(s, env, maxQueue);
    }
  }

  lemma {:induction false} SendAllFlows(s: State, envs: seq<Env>, maxQueue: nat)
    requires Core(s, maxQueue) && Flowing(s) && Drained(s) && AllEncodable(envs)
    ensures Flowing(SendAll(s, envs, maxQueue))
  {
    if envs != [] {
      var init := envs[..|envs| - 1];
      SendAllFlows(s, init, maxQueue);
      SendAllKeeps(s, init, maxQueue);
      SendFlows(SendAll(s, init, maxQueue), envs[|envs| - 1], maxQueue);
    }
  }

  lemma {:induction false} FlushFlows(s: State, maxQueue: nat)
    requires Core(s, maxQueue) && Flowing(s)
    ensures Flowing(Flush(s))
    decreases |s.queue|
  {
    if s.queue != [] && Sends(s, Data(s.queue[0])) {
      var head := s.queue[0];
      RawSendFacts(s, Data(head));
      RawSendKeepsShape(s, Data(head));
      OrderTaken(SentOn(s.sockets), s.queue, s.dropped, s.accepted);
      OldestDropped(SentOn(s.sockets), s.queue, s.dropped, s.accepted);
      FlushFlows(RawSend(s, Data(head)).(queue := s.queue[1..]), maxQueue);
    } else if s.queue != [] {
      assert s.queue[0] in s.queue;
    }
  }

  /**
   What is sent can be encoded, and nothing is sent from inside the status change of an opening socket while older
   envelopes wait.
   */
  predicate Orderly(s: State, op: Op) {
    match op
    case Sending(env) => Encodable(env)
    case SocketReceives(_, _, replies) => AllEncodable(replies)
    case SocketOpens(_, _, greeting) => AllEncodable(greeting) && (greeting == [] || s.queue == [] || s.status == Connected)
    case _ => true
  }

  predicate OrderlyRun(ops: seq<Op>, maxQueue: nat) {
    forall n: nat :: n < |ops| ==> Orderly(After(ops[..n], maxQueue), ops[n])
  }

  lemma SameHistories(s: State, t: State)
    requires Flowing(s) && SentOn(t.sockets) == SentOn(s.sockets) && t.queue == s.queue && t.dropped == s.dropped
    requires t.accepted == s.accepted
    ensures Flowing(t)
  {
  }

  lemma GreetFlows(u: State, greeting: seq<Env>, maxQueue: nat)
    requires Core(u, maxQueue) && Flowing(u) && AllEncodable(greeting)
    requires greeting == [] || u.queue == [] || u.status == Connected
    ensures Flowing(Greet(u, greeting, maxQueue))
  {
    var t := u.(status := Connected);
    SameHistories(u, t);
    if u.queue == [] {
      SendAllFlows(t, greeting, maxQueue);
    }
  }

  lemma AfterHelloFlows(u: State, greeting: seq<Env>, maxQueue: nat)
    requires Core(u, maxQueue) && Flowing(u) && AllEncodable(greeting)
    requires greeting == [] || u.queue == [] || u.status == Connected
    ensures Flowing(Flush(Greet(u, greeting, maxQueue)).(timers := true))
  {
    var v := Greet(u, greeting, maxQueue);
    GreetKeeps(u, greeting, maxQueue);
    GreetFlows(u, greeting, maxQueue);
    FlushFlows(v, maxQueue);
    SameHistories(Flush(v), Flush(v).(timers := true));
  }

  lemma OpensFlows(s: State, n: nat, hello: Env, greeting: seq<Env>, maxQueue: nat)
    requires Inv(s, maxQueue) && Flowing(s) && Enabled(s, SocketOpens(n, hello, greeting))
    requires Orderly(s, SocketOpens(n, hello, greeting))
    ensures Flowing(Opens(s, n, hello, greeting, maxQueue))
  {
    var t := s.(sockets := s.sockets[n := s.sockets[n].(ready := Open)], backoffIdx := 0);
    var u := RawSend(t, Hello(hello));
    OpeningIsCurrent(s, n, maxQueue);
    GreetedSockets(s, n, hello, t, u);
    GreetedKeeps(s, n, hello, t, u, maxQueue);
    SameHistories(s, u);
    AfterHelloFlows(u, greeting, maxQueue);
  }

  lemma ReadyFlows(s: State, t: State, n: nat, ready: Ready)
    requires Flowing(s) && n < |s.sockets| && t.sockets == s.sockets[n := s.sockets[n].(ready := ready)]
    requires t.queue == s.queue && t.dropped == s.dropped && t.accepted == s.accepted
    ensures Flowing(t)
  {
    SentReady(s.sockets, n, ready);
  }

  lemma CloseSocketFlows(s: State, n: nat)
    requires Flowing(s)
    ensures Flowing(CloseSocket(s, n))
  {
    if n < |s.sockets| {
      SentReady(s.sockets, n, Closing);
    }
  }

  lemma ReceivesFlows(s: State, n: nat, verdict: Verdict, replies: seq<Env>, maxQueue: nat)
    requires Inv(s, maxQueue) && Flowing(s) && AllEncodable(replies)
    ensures Flowing(Receives(s, n, verdict, replies, maxQueue))
  {
    SendAllFlows(s, replies, maxQueue);
    var t := s.(rejected := true, status := Rejected, timers := false);
    SameHistories(s, t);
    CloseSocketFlows(t, n);
  }

  lemma ClosingFlows(s: State, op: Op, maxQueue: nat)
    requires Inv(s, maxQueue) && Flowing(s) && Enabled(s, op) && (op.SocketCloses? || op.BecomesStale? || op.Shutting?)
    ensures Flowing(Do(s, op, maxQueue))
  {
    match op
    case SocketCloses(n) => ReadyFlows(s, Closes(s, n), n, Closed);
    case BecomesStale =>
      if s.ws.Some? {
        CloseSocketFlows(s.(status := Stale), s.ws.value);
      }
    case Shutting =>
      if s.ws.Some? {
        CloseSocketFlows(s.(closed := true, timers := false, reconnect := false, status := Disconnected), s.ws.value);
      }
  }

  lemma ConnectFlows(s: State, constructs: bool)
    requires Flowing(s)
    ensures Flowing(Connect(s, constructs))
  {
    var more := s.sockets + [Socket(Opening, [])];
    assert more[..|s.sockets|] == s.sockets && SentOn(more) == SentOn(s.sockets) + [];
    SameHistories(s, Connect(s, constructs));
  }

  lemma BeatFlows(s: State, beat: Env)
    requires OneSocket(s) && Flowing(s)
    ensures Flowing(RawSend(s, Beat(beat)))
  {
    if Sends(s, Beat(beat)) {
      RawSendFacts(s, Beat(beat));
    }
  }

  lemma DoFlows(s: State, op: Op, maxQueue: nat)
    requires Inv(s, maxQueue) && Flowing(s) && Enabled(s, op) && Orderly(s, op)
    ensures Flowing(Do(s, op, maxQueue))
  {
    match op
    case Starts(constructs) => ConnectFlows(s.(started := true), constructs);
    case Reconnects(constructs) => ConnectFlows(s.(reconnect := false), constructs);
    case SocketOpens(n, hello, greeting) => OpensFlows(s, n, hello, greeting, maxQueue);
    case SocketReceives(n, verdict, replies) => ReceivesFlows(s, n, verdict, replies, maxQueue);
    case Beats(beat) => BeatFlows(s, beat);
    case Sending(env) => SendFlows(s, env, maxQueue);
    case _ => ClosingFlows(s, op, maxQueue);
  }

  /**
   In an orderly run nothing overtakes: what waits is always what was accepted last, so that a full queue drops its
   oldest envelope, and what was sent was sent in the order in which it was accepted.
   */
  lemma {:induction false} SentInOrder(ops: seq<Op>, maxQueue: nat)
    requires OrderlyRun(ops, maxQueue)
    ensures var s := After(ops, maxQueue); InOrder(SentOn(s.sockets), s.queue, s.dropped, s.accepted)
    ensures Flowing(After(ops, maxQueue))
  {
    if ops != [] {
      var init, op := ops[..|ops| - 1], ops[|ops| - 1];
      forall n: nat | n < |init| ensures Orderly(After(init[..n], maxQueue), init[n]) {
        assert init[..n] == ops[..n];
      }
      SentInOrder(init, maxQueue);
      RunsKeepInv(init, maxQueue);
      if Enabled(After(init, maxQueue), op) {
        DoFlows(After(init, maxQueue), op, maxQueue);
      }
    }
  }

  /** One envelope waits, and the handler of the status change sends another one when the socket opens. */
  function Overtaking(hello: Env, first: Env, second: Env): seq<Op> {
    [Starts(true)] + [Sending(first)] + [SocketOpens(0, hello, [second])]
  }

  lemma FirstWaits(first: Env, maxQueue: nat)
    requires maxQueue > 0
    ensures var ops := [Starts(true)] + [Sending(first)];
            After(ops, maxQueue) ==
            FRESH.(started := true, ws := Some(0), sockets := [Socket(Opening, [])], queue := [first], accepted := [first])
  {
    var ops := [Starts(true)] + [Sending(first)];
    assert ops[..1] == [Starts(true)] && [Starts(true)][..0] == [];
    assert After([Starts(true)], maxQueue) ==
           FRESH.(started := true, ws := Some(0), sockets := [Socket(Opening, [])]);
  }

  lemma SentOnOne(s: State, wire: seq<Item>, item: Item)
    requires s.ws == Some(0) && s.sockets == [Socket(Open, wire)] && Encodable(item.env)
    ensures Sends(s, item) && RawSend(s, item) == s.(sockets := [Socket(Open, wire + [item])])
  {
  }

  lemma GreetedOne(s: State, wire: seq<Item>, env: Env, maxQueue: nat)
    requires s.ws == Some(0) && s.sockets == [Socket(Open, wire)] && Encodable(env) && !s.Dead() && s.status != Connected
    ensures Greet(s, [env], maxQueue) ==
            s.(status := Connected, accepted := s.accepted + [env], sockets := [Socket(Open, wire + [Data(env)])])
  {
    var t := s.(status := Connected);
    assert [env][..0] == [] && SendAll(t, [], maxQueue) == t;
    SentOnOne(t.(accepted := t.accepted + [env]), wire, Data(env));
  }

  lemma FlushOne(s: State, env: Env)
    requires s.queue == [env] && Sends(s, Data(env))
    ensures Flush(s) == RawSend(s, Data(env)).(queue := [])
  {
  }

  /**
   Otherwise order is not kept: what the bridge sends from inside the status change goes out before older envelopes that
   wait in the queue.
   */
  lemma GreetingOvertakes(hello: Env, first: Env, second: Env, maxQueue: nat)
    requires Encodable(hello) && Encodable(first) && Encodable(second) && maxQueue > 0
    ensures var s := After(Overtaking(hello, first, second), maxQueue);
            && s.accepted == [first, second] && s.queue == [] && s.dropped == []
            && |s.sockets| == 1 && s.sockets[0].wire == [Hello(hello), Data(second), Data(first)]
  {
    var ops := [Starts(true)] + [Sending(first)];
    var s := FRESH.(started := true, ws := Some(0), sockets := [Socket(Opening, [])], queue := [first], accepted := [first]);
    FirstWaits(first, maxQueue);
    assert Overtaking(hello, first, second)[..2] == ops;
    var t := s.(sockets := [Socket(Open, [])]);
    var u := s.(sockets := [Socket(Open, [Hello(hello)])]);
    assert s.sockets[0 := Socket(Open, [])] == t.sockets && [] + [Hello(hello)] == [Hello(hello)];
    SentOnOne(t, [], Hello(hello));
    GreetedOne(u, [Hello(hello)], second, maxQueue);
    var v := Greet(u, [second], maxQueue);
    SentOnOne(v, [Hello(hello)] + [Data(second)], Data(first));
    FlushOne(v, first);
    assert [Hello(hello)] + [Data(second)] + [Data(first)] == [Hello(hello), Data(second), Data(first)];
  }
}
