/**
 The input queues of one chat thread (src/agent/chat.ts): the `chat.input` subscription, the drain loop, the mailbox
 handed to the turn engine and the end of a turn. Asynchronous frames are the `drains`; a frame that has called
 `drain` but not yet stored its promise in `thread.worker` is counted by `frames`.
 */
module Chat {
  import opened Basics

  /** An accepted input, numbered in order of acceptance. */
  datatype Item = Item(ticket: nat, text: string)

  /**
   One call of `drain`: at its loop test, inside `runTurn`, or done with the cleanup of `finally` still to come or
   past. The turn engine works on a list `copied` from the history when it starts.
   */
  datatype Drain =
    | Looping
    | InTurn(turn: nat, origin: string, copied: Option<seq<Item>>, folded: seq<Item>)
    | Exited(cleared: bool)

  /**
   `history` are the inputs in `thread.messages`. `lost` are inputs that were consumed but are no longer there: folded
   into a turn that failed, or overwritten when a turn put its own list in place.
   */
  datatype State = State(
    pending: seq<Item>,
    origins: seq<string>,
    inbox: seq<Item>,
    active: Option<nat>,
    worker: bool,
    frames: nat,
    drains: seq<Drain>,
    turns: nat,
    accepted: seq<Item>,
    history: seq<Item>,
    lost: multiset<Item>)

  const FRESH := State([], [], [], None, false, 0, [], 0, [], [], multiset{})

  function Repeat(origin: string, n: nat): (r: seq<string>)
    ensures |r| == n
  {
    seq(n, i requires 0 <= i < n => origin)
  }

  // ---------- Steps ----------

  function Accept(s: State, item: Item): State {
    s.(accepted := s.accepted + [item])
  }

  function Queue(s: State, item: Item, origin: string): State {
    var t := s.(pending := s.pending + [item], origins := s.origins + [origin]);
    if s.worker then t else t.(drains := s.drains + [Looping], frames := s.frames + 1)
  }

  function Input(s: State, text: string, origin: string, extend: bool): State {
    var item := Item(|s.accepted|, text);
    if extend && s.active.Some? then Accept(s, item).(inbox := s.inbox + [item])
    else Queue(Accept(s, item), item, origin)
  }

  /** The worker promise is stored. */
  function Assign(s: State): State
    requires s.frames > 0
  {
    s.(frames := s.frames - 1, worker := true)
  }

  /** The oldest input opens a turn. */
  function Start(s: State, d: nat): State
    requires d < |s.drains| && |s.pending| == |s.origins| > 0
  {
    s.(pending := s.pending[1..], origins := s.origins[1..], history := s.history + [s.pending[0]],
       active := Some(s.turns), turns := s.turns + 1, drains := s.drains[d := InTurn(s.turns, s.origins[0], None, [])])
  }

  /** The loop test of a drain, and the start of a turn if it succeeds. */
  function Enter(s: State, d: nat): State
    requires d < |s.drains| && |s.pending| == |s.origins|
  {
    if s.pending == [] then s.(drains := s.drains[d := Exited(false)]) else Start(s, d)
  }

  predicate Turning(s: State, d: nat) {
    d < |s.drains| && s.drains[d].InTurn?
  }

  /** The turn engine starts on a copy of the history. */
  function Copy(s: State, d: nat): State
    requires Turning(s, d)
  {
    s.(drains := s.drains[d := s.drains[d].(copied := Some(s.history))])
  }

  /** The mailbox hands the in-flight inputs to the running turn. */
  function Fold(s: State, d: nat): State
    requires Turning(s, d)
  {
    s.(inbox := [], drains := s.drains[d := s.drains[d].(folded := s.drains[d].folded + s.inbox)])
  }

  /** What the history becomes when turn `k` closes: the engine's own list if it succeeds, else it stays as it is. */
  function Kept(history: seq<Item>, k: Drain, succeeds: bool): seq<Item>
    requires k.InTurn?
  {
    if succeeds && k.copied.Some? then k.copied.value + k.folded else history
  }

  /** The turn puts the history in place; what was there, or was folded in, and is no longer there is lost. */
  function Close(s: State, k: Drain, succeeds: bool): State
    requires k.InTurn?
  {
    var kept := Kept(s.history, k, succeeds);
    s.(history := kept, lost := s.lost + multiset(s.history) + multiset(k.folded) - multiset(kept))
  }

  function Release(s: State, turn: nat): State {
    s.(active := if s.active == Some(turn) then None else s.active)
  }

  /** Stranded inputs become pending, with the closing turn's origin. */
  function Promote(s: State, origin: string): State {
    s.(pending := s.pending + s.inbox, origins := s.origins + Repeat(origin, |s.inbox|), inbox := [])
  }

  /** The end of a turn, its `finally` included. `rejects` ends the drain as well. */
  function EndTurn(s: State, d: nat, succeeds: bool, rejects: bool): State
    requires Turning(s, d)
  {
    var k := s.drains[d];
    var t := Promote(Release(Close(s, k, succeeds), k.turn), k.origin);
    t.(drains := s.drains[d := if rejects then Exited(false) else Looping])
  }

  function Clear(s: State, d: nat): State
    requires d < |s.drains|
  {
    s.(worker := false, drains := s.drains[d := Exited(true)])
  }

  class Thread {
    var pending: seq<Item>
    var origins: seq<string>
    var inbox: seq<Item>
    var active: Option<nat>
    var worker: bool
    var frames: nat
    var drains: seq<Drain>
    var turns: nat
    var history: seq<Item>
    ghost var lost: multiset<Item>
    ghost var accepted: seq<Item>
    var count: nat

    constructor ()
      ensures Now() == FRESH && Valid()
    {
      pending, origins, inbox, active, worker := [], [], [], None, false;
      frames, drains, turns, history := 0, [], 0, [];
      lost, accepted, count := multiset{}, [], 0;
    }

    ghost function Now(): State
      reads this
    {
      State(pending, origins, inbox, active, worker, frames, drains, turns, accepted, history, lost)
    }

    ghost predicate Valid()
      reads this
    {
      |pending| == |origins| && count == |accepted|
    }

    method Enqueue(item: Item, origin: string)
      requires Valid()
      modifies this`pending, this`origins, this`drains, this`frames
      ensures Now() == Queue(old(Now()), item, origin) && Valid()
    {
      pending := pending + [item];
      origins := origins + [origin];
      if !worker {
        drains := drains + [Looping];
        frames := frames + 1;
      }
    }

    method OnInput(text: string, origin: string, extend: bool)
      requires Valid()
      modifies this
      ensures Now() == Input(old(Now()), text, origin, extend) && Valid()
    {
      var item := Item(count, text);
      accepted := accepted + [item];
      count := count + 1;
      if extend && active.Some? {
        inbox := inbox + [item];
        return;
      }
      Enqueue(item, origin);
    }

    method OnAssign()
      requires Valid() && frames > 0
      modifies this
      ensures Now() == Assign(old(Now())) && Valid()
    {
      frames := frames - 1;
      worker := true;
    }

    method StartTurn(d: nat)
      requires Valid() && d < |drains| && pending != []
      modifies this
      ensures Now() == Start(old(Now()), d) && Valid()
    {
      var item, origin := pending[0], origins[0];
      pending, origins := pending[1..], origins[1..];
      history := history + [item];
      active := Some(turns);
      drains := drains[d := InTurn(turns, origin, None, [])];
      turns := turns + 1;
    }

    method OnLoop(d: nat)
      requires Valid() && d < |drains|
      modifies this
      ensures Now() == Enter(old(Now()), d) && Valid()
    {
      if |pending| == 0 {
        drains := drains[d := Exited(false)];
      } else {
        StartTurn(d);
      }
    }

    /** Returns the list the turn engine works on. */
    method OnEngineStart(d: nat) returns (messages: seq<Item>)
      requires Valid() && d < |drains| && drains[d].InTurn?
      modifies this
      ensures Now() == Copy(old(Now()), d) && messages == history && Valid()
    {
      messages := history;
      drains := drains[d := drains[d].(copied := Some(messages))];
    }

    /** Returns what the turn engine appends to the transcript. */
    method DrainMailbox(d: nat) returns (folded: seq<Item>)
      requires Valid() && d < |drains| && drains[d].InTurn?
      modifies this
      ensures Now() == Fold(old(Now()), d) && folded == old(inbox) && Valid()
    {
      folded := inbox;
      inbox := [];
      drains := drains[d := drains[d].(folded := drains[d].folded + folded)];
    }

    method CloseTurn(k: Drain, succeeds: bool)
      requires Valid() && k.InTurn?
      modifies this`history, this`lost
      ensures Now() == Close(old(Now()), k, succeeds) && Valid()
    {
      lost := lost + multiset(history) + multiset(k.folded) - multiset(Kept(history, k, succeeds));
      if succeeds && k.copied.Some? {
        history := k.copied.value + k.folded;
      }
    }

    method ReleaseThread(turn: nat)
      requires Valid()
      modifies this`active
      ensures Now() == Release(old(Now()), turn) && Valid()
    {
      if active == Some(turn) {
        active := None;
      }
    }

    method PromoteStranded(origin: string)
      requires Valid()
      modifies this`inbox, this`pending, this`origins
      ensures Now() == Promote(old(Now()), origin) && Valid()
    {
      var stranded := inbox;
      inbox := [];
      pending := pending + stranded;
      for i := 0 to |stranded|
        invariant origins == old(origins) + Repeat(origin, i)
        invariant pending == old(pending) + stranded && inbox == []
      {
        origins := origins + [origin];
      }
    }

    method FinishTurn(d: nat, succeeds: bool, rejects: bool)
      requires Valid() && d < |drains| && drains[d].InTurn?
      modifies this
      ensures Now() == EndTurn(old(Now()), d, succeeds, rejects) && Valid()
    {
      var k := drains[d];
      CloseTurn(k, succeeds);
      ReleaseThread(k.turn);
      PromoteStranded(k.origin);
      drains := drains[d := if rejects then Exited(false) else Looping];
    }

    method OnSettled(d: nat)
      requires Valid() && d < |drains|
      modifies this
      ensures Now() == Clear(old(Now()), d) && Valid()
    {
      worker := false;
      drains := drains[d := Exited(true)];
    }
  }

  // ---------- Runs ----------

  datatype Op =
    | Inputs(text: string, origin: string, extend: bool)
    | Assigns
    | Enters(d: nat)
    | Copies(d: nat)
    | Folds(d: nat)
    | EndsTurn(d: nat, succeeds: bool, rejects: bool)
    | Clears(d: nat)

  /** While a frame waits to store its promise, only its own drain runs, and inputs may arrive from inside it. */
  predicate Runs(s: State, d: nat) {
    d < |s.drains| && (s.frames > 0 ==> d == |s.drains| - 1)
  }

  predicate Enabled(s: State, op: Op) {
    match op
    case Inputs(_, _, _) => true
    case Assigns => s.frames > 0
    case Enters(d) => Runs(s, d) && s.drains[d].Looping? && |s.pending| == |s.origins|
    case Copies(d) => Runs(s, d) && s.drains[d].InTurn? && s.drains[d].copied.None?
    case Folds(d) => Runs(s, d) && s.drains[d].InTurn? && s.drains[d].copied.Some?
    case EndsTurn(d, _, _) => Runs(s, d) && s.drains[d].InTurn?
    case Clears(d) => s.frames == 0 && d < |s.drains| && s.drains[d] == Exited(false)
  }

  function Do(s: State, op: Op): State
    requires Enabled(s, op)
  {
    match op
    case Inputs(text, origin, extend) => Input(s, text, origin, extend)
    case Assigns => Assign(s)
    case Enters(d) => Enter(s, d)
    case Copies(d) => Copy(s, d)
    case Folds(d) => Fold(s, d)
    case EndsTurn(d, succeeds, rejects) => EndTurn(s, d, succeeds, rejects)
    case Clears(d) => Clear(s, d)
  }

  function After(ops: seq<Op>): State {
    if ops == [] then FRESH
    else
      var s, op := After(ops[..|ops| - 1]), ops[|ops| - 1];
      if Enabled(s, op) then Do(s, op) else s
  }
}
