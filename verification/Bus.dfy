/** The event bus (src/bus/bus.ts). Handlers run inside `dispatch`; what they publish from there is a later call. */
module Bus {
  import opened Basics
  import opened Hlc
  import opened Json
  import opened Events
  import opened EventTable

  const MAX_DISPATCHED_MEMO := 10_000

  /** One run of the handlers; `remote` is the delivery context they see. */
  datatype Dispatch = Dispatch(event: Event, remote: bool)

  datatype PublishInput = PublishInput(kind: string, payload: Js, hostId: string, actorId: string, durable: bool)

  datatype State = State(last: Stamp, memo: seq<string>, rows: seq<Event>, log: seq<Dispatch>)

  const FRESH := State(Stamp(0, 0), [], [], [])

  /** Setting a key of an insertion-ordered map, then evicting the oldest entry beyond the cap. */
  function Mark(memo: seq<string>, id: string): seq<string> {
    var m := if id in memo then memo else memo + [id];
    if |m| > MAX_DISPATCHED_MEMO then m[1..] else m
  }

  /** The event that a publish creates: a tick of the clock and a new identifier. */
  function Stamped(last: Stamp, input: PublishInput, id: string, physical: nat): Event {
    var s := NowStep(last, physical);
    Event(id, Encode(s), input.hostId, input.actorId, input.kind, input.payload, s.l, input.durable)
  }

  function Publish(s: State, input: PublishInput, id: string, physical: nat): State {
    var e := Stamped(s.last, input, id, physical);
    State(
      NowStep(s.last, physical),
      Mark(s.memo, id),
      if e.durable then Put(s.rows, e) else s.rows,
      s.log + [Dispatch(e, false)])
  }

  /** Stamps that do not decode leave the clock alone. */
  function Receive(last: Stamp, hlc: string, physical: nat): Stamp {
    match Decode(hlc)
    case Ok(remote) => RecvStep(last, remote, physical)
    case Err(_) => last
  }

  function Inject(s: State, e: Event, physical: nat): State {
    var rows := Put(s.rows, e);
    if e.id in s.memo then s.(rows := rows)
    else State(Receive(s.last, e.hlc, physical), Mark(s.memo, e.id), rows, s.log + [Dispatch(e, true)])
  }

  class EventBus {
    const clock: Clock
    var memo: seq<string>
    var rows: seq<Event>
    var log: seq<Dispatch>
    var closed: bool

    constructor ()
      ensures Now() == FRESH && !closed && fresh(clock)
    {
      clock := new Clock();
      memo, rows, log, closed := [], [], [], false;
    }

    function Now(): State
      reads this, clock
    {
      State(clock.Last(), memo, rows, log)
    }

    method MarkDispatched(id: string)
      modifies this`memo
      ensures memo == Mark(old(memo), id)
    {
      if id !in memo {
        memo := memo + [id];
      }
      if |memo| > MAX_DISPATCHED_MEMO {
        memo := memo[1..];
      }
    }

    /** `None` where the source throws because the bus is closed. */
    method PublishEvent(input: PublishInput, id: string, physical: nat) returns (r: Option<Event>)
      modifies this, clock
      ensures closed == old(closed)
      ensures closed ==> r.None? && Now() == old(Now())
      ensures !closed ==> Now() == Publish(old(Now()), input, id, physical)
      ensures !closed ==> r == Some(Stamped(old(Now()).last, input, id, physical))
    {
      if closed {
        return None;
      }
      var stamp := clock.Now(physical);
      var e := Event(id, Encode(stamp), input.hostId, input.actorId, input.kind, input.payload, stamp.l, input.durable);
      if e.durable {
        rows := Put(rows, e);
      }
      MarkDispatched(e.id);
      log := log + [Dispatch(e, false)];
      return Some(e);
    }

    /** Returns whether the handlers ran. */
    method InjectEvent(e: Event, physical: nat) returns (r: Option<bool>)
      modifies this, clock
      ensures closed == old(closed)
      ensures closed ==> r.None? && Now() == old(Now())
      ensures !closed ==> Now() == Inject(old(Now()), e, physical)
      ensures !closed ==> r == Some(e.id !in old(memo))
    {
      if closed {
        return None;
      }
      rows := Put(rows, e);
      if e.id in memo {
        return Some(false);
      }
      var stamp := Decode(e.hlc);
      if stamp.Ok? {
        var _ := clock.Recv(stamp.value, physical);
      }
      MarkDispatched(e.id);
      log := log + [Dispatch(e, true)];
      return Some(true);
    }

    method Close()
      modifies this`closed
      ensures closed
    {
      closed := true;
    }
  }

  // ---------- Runs of one bus ----------

  datatype Op =
    | Publishes(input: PublishInput, id: string, physical: nat)
    | Injects(event: Event, physical: nat)

  function Do(s: State, op: Op): State {
    match op
    case Publishes(input, id, physical) => Publish(s, input, id, physical)
    case Injects(e, physical) => Inject(s, e, physical)
  }

  /** The state after `ops`, the first one first. */
  function After(ops: seq<Op>): State {
    if ops == [] then FRESH else Do(After(ops[..|ops| - 1]), ops[|ops| - 1])
  }

  /** Identifiers drawn for a publish are new to the memo. */
  predicate FreshIds(ops: seq<Op>) {
    ops == [] ||
    var before, op := After(ops[..|ops| - 1]), ops[|ops| - 1];
    FreshIds(ops[..|ops| - 1]) && (op.Publishes? ==> op.id !in before.memo)
  }

  function LogIds(log: seq<Dispatch>): (ids: seq<string>)
    ensures |ids| == |log|
    ensures forall i :: 0 <= i < |log| ==> ids[i] == log[i].event.id
  {
    if log == [] then [] else LogIds(log[..|log| - 1]) + [log[|log| - 1].event.id]
  }

  /** The last ids marked, at most as many as the memo holds. */
  function LastMarked(ids: seq<string>): seq<string> {
    if |ids| <= MAX_DISPATCHED_MEMO then ids else ids[|ids| - MAX_DISPATCHED_MEMO..]
  }

  lemma MarkFresh(ids: seq<string>, id: string)
    requires id !in LastMarked(ids)
    ensures Mark(LastMarked(ids), id) == LastMarked(ids + [id])
  {
  }

  /** The memo is exactly the most recently dispatched ids, all different. */
  lemma {:induction false} MemoIsLastMarked(ops: seq<Op>)
    requires FreshIds(ops)
    ensures After(ops).memo == LastMarked(LogIds(After(ops).log))
  {
    if ops != [] {
      var before, op := After(ops[..|ops| - 1]), ops[|ops| - 1];
      MemoIsLastMarked(ops[..|ops| - 1]);
      if op.Publishes? || op.event.id !in before.memo {
        var d := After(ops).log[|before.log|];
        MarkFresh(LogIds(before.log), d.event.id);
      }
    }
  }

  /** Handlers see one id twice only if at least a whole memo of other ids was dispatched in between. */
  lemma {:induction false} RedispatchNeedsEviction(ops: seq<Op>, i: nat, j: nat)
    requires FreshIds(ops) && i < j < |After(ops).log| && After(ops).log[i].event.id == After(ops).log[j].event.id
    ensures j - i > MAX_DISPATCHED_MEMO
  {
    var before, op := After(ops[..|ops| - 1]), ops[|ops| - 1];
    if j < |before.log| {
      RedispatchNeedsEviction(ops[..|ops| - 1], i, j);
    } else {
      MemoIsLastMarked(ops[..|ops| - 1]);
    }
  }
}
