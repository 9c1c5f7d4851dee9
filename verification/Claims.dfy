/**
 Leaderless arbitration of team tasks (src/scheduler/claims.ts): every host publishes its intent, waits for its
 window to close, and lets the lowest (stamp, host, claim id) tuple it has seen win.
 */
module Claims {
  import opened Basics
  import opened Order

  /** A `task.claim` event: the payload and the stamp of the event that carried it. */
  datatype Claim = Claim(
    claimId: string,
    teamId: string,
    eventId: string,
    eventHlc: string,
    hostId: string,
    agentId: string,
    taskId: string,
    fingerprint: string,
    hlc: string
  )

  /** What one arbitration is about; the source joins the two with a colon. */
  datatype Key = Key(eventId: string, fingerprint: string)

  datatype Status = Intent | Won | Lost | SplitBrain

  datatype Row = Row(claim: Claim, status: Status)

  /** What the scheduler is told. `seen` is the table at the moment the window closed. */
  datatype Call =
    | OnWin(key: Key, claim: Claim, seen: seq<Row>)
    | OnLose(key: Key, claim: Claim, seen: seq<Row>)
    | Released(taskId: string, releasedEvent: string)

  datatype Flag = Flag(local: Claim, late: Claim)

  function KeyOf(c: Claim): Key {
    Key(c.eventId, c.fingerprint)
  }

  function CompareTuple(a: Claim, b: Claim): int {
    if Less(a.hlc, b.hlc) then -1
    else if Less(b.hlc, a.hlc) then 1
    else if Less(a.hostId, b.hostId) then -1
    else if Less(b.hostId, a.hostId) then 1
    else if Less(a.claimId, b.claimId) then -1
    else if Less(b.claimId, a.claimId) then 1
    else 0
  }

  predicate Lower(a: Claim, b: Claim) {
    CompareTuple(a, b) < 0
  }

  /** The stamp decides, then the host id, then the claim id. */
  predicate Earlier(a: Claim, b: Claim) {
    || Less(a.hlc, b.hlc)
    || (a.hlc == b.hlc && (Less(a.hostId, b.hostId) || (a.hostId == b.hostId && Less(a.claimId, b.claimId))))
  }

  lemma LowerIsEarlier(a: Claim, b: Claim)
    ensures Lower(a, b) <==> Earlier(a, b)
  {
    Compose(a.hlc, b.hlc, a.hlc);
    Compose(a.hostId, b.hostId, a.hostId);
    Compose(a.claimId, b.claimId, a.claimId);
    Irreflexive(a.hlc);
    Irreflexive(a.hostId);
    Irreflexive(a.claimId);
  }

  lemma LowerIsStrict(a: Claim, b: Claim)
    ensures !(Lower(a, b) && Lower(b, a))
    ensures a.claimId != b.claimId ==> Lower(a, b) || Lower(b, a)
  {
    Compose(a.hlc, b.hlc, a.hlc);
    Compose(a.hostId, b.hostId, a.hostId);
    Compose(a.claimId, b.claimId, a.claimId);
  }

  lemma LowerTransitive(a: Claim, b: Claim, c: Claim)
    requires Lower(a, b) && Lower(b, c)
    ensures Lower(a, c)
  {
    Compose(a.hlc, b.hlc, c.hlc);
    Compose(a.hostId, b.hostId, c.hostId);
    Compose(a.claimId, b.claimId, c.claimId);
  }

  lemma {:induction false} Compose(a: string, b: string, c: string)
    ensures Less(a, b) && Less(b, c) ==> Less(a, c)
    ensures !Less(a, b) && !Less(b, a) ==> a == b
    ensures Less(a, b) ==> !Less(b, a)
    ensures Less(b, c) ==> !Less(c, b)
    ensures !Less(b, c) && !Less(c, b) ==> b == c
    ensures Less(a, c) ==> !Less(c, a)
  {
    Total(a, b);
    Total(b, c);
    if Less(a, b) {
      Asymmetric(a, b);
    }
    if Less(b, c) {
      Asymmetric(b, c);
    }
    if Less(a, c) {
      Asymmetric(a, c);
    }
    if Less(a, b) && Less(b, c) {
      Transitive(a, b, c);
    }
  }

  // ---------- The claims table ----------

  predicate Contains(rows: seq<Row>, claimId: string) {
    exists i :: 0 <= i < |rows| && rows[i].claim.claimId == claimId
  }

  /** INSERT OR IGNORE on the claim id. */
  function Insert(rows: seq<Row>, c: Claim): seq<Row> {
    if Contains(rows, c.claimId) then rows else rows + [Row(c, Intent)]
  }

  /** The rows of one arbitration, in table order. */
  function Select(rows: seq<Row>, k: Key): seq<Row> {
    if rows == [] then []
    else if KeyOf(rows[0].claim) == k then [rows[0]] + Select(rows[1..], k)
    else Select(rows[1..], k)
  }

  /** The first of `rows` that `host` claimed. */
  function FirstOf(rows: seq<Row>, host: string): Option<Row> {
    if rows == [] then None else if rows[0].claim.hostId == host then Some(rows[0]) else FirstOf(rows[1..], host)
  }

  function Find(rows: seq<Row>, claimId: string): Option<Row> {
    if rows == [] then None else if rows[0].claim.claimId == claimId then Some(rows[0]) else Find(rows[1..], claimId)
  }

  function SetStatus(rows: seq<Row>, claimId: string, status: Status): (r: seq<Row>)
    ensures |r| == |rows|
  {
    seq(|rows|, i requires 0 <= i < |rows| => if rows[i].claim.claimId == claimId then rows[i].(status := status) else rows[i])
  }

  /** Every other row of the arbitration becomes `Lost`. */
  function LoseOthers(rows: seq<Row>, k: Key, claimId: string): (r: seq<Row>)
    ensures |r| == |rows|
  {
    seq(|rows|, i requires 0 <= i < |rows| =>
      if KeyOf(rows[i].claim) == k && rows[i].claim.claimId != claimId then rows[i].(status := Lost) else rows[i])
  }

  /** The left fold that keeps the lower tuple. */
  function Lowest(rows: seq<Row>): (r: Row)
    requires rows != []
    ensures r in rows
  {
    if |rows| == 1 then rows[0]
    else
      var lo := Lowest(rows[..|rows| - 1]);
      var last := rows[|rows| - 1];
      if Lower(last.claim, lo.claim) then last else lo
  }

  // ---------- One host ----------

  datatype Host = Host(
    hostId: string,
    rows: seq<Row>,
    pending: map<Key, string>,
    won: set<Key>,
    calls: seq<Call>,
    flags: seq<Flag>
  )

  function Handle(s: Host, c: Claim): Host {
    var rows := Insert(s.rows, c);
    var t := s.(rows := rows);
    if KeyOf(c) !in s.won then t
    else match FirstOf(Select(rows, KeyOf(c)), s.hostId)
      case None => t
      case Some(ours) =>
        if ours.claim.claimId == c.claimId || ours.status == SplitBrain || !Lower(c, ours.claim) then t
        else t.(rows := SetStatus(rows, ours.claim.claimId, SplitBrain), flags := s.flags + [Flag(ours.claim, c)])
  }

  /** Publishing the claim runs our own handler first; the window is armed afterwards. */
  function Register(s: Host, c: Claim): Host {
    var t := Handle(s, c);
    t.(rows := Insert(t.rows, c), pending := s.pending[KeyOf(c) := c.claimId])
  }

  function Decide(s: Host, k: Key): Host {
    if k !in s.pending then s
    else
      var t := s.(pending := s.pending - {k});
      var rows := Select(s.rows, k);
      if rows == [] then t
      else match Find(rows, s.pending[k])
        case None => t
        case Some(ours) =>
          if Lowest(rows).claim.claimId == s.pending[k] then
            t.(rows := LoseOthers(SetStatus(s.rows, s.pending[k], Won), k, s.pending[k]),
               won := s.won + {k},
               calls := s.calls + [OnWin(k, ours.claim, s.rows)])
          else
            t.(rows := SetStatus(s.rows, s.pending[k], Lost),
               calls := s.calls + [OnLose(k, ours.claim, s.rows)])
  }

  /** The closure of `createClaims`: its table, its pending windows and its locally won arbitrations. */
  class Arbiter {
    const hostId: string
    var rows: seq<Row>
    var pending: map<Key, string>
    var won: set<Key>
    var calls: seq<Call>
    var flags: seq<Flag>

    constructor (hostId: string)
      ensures Now() == Host(hostId, [], map[], {}, [], [])
    {
      this.hostId := hostId;
      rows, pending, won, calls, flags := [], map[], {}, [], [];
    }

    function Now(): Host
      reads this
    {
      Host(hostId, rows, pending, won, calls, flags)
    }

    method PersistIntent(c: Claim)
      modifies this`rows
      ensures rows == Insert(old(rows), c)
    {
      if !Contains(rows, c.claimId) {
        rows := rows + [Row(c, Intent)];
      }
    }

    method HandleClaimEvent(c: Claim)
      modifies this
      ensures Now() == Handle(old(Now()), c)
    {
      PersistIntent(c);
      if KeyOf(c) !in won {
        return;
      }
      var ours := FirstOf(Select(rows, KeyOf(c)), hostId);
      if ours.None? || ours.value.claim.claimId == c.claimId || ours.value.status == SplitBrain {
        return;
      }
      if CompareTuple(c, ours.value.claim) >= 0 {
        return;
      }
      rows := SetStatus(rows, ours.value.claim.claimId, SplitBrain);
      flags := flags + [Flag(ours.value.claim, c)];
    }

    /** Without a team on the event the reserved slot is released at once. */
    method RegisterIntent(team: Option<string>, c: Claim)
      requires team.Some? ==> c.teamId == team.value
      requires c.hostId == hostId
      modifies this
      ensures team.Some? ==> Now() == Register(old(Now()), c)
      ensures team.None? ==> Now() == old(Now()).(calls := old(calls) + [Released(c.taskId, c.eventId)])
    {
      if team.None? {
        calls := calls + [Released(c.taskId, c.eventId)];
        return;
      }
      HandleClaimEvent(c);
      PersistIntent(c);
      pending := pending[KeyOf(c) := c.claimId];
    }

    method DecideWindow(k: Key)
      modifies this
      ensures Now() == Decide(old(Now()), k)
    {
      if k !in pending {
        return;
      }
      var ourClaimId := pending[k];
      pending := pending - {k};
      var intents := Select(rows, k);
      if intents == [] {
        return;
      }
      var winner := intents[0];
      for i := 1 to |intents|
        invariant winner == Lowest(intents[..i])
      {
        assert intents[..i + 1][..i] == intents[..i];
        if CompareTuple(intents[i].claim, winner.claim) < 0 {
          winner := intents[i];
        }
      }
      assert intents[..|intents|] == intents;
      var ours := Find(intents, ourClaimId);
      if ours.None? {
        return;
      }
      var seen := rows;
      if winner.claim.claimId == ourClaimId {
        rows := SetStatus(rows, ourClaimId, Won);
        rows := LoseOthers(rows, k, ourClaimId);
        won := won + {k};
        calls := calls + [OnWin(k, ours.value.claim, seen)];
      } else {
        rows := SetStatus(rows, ourClaimId, Lost);
        calls := calls + [OnLose(k, ours.value.claim, seen)];
      }
    }
  }
}
