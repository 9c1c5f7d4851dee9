/**
 The `events` table (src/bus/persist.ts and the row mapping of src/mesh/catchup.ts): one row per event id, kept in
 the order of its primary key.
 */
module EventTable {
  import opened Order
  import opened Events
  import opened Scope

  /** An event as it comes back from its row: the payload went through JSON, and every stored event is durable. */
  function Record(e: Event): Event {
    e.(payload := Stored(e.payload), durable := true)
  }

  function Ids(rows: seq<Event>): set<string> {
    set e <- rows :: e.id
  }

  ghost predicate Ascending(rows: seq<Event>) {
    forall i, j :: 0 <= i < j < |rows| ==> Less(rows[i].id, rows[j].id)
  }

  /** INSERT OR IGNORE on the event id. */
  function Put(rows: seq<Event>, e: Event): seq<Event> {
    if rows == [] || Less(e.id, rows[0].id) then [Record(e)] + rows
    else if rows[0].id == e.id then rows
    else [rows[0]] + Put(rows[1..], e)
  }

  lemma {:induction false} PutRows(rows: seq<Event>, e: Event)
    requires Ascending(rows)
    ensures Ascending(Put(rows, e))
    ensures forall r :: r in Put(rows, e) <==> r in rows || (e.id !in Ids(rows) && r == Record(e))
  {
    if rows == [] {
    } else if Less(e.id, rows[0].id) {
      forall j | 0 <= j < |rows| ensures Less(e.id, rows[j].id) {
        if j > 0 {
          Transitive(e.id, rows[0].id, rows[j].id);
        }
      }
      forall r | r in rows ensures r.id != e.id {
        Irreflexive(e.id);
      }
    } else if rows[0].id == e.id {
      assert rows[0] in rows;
    } else {
      var tail := Put(rows[1..], e);
      PutRows(rows[1..], e);
      Total(e.id, rows[0].id);
      assert rows == [rows[0]] + rows[1..];
      forall j | 0 <= j < |tail| ensures Less(rows[0].id, tail[j].id) {
        assert tail[j] in tail;
        if tail[j] in rows[1..] {
          var i :| 0 <= i < |rows[1..]| && rows[1..][i] == tail[j];
          assert rows[i + 1] == tail[j];
        }
      }
      assert forall r :: r in rows <==> r == rows[0] || r in rows[1..];
    }
  }

  /** Inserting never changes or removes a row, and afterwards the id is there. */
  lemma {:induction false} PutIsInsertOrIgnore(rows: seq<Event>, e: Event)
    requires Ascending(rows)
    ensures Ids(Put(rows, e)) == Ids(rows) + {e.id}
    ensures forall r :: r in rows ==> r in Put(rows, e)
    ensures e.id in Ids(rows) ==> Put(rows, e) == rows
  {
    PutRows(rows, e);
    if e.id in Ids(rows) {
      var r :| r in rows && r.id == e.id;
      var i :| 0 <= i < |rows| && rows[i] == r;
      PutPresent(rows, e, i);
    } else {
      assert Record(e) in Put(rows, e);
    }
  }

  lemma {:induction false} PutPresent(rows: seq<Event>, e: Event, i: nat)
    requires Ascending(rows) && i < |rows| && rows[i].id == e.id
    ensures Put(rows, e) == rows
    decreases i
  {
    if i == 0 {
      Irreflexive(e.id);
    } else {
      Asymmetric(rows[0].id, rows[i].id);
      PutPresent(rows[1..], e, i - 1);
      assert rows == [rows[0]] + rows[1..];
    }
  }
}
