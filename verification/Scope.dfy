/** Which team an event belongs to: the router and the inbound check (src/mesh/scope.ts), and the catchup query. */
module Scope {
  import opened Basics
  import opened Json
  import opened Envelope
  import opened Events

  datatype Violation =
    | PayloadTeamMismatch(payloadTeamId: Option<string>)
    | MemoryNonTeamScope(payloadTeamId: Option<string>)

  predicate IsMemoryEvent(e: Event) {
    e.kind == "memory.wrote" || e.kind == "memory.forgotten"
  }

  /** The named properties of a payload; arrays are objects without any. */
  function PayloadOf(e: Event): Option<seq<Field>> {
    match e.payload
    case Obj(fs) => Some(fs)
    case Arr(_) => Some([])
    case _ => None
  }

  function StringField(fs: seq<Field>, key: string): Option<string> {
    match Get(fs, key)
    case Str(s) => if s == "" then None else Some(s)
    case _ => None
  }

  function RoutableTeamId(e: Event): Option<string> {
    match PayloadOf(e)
    case None => None
    case Some(fs) =>
      if !IsMemoryEvent(e) then StringField(fs, "teamId")
      else if Get(fs, "scope") != Str("team") then None
      else if StringField(fs, "scopeRef").Some? then StringField(fs, "scopeRef")
      else StringField(fs, "teamId")
  }

  function ValidateTeamScope(e: Event, team: string): Result<(), Violation> {
    match PayloadOf(e)
    case None => Err(PayloadTeamMismatch(None))
    case Some(fs) =>
      if IsMemoryEvent(e) && Get(fs, "scope") != Str("team") then Err(MemoryNonTeamScope(StringField(fs, "teamId")))
      else if RoutableTeamId(e) != Some(team) then Err(PayloadTeamMismatch(RoutableTeamId(e)))
      else Ok(())
  }

  predicate Accepts(e: Event, team: string) {
    ValidateTeamScope(e, team).Ok?
  }

  // ---------- The SQL predicate ----------

  datatype Sql = SqlNull | SqlNumber(n: int) | SqlText(t: string)

  /** The value that `JSON.stringify` writes: undefined properties vanish, other holes become null. */
  function Stored(v: Js): Js
    decreases v, 1
  {
    match v
    case Arr(items) => Arr(StoredItems(items))
    case Obj(fields) => Obj(StoredFields(fields))
    case Undefined => Null
    case NonFinite => Null
    case Unsupported => Null
    case _ => v
  }

  function StoredItems(items: seq<Js>): seq<Js>
    decreases items, 0
  {
    if items == [] then [] else [Stored(items[0])] + StoredItems(items[1..])
  }

  function StoredFields(fs: seq<Field>): seq<Field>
    decreases fs, 0
  {
    if fs == [] then []
    else if fs[0].value.Undefined? || fs[0].value.Unsupported? then StoredFields(fs[1..])
    else [Field(fs[0].key, Stored(fs[0].value))] + StoredFields(fs[1..])
  }

  /** `json_extract(payload, '$.key')` on the stored payload: arrays and objects come out as their JSON text. */
  function JsonExtract(e: Event, key: string): Sql {
    match Stored(e.payload)
    case Obj(fs) =>
      (match Get(fs, key)
       case Str(s) => SqlText(s)
       case Num(n) => SqlNumber(n)
       case Bool(b) => SqlNumber(if b then 1 else 0)
       case Arr(items) => SqlText(Text(Arr(items)))
       case Obj(gs) => SqlText(Text(Obj(gs)))
       case _ => SqlNull)
    case _ => SqlNull
  }

  function Coalesce(a: Sql, b: Sql): Sql {
    if a == SqlNull then b else a
  }

  /** The WHERE clause of the catchup query, apart from its `id > ?`. */
  predicate SqlServes(e: Event, team: string) {
    || (IsMemoryEvent(e)
        && JsonExtract(e, "scope") == SqlText("team")
        && Coalesce(JsonExtract(e, "scopeRef"), JsonExtract(e, "teamId")) == SqlText(team))
    || (!IsMemoryEvent(e) && JsonExtract(e, "teamId") == SqlText(team))
  }

  // ---------- Agreement ----------

  /** Team ids are ULIDs; all that matters here is that one is not empty and cannot be mistaken for JSON text. */
  predicate TeamId(team: string) {
    team != "" && team[0] != '[' && team[0] != '{'
  }

  /** A property that is neither absent nor null, nor a non-empty string. */
  predicate Unusable(v: Js) {
    v == Str("") || v.Bool? || v.Num? || v.Arr? || v.Obj?
  }

  lemma {:induction false} GetStored(fs: seq<Field>, key: string)
    requires DistinctKeys(fs)
    ensures Get(StoredFields(fs), key) ==
            if Get(fs, key).Undefined? || Get(fs, key).Unsupported? then Undefined else Stored(Get(fs, key))
  {
    if fs != [] {
      GetStored(fs[1..], key);
      if fs[0].key == key {
        GetAbsentElsewhere(fs, key);
      }
    }
  }

  lemma {:induction false} GetAbsentElsewhere(fs: seq<Field>, key: string)
    requires DistinctKeys(fs) && fs != [] && fs[0].key == key
    ensures Get(fs[1..], key) == Undefined
  {
    forall f | f in fs[1..] ensures f.key != key {
      var i :| 0 <= i < |fs[1..]| && fs[1..][i] == f;
      assert fs[i + 1] == f;
    }
    GetAbsent(fs[1..], key);
  }

  /** What the query sees of a property whose value could be a team id. */
  lemma {:induction false} ExtractMatches(e: Event, key: string, text: string)
    requires WellKeyed(e.payload) && TeamId(text)
    ensures JsonExtract(e, key) == SqlText(text) <==> PayloadOf(e).Some? && Get(PayloadOf(e).value, key) == Str(text)
    ensures JsonExtract(e, key) != SqlNull <==>
            PayloadOf(e).Some? && (Get(PayloadOf(e).value, key).Str? || Unusable(Get(PayloadOf(e).value, key)))
  {
    if e.payload.Obj? {
      GetStored(e.payload.fields, key);
    }
  }

  /** Acceptance for a team is the same as being routed to it. */
  lemma AcceptsIffRouted(e: Event, team: string)
    ensures Accepts(e, team) <==> RoutableTeamId(e) == Some(team)
  {
  }

  /**
   The query serves exactly the accepted events, except memory events whose `scopeRef` is there but is no usable
   string.
   */
  lemma ServedIffAccepted(e: Event, team: string)
    requires WellKeyed(e.payload) && TeamId(team)
    ensures SqlServes(e, team) <==>
              Accepts(e, team) && !(IsMemoryEvent(e) && Unusable(Get(PayloadOf(e).value, "scopeRef")))
  {
    ExtractMatches(e, "scope", "team");
    ExtractMatches(e, "scopeRef", team);
    ExtractMatches(e, "teamId", team);
  }

  /** The condition under which an outbound event is put on the wire for a team. */
  predicate Broadcasts(e: Event, team: string, secrets: set<string>) {
    RoutableTeamId(e) == Some(team) && (IsMemoryEvent(e) ==> Accepts(e, team)) && team in secrets
  }

  /** Whatever is broadcast to a team is accepted by its members, after any reordering of keys on the way. */
  lemma BroadcastAccepted(e: Event, received: Event, team: string, secrets: set<string>)
    requires e.payload.Obj? && WellKeyed(e.payload) && Representable(e.payload)
    requires received == e.(payload := Normal(e.payload))
    ensures Broadcasts(e, team, secrets) <==> Accepts(received, team) && team in secrets
  {
    var fs := e.payload.fields;
    NormalKeepsProperty(fs, "scope");
    NormalKeepsProperty(fs, "scopeRef");
    NormalKeepsProperty(fs, "teamId");
  }

  /** Whatever the server reads back from its table is accepted exactly when the original was. */
  lemma StoredAccepted(e: Event, team: string)
    requires WellKeyed(e.payload)
    ensures Accepts(e.(payload := Stored(e.payload)), team) <==> Accepts(e, team)
  {
    if e.payload.Obj? {
      GetStored(e.payload.fields, "scope");
      GetStored(e.payload.fields, "scopeRef");
      GetStored(e.payload.fields, "teamId");
    }
  }

  // ---------- Acceptance by the payload ----------

  /** The property is a string that is not empty. */
  predicate Given(v: Js) {
    v.Str? && v != Str("")
  }

  /**
   An event is accepted for a team exactly if its payload names the team: a memory event of scope `team` in `scopeRef`, or
   in `teamId` where that is no usable string, and any other event in `teamId`.
   */
  lemma AcceptsExactly(e: Event, team: string)
    ensures Accepts(e, team) <==>
              && team != "" && e.payload.Obj?
              && var fs := e.payload.fields;
                 if e.kind == "memory.wrote" || e.kind == "memory.forgotten" then
                   && Get(fs, "scope") == Str("team")
                   && Str(team) == if Given(Get(fs, "scopeRef")) then Get(fs, "scopeRef") else Get(fs, "teamId")
                 else Get(fs, "teamId") == Str(team)
  {
  }

  // ---------- What storing keeps ----------

  /** A payload that JSON can represent comes back as it was, up to key order and undefined properties. */
  lemma {:induction false} StoredIsSame(v: Js)
    requires WellKeyed(v) && Representable(v)
    ensures Normal(Stored(v)) == Normal(v)
    decreases v, 1
  {
    match v
    case Arr(items) => StoredItemsSame(items);
    case Obj(fields) => StoredFieldsSame(fields);
    case _ =>
  }

  lemma {:induction false} StoredItemsSame(items: seq<Js>)
    requires forall w <- items :: WellKeyed(w) && Representable(w)
    ensures NormalItems(StoredItems(items)) == NormalItems(items)
    decreases items, 0
  {
    if items != [] {
      assert items[0] in items;
      StoredIsSame(items[0]);
      StoredItemsSame(items[1..]);
    }
  }

  lemma {:induction false} StoredFieldsSame(fs: seq<Field>)
    requires forall f <- fs :: WellKeyed(f.value) && (f.value.Undefined? || Representable(f.value))
    ensures NormalFields(StoredFields(fs)) == NormalFields(fs)
    decreases fs, 0
  {
    if fs != [] {
      assert fs[0] in fs;
      if !fs[0].value.Undefined? {
        StoredIsSame(fs[0].value);
      }
      StoredFieldsSame(fs[1..]);
    }
  }
}
