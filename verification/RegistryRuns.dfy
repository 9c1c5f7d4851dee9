/** What every run of loads, unloads and registrations keeps. */
module RegistryRuns {
  import opened Registry

  datatype Op =
    | AddsTool(r: nat, tool: string, valid: bool)
    | AddsTrigger(r: nat, trigger: string)
    | AddsTask(r: nat, id: string)
    | Begins(ext: string, r: nat)
    | Commits(ext: string)
    | Fails(ext: string)
    | Unloads(ext: string)
    | Finishes(ext: string)

  /**
   Any api may be used at any time, by code of a load long gone too; loads and unloads of one extension take turns, and
   each load mints a new record.
   */
  predicate Enabled(s: State, op: Op) {
    match op
    case Begins(x, r) => x !in s.phases && r !in s.owners
    case Commits(x) => x in s.phases && s.phases[x] == Loading
    case Fails(x) => x in s.phases && s.phases[x] == Loading
    case Unloads(x) => x in s.phases && s.phases[x] == Loaded
    case Finishes(x) => x in s.phases && s.phases[x] == Purging
    case _ => true
  }

  function Do(s: State, op: Op): State {
    match op
    case AddsTool(r, tool, valid) => RegisterTool(s, r, tool, valid)
    case AddsTrigger(r, trigger) => RegisterTrigger(s, r, trigger)
    case AddsTask(r, id) => RegisterTask(s, r, id)
    case Begins(x, r) => BeginLoad(s, x, r)
    case Commits(x) => Commit(s, x)
    case Fails(x) => Revoke(s, x)
    case Unloads(x) => Revoke(s, x)
    case Finishes(x) => Drop(s, x)
  }

  /** What is not enabled does nothing. */
  function Step(s: State, op: Op): State {
    if Enabled(s, op) then Do(s, op) else s
  }

  /** The state after `ops` from `s`, the first one first. */
  function After(s: State, ops: seq<Op>): State {
    if ops == [] then s else Step(After(s, ops[..|ops| - 1]), ops[|ops| - 1])
  }

  // ---------- The invariant ----------

  type ByName = map<string, Entry>

  type ByExt = map<string, seq<Entry>>

  /** The two tool indexes hold the same entries, each under its own name and its own extension, once. */
  ghost predicate Bijective(byName: ByName, byExt: ByExt) {
    && (forall n :: n in byName ==> byName[n].tool == n && byName[n] in Listed(byExt, byName[n].ext))
    && (forall x, e :: x in byExt && e in byExt[x] ==> e.ext == x && e.tool in byName && byName[e.tool] == e)
    && (forall x, i, j :: x in byExt && 0 <= i < j < |byExt[x]| ==> byExt[x][i].tool != byExt[x][j].tool)
    && (forall x :: x in byExt ==> byExt[x] != [])
  }

  ghost predicate Indexed(s: State) {
    Bijective(s.byName, s.byExt)
  }

  /** The scheduler has exactly the tasks that are listed. */
  ghost predicate Scheduled(s: State) {
    forall t: Task :: t in s.scheduler <==> t.id in Listed(s.tasks, t.ext)
  }

  /** Only extensions between the start of a load and the end of its purge have registrations. */
  ghost predicate Phased(s: State) {
    && s.byExt.Keys <= s.phases.Keys && s.triggers.Keys <= s.phases.Keys && s.tasks.Keys <= s.phases.Keys
    && (forall x :: x in s.current ==> x in s.phases && s.phases[x] != Purging)
    && (forall x :: x in s.phases && s.phases[x] != Purging ==> x in s.current)
  }

  /** The live apis are those of the current loads, one per extension. */
  ghost predicate OneApi(s: State) {
    && (forall r: nat :: Live(s, r) ==> s.owners[r] in s.current && s.current[s.owners[r]] == r)
    && (forall x :: x in s.current ==> Live(s, s.current[x]) && s.owners[s.current[x]] == x)
    && (forall r: nat :: r in s.revoked ==> r in s.owners)
  }

  ghost predicate Inv(s: State) {
    Indexed(s) && Scheduled(s) && Phased(s) && OneApi(s)
  }

  lemma AddedKeepsBijection(byName: ByName, byExt: ByExt, e: Entry)
    requires Bijective(byName, byExt) && e.tool !in byName
    ensures Bijective(byName[e.tool := e], byExt[e.ext := Listed(byExt, e.ext) + [e]])
  {
    var names: ByName, exts: ByExt := byName[e.tool := e], byExt[e.ext := Listed(byExt, e.ext) + [e]];
    forall n | n in names ensures names[n].tool == n && names[n] in Listed(exts, names[n].ext) {
      if n != e.tool {
        assert byName[n] in Listed(byExt, byName[n].ext);
      }
    }
    forall y, f: Entry | y in exts && f in exts[y] ensures f.ext == y && f.tool in names && names[f.tool] == f {
      if f != e {
        assert f in Listed(byExt, y);
      }
    }
    forall y, i, j | y in exts && 0 <= i < j < |exts[y]| ensures exts[y][i].tool != exts[y][j].tool {
      assert exts[y][i] in Listed(byExt, y);
    }
  }

  lemma RegisterToolKeeps(s: State, r: nat, tool: string, valid: bool)
    requires Inv(s)
    ensures Inv(RegisterTool(s, r, tool, valid))
  {
    var t := RegisterTool(s, r, tool, valid);
    if t != s {
      assert s.current[s.owners[r]] == r;
      AddedKeepsBijection(s.byName, s.byExt, Entry(r, s.owners[r], tool));
    }
  }

  lemma RegisterTaskKeeps(s: State, r: nat, id: string)
    requires Inv(s)
    ensures Inv(RegisterTask(s, r, id))
  {
    var t := RegisterTask(s, r, id);
    if t != s {
      var x := s.owners[r];
      assert s.current[x] == r;
      assert forall k :: k in t.tasks[x] <==> k in Listed(s.tasks, x) || k == id;
    }
  }

  lemma RegisterTriggerKeeps(s: State, r: nat, trigger: string)
    requires Inv(s)
    ensures Inv(RegisterTrigger(s, r, trigger))
  {
    if Live(s, r) {
      assert s.current[s.owners[r]] == r;
    }
  }

  lemma BeginLoadKeeps(s: State, x: string, r: nat)
    requires Inv(s) && x !in s.phases && r !in s.owners
    ensures Inv(BeginLoad(s, x, r))
  {
    var t := BeginLoad(s, x, r);
    forall q: nat | Live(t, q) ensures t.owners[q] in t.current && t.current[t.owners[q]] == q {
      if q != r {
        assert Live(s, q);
      }
    }
    forall y | y in t.current ensures Live(t, t.current[y]) && t.owners[t.current[y]] == y {
      if y != x {
        assert Live(s, s.current[y]);
      }
    }
  }

  lemma RevokeKeeps(s: State, x: string)
    requires Inv(s) && x in s.phases
    ensures Inv(Revoke(s, x))
  {
    var t := Revoke(s, x);
    forall r: nat | Live(t, r) ensures t.owners[r] in t.current && t.current[t.owners[r]] == r {
      assert Live(s, r);
    }
    forall y | y in t.current ensures Live(t, t.current[y]) && t.owners[t.current[y]] == y {
      assert Live(s, s.current[y]);
    }
  }

  function Evicted(byName: ByName, list: seq<Entry>): ByName {
    map n | n in byName && byName[n] !in list :: byName[n]
  }

  lemma EvictedIsOwn(byName: ByName, byExt: ByExt, x: string)
    requires Bijective(byName, byExt)
    ensures Evicted(byName, Listed(byExt, x)) == map n | n in byName && byName[n].ext != x :: byName[n]
  {
    forall n | n in byName ensures byName[n] in Listed(byExt, x) <==> byName[n].ext == x {
      assert byName[n] in Listed(byExt, byName[n].ext);
    }
  }

  lemma EvictedKeepsBijection(byName: ByName, byExt: ByExt, x: string, names: ByName, exts: ByExt)
    requires Bijective(byName, byExt)
    requires names == (map n | n in byName && byName[n].ext != x :: byName[n]) && exts == byExt - {x}
    ensures Bijective(names, exts)
  {
    forall n | n in names ensures names[n].tool == n && names[n] in Listed(exts, names[n].ext) {
      assert byName[n] in Listed(byExt, byName[n].ext);
    }
    forall y, e: Entry | y in exts && e in exts[y] ensures e.ext == y && e.tool in names && names[e.tool] == e {
      assert y in byExt && e in byExt[y];
    }
    forall y, i, j | y in exts && 0 <= i < j < |exts[y]| ensures exts[y][i].tool != exts[y][j].tool {
      assert y in byExt && exts[y] == byExt[y];
    }
  }

  lemma DropKeeps(s: State, x: string)
    requires Inv(s) && x in s.phases && s.phases[x] == Purging
    ensures Inv(Drop(s, x))
  {
    var t := Drop(s, x);
    EvictedIsOwn(s.byName, s.byExt, x);
    EvictedKeepsBijection(s.byName, s.byExt, x, t.byName, t.byExt);
    assert t.byName == Evicted(s.byName, Listed(s.byExt, x));
    forall k: Task ensures k in t.scheduler <==> k.id in Listed(t.tasks, k.ext) {
      assert k in TasksOf(x, Listed(s.tasks, x)) <==> k.ext == x && k.id in Listed(s.tasks, x);
    }
  }

  lemma DoKeepsInv(s: State, op: Op)
    requires Inv(s)
    ensures Inv(Step(s, op))
  {
    if Enabled(s, op) {
      match op
      case AddsTool(r, tool, valid) => RegisterToolKeeps(s, r, tool, valid);
      case AddsTrigger(r, trigger) => RegisterTriggerKeeps(s, r, trigger);
      case AddsTask(r, id) => RegisterTaskKeeps(s, r, id);
      case Begins(x, r) => BeginLoadKeeps(s, x, r);
      case Commits(x) =>
      case Fails(x) => RevokeKeeps(s, x);
      case Unloads(x) => RevokeKeeps(s, x);
      case Finishes(x) => DropKeeps(s, x);
    }
  }

  lemma {:induction false} InvHolds(s: State, ops: seq<Op>)
    requires Inv(s)
    ensures Inv(After(s, ops))
  {
    if ops != [] {
      InvHolds(s, ops[..|ops| - 1]);
      DoKeepsInv(After(s, ops[..|ops| - 1]), ops[|ops| - 1]);
    }
  }

  /**
   The two tool indexes stay a bijection with unique names in every run, and at most one api per extension is live.
   */
  lemma {:induction false} RunsKeepInv(ops: seq<Op>)
    ensures Inv(After(FRESH, ops))
  {
    InvHolds(FRESH, ops);
  }

  // ---------- Revocation is final ----------

  predicate By(op: Op, r: nat) {
    match op
    case AddsTool(q, _, _) => q == r
    case AddsTrigger(q, _) => q == r
    case AddsTask(q, _) => q == r
    case _ => false
  }

  lemma RevokedByStep(s: State, op: Op)
    ensures s.revoked <= Step(s, op).revoked
  {
  }

  lemma {:induction false} RevokedForever(s: State, ops: seq<Op>, r: nat)
    requires r in s.revoked
    ensures r in After(s, ops).revoked
  {
    if ops != [] {
      var init, op := ops[..|ops| - 1], ops[|ops| - 1];
      RevokedForever(s, init, r);
      RevokedByStep(After(s, init), op);
    }
  }

  /**
   After the extension failed to load or was unloaded, whatever happens next, a reload under the same id included, its
   old api changes nothing.
   */
  lemma {:induction false} StaleApiIsInert(before: seq<Op>, x: string, ops: seq<Op>, op: Op)
    requires var s := After(FRESH, before); x in s.current && By(op, s.current[x])
    ensures var t := After(Revoke(After(FRESH, before), x), ops); Do(t, op) == t
  {
    var s := After(FRESH, before);
    RunsKeepInv(before);
    RevokedForever(Revoke(s, x), ops, s.current[x]);
  }

  // ---------- A purge removes what is the extension's own ----------

  datatype Tables = Tables(
    byName: map<string, Entry>,
    byExt: map<string, seq<Entry>>,
    triggers: map<string, seq<string>>,
    tasks: map<string, seq<string>>,
    scheduler: set<Task>)

  function TablesOf(s: State): Tables {
    Tables(s.byName, s.byExt, s.triggers, s.tasks, s.scheduler)
  }

  /** The registries without what belongs to `x`. */
  function Others(s: State, x: string): Tables {
    Tables(
      map n | n in s.byName && s.byName[n].ext != x :: s.byName[n],
      s.byExt - {x}, s.triggers - {x}, s.tasks - {x},
      set t | t in s.scheduler && t.ext != x)
  }

  /** Dropping an extension removes exactly what is its own. */
  lemma DropLeavesOthers(s: State, x: string)
    requires Indexed(s) && Scheduled(s)
    ensures TablesOf(Drop(s, x)) == Others(s, x)
  {
    EvictedIsOwn(s.byName, s.byExt, x);
    assert Drop(s, x).byName == Evicted(s.byName, Listed(s.byExt, x));
    forall k: Task | k in s.scheduler ensures k in TasksOf(x, Listed(s.tasks, x)) <==> k.ext == x {
    }
  }

  /**
   In every run, whatever others do during a load, its failure or unloading and the wait that follows, the purge
   removes exactly the extension's own registrations.
   */
  lemma {:induction false} PurgeRemovesOwnOnly(ops: seq<Op>, x: string)
    requires Enabled(After(FRESH, ops), Finishes(x))
    ensures var s := After(FRESH, ops);
            After(FRESH, ops + [Finishes(x)]) == Drop(s, x) && TablesOf(Drop(s, x)) == Others(s, x)
  {
    assert (ops + [Finishes(x)])[..|ops|] == ops;
    RunsKeepInv(ops);
    DropLeavesOthers(After(FRESH, ops), x);
  }

  // ---------- A failed load leaves no trace, or what it leaves ----------

  function HeldNames(byName: ByName, x: string): set<string> {
    set n | n in byName && byName[n].ext == x
  }

  function Free(list: seq<Entry>, held: set<string>): (r: seq<Entry>)
    ensures forall e :: e in r <==> e in list && e.tool !in held
  {
    if list == [] then []
    else
      var init, e := Free(list[..|list| - 1], held), list[|list| - 1];
      if e.tool in held then init else init + [e]
  }

  lemma {:induction false} FreeOfNone(list: seq<Entry>, held: set<string>)
    requires forall e :: e in list ==> e.tool !in held
    ensures Free(list, held) == list
  {
    if list != [] {
      var init := list[..|list| - 1];
      assert list == init + [list[|list| - 1]] && list[|list| - 1] in list;
      FreeOfNone(init, held);
    }
  }

  lemma {:induction false} FreeOfMore(list: seq<Entry>, held: set<string>, n: string)
    requires forall e :: e in list ==> e.tool != n
    ensures Free(list, held + {n}) == Free(list, held)
  {
    if list != [] {
      assert list[|list| - 1] in list;
      FreeOfMore(list[..|list| - 1], held, n);
    }
  }

  lemma FreeOfAdded(list: seq<Entry>, held: set<string>, e: Entry)
    ensures Free(list + [e], held) == Free(list, held) + if e.tool in held then [] else [e]
  {
    assert (list + [e])[..|list|] == list;
  }

  /** The name index `a` is `b` on all names that `x` does not hold in `a`. */
  ghost predicate NamesBeside(a: ByName, b: ByName, x: string) {
    forall n :: n !in HeldNames(a, x) ==> (n in a <==> n in b) && (n in a ==> a[n] == b[n])
  }

  /** The lists of the others in `a` are those in `b` without the names held. */
  ghost predicate ListsBeside(a: ByExt, b: ByExt, x: string, held: set<string>) {
    forall y :: y != x ==> Listed(a, y) == Free(Listed(b, y), held)
  }

  /** `a` without `x` is `b`. */
  ghost predicate But<T>(a: map<string, T>, x: string, b: map<string, T>) {
    x !in b && forall y :: y != x ==> (y in a <==> y in b) && (y in a ==> a[y] == b[y])
  }

  lemma ButPut<T>(a: map<string, T>, x: string, b: map<string, T>, y: string, v: T)
    requires But(a, x, b) && y != x
    ensures But(a[y := v], x, b[y := v])
  {
  }

  lemma ButOwn<T>(a: map<string, T>, x: string, b: map<string, T>, v: T)
    requires But(a, x, b)
    ensures But(a[x := v], x, b)
  {
  }

  lemma ButRemoved<T>(a: map<string, T>, x: string, b: map<string, T>, y: string)
    requires But(a, x, b)
    ensures But(a - {y}, x, b - {y}) && But(a - {x}, x, b)
  {
  }

  lemma ButIsRemoved<T>(a: map<string, T>, x: string, b: map<string, T>)
    requires But(a, x, b)
    ensures a - {x} == b
  {
  }

  ghost predicate RestBeside(s: State, u: State, x: string, r: nat) {
    && r !in u.owners && s.owners == u.owners[r := x] && s.revoked - {r} == u.revoked
    && But(s.current, x, u.current) && But(s.phases, x, u.phases)
    && But(s.triggers, x, u.triggers) && But(s.tasks, x, u.tasks)
  }

  ghost predicate ToolsBeside(s: State, u: State, x: string) {
    NamesBeside(s.byName, u.byName, x) && ListsBeside(s.byExt, u.byExt, x, HeldNames(s.byName, x))
  }

  /** `s` is `u` with the load `r` of `x` beside it, which holds some names that others may hold in `u`. */
  ghost predicate Beside(s: State, u: State, x: string, r: nat) {
    Inv(s) && Inv(u) && RestBeside(s, u, x, r) && ToolsBeside(s, u, x)
  }

  lemma IdleHoldsNothing(s: State, x: string)
    requires Inv(s) && x !in s.phases
    ensures HeldNames(s.byName, x) == {}
    ensures x !in s.byExt && x !in s.triggers && x !in s.tasks && x !in s.current
  {
    forall n | n in s.byName ensures s.byName[n].ext != x {
      assert s.byName[n] in Listed(s.byExt, s.byName[n].ext);
    }
  }

  lemma SameToolsBeside(byExt: ByExt, x: string)
    ensures ListsBeside(byExt, byExt, x, {})
  {
    forall y | y != x ensures Listed(byExt, y) == Free(Listed(byExt, y), {}) {
      FreeOfNone(Listed(byExt, y), {});
    }
  }

  lemma BeginsRestBeside(u: State, x: string, r: nat)
    requires x !in u.phases && x !in u.current && x !in u.triggers && x !in u.tasks && r !in u.owners && r !in u.revoked
    ensures RestBeside(BeginLoad(u, x, r), u, x, r)
  {
  }

  lemma BeginsBeside(u: State, x: string, r: nat)
    requires Inv(u) && x !in u.phases && r !in u.owners
    ensures Beside(BeginLoad(u, x, r), u, x, r)
  {
    BeginLoadKeeps(u, x, r);
    IdleHoldsNothing(u, x);
    SameToolsBeside(u.byExt, x);
    assert r !in u.revoked;
    BeginsRestBeside(u, x, r);
  }

  // ---------- Steps of the load itself ----------

  lemma MoreNamesHeld(a: ByName, b: ByName, x: string, e: Entry)
    requires NamesBeside(a, b, x) && e.ext == x && e.tool !in a
    ensures NamesBeside(a[e.tool := e], b, x) && e.tool !in b
    ensures HeldNames(a[e.tool := e], x) == HeldNames(a, x) + {e.tool}
  {
    assert e.tool !in HeldNames(a, x);
  }

  lemma MoreListsHeld(a: ByExt, b: ByExt, x: string, held: set<string>, own: seq<Entry>, n: string)
    requires ListsBeside(a, b, x, held) && forall y, f :: y in b && f in b[y] ==> f.tool != n
    ensures ListsBeside(a[x := own], b, x, held + {n})
  {
    forall y | y != x ensures Listed(a[x := own], y) == Free(Listed(b, y), held + {n}) {
      FreeOfMore(Listed(b, y), held, n);
    }
  }

  lemma OwnToolBeside(s: State, u: State, x: string, r: nat, tool: string, valid: bool)
    requires Beside(s, u, x, r)
    ensures ToolsBeside(RegisterTool(s, r, tool, valid), u, x)
  {
    if RegisterTool(s, r, tool, valid) != s {
      var e := Entry(r, x, tool);
      MoreNamesHeld(s.byName, u.byName, x, e);
      MoreListsHeld(s.byExt, u.byExt, x, HeldNames(s.byName, x), Listed(s.byExt, x) + [e], tool);
    }
  }

  lemma CurrentIsOwn(s: State, u: State, x: string, r: nat)
    requires OneApi(s) && Inv(u) && RestBeside(s, u, x, r) && x in s.current
    ensures s.current[x] == r
  {
    var q := s.current[x];
    assert Live(s, q) && s.owners[q] == x;
    assert x !in u.current;
    assert !Live(u, q);
  }

  lemma OwnAddBeside(s: State, u: State, x: string, r: nat, op: Op)
    requires RestBeside(s, u, x, r) && By(op, r)
    ensures RestBeside(Do(s, op), u, x, r)
  {
    match op
    case AddsTool(_, _, _) =>
    case AddsTrigger(_, trigger) => ButOwn(s.triggers, x, u.triggers, Listed(s.triggers, x) + [trigger]);
    case AddsTask(_, id) => ButOwn(s.tasks, x, u.tasks, Listed(s.tasks, x) + [id]);
  }

  lemma OwnFailBeside(s: State, u: State, x: string, r: nat)
    requires OneApi(s) && Inv(u) && RestBeside(s, u, x, r)
    ensures RestBeside(Revoke(s, x), u, x, r)
  {
    var t := Revoke(s, x);
    if x in s.current {
      CurrentIsOwn(s, u, x, r);
    }
    assert t.revoked - {r} == s.revoked - {r};
    ButOwn(s.phases, x, u.phases, Purging);
    ButRemoved(s.current, x, u.current, x);
  }

  lemma OwnOpBeside(s: State, u: State, x: string, r: nat, op: Op)
    requires Beside(s, u, x, r) && (By(op, r) || op == Fails(x))
    ensures Beside(Step(s, op), u, x, r)
  {
    DoKeepsInv(s, op);
    if op.Fails? {
      OwnFailBeside(s, u, x, r);
    } else {
      OwnAddBeside(s, u, x, r, op);
      if op.AddsTool? {
        OwnToolBeside(s, u, x, r, op.tool, op.valid);
      }
    }
  }

  // ---------- Steps of the others ----------

  /** No step in the life of `x` and none of the load `r`. */
  predicate Foreign(op: Op, x: string, r: nat) {
    match op
    case Begins(y, q) => y != x && q != r
    case Commits(y) => y != x
    case Fails(y) => y != x
    case Unloads(y) => y != x
    case Finishes(y) => y != x
    case _ => !By(op, r)
  }

  lemma SameLive(s: State, u: State, x: string, r: nat, q: nat)
    requires RestBeside(s, u, x, r) && OneApi(u) && q != r
    ensures Live(s, q) <==> Live(u, q)
    ensures Live(s, q) ==> s.owners[q] == u.owners[q] != x
  {
  }

  lemma SameEnabled(s: State, u: State, x: string, r: nat, op: Op)
    requires RestBeside(s, u, x, r) && Foreign(op, x, r)
    ensures Enabled(s, op) <==> Enabled(u, op)
  {
  }

  lemma AddsBeside(s: State, u: State, x: string, r: nat, op: Op)
    requires RestBeside(s, u, x, r) && OneApi(u) && Scheduled(s) && Scheduled(u) && Foreign(op, x, r)
    requires op.AddsTrigger? || op.AddsTask?
    ensures RestBeside(Do(s, op), Do(u, op), x, r)
  {
    SameLive(s, u, x, r, op.r);
    if Live(u, op.r) {
      var y := u.owners[op.r];
      if op.AddsTrigger? {
        ButPut(s.triggers, x, u.triggers, y, Listed(u.triggers, y) + [op.trigger]);
      } else {
        assert Task(y, op.id) in s.scheduler <==> Task(y, op.id) in u.scheduler;
        ButPut(s.tasks, x, u.tasks, y, Listed(u.tasks, y) + [op.id]);
      }
    }
  }

  lemma RevokeBeside(s: State, u: State, x: string, r: nat, y: string)
    requires RestBeside(s, u, x, r) && OneApi(u) && y != x
    ensures RestBeside(Revoke(s, y), Revoke(u, y), x, r)
  {
    if y in u.current {
      assert Live(u, u.current[y]);
    }
    assert Revoke(s, y).revoked - {r} == Revoke(u, y).revoked;
    ButRemoved(s.current, x, u.current, y);
    ButPut(s.phases, x, u.phases, y, Purging);
  }

  lemma LoadStepsBeside(s: State, u: State, x: string, r: nat, op: Op)
    requires RestBeside(s, u, x, r) && Foreign(op, x, r) && (op.Begins? || op.Commits? || op.Finishes?)
    ensures RestBeside(Do(s, op), Do(u, op), x, r)
  {
    match op
    case Begins(y, q) =>
      assert s.owners[q := y] == u.owners[q := y][r := x];
      ButPut(s.current, x, u.current, y, q);
      ButPut(s.phases, x, u.phases, y, Loading);
    case Commits(y) => ButPut(s.phases, x, u.phases, y, Loaded);
    case Finishes(y) =>
      ButRemoved(s.triggers, x, u.triggers, y);
      ButRemoved(s.tasks, x, u.tasks, y);
      ButRemoved(s.phases, x, u.phases, y);
  }

  lemma ForeignRestBeside(s: State, u: State, x: string, r: nat, op: Op)
    requires Inv(s) && Inv(u) && RestBeside(s, u, x, r) && Foreign(op, x, r)
    ensures RestBeside(Do(s, op), Do(u, op), x, r)
  {
    match op
    case AddsTool(q, _, _) =>
    case AddsTrigger(_, _) => AddsBeside(s, u, x, r, op);
    case AddsTask(_, _) => AddsBeside(s, u, x, r, op);
    case Fails(y) => RevokeBeside(s, u, x, r, y);
    case Unloads(y) => RevokeBeside(s, u, x, r, y);
    case _ => LoadStepsBeside(s, u, x, r, op);
  }

  lemma ListedBeside(a: ByExt, b: ByExt, x: string, held: set<string>, y: string, own: seq<Entry>, other: seq<Entry>)
    requires ListsBeside(a, b, x, held) && own == Free(other, held)
    ensures ListsBeside(a[y := own], b[y := other], x, held)
    ensures own == Listed(a, y) && y != x ==> ListsBeside(a, b[y := other], x, held)
  {
    var c: ByExt, d: ByExt := a[y := own], b[y := other];
    forall z | z != x ensures Listed(c, z) == if z == y then own else Free(Listed(d, z), held) {
      assert Listed(a, z) == Free(Listed(b, z), held);
    }
  }

  lemma ToolListsBeside(a: ByExt, b: ByExt, x: string, held: set<string>, e: Entry)
    requires ListsBeside(a, b, x, held) && e.ext != x
    ensures e.tool in held ==> ListsBeside(a, b[e.ext := Listed(b, e.ext) + [e]], x, held)
    ensures e.tool !in held ==>
              ListsBeside(a[e.ext := Listed(a, e.ext) + [e]], b[e.ext := Listed(b, e.ext) + [e]], x, held)
  {
    FreeOfAdded(Listed(b, e.ext), held, e);
    ListedBeside(a, b, x, held, e.ext, Free(Listed(b, e.ext) + [e], held), Listed(b, e.ext) + [e]);
  }

  lemma NameBeside(a: ByName, b: ByName, x: string, e: Entry)
    requires NamesBeside(a, b, x) && e.ext != x && e.tool !in b
    ensures e.tool in HeldNames(a, x) ==> NamesBeside(a, b[e.tool := e], x)
    ensures e.tool !in HeldNames(a, x) ==>
              NamesBeside(a[e.tool := e], b[e.tool := e], x) && HeldNames(a[e.tool := e], x) == HeldNames(a, x)
  {
  }

  /** Another's name: free in both, or held by `x` and so possibly free in the run without it only. */
  lemma ForeignToolBeside(s: State, u: State, x: string, r: nat, q: nat, tool: string, valid: bool)
    requires ToolsBeside(s, u, x) && RestBeside(s, u, x, r) && OneApi(u) && q != r
    ensures ToolsBeside(RegisterTool(s, q, tool, valid), RegisterTool(u, q, tool, valid), x)
  {
    SameLive(s, u, x, r, q);
    var held := HeldNames(s.byName, x);
    assert tool !in held ==> (tool in s.byName <==> tool in u.byName);
    if Live(u, q) && valid && tool !in u.byName {
      var e := Entry(q, u.owners[q], tool);
      ToolListsBeside(s.byExt, u.byExt, x, held, e);
      NameBeside(s.byName, u.byName, x, e);
    }
  }

  lemma DroppedNamesBeside(a: ByName, b: ByName, x: string, y: string, c: ByName, d: ByName)
    requires NamesBeside(a, b, x) && y != x
    requires c == (map n | n in a && a[n].ext != y :: a[n]) && d == (map n | n in b && b[n].ext != y :: b[n])
    ensures NamesBeside(c, d, x) && HeldNames(c, x) == HeldNames(a, x)
  {
    assert HeldNames(c, x) == HeldNames(a, x);
  }

  lemma DroppedListsBeside(a: ByExt, b: ByExt, x: string, y: string, held: set<string>)
    requires ListsBeside(a, b, x, held)
    ensures ListsBeside(a - {y}, b - {y}, x, held)
  {
    forall z | z != x ensures Listed(a - {y}, z) == Free(Listed(b - {y}, z), held) {
      assert Listed(a, z) == Free(Listed(b, z), held);
    }
  }

  lemma DropToolsBeside(s: State, u: State, x: string, y: string)
    requires Indexed(s) && Indexed(u) && ToolsBeside(s, u, x) && y != x
    ensures ToolsBeside(Drop(s, y), Drop(u, y), x)
  {
    var t, v := Drop(s, y), Drop(u, y);
    EvictedIsOwn(s.byName, s.byExt, y);
    EvictedIsOwn(u.byName, u.byExt, y);
    assert t.byName == Evicted(s.byName, Listed(s.byExt, y)) && v.byName == Evicted(u.byName, Listed(u.byExt, y));
    DroppedNamesBeside(s.byName, u.byName, x, y, t.byName, v.byName);
    DroppedListsBeside(s.byExt, u.byExt, x, y, HeldNames(s.byName, x));
  }

  lemma ToolsUntouched(s: State, op: Op)
    requires !op.AddsTool? && !op.Finishes?
    ensures Do(s, op).byName == s.byName && Do(s, op).byExt == s.byExt
    ensures Step(s, op).byName == s.byName && Step(s, op).byExt == s.byExt
  {
  }

  lemma ForeignToolsBeside(s: State, u: State, x: string, r: nat, op: Op)
    requires Inv(s) && Inv(u) && RestBeside(s, u, x, r) && ToolsBeside(s, u, x) && Foreign(op, x, r)
    ensures ToolsBeside(Do(s, op), Do(u, op), x)
  {
    match op
    case AddsTool(q, tool, valid) => ForeignToolBeside(s, u, x, r, q, tool, valid);
    case Finishes(y) => DropToolsBeside(s, u, x, y);
    case _ =>
      ToolsUntouched(s, op);
      ToolsUntouched(u, op);
  }

  lemma ForeignOpBeside(s: State, u: State, x: string, r: nat, op: Op)
    requires Beside(s, u, x, r) && Foreign(op, x, r)
    ensures Beside(Step(s, op), Step(u, op), x, r)
  {
    DoKeepsInv(s, op);
    DoKeepsInv(u, op);
    SameEnabled(s, u, x, r, op);
    if Enabled(s, op) {
      ForeignRestBeside(s, u, x, r, op);
      ForeignToolsBeside(s, u, x, r, op);
    }
  }

  // ---------- The failed load and the others ----------

  /** The other extensions' steps among `ops`. */
  function OthersOf(ops: seq<Op>, x: string, r: nat): seq<Op> {
    if ops == [] then []
    else
      var init, op := OthersOf(ops[..|ops| - 1], x, r), ops[|ops| - 1];
      if Foreign(op, x, r) then init + [op] else init
  }

  /** Between its start and the end of its purge, the load `r` of `x` registers what it likes, and fails. */
  predicate DuringLoad(op: Op, x: string, r: nat) {
    Foreign(op, x, r) || By(op, r) || op == Fails(x) || (op.Begins? && op.r == r)
  }

  lemma StepBeside(s: State, u: State, x: string, r: nat, op: Op)
    requires Beside(s, u, x, r) && DuringLoad(op, x, r)
    ensures Beside(Step(s, op), if Foreign(op, x, r) then Step(u, op) else u, x, r)
  {
    if Foreign(op, x, r) {
      ForeignOpBeside(s, u, x, r, op);
    } else if !op.Begins? {
      OwnOpBeside(s, u, x, r, op);
    }
  }

  lemma {:induction false} RunsBeside(u: State, x: string, r: nat, ops: seq<Op>)
    requires Inv(u) && x !in u.phases && r !in u.owners
    requires forall op :: op in ops ==> DuringLoad(op, x, r)
    ensures Beside(After(BeginLoad(u, x, r), ops), After(u, OthersOf(ops, x, r)), x, r)
  {
    if ops == [] {
      BeginsBeside(u, x, r);
    } else {
      var init, op := ops[..|ops| - 1], ops[|ops| - 1];
      var rest := OthersOf(init, x, r);
      RunsBeside(u, x, r, init);
      StepBeside(After(BeginLoad(u, x, r), init), After(u, rest), x, r, op);
      assert (rest + [op])[..|rest|] == rest;
    }
  }

  /** The others hold none of the names that `x` holds in `s`. */
  predicate Apart(s: State, u: State, x: string) {
    HeldNames(s.byName, x) !! u.byName.Keys
  }

  lemma ApartListsEqual(a: ByExt, b: ByExt, byName: ByName, x: string, held: set<string>)
    requires ListsBeside(a, b, x, held) && Bijective(byName, b) && held !! byName.Keys && x !in b
    requires forall y :: y in a ==> a[y] != []
    ensures a - {x} == b
  {
    forall y | y != x ensures Listed(a, y) == Listed(b, y) {
      forall e | e in Listed(b, y) ensures e.tool !in held {
        assert e in b[y] && e.tool in byName.Keys;
      }
      FreeOfNone(Listed(b, y), held);
    }
    forall y | y != x ensures (y in a <==> y in b) && (y in a ==> a[y] == b[y]) {
      assert Listed(a, y) == Listed(b, y);
      assert y in b ==> b[y] != [];
    }
    ButIsRemoved(a, x, b);
  }

  lemma ApartNamesEqual(a: ByName, b: ByName, x: string)
    requires NamesBeside(a, b, x)
    ensures (map n | n in a && a[n].ext != x :: a[n]) == b <==> HeldNames(a, x) !! b.Keys
  {
    var names: ByName := map n | n in a && a[n].ext != x :: a[n];
    if HeldNames(a, x) !! b.Keys {
      forall n ensures n in names <==> n in b {
        if n in b {
          assert n in b.Keys;
        }
      }
    } else {
      var n :| n in HeldNames(a, x) && n in b.Keys;
      assert n !in names;
    }
  }

  lemma OthersEqualIffApart(s: State, u: State, x: string, r: nat)
    requires Beside(s, u, x, r)
    ensures Others(s, x) == TablesOf(u) <==> Apart(s, u, x)
  {
    ApartNamesEqual(s.byName, u.byName, x);
    if Apart(s, u, x) {
      ApartListsEqual(s.byExt, u.byExt, u.byName, x, HeldNames(s.byName, x));
      ApartRestEqual(s, u, x, r);
    }
  }

  lemma ApartRestEqual(s: State, u: State, x: string, r: nat)
    requires RestBeside(s, u, x, r) && Scheduled(s) && Scheduled(u)
    ensures s.triggers - {x} == u.triggers && s.tasks - {x} == u.tasks
    ensures (set t | t in s.scheduler && t.ext != x) == u.scheduler
  {
    ButIsRemoved(s.triggers, x, u.triggers);
    ButIsRemoved(s.tasks, x, u.tasks);
    forall t: Task ensures t in s.scheduler && t.ext != x <==> t in u.scheduler {
      assert t in u.scheduler <==> t.id in Listed(u.tasks, t.ext);
    }
  }

  /** Another live api asks for a name that `x` holds, and is dropped. */
  predicate Asks(s: State, op: Op, x: string) {
    op.AddsTool? && op.valid && Live(s, op.r) && s.owners[op.r] != x && op.tool in HeldNames(s.byName, x)
  }

  lemma OwnToolApart(s: State, u: State, x: string, r: nat, tool: string, valid: bool)
    requires Beside(s, u, x, r) && Apart(s, u, x)
    ensures Apart(RegisterTool(s, r, tool, valid), u, x)
  {
    if RegisterTool(s, r, tool, valid) != s {
      MoreNamesHeld(s.byName, u.byName, x, Entry(r, x, tool));
    }
  }

  lemma NameApart(a: ByName, b: ByName, x: string, e: Entry)
    requires NamesBeside(a, b, x) && HeldNames(a, x) !! b.Keys && e.ext != x
    ensures e.tool in HeldNames(a, x) ==> !(HeldNames(a, x) !! b[e.tool := e].Keys)
    ensures e.tool !in a ==> HeldNames(a[e.tool := e], x) !! b[e.tool := e].Keys
  {
    assert e.tool in b[e.tool := e].Keys;
    if e.tool !in a {
      assert HeldNames(a[e.tool := e], x) == HeldNames(a, x);
    }
  }

  lemma ForeignToolApart(s: State, u: State, x: string, r: nat, q: nat, tool: string, valid: bool)
    requires NamesBeside(s.byName, u.byName, x) && RestBeside(s, u, x, r) && OneApi(u) && Apart(s, u, x) && q != r
    ensures Apart(RegisterTool(s, q, tool, valid), RegisterTool(u, q, tool, valid), x) <==>
            !Asks(s, AddsTool(q, tool, valid), x)
  {
    SameLive(s, u, x, r, q);
    assert tool in HeldNames(s.byName, x) ==> tool !in u.byName.Keys;
    if Live(u, q) && valid && tool !in u.byName {
      NameApart(s.byName, u.byName, x, Entry(q, u.owners[q], tool));
    }
  }

  lemma DropApart(s: State, u: State, x: string, y: string)
    requires Apart(s, u, x)
    ensures Apart(Drop(s, y), Drop(u, y), x)
  {
  }

  lemma OtherStepApart(s: State, u: State, x: string, op: Op)
    requires Apart(s, u, x) && !op.AddsTool? && !op.Finishes?
    ensures Apart(Step(s, op), Step(u, op), x) && Apart(Step(s, op), u, x)
  {
    ToolsUntouched(s, op);
    ToolsUntouched(u, op);
  }

  lemma ApartByStep(s: State, u: State, x: string, r: nat, op: Op)
    requires Beside(s, u, x, r) && DuringLoad(op, x, r) && Apart(s, u, x)
    ensures Apart(Step(s, op), if Foreign(op, x, r) then Step(u, op) else u, x) <==> !Asks(s, op, x)
  {
    match op
    case AddsTool(q, tool, valid) =>
      if q == r {
        OwnToolApart(s, u, x, r, tool, valid);
      } else {
        ForeignToolApart(s, u, x, r, q, tool, valid);
      }
    case Finishes(y) =>
      SameEnabled(s, u, x, r, op);
      DropApart(s, u, x, y);
    case _ => OtherStepApart(s, u, x, op);
  }

  predicate AskedAt(s: State, ops: seq<Op>, k: nat, x: string) {
    k < |ops| && Asks(After(s, ops[..k]), ops[k], x)
  }

  /** The tables of the others after the first `k` steps are as they would be without the load. */
  predicate NoTraceAt(u: State, x: string, r: nat, ops: seq<Op>, k: nat) {
    k <= |ops| ==> Others(After(BeginLoad(u, x, r), ops[..k]), x) == TablesOf(After(u, OthersOf(ops[..k], x, r)))
  }

  lemma OthersOfStep(u: State, x: string, r: nat, ops: seq<Op>, k: nat)
    requires k < |ops|
    ensures After(u, OthersOf(ops[..k + 1], x, r)) ==
            var v := After(u, OthersOf(ops[..k], x, r)); if Foreign(ops[k], x, r) then Step(v, ops[k]) else v
    ensures After(BeginLoad(u, x, r), ops[..k + 1]) == Step(After(BeginLoad(u, x, r), ops[..k]), ops[k])
  {
    var rest, op := OthersOf(ops[..k], x, r), ops[k];
    assert ops[..k + 1][..k] == ops[..k] && ops[..k + 1][k] == op;
    assert (rest + [op])[..|rest|] == rest;
  }

  lemma TraceStates(s: State, v: State, x: string, r: nat, op: Op)
    requires Beside(s, v, x, r) && DuringLoad(op, x, r) && Others(s, x) == TablesOf(v)
    ensures var w := if Foreign(op, x, r) then Step(v, op) else v;
            Others(Step(s, op), x) == TablesOf(w) <==> !Asks(s, op, x)
  {
    StepBeside(s, v, x, r, op);
    OthersEqualIffApart(s, v, x, r);
    ApartByStep(s, v, x, r, op);
    OthersEqualIffApart(Step(s, op), if Foreign(op, x, r) then Step(v, op) else v, x, r);
  }

  lemma TraceByStep(u: State, x: string, r: nat, ops: seq<Op>, k: nat)
    requires Inv(u) && x !in u.phases && r !in u.owners && k < |ops|
    requires forall op :: op in ops ==> DuringLoad(op, x, r)
    requires NoTraceAt(u, x, r, ops, k)
    ensures NoTraceAt(u, x, r, ops, k + 1) <==> !AskedAt(BeginLoad(u, x, r), ops, k, x)
  {
    RunsBeside(u, x, r, ops[..k]);
    OthersOfStep(u, x, r, ops, k);
    TraceStates(After(BeginLoad(u, x, r), ops[..k]), After(u, OthersOf(ops[..k], x, r)), x, r, ops[k]);
  }

  lemma {:induction false} NoTraceUpTo(u: State, x: string, r: nat, ops: seq<Op>, k: nat)
    requires Inv(u) && x !in u.phases && r !in u.owners && k <= |ops|
    requires forall op :: op in ops ==> DuringLoad(op, x, r)
    requires forall j :: !AskedAt(BeginLoad(u, x, r), ops, j, x)
    ensures NoTraceAt(u, x, r, ops, k)
  {
    if k == 0 {
      BeginsBeside(u, x, r);
      IdleHoldsNothing(u, x);
      OthersEqualIffApart(BeginLoad(u, x, r), u, x, r);
      assert ops[..0] == [];
    } else {
      NoTraceUpTo(u, x, r, ops, k - 1);
      TraceByStep(u, x, r, ops, k - 1);
    }
  }

  /**
   While an extension loads, fails and is purged, and others do what they like meanwhile, the others' part of the
   registries is at every moment as it would be without that load, exactly if nobody else asks for a tool name that the
   load holds.
   */
  lemma {:induction false} LoadLeavesNoTraceIff(before: seq<Op>, x: string, r: nat, ops: seq<Op>)
    requires Enabled(After(FRESH, before), Begins(x, r)) && forall op :: op in ops ==> DuringLoad(op, x, r)
    ensures var u := After(FRESH, before);
            (forall k :: NoTraceAt(u, x, r, ops, k)) <==> (forall k :: !AskedAt(BeginLoad(u, x, r), ops, k, x))
  {
    var u := After(FRESH, before);
    RunsKeepInv(before);
    if forall k :: NoTraceAt(u, x, r, ops, k) {
      forall k: nat | k < |ops| ensures !AskedAt(BeginLoad(u, x, r), ops, k, x) {
        assert NoTraceAt(u, x, r, ops, k) && NoTraceAt(u, x, r, ops, k + 1);
        TraceByStep(u, x, r, ops, k);
      }
    }
    if forall k :: !AskedAt(BeginLoad(u, x, r), ops, k, x) {
      forall k: nat | k <= |ops| ensures NoTraceAt(u, x, r, ops, k) {
        NoTraceUpTo(u, x, r, ops, k);
      }
    }
  }

  /**
   After the purge of a failed load all registries are as the others alone would have left them, exactly if none of the
   names the load held would then be anybody's.
   */
  lemma {:induction false} FailedLoadLeavesNoTrace(before: seq<Op>, x: string, r: nat, ops: seq<Op>)
    requires Enabled(After(FRESH, before), Begins(x, r)) && forall op :: op in ops ==> DuringLoad(op, x, r)
    requires Enabled(After(BeginLoad(After(FRESH, before), x, r), ops), Finishes(x))
    ensures var u := After(FRESH, before);
            var t := After(BeginLoad(u, x, r), ops);
            var v := After(u, OthersOf(ops, x, r));
            && (TablesOf(Drop(t, x)) == TablesOf(v) <==> forall n :: n in HeldNames(t.byName, x) ==> n !in v.byName)
            && Drop(t, x).phases == v.phases
  {
    var u := After(FRESH, before);
    var t := After(BeginLoad(u, x, r), ops);
    RunsKeepInv(before);
    RunsBeside(u, x, r, ops);
    DropLeavesOthers(t, x);
    OthersEqualIffApart(t, After(u, OthersOf(ops, x, r)), x, r);
    ButIsRemoved(t.phases, x, After(u, OthersOf(ops, x, r)).phases);
  }

  /** A failed load leaves no trace at all if nobody else asked for its names while it held them. */
  lemma {:induction false} UnaskedLoadLeavesNoTrace(before: seq<Op>, x: string, r: nat, ops: seq<Op>)
    requires Enabled(After(FRESH, before), Begins(x, r)) && forall op :: op in ops ==> DuringLoad(op, x, r)
    requires Enabled(After(BeginLoad(After(FRESH, before), x, r), ops), Finishes(x))
    requires forall k :: !AskedAt(BeginLoad(After(FRESH, before), x, r), ops, k, x)
    ensures var u := After(FRESH, before);
            TablesOf(Drop(After(BeginLoad(u, x, r), ops), x)) == TablesOf(After(u, OthersOf(ops, x, r)))
  {
    var u := After(FRESH, before);
    RunsKeepInv(before);
    NoTraceUpTo(u, x, r, ops, |ops|);
    assert ops[..|ops|] == ops;
    RunsBeside(u, x, r, ops);
    DropLeavesOthers(After(BeginLoad(u, x, r), ops), x);
  }

  /** `y` is loaded, `x` loads and takes a name, `y` asks for it, and the load of `x` fails. */
  function Contested(x: string, tool: string): seq<Op> {
    [AddsTool(1, tool, true)] + [AddsTool(0, tool, true)] + [Fails(x)]
  }

  lemma LoadedState(y: string)
    ensures After(FRESH, [Begins(y, 0)] + [Commits(y)]) ==
            State(map[], map[], map[], map[], {}, map[y := Loaded], map[0 := y], {}, map[y := 0])
  {
    assert ([Begins(y, 0)] + [Commits(y)])[..1] == [Begins(y, 0)];
    assert [Begins(y, 0)][..0] == [];
    var b := BeginLoad(FRESH, y, 0);
    assert After(FRESH, [Begins(y, 0)]) == b;
    assert b.phases[y := Loaded] == map[y := Loaded];
    assert b.owners == map[0 := y] && b.current == map[y := 0];
  }

  lemma ContestedStates(u: State, x: string, y: string, tool: string)
    requires x != y && u == State(map[], map[], map[], map[], {}, map[y := Loaded], map[0 := y], {}, map[y := 0])
    ensures var t := After(BeginLoad(u, x, 1), Contested(x, tool));
            && t.byName == map[tool := Entry(1, x, tool)] && Listed(t.byExt, x) == [Entry(1, x, tool)]
            && Enabled(t, Finishes(x))
  {
    var b, ops := BeginLoad(u, x, 1), Contested(x, tool);
    var s := RegisterTool(b, 1, tool, true);
    assert ops[..2] == [AddsTool(1, tool, true)] + [AddsTool(0, tool, true)];
    assert ([AddsTool(1, tool, true)] + [AddsTool(0, tool, true)])[..1] == [AddsTool(1, tool, true)];
    assert [AddsTool(1, tool, true)][..0] == [];
    assert After(b, [AddsTool(1, tool, true)]) == s;
    assert After(b, [AddsTool(1, tool, true)] + [AddsTool(0, tool, true)]) == s;
  }

  lemma UncontestedStates(u: State, x: string, y: string, tool: string)
    requires x != y && u == State(map[], map[], map[], map[], {}, map[y := Loaded], map[0 := y], {}, map[y := 0])
    ensures After(u, OthersOf(Contested(x, tool), x, 1)) == RegisterTool(u, 0, tool, true)
  {
    var first: seq<Op>, ops := [AddsTool(1, tool, true)], Contested(x, tool);
    assert ops[..2] == first + [AddsTool(0, tool, true)] && (first + [AddsTool(0, tool, true)])[..1] == first;
    assert OthersOf(first, x, 1) == [];
    assert OthersOf(first + [AddsTool(0, tool, true)], x, 1) == [AddsTool(0, tool, true)];
    assert [AddsTool(0, tool, true)][..0] == [];
  }

  /** The failed load did leave a trace: the name is nobody's, and would have been the other extension's. */
  lemma RefusedNameStaysFree(x: string, y: string, tool: string)
    requires x != y
    ensures var u := After(FRESH, [Begins(y, 0)] + [Commits(y)]);
            && Enabled(u, Begins(x, 1)) && (forall op :: op in Contested(x, tool) ==> DuringLoad(op, x, 1))
            && tool !in Drop(After(BeginLoad(u, x, 1), Contested(x, tool)), x).byName
            && var v := After(u, OthersOf(Contested(x, tool), x, 1)); tool in v.byName && v.byName[tool].ext == y
  {
    var u := After(FRESH, [Begins(y, 0)] + [Commits(y)]);
    LoadedState(y);
    ContestedStates(u, x, y, tool);
    UncontestedStates(u, x, y, tool);
  }
}
