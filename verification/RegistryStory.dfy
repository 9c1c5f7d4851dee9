/**
 What the extension registries (src/extensions/runtime.ts) hold, told from the calls of a run alone: whose load is
 under way, and what its api has put in the lists since.
 */
module RegistryStory {
  import opened Registry
  import opened RegistryRuns

  /** An extension is not there, has a load with record `r` that may still fail, or waits for its purge. */
  datatype Life = Absent | Alive(r: nat, committed: bool) | Dying

  /** The records of the loads so far. */
  ghost function Minted(ops: seq<Op>): set<nat> {
    if ops == [] then {}
    else
      var init, op := ops[..|ops| - 1], ops[|ops| - 1];
      if op.Begins? && LifeOf(init, op.ext) == Absent then Minted(init) + {op.r} else Minted(init)
  }

  /** `fresh'` says that the record was minted for this load. */
  function LifeBy(life: Life, op: Op, x: string, fresh': bool): Life {
    match op
    case Begins(y, r) => if y == x && life == Absent && fresh' then Alive(r, false) else life
    case Commits(y) => if y == x && life.Alive? then Alive(life.r, true) else life
    case Fails(y) => if y == x && life.Alive? && !life.committed then Dying else life
    case Unloads(y) => if y == x && life.Alive? && life.committed then Dying else life
    case Finishes(y) => if y == x && life.Dying? then Absent else life
    case _ => life
  }

  ghost function LifeOf(ops: seq<Op>, x: string): Life {
    if ops == [] then Absent
    else
      var init, op := ops[..|ops| - 1], ops[|ops| - 1];
      LifeBy(LifeOf(init, x), op, x, op.Begins? && op.r !in Minted(init))
  }

  /** `x` is purged in the last step. */
  predicate Purged(life: Life, op: Op, x: string) {
    op.Finishes? && op.ext == x && life.Dying?
  }

  /** The call is made with the api of a load of `x` that is not over. */
  predicate Own(life: Life, op: Op) {
    life.Alive? && By(op, life.r)
  }

  function Triggered(life: Life, list: seq<string>, op: Op, x: string): seq<string> {
    if Purged(life, op, x) then [] else if Own(life, op) && op.AddsTrigger? then list + [op.trigger] else list
  }

  function Tasked(life: Life, list: seq<string>, op: Op, x: string): seq<string> {
    if Purged(life, op, x) then []
    else if Own(life, op) && op.AddsTask? && op.id !in list then list + [op.id] else list
  }

  function Tooled(life: Life, list: seq<Entry>, op: Op, x: string, taken: bool): seq<Entry> {
    if Purged(life, op, x) then []
    else if Own(life, op) && op.AddsTool? && op.valid && !taken then list + [Entry(life.r, x, op.tool)] else list
  }

  /** The triggers that `x` asked for since its load began, in order. */
  ghost function Triggers(ops: seq<Op>, x: string): seq<string> {
    if ops == [] then []
    else
      var init := ops[..|ops| - 1];
      Triggered(LifeOf(init, x), Triggers(init, x), ops[|ops| - 1], x)
  }

  /** The tasks, each once. */
  ghost function Tasks(ops: seq<Op>, x: string): seq<string> {
    if ops == [] then []
    else
      var init := ops[..|ops| - 1];
      Tasked(LifeOf(init, x), Tasks(init, x), ops[|ops| - 1], x)
  }

  /** The tools that were valid and whose name nobody had. */
  ghost function Tools(ops: seq<Op>, x: string): seq<Entry> {
    if ops == [] then []
    else
      var init, op := ops[..|ops| - 1], ops[|ops| - 1];
      Tooled(LifeOf(init, x), Tools(init, x), op, x,
             op.AddsTool? && exists y, e: Entry :: e in Tools(init, y) && e.tool == op.tool)
  }

  // ---------- The registries are what the story says ----------

  ghost predicate Lives(s: State, x: string, life: Life) {
    match life
    case Absent => x !in s.phases
    case Alive(r, committed) =>
      && x in s.phases && s.phases[x] == (if committed then Loaded else Loading)
      && x in s.current && s.current[x] == r
    case Dying => x in s.phases && s.phases[x] == Purging
  }

  lemma LiveIsCurrent(s: State, x: string, life: Life, r: nat)
    requires OneApi(s) && Lives(s, x, life) && (life.Dying? || life.Absent? ==> x !in s.current)
    ensures Live(s, r) && s.owners[r] == x <==> life.Alive? && life.r == r
  {
    if x in s.current {
      assert Live(s, s.current[x]);
    }
  }

  lemma LivesByStep(s: State, op: Op, x: string, life: Life)
    requires Lives(s, x, life)
    ensures Lives(Step(s, op), x, LifeBy(life, op, x, op.Begins? && op.r !in s.owners))
  {
  }

  lemma MintedByStep(s: State, op: Op, life: Life)
    requires op.Begins? ==> Lives(s, op.ext, life)
    ensures Step(s, op).owners.Keys == s.owners.Keys + if op.Begins? && life == Absent then {op.r} else {}
  {
  }

  lemma {:induction false} LivesAsTold(ops: seq<Op>, x: string)
    ensures Lives(After(FRESH, ops), x, LifeOf(ops, x)) && After(FRESH, ops).owners.Keys == Minted(ops)
  {
    if ops != [] {
      var init, op := ops[..|ops| - 1], ops[|ops| - 1];
      var s := After(FRESH, init);
      LivesAsTold(init, x);
      LivesByStep(s, op, x, LifeOf(init, x));
      if op.Begins? {
        LivesAsTold(init, op.ext);
      }
      MintedByStep(s, op, if op.Begins? then LifeOf(init, op.ext) else Absent);
    }
  }

  lemma TriggersByStep(s: State, op: Op, x: string, life: Life)
    requires OneApi(s) && Lives(s, x, life) && (life.Dying? || life.Absent? ==> x !in s.current)
    ensures Listed(Step(s, op).triggers, x) == Triggered(life, Listed(s.triggers, x), op, x)
  {
    if op.AddsTrigger? {
      LiveIsCurrent(s, x, life, op.r);
    }
  }

  lemma TasksByStep(s: State, op: Op, x: string, life: Life)
    requires OneApi(s) && Lives(s, x, life) && (life.Dying? || life.Absent? ==> x !in s.current) && Scheduled(s)
    ensures Listed(Step(s, op).tasks, x) == Tasked(life, Listed(s.tasks, x), op, x)
  {
    if op.AddsTask? {
      LiveIsCurrent(s, x, life, op.r);
      assert Task(x, op.id) in s.scheduler <==> op.id in Listed(s.tasks, x);
    }
  }

  lemma ToolsByStep(s: State, op: Op, x: string, life: Life)
    requires OneApi(s) && Lives(s, x, life) && (life.Dying? || life.Absent? ==> x !in s.current)
    ensures Listed(Step(s, op).byExt, x) ==
            Tooled(life, Listed(s.byExt, x), op, x, op.AddsTool? && op.tool in s.byName)
  {
    if op.AddsTool? {
      LiveIsCurrent(s, x, life, op.r);
    }
  }

  lemma NamesAreListed(s: State, tool: string)
    requires Inv(s)
    ensures tool in s.byName <==> exists y, e: Entry :: e in Listed(s.byExt, y) && e.tool == tool
  {
    if tool in s.byName {
      assert s.byName[tool] in Listed(s.byExt, s.byName[tool].ext);
    }
  }

  /** Every list holds what the calls say, for every extension and in order. */
  lemma {:induction false} ListsAreTold(ops: seq<Op>)
    ensures forall x :: Listed(After(FRESH, ops).byExt, x) == Tools(ops, x)
    ensures forall x :: Listed(After(FRESH, ops).triggers, x) == Triggers(ops, x)
    ensures forall x :: Listed(After(FRESH, ops).tasks, x) == Tasks(ops, x)
  {
    if ops != [] {
      var init, op := ops[..|ops| - 1], ops[|ops| - 1];
      ListsAreTold(init);
      RunsKeepInv(init);
      forall x
        ensures Listed(After(FRESH, ops).byExt, x) == Tools(ops, x)
        ensures Listed(After(FRESH, ops).triggers, x) == Triggers(ops, x)
        ensures Listed(After(FRESH, ops).tasks, x) == Tasks(ops, x)
      {
        var s := After(FRESH, init);
        LivesAsTold(init, x);
        TriggersByStep(s, op, x, LifeOf(init, x));
        TasksByStep(s, op, x, LifeOf(init, x));
        ToolsByStep(s, op, x, LifeOf(init, x));
        if op.AddsTool? {
          NamesAreListed(s, op.tool);
        }
      }
    }
  }

  /** A tool can be looked up exactly if its extension lists it, and so for the scheduler's tasks. */
  lemma IndexesAreTold(ops: seq<Op>, e: Entry, t: Task)
    ensures e.tool in After(FRESH, ops).byName && After(FRESH, ops).byName[e.tool] == e <==> e in Tools(ops, e.ext)
    ensures t in After(FRESH, ops).scheduler <==> t.id in Tasks(ops, t.ext)
  {
    ListsAreTold(ops);
    RunsKeepInv(ops);
  }
}
