/**
 The extension registries (src/extensions/runtime.ts): tools by name and by extension, triggers, tasks, and the
 revocation record of each load. An extension's id is its row's, one per name, so one string stands for both. A load is
 named by its revocation record, whose identity is given.
 */
module Registry {
  /** A load takes a name at most once before its purge, so load and tool identify the entry object. */
  datatype Entry = Entry(load: nat, ext: string, tool: string)

  /** The id `ext:<extension>:<id>`; an extension's name has no colon. */
  datatype Task = Task(ext: string, id: string)

  /** Loads and unloads of one extension do not overlap; `Purging` is the wait for its triggers to stop. */
  datatype Phase = Loading | Loaded | Purging

  /** `owners[r]` is the extension of the load whose api captured record `r`. */
  datatype State = State(
    byName: map<string, Entry>,
    byExt: map<string, seq<Entry>>,
    triggers: map<string, seq<string>>,
    tasks: map<string, seq<string>>,
    scheduler: set<Task>,
    phases: map<string, Phase>,
    owners: map<nat, string>,
    revoked: set<nat>,
    current: map<string, nat>)

  const FRESH := State(map[], map[], map[], map[], {}, map[], map[], {}, map[])

  function Listed<T>(m: map<string, seq<T>>, key: string): seq<T> {
    if key in m then m[key] else []
  }

  function TasksOf(ext: string, ids: seq<string>): set<Task> {
    set id <- ids :: Task(ext, id)
  }

  // ---------- The api of a load ----------

  predicate Live(s: State, r: nat) {
    r in s.owners && r !in s.revoked
  }

  /** First come, first served on the name; `valid` is the verdict on the provider invariants. */
  function RegisterTool(s: State, r: nat, tool: string, valid: bool): State {
    if !Live(s, r) || tool in s.byName || !valid then s
    else
      var ext := s.owners[r];
      var e := Entry(r, ext, tool);
      s.(byName := s.byName[tool := e], byExt := s.byExt[ext := Listed(s.byExt, ext) + [e]])
  }

  function RegisterTrigger(s: State, r: nat, trigger: string): State {
    if !Live(s, r) then s
    else
      var ext := s.owners[r];
      s.(triggers := s.triggers[ext := Listed(s.triggers, ext) + [trigger]])
  }

  /** The scheduler refuses a task id that it has. */
  function RegisterTask(s: State, r: nat, id: string): State {
    if !Live(s, r) || Task(s.owners[r], id) in s.scheduler then s
    else
      var ext := s.owners[r];
      s.(tasks := s.tasks[ext := Listed(s.tasks, ext) + [id]], scheduler := s.scheduler + {Task(ext, id)})
  }

  // ---------- Load and unload ----------

  function BeginLoad(s: State, ext: string, r: nat): State {
    s.(owners := s.owners[r := ext], current := s.current[ext := r], phases := s.phases[ext := Loading])
  }

  function Commit(s: State, ext: string): State {
    s.(phases := s.phases[ext := Loaded])
  }

  /** The part of `purgeRegistry` before its wait: every api of the load dies. */
  function Revoke(s: State, ext: string): State {
    s.(revoked := if ext in s.current then s.revoked + {s.current[ext]} else s.revoked,
       current := s.current - {ext},
       phases := s.phases[ext := Purging])
  }

  /**
   The part after the wait: tasks are unregistered, names that are still the extension's are evicted, its lists go.
   */
  function Drop(s: State, ext: string): State {
    s.(scheduler := s.scheduler - TasksOf(ext, Listed(s.tasks, ext)),
       byName := map n | n in s.byName && s.byName[n] !in Listed(s.byExt, ext) :: s.byName[n],
       byExt := s.byExt - {ext}, triggers := s.triggers - {ext}, tasks := s.tasks - {ext}, phases := s.phases - {ext})
  }

  class Host {
    var byName: map<string, Entry>
    var byExt: map<string, seq<Entry>>
    var triggers: map<string, seq<string>>
    var tasks: map<string, seq<string>>
    var scheduler: set<Task>
    var phases: map<string, Phase>
    var owners: map<nat, string>
    var revoked: set<nat>
    var current: map<string, nat>

    constructor ()
      ensures Now() == FRESH
    {
      byName, byExt, triggers, tasks, scheduler := map[], map[], map[], map[], {};
      phases, owners, revoked, current := map[], map[], {}, map[];
    }

    function Now(): State
      reads this
    {
      State(byName, byExt, triggers, tasks, scheduler, phases, owners, revoked, current)
    }

    /** False where the source throws. */
    method AddTool(r: nat, tool: string, valid: bool) returns (ok: bool)
      modifies this
      ensures Now() == RegisterTool(old(Now()), r, tool, valid)
      ensures ok == (Live(old(Now()), r) && (tool in old(byName) || valid))
    {
      if r !in owners || r in revoked {
        return false;
      }
      if tool in byName {
        return true;
      }
      if !valid {
        return false;
      }
      var ext := owners[r];
      var entry := Entry(r, ext, tool);
      if ext !in byExt {
        byExt := byExt[ext := []];
      }
      byExt := byExt[ext := byExt[ext] + [entry]];
      byName := byName[tool := entry];
      return true;
    }

    method AddTrigger(r: nat, trigger: string) returns (ok: bool)
      modifies this`triggers
      ensures Now() == RegisterTrigger(old(Now()), r, trigger) && ok == Live(old(Now()), r)
    {
      if r !in owners || r in revoked {
        return false;
      }
      var ext := owners[r];
      if ext !in triggers {
        triggers := triggers[ext := []];
      }
      triggers := triggers[ext := triggers[ext] + [trigger]];
      return true;
    }

    method AddTask(r: nat, id: string) returns (ok: bool)
      modifies this`tasks, this`scheduler
      ensures Now() == RegisterTask(old(Now()), r, id)
      ensures ok == (Live(old(Now()), r) && Task(owners[r], id) !in old(scheduler))
    {
      if r !in owners || r in revoked || Task(owners[r], id) in scheduler {
        return false;
      }
      var ext := owners[r];
      scheduler := scheduler + {Task(ext, id)};
      if ext !in tasks {
        tasks := tasks[ext := []];
      }
      tasks := tasks[ext := tasks[ext] + [id]];
      return true;
    }

    /** `r` is the record the load mints. */
    method StartLoad(ext: string, r: nat)
      requires r !in owners
      modifies this
      ensures Now() == BeginLoad(old(Now()), ext, r)
    {
      owners := owners[r := ext];
      current := current[ext := r];
      phases := phases[ext := Loading];
    }

    method RevokeApi(ext: string)
      modifies this
      ensures Now() == Revoke(old(Now()), ext)
    {
      if ext in current {
        revoked := revoked + {current[ext]};
      }
      current := current - {ext};
      phases := phases[ext := Purging];
    }

    method UnregisterTasks(ext: string)
      modifies this`scheduler
      ensures scheduler == old(scheduler) - TasksOf(ext, Listed(tasks, ext))
    {
      var list := Listed(tasks, ext);
      for i := 0 to |list|
        invariant scheduler == old(scheduler) - TasksOf(ext, list[..i])
      {
        scheduler := scheduler - {Task(ext, list[i])};
        assert list[..i + 1] == list[..i] + [list[i]];
      }
      assert list[..|list|] == list;
    }

    method EvictTools(ext: string)
      requires KeyedByName(byName)
      modifies this`byName
      ensures byName == map n | n in old(byName) && old(byName)[n] !in Listed(byExt, ext) :: old(byName)[n]
    {
      var list := Listed(byExt, ext);
      for i := 0 to |list|
        invariant forall n :: n in byName <==> n in old(byName) && old(byName)[n] !in list[..i]
        invariant forall n :: n in byName ==> byName[n] == old(byName)[n]
      {
        var entry := list[i];
        assert list[..i + 1] == list[..i] + [entry];
        if entry.tool in byName && byName[entry.tool] == entry {
          byName := byName - {entry.tool};
        }
      }
      assert list[..|list|] == list;
    }

    method DropRegistrations(ext: string)
      requires KeyedByName(byName)
      modifies this
      ensures Now() == Drop(old(Now()), ext)
    {
      UnregisterTasks(ext);
      EvictTools(ext);
      tasks, triggers, byExt := tasks - {ext}, triggers - {ext}, byExt - {ext};
      phases := phases - {ext};
    }
  }

  predicate KeyedByName(byName: map<string, Entry>) {
    forall n :: n in byName ==> byName[n].tool == n
  }
}
