/**
 The turn engine (src/agent/runtime.ts): rounds of model call, tool calls and results, with a mailbox that is drained
 between rounds. The model, the tools, the gates and the mailbox may answer anything.
 */
module Agent {
  import opened Basics
  import T = Truncate

  datatype Content =
    | Text(text: string)
    | Thinking(data: string)
    | ToolUse(id: string, name: string, input: string)
    | ToolResult(useId: string, content: string, isError: bool)

  datatype Role = User | Assistant

  datatype Message = Message(role: Role, content: seq<Content>)

  datatype Usage = Usage(input: int, output: int, cacheRead: int, cacheCreation: int, total: int)

  const ZERO_USAGE := Usage(0, 0, 0, 0, 0)

  function Add(a: Usage, b: Usage): Usage {
    Usage(a.input + b.input, a.output + b.output, a.cacheRead + b.cacheRead, a.cacheCreation + b.cacheCreation,
          a.total + b.total)
  }

  datatype Completion = Completion(content: seq<Content>, stop: string, usage: Usage)

  /** What becomes of one tool use: the lookup, the permission gate, the input check and the execution in turn. */
  datatype Outcome =
    | UnknownTool
    | Denied(reason: string)
    | BadInput(problems: string)
    | Threw(message: string)
    | Returned(text: string, sensitive: bool, perTool: Option<nat>)

  /** Everything outside: answers are a function of the round, the position in it and what was asked. */
  datatype World = World(
    complete: (nat, seq<Message>) -> Completion,
    outcome: (nat, nat) -> Outcome,
    mailbox: nat -> seq<Message>,
    aborted: nat -> bool)

  datatype Limits = Limits(perCall: nat, perMessage: nat)

  datatype Stop = Ended(reason: string) | MaxTurns | Aborted

  datatype Pending = Pending(id: string, name: string, content: string, isError: bool)

  datatype State = State(
    messages: seq<Message>,
    requests: seq<seq<Message>>,
    total: Usage,
    drains: nat,
    truncation: T.State,
    stop: Option<Stop>)

  // ---------- One round of tool calls ----------

  function UsesOf(content: seq<Content>): (uses: seq<Content>)
    ensures forall u <- uses :: u.ToolUse?
  {
    if content == [] then []
    else if content[|content| - 1].ToolUse? then UsesOf(content[..|content| - 1]) + [content[|content| - 1]]
    else UsesOf(content[..|content| - 1])
  }

  /** A result before the budget pass; only a returned, non-sensitive text is capped by itself. */
  function Execute(f: T.Renderer, use: Content, o: Outcome, t: T.State, limits: Option<Limits>): (T.State, Pending)
    requires use.ToolUse?
  {
    match o
    case UnknownTool => (t, Pending(use.id, use.name, "unknown tool: " + use.name, true))
    case Denied(reason) => (t, Pending(use.id, use.name, "permission denied: " + reason, true))
    case BadInput(problems) => (t, Pending(use.id, use.name, problems, true))
    case Threw(message) => (t, Pending(use.id, use.name, message, true))
    case Returned(text, sensitive, perTool) =>
      if limits.None? || sensitive then (t, Pending(use.id, use.name, text, false))
      else
        var (u, final) := T.One(f, t, T.Block(use.id, use.name, text), perTool, limits.value.perCall);
        (u, Pending(use.id, use.name, final, false))
  }

  /** The results of the first `k` tool uses. */
  function Executed(f: T.Renderer, uses: seq<Content>, w: World, round: nat, t: T.State, limits: Option<Limits>, k: nat)
    : (r: (T.State, seq<Pending>))
    requires k <= |uses| && forall u <- uses :: u.ToolUse?
    ensures |r.1| == k && forall i :: 0 <= i < k ==> r.1[i].id == uses[i].id
  {
    if k == 0 then (t, [])
    else
      var (u, ps) := Executed(f, uses, w, round, t, limits, k - 1);
      var (v, p) := Execute(f, uses[k - 1], w.outcome(round, k - 1), u, limits);
      (v, ps + [p])
  }

  /** The results that the budget pass may rewrite. */
  function Successes(ps: seq<Pending>): seq<T.Block> {
    if ps == [] then []
    else
      var init, p := ps[..|ps| - 1], ps[|ps| - 1];
      if p.isError then Successes(init) else Successes(init) + [T.Block(p.id, p.name, p.content)]
  }

  /** Puts the rewritten contents back where they came from. */
  function Rewrite(ps: seq<Pending>, blocks: seq<T.Block>): (r: seq<Pending>)
    requires |blocks| == |Successes(ps)|
    ensures |r| == |ps| && forall i :: 0 <= i < |r| ==> r[i].id == ps[i].id && r[i].isError == ps[i].isError
  {
    if ps == [] then []
    else
      var init, p := ps[..|ps| - 1], ps[|ps| - 1];
      if p.isError then Rewrite(init, blocks) + [p]
      else Rewrite(init, blocks[..|blocks| - 1]) + [p.(content := blocks[|blocks| - 1].content)]
  }

  function Budgeted(f: T.Renderer, ps: seq<Pending>, t: T.State, limits: Option<Limits>): (r: (T.State, seq<Pending>))
    ensures |r.1| == |ps| && forall i :: 0 <= i < |ps| ==> r.1[i].id == ps[i].id
  {
    if limits.None? then (t, ps)
    else
      var (u, blocks) := T.Enforce(f, t, Successes(ps), limits.value.perMessage);
      T.WithinCapOrAllReplaced(f, t, Successes(ps), limits.value.perMessage);
      (u, Rewrite(ps, blocks))
  }

  function ResultsOf(ps: seq<Pending>): (rs: seq<Content>)
    ensures |rs| == |ps| && forall i :: 0 <= i < |rs| ==> rs[i] == ToolResult(ps[i].id, ps[i].content, ps[i].isError)
  {
    seq(|ps|, i requires 0 <= i < |ps| => ToolResult(ps[i].id, ps[i].content, ps[i].isError))
  }

  // ---------- One round trip ----------

  function Answer(f: T.Renderer, s: State, w: World, round: nat, uses: seq<Content>, limits: Option<Limits>): State
    requires forall u <- uses :: u.ToolUse?
  {
    var (t, ps) := Executed(f, uses, w, round, s.truncation, limits, |uses|);
    var (u, qs) := Budgeted(f, ps, t, limits);
    s.(truncation := u, messages := s.messages + [Message(User, ResultsOf(qs))])
  }

  function Linger(s: State, w: World, reason: string): State {
    var late := w.mailbox(s.drains);
    if late == [] then s.(drains := s.drains + 1, stop := Some(Ended(reason)))
    else s.(drains := s.drains + 1, messages := s.messages + late)
  }

  function Round(f: T.Renderer, s: State, w: World, limits: Option<Limits>): State {
    var round := |s.requests|;
    if w.aborted(round) then s.(stop := Some(Aborted))
    else
      var asked := s.messages + w.mailbox(s.drains);
      var c := w.complete(round, asked);
      var t := s.(
        messages := asked + [Message(Assistant, c.content)],
        requests := s.requests + [asked],
        total := Add(s.total, c.usage),
        drains := s.drains + 1);
      if UsesOf(c.content) == [] then Linger(t, w, c.stop) else Answer(f, t, w, round, UsesOf(c.content), limits)
  }

  type Step = State -> State

  /** At most `turns` steps, none after a stop. */
  function Iterate(step: Step, s: State, turns: nat): State {
    if turns == 0 then s
    else
      var t := Iterate(step, s, turns - 1);
      if t.stop.Some? then t else step(t)
  }

  function RoundOf(f: T.Renderer, w: World, limits: Option<Limits>): Step {
    (s: State) => Round(f, s, w, limits)
  }

  function Start(initial: seq<Message>, t: T.State): State {
    State(initial, [], ZERO_USAGE, 0, t, None)
  }

  function Run(f: T.Renderer, initial: seq<Message>, w: World, limits: Option<Limits>, maxTurns: nat, t: T.State): State {
    var s := Iterate(RoundOf(f, w, limits), Start(initial, t), maxTurns);
    if s.stop.None? then s.(stop := Some(MaxTurns)) else s
  }

  // ---------- The engine ----------

  class Engine {
    const world: World
    const limits: Option<Limits>
    const truncation: T.Truncation
    var messages: seq<Message>
    var requests: seq<seq<Message>>
    var total: Usage
    var drains: nat

    constructor (world: World, limits: Option<Limits>, truncation: T.Truncation, initial: seq<Message>)
      ensures this.world == world && this.limits == limits && this.truncation == truncation
      ensures Now(None) == Start(initial, truncation.Now())
    {
      this.world, this.limits, this.truncation := world, limits, truncation;
      messages, requests, total, drains := initial, [], ZERO_USAGE, 0;
    }

    function Now(stop: Option<Stop>): State
      reads this, truncation
    {
      State(messages, requests, total, drains, truncation.Now(), stop)
    }

    method ExecuteOne(use: Content, o: Outcome) returns (p: Pending)
      requires use.ToolUse?
      modifies truncation
      ensures (truncation.Now(), p) == Execute(T.Render, use, o, old(truncation.Now()), limits)
    {
      match o
      case UnknownTool => p := Pending(use.id, use.name, "unknown tool: " + use.name, true);
      case Denied(reason) => p := Pending(use.id, use.name, "permission denied: " + reason, true);
      case BadInput(problems) => p := Pending(use.id, use.name, problems, true);
      case Threw(message) => p := Pending(use.id, use.name, message, true);
      case Returned(text, sensitive, perTool) =>
        var final := text;
        if limits.Some? && !sensitive {
          final := truncation.MaybeTruncateOne(T.Block(use.id, use.name, text), perTool, limits.value.perCall);
        }
        p := Pending(use.id, use.name, final, false);
    }

    method ExecuteAll(uses: seq<Content>, round: nat) returns (ps: seq<Pending>)
      requires forall u <- uses :: u.ToolUse?
      modifies truncation
      ensures (truncation.Now(), ps) == Executed(T.Render, uses, world, round, old(truncation.Now()), limits, |uses|)
    {
      ps := [];
      var k := 0;
      while k < |uses|
        invariant 0 <= k <= |uses|
        invariant (truncation.Now(), ps) == Executed(T.Render, uses, world, round, old(truncation.Now()), limits, k)
      {
        var p := ExecuteOne(uses[k], world.outcome(round, k));
        ps := ps + [p];
        k := k + 1;
      }
    }

    method EnforceBudget(ps: seq<Pending>) returns (qs: seq<Pending>)
      modifies truncation
      ensures (truncation.Now(), qs) == Budgeted(T.Render, ps, old(truncation.Now()), limits)
    {
      if limits.None? {
        return ps;
      }
      var successes := Successes(ps);
      var blocks := new T.Block[|successes|](i requires 0 <= i < |successes| => successes[i]);
      assert blocks[..] == successes;
      T.WithinCapOrAllReplaced(T.Render, truncation.Now(), successes, limits.value.perMessage);
      truncation.EnforceMessageBudget(blocks, limits.value.perMessage);
      qs := Rewrite(ps, blocks[..]);
    }

    /** One pass of the turn loop; `None` where it goes on. */
    method OneRound() returns (stop: Option<Stop>)
      modifies this, truncation
      ensures Now(stop) == Round(T.Render, old(Now(None)), world, limits)
    {
      var round := |requests|;
      if world.aborted(round) {
        return Some(Aborted);
      }
      messages := messages + world.mailbox(drains);
      drains := drains + 1;
      requests := requests + [messages];
      var completion := world.complete(round, messages);
      total := Add(total, completion.usage);
      messages := messages + [Message(Assistant, completion.content)];
      var uses := UsesOf(completion.content);
      if uses == [] {
        stop := CheckLate(completion.stop);
      } else {
        AnswerAll(uses, round);
        stop := None;
      }
    }

    method CheckLate(reason: string) returns (stop: Option<Stop>)
      modifies this
      ensures Now(stop) == Linger(old(Now(None)), world, reason)
    {
      var late := world.mailbox(drains);
      drains := drains + 1;
      if late == [] {
        return Some(Ended(reason));
      }
      messages := messages + late;
      return None;
    }

    method AnswerAll(uses: seq<Content>, round: nat)
      requires forall u <- uses :: u.ToolUse?
      modifies this, truncation
      ensures Now(None) == Answer(T.Render, old(Now(None)), world, round, uses, limits)
    {
      var pending := ExecuteAll(uses, round);
      pending := EnforceBudget(pending);
      messages := messages + [Message(User, ResultsOf(pending))];
    }

    method RunAgent(maxTurns: nat) returns (stop: Stop)
      modifies this, truncation
      ensures Now(Some(stop)) ==
              var s := Iterate(RoundOf(T.Render, world, limits), old(Now(None)), maxTurns);
              if s.stop.None? then s.(stop := Some(MaxTurns)) else s
    {
      ghost var start, step := Now(None), RoundOf(T.Render, world, limits);
      for turn := 0 to maxTurns
        invariant Now(None) == Iterate(step, start, turn)
      {
        var now := OneRound();
        if now.Some? {
          StopsAt(step, start, turn, maxTurns);
          return now.value;
        }
      }
      return MaxTurns;
    }
  }

  /** A step that stops is the last. */
  lemma {:induction false} StopsAt(step: Step, s: State, turn: nat, maxTurns: nat)
    requires turn < maxTurns && Iterate(step, s, turn).stop.None? && step(Iterate(step, s, turn)).stop.Some?
    ensures Iterate(step, s, maxTurns) == step(Iterate(step, s, turn))
  {
    if turn < maxTurns - 1 {
      StopsAt(step, s, turn, maxTurns - 1);
    }
  }
}
