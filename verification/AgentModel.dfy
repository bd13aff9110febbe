/** The agent loop as a turn machine, driven by an arbitrary model and arbitrary tools. */
module AgentModel {
  import opened ActionLog

  datatype Role = User | Assistant

  datatype Block =
    | TextBlock(text: string)
    | ToolUse(id: string, name: string, input: Json)
    | ToolResult(toolUseId: string, content: string)

  datatype Message = Plain(role: Role, text: string) | Blocks(role: Role, blocks: seq<Block>)

  /** What a call to the model brings back. */
  datatype Reply = CallFailed(error: string) | Answer(blocks: seq<Block>)

  datatype Plan = Plan(summary: Json, estimatedCost: Json, containers: Json, hasSmartContracts: Json)

  datatype Option<T> = None | Some(value: T)

  datatype Event =
    | ActionEvent(action: Action)
    | MessageEvent(text: string)
    | PlanEvent(plan: Json)
    | DoneEvent(containerId: string)
    | ErrorEvent(text: string)

  /** What a tool call does: its result or error, the events it emits, and the container it creates. */
  datatype ToolOutcome =
    | ToolError(error: string, emitted: seq<Event>, container: Option<string>)
    | Returned(value: Json, plan: Option<Plan>, emitted: seq<Event>, container: Option<string>)

  /** What the loop says: to the user when it asks for tool calls or bootstraps, and to the model in between. */
  datatype Wording = Wording(nudging: string, nudge: string, bootstrapping: string, goOn: string, invalidPlan: string)

  /** Everything outside the loop: the reply to each call of the model, without end, and the outcome of each
      tool call, which may depend on the tool, its input and how many calls came before. */
  datatype Env = Env(
    replies: nat -> Reply,
    tools: (nat, string, Json) -> ToolOutcome,
    sha: LeafHash,
    marshal: Json -> string,
    repoUrl: string,
    words: Wording)

  datatype Status = Running | Completed | Failed

  /** `booted` counts the actions that the bootstrap recorded. */
  datatype Loop = Loop(
    messages: seq<Message>,
    noTool: nat,
    actions: seq<Action>,
    emitted: seq<Event>,
    container: string,
    status: Status,
    calls: nat,
    toolTurns: nat,
    bootstraps: nat,
    booted: nat)

  function Start(prompt: string): Loop {
    Loop([Plain(User, prompt)], 0, [], [], "", Running, 0, 0, 0, 0)
  }

  function Emit(s: Loop, e: Event): Loop {
    s.(emitted := s.emitted + [e])
  }

  function TextEvents(blocks: seq<Block>): seq<Event> {
    if blocks == [] then []
    else
      var b := blocks[|blocks| - 1];
      TextEvents(blocks[..|blocks| - 1]) + if b.TextBlock? && b.text != "" then [MessageEvent(b.text)] else []
  }

  predicate HasToolUse(blocks: seq<Block>) {
    exists i :: 0 <= i < |blocks| && blocks[i].ToolUse?
  }

  function ActionFor(env: Env, index: nat, name: string, input: Json, o: ToolOutcome): Action {
    Action(index, name, input, if o.ToolError? then Null else o.value, if o.ToolError? then o.error else "",
           HashString(env.sha(Key(index, name, input))))
  }

  /** A tool is executed and its action is recorded, on either recording path. */
  function Record(env: Env, s: Loop, name: string, input: Json): Loop {
    var o := env.tools(|s.actions|, name, input);
    var a := ActionFor(env, |s.actions|, name, input, o);
    s.(emitted := s.emitted + o.emitted + [ActionEvent(a)],
       container := if o.container.Some? then o.container.value else s.container,
       actions := s.actions + [a])
  }

  function OutcomeOf(env: Env, s: Loop, name: string, input: Json): ToolOutcome {
    env.tools(|s.actions|, name, input)
  }

  function ResultText(env: Env, o: ToolOutcome): string {
    if o.ToolError? then "error: " + o.error else env.marshal(o.value)
  }

  /** The tool calls of one reply, in order, up to block `n`. */
  function RunTools(env: Env, s: Loop, blocks: seq<Block>): (Loop, seq<Block>)
    decreases |blocks|
  {
    if blocks == [] then (s, [])
    else
      var (s1, results) := RunTools(env, s, blocks[..|blocks| - 1]);
      var b := blocks[|blocks| - 1];
      if b.ToolUse? then
        (Record(env, s1, b.name, b.input),
         results + [ToolResult(b.id, ResultText(env, OutcomeOf(env, s1, b.name, b.input)))])
      else (s1, results)
  }

  function PlanInput(p: Plan): Json {
    Object(map["summary" := p.summary, "estimated_cost_per_hour" := p.estimatedCost,
               "containers" := p.containers, "has_smart_contracts" := p.hasSmartContracts])
  }

  /** `bootstrapInitialPlan`, with its error if it has one. */
  function Bootstrap(env: Env, s: Loop): (Loop, Option<string>) {
    BootFrom(env, s, 0, None)
  }

  /** Its fixed sequence from call number `stage` on, with the plan of the analysis once there is one. */
  function BootFrom(env: Env, s: Loop, stage: nat, plan: Option<Plan>): (r: (Loop, Option<string>))
    requires stage <= 2
    ensures s.actions <= r.0.actions && s.emitted <= r.0.emitted
    ensures r.0 == s.(actions := r.0.actions, emitted := r.0.emitted, container := r.0.container)
    decreases 2 - stage, |s.actions|
  {
    if stage == 0 then
      var input := Object(map["github_url" := Text(env.repoUrl)]);
      var o := OutcomeOf(env, s, "analyze_repo", input);
      var s1 := Record(env, s, "analyze_repo", input);
      if o.ToolError? then (s1, Some(o.error)) else BootFrom(env, s1, 1, o.plan)
    else if stage == 1 then BootFrom(env, Record(env, s, "select_provider", Object(map[])), 2, plan)
    else if plan.None? then (s, Some(env.words.invalidPlan))
    else
      var o := OutcomeOf(env, s, "generate_deployment_plan", PlanInput(plan.value));
      (Record(env, s, "generate_deployment_plan", PlanInput(plan.value)), if o.ToolError? then Some(o.error) else None)
  }

  /** The sequence written out. */
  lemma BootstrapIs(env: Env, s: Loop)
    ensures var input := Object(map["github_url" := Text(env.repoUrl)]);
            var o := OutcomeOf(env, s, "analyze_repo", input);
            var s1 := Record(env, s, "analyze_repo", input);
            var s2 := Record(env, s1, "select_provider", Object(map[]));
            Bootstrap(env, s) ==
              if o.ToolError? then (s1, Some(o.error))
              else if o.plan.None? then (s2, Some(env.words.invalidPlan))
              else
                var o3 := OutcomeOf(env, s2, "generate_deployment_plan", PlanInput(o.plan.value));
                (Record(env, s2, "generate_deployment_plan", PlanInput(o.plan.value)),
                 if o3.ToolError? then Some(o3.error) else None)
  {
    var input := Object(map["github_url" := Text(env.repoUrl)]);
    var o := OutcomeOf(env, s, "analyze_repo", input);
    var s1 := Record(env, s, "analyze_repo", input);
    var s2 := Record(env, s1, "select_provider", Object(map[]));
    if o.Returned? {
      assert Bootstrap(env, s) == BootFrom(env, s1, 1, o.plan);
      assert BootFrom(env, s1, 1, o.plan) == BootFrom(env, s2, 2, o.plan);
    }
  }

  function Fail(s: Loop, error: string): Loop {
    Emit(s.(status := Failed), ErrorEvent(error))
  }

  function Say(s: Loop, text: string): Loop {
    s.(messages := s.messages + [Plain(User, text)])
  }

  function BootTurn(env: Env, s: Loop): Loop {
    var s0 := Emit(s, MessageEvent(env.words.bootstrapping));
    var (s1, error) := Bootstrap(env, s0);
    var s2 := s1.(bootstraps := s.bootstraps + 1, booted := |s1.actions| - |s.actions|);
    if error.Some? then Fail(s2, error.value) else Say(s2.(noTool := 0), env.words.goOn)
  }

  function TextTurn(env: Env, s: Loop): Loop {
    var s1 := s.(noTool := s.noTool + 1);
    if s1.noTool <= 2 then Say(Emit(s1, MessageEvent(env.words.nudging)), env.words.nudge)
    else if s1.actions == [] && env.repoUrl != "" then BootTurn(env, s1)
    else Emit(s1.(status := Completed), DoneEvent(s1.container))
  }

  function ToolTurn(env: Env, s: Loop, blocks: seq<Block>): Loop {
    var (s1, results) := RunTools(env, s.(noTool := 0), blocks);
    s1.(messages := s.messages + [Blocks(Assistant, blocks), Blocks(User, results)], toolTurns := s.toolTurns + 1)
  }

  function Step(env: Env, s: Loop): Loop {
    var s1 := s.(calls := s.calls + 1);
    match env.replies(s.calls)
    case CallFailed(error) => Fail(s1, error)
    case Answer(blocks) =>
      var s2 := s1.(emitted := s1.emitted + TextEvents(blocks));
      if HasToolUse(blocks) then ToolTurn(env, s2, blocks) else TextTurn(env, s2)
  }

  lemma StepCounts(env: Env, s: Loop)
    ensures Step(env, s).calls == s.calls + 1
    ensures s.toolTurns <= Step(env, s).toolTurns <= s.toolTurns + 1
  {
    match env.replies(s.calls)
    case CallFailed(_) =>
    case Answer(blocks) =>
      var s1 := s.(calls := s.calls + 1, emitted := s.emitted + TextEvents(blocks), noTool := 0);
      ToolsKeepCounts(env, s1, blocks);
  }

  /** Running tools touches the log, the events and the container only. */
  lemma {:induction false} ToolsKeepCounts(env: Env, s: Loop, blocks: seq<Block>)
    ensures var s' := RunTools(env, s, blocks).0;
            s' == s.(actions := s'.actions, emitted := s'.emitted, container := s'.container)
    decreases |blocks|
  {
    if blocks != [] {
      ToolsKeepCounts(env, s, blocks[..|blocks| - 1]);
    }
  }

  /** The state after `n` steps, or the first one that does not go on. */
  function Iterate<S>(step: S -> S, goesOn: S -> bool, s: S, n: nat): S
    decreases n
  {
    if n == 0 || !goesOn(s) then s else Iterate(step, goesOn, step(s), n - 1)
  }

  lemma {:induction false} IterateOn<S>(step: S -> S, goesOn: S -> bool, s: S, m: nat, n: nat)
    ensures Iterate(step, goesOn, s, m + n) == Iterate(step, goesOn, Iterate(step, goesOn, s, m), n)
    decreases m
  {
    if m > 0 && goesOn(s) {
      IterateOn(step, goesOn, step(s), m - 1, n);
    }
  }

  /** Steps taken in laps: if each lap keeps `at`, so do all of them. */
  lemma {:induction false} Laps<S>(step: S -> S, goesOn: S -> bool, at: (S, nat) -> bool, s: S, lap: nat, laps: nat)
    requires at(s, 0)
    requires forall x: S, i: nat :: i < laps && at(x, i) ==> at(Iterate(step, goesOn, x, lap), i + 1)
    ensures at(Iterate(step, goesOn, s, lap * laps), laps)
    decreases laps
  {
    if laps > 0 {
      Laps(step, goesOn, at, s, lap, laps - 1);
      IterateOn(step, goesOn, s, lap * (laps - 1), lap);
      assert lap * (laps - 1) + lap == lap * laps;
    }
  }

  /** What every step keeps, any number of steps keeps. */
  lemma {:induction false} IterateKeeps<S>(step: S -> S, goesOn: S -> bool, inv: S -> bool, s: S, n: nat)
    requires inv(s)
    requires forall x: S :: goesOn(x) && inv(x) ==> inv(step(x))
    ensures inv(Iterate(step, goesOn, s, n))
    decreases n
  {
    if n > 0 && goesOn(s) {
      IterateKeeps(step, goesOn, inv, step(s), n - 1);
    }
  }

  function Turns(env: Env): Loop -> Loop {
    (x: Loop) => Step(env, x)
  }

  predicate GoesOn(s: Loop) {
    s.status == Running
  }

  /** `Run` as far as its first `n` turns, or to its end if that comes before. */
  function Walk(env: Env, s: Loop, n: nat): Loop {
    Iterate(Turns(env), GoesOn, s, n)
  }
}
