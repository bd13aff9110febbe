/** What the loop makes of each reply, what it logs, and what it answers, in every run. */
module AgentOutcomes {
  import opened ActionLog
  import opened AgentModel
  import opened AgentRuns

  // ----- Pieces of a reply -----

  lemma {:induction false} UsesConcat(a: seq<Block>, b: seq<Block>)
    ensures Uses(a + b) == Uses(a) + Uses(b)
    decreases |b|
  {
    if b == [] {
      assert a + b == a;
    } else {
      assert (a + b)[..|a + b| - 1] == a + b[..|b| - 1];
      UsesConcat(a, b[..|b| - 1]);
    }
  }

  /** A reply has tool calls exactly if one of its blocks is one, wherever it stands. */
  lemma {:induction false} HasToolUseIff(blocks: seq<Block>)
    ensures HasToolUse(blocks) <==> Uses(blocks) != []
    ensures HasToolUse(blocks) <==> exists b :: b in blocks && b.ToolUse?
    decreases |blocks|
  {
    if blocks != [] {
      HasToolUseIff(blocks[..|blocks| - 1]);
      assert forall i :: 0 <= i < |blocks| - 1 ==> blocks[i] == blocks[..|blocks| - 1][i];
    }
  }

  // ----- The log and the answers -----

  /** Entry i holds what the tool call at position i brought back. */
  ghost predicate Outcomes(env: Env, log: seq<Action>) {
    forall i :: 0 <= i < |log| ==>
      var o := env.tools(i, log[i].tool, log[i].input);
      if o.ToolError? then log[i].error == o.error && log[i].result == Null
      else log[i].error == "" && log[i].result == o.value
  }

  /** Result k is the answer to the call at position `from` + k of the log: its error, or its value in JSON. */
  ghost predicate Told(env: Env, log: seq<Action>, from: nat, results: seq<Block>) {
    && from <= |log| && |results| == |log| - from
    && forall k :: 0 <= k < |results| ==>
         var o := env.tools(from + k, log[from + k].tool, log[from + k].input);
         results[k].ToolResult?
         && results[k].content == if o.ToolError? then "error: " + o.error else env.marshal(o.value)
  }

  /** The blocks of the user's messages: the answers, in order. */
  function Results(messages: seq<Message>): seq<Block>
    decreases |messages|
  {
    if messages == [] then []
    else
      var m := messages[|messages| - 1];
      Results(messages[..|messages| - 1]) + if m.Blocks? && m.role == User then m.blocks else []
  }

  lemma ResultsAppend(messages: seq<Message>, m: Message)
    ensures Results(messages + [m])
         == Results(messages) + if m.Blocks? && m.role == User then m.blocks else []
  {
    assert (messages + [m])[..|messages|] == messages;
  }

  lemma RecordTells(env: Env, s: Loop, name: string, input: Json)
    requires Outcomes(env, s.actions)
    ensures Outcomes(env, Record(env, s, name, input).actions)
  {
  }

  lemma ToldOneMore(env: Env, log: seq<Action>, from: nat, results: seq<Block>, a: Action, r: Block)
    requires Told(env, log, from, results) && r.ToolResult?
    requires var o := env.tools(|log|, a.tool, a.input);
             r.content == if o.ToolError? then "error: " + o.error else env.marshal(o.value)
    ensures Told(env, log + [a], from, results + [r])
  {
  }

  lemma {:induction false} ToolsTell(env: Env, s: Loop, blocks: seq<Block>)
    requires Outcomes(env, s.actions)
    ensures var (s', results) := RunTools(env, s, blocks);
            Outcomes(env, s'.actions) && Told(env, s'.actions, |s.actions|, results)
    decreases |blocks|
  {
    if blocks != [] {
      var init, b := blocks[..|blocks| - 1], blocks[|blocks| - 1];
      ToolsTell(env, s, init);
      if b.ToolUse? {
        var (s1, results) := RunTools(env, s, init);
        RecordTells(env, s1, b.name, b.input);
        var a := Record(env, s1, b.name, b.input).actions[|s1.actions|];
        ToldOneMore(env, s1.actions, |s.actions|, results, a,
                    ToolResult(b.id, ResultText(env, OutcomeOf(env, s1, b.name, b.input))));
      }
    }
  }

  lemma ToldConcat(env: Env, log: seq<Action>, log': seq<Action>, from: nat, results: seq<Block>, more: seq<Block>)
    requires Told(env, log, from, results) && log <= log' && Told(env, log', |log|, more)
    ensures Told(env, log', from, results + more)
  {
    forall k | 0 <= k < |results + more|
      ensures var o := env.tools(from + k, log'[from + k].tool, log'[from + k].input);
              (results + more)[k].ToolResult?
              && (results + more)[k].content == if o.ToolError? then "error: " + o.error else env.marshal(o.value)
    {
      if k >= |results| {
        assert (results + more)[k] == more[k - |results|] && from + k == |log| + (k - |results|);
      }
    }
  }

  /** The log holds its outcomes, and the transcript their answers, after the bootstrap's own. */
  ghost predicate Answering(env: Env, s: Loop) {
    && Outcomes(env, s.actions)
    && Told(env, s.actions, s.booted, Results(s.messages))
  }

  lemma TurnResults(messages: seq<Message>, blocks: seq<Block>, results: seq<Block>)
    ensures Results(messages + [Blocks(Assistant, blocks), Blocks(User, results)]) == Results(messages) + results
  {
    var a, b := Blocks(Assistant, blocks), Blocks(User, results);
    assert messages + [a, b] == messages + [a] + [b];
    ResultsAppend(messages, a);
    ResultsAppend(messages + [a], b);
  }

  lemma ToolTurnAnswers(env: Env, s: Loop, blocks: seq<Block>)
    requires Answering(env, s)
    ensures Answering(env, ToolTurn(env, s, blocks))
  {
    var s0 := s.(noTool := 0);
    ToolsTell(env, s0, blocks);
    ToolsExtend(env, s0, blocks);
    ToolsKeepCounts(env, s0, blocks);
    var (s1, results) := RunTools(env, s0, blocks);
    TurnResults(s.messages, blocks, results);
    ToldConcat(env, s.actions, s1.actions, s.booted, Results(s.messages), results);
  }

  lemma BootstrapTells(env: Env, s: Loop)
    requires Outcomes(env, s.actions)
    ensures Outcomes(env, Bootstrap(env, s).0.actions)
  {
    BootstrapIs(env, s);
    var url := Object(map["github_url" := Text(env.repoUrl)]);
    RecordTells(env, s, "analyze_repo", url);
    RecordTells(env, Record(env, s, "analyze_repo", url), "select_provider", Object(map[]));
  }

  /** What a turn without tools says to the model, and what it does to the log. */
  lemma TextTurnShape(env: Env, s: Loop) returns (spoken: seq<Message>)
    ensures var s' := TextTurn(env, s);
            var s0 := Emit(s.(noTool := s.noTool + 1), MessageEvent(env.words.bootstrapping));
            && s'.messages == s.messages + spoken && |spoken| <= 1
            && (forall i :: 0 <= i < |spoken| ==> spoken[i].Plain?)
            && (|| (s'.actions == s.actions && s'.booted == s.booted)
                || (s.actions == [] && s'.actions == Bootstrap(env, s0).0.actions && s'.booted == |s'.actions|))
  {
    var s0 := Emit(s.(noTool := s.noTool + 1), MessageEvent(env.words.bootstrapping));
    BootstrapExtends(env, s0);
    var s' := TextTurn(env, s);
    spoken := if s'.messages == s.messages then [] else [s'.messages[|s.messages|]];
  }

  lemma PlainAddsNoResults(messages: seq<Message>, spoken: seq<Message>)
    requires |spoken| <= 1 && forall i :: 0 <= i < |spoken| ==> spoken[i].Plain?
    ensures Results(messages + spoken) == Results(messages)
  {
    if spoken == [] {
      assert messages + spoken == messages;
    } else {
      assert messages + spoken == messages + [spoken[0]];
      ResultsAppend(messages, spoken[0]);
    }
  }

  lemma TextTurnAnswers(env: Env, s: Loop)
    requires Answering(env, s)
    ensures Answering(env, TextTurn(env, s))
  {
    var spoken := TextTurnShape(env, s);
    PlainAddsNoResults(s.messages, spoken);
    if s.actions == [] {
      BootstrapTells(env, Emit(s.(noTool := s.noTool + 1), MessageEvent(env.words.bootstrapping)));
    }
  }

  lemma StepAnswers(env: Env, s: Loop)
    requires Answering(env, s)
    ensures Answering(env, Step(env, s))
  {
    var answered, s2, blocks := StepCases(env, s);
    if answered {
      if HasToolUse(blocks) {
        ToolTurnAnswers(env, s2, blocks);
      } else {
        TextTurnAnswers(env, s2);
      }
    }
  }

  /** In every run, each log entry holds the result or the error of its own tool call, and the transcript answers
      each call the model made with that result in JSON, or with "error: " and that error. */
  lemma AnswersAreOutcomes(env: Env, prompt: string, turns: nat)
    ensures Answering(env, Walk(env, Start(prompt), turns))
  {
    var inv := (x: Loop) => Answering(env, x);
    forall x: Loop | GoesOn(x) && inv(x) ensures inv(Turns(env)(x)) {
      StepAnswers(env, x);
    }
    var s := Start(prompt);
    assert s.messages[..0] == [] && Results(s.messages) == [];
    IterateKeeps(Turns(env), GoesOn, inv, s, turns);
  }

  // ----- Replies without tool calls -----

  /** A failed call of the model ends the run with its error. */
  lemma FailedCall(env: Env, s: Loop, error: string)
    requires env.replies(s.calls) == CallFailed(error)
    ensures Step(env, s) == s.(calls := s.calls + 1, status := Failed, emitted := s.emitted + [ErrorEvent(error)])
  {
  }

  /** The state after a reply's texts were passed on. */
  function Passed(s: Loop, blocks: seq<Block>): Loop {
    s.(calls := s.calls + 1, emitted := s.emitted + TextEvents(blocks))
  }

  /** And counted as silent. */
  function Heard(s: Loop, blocks: seq<Block>): Loop {
    Passed(s, blocks).(noTool := s.noTool + 1)
  }

  /** The first two replies in a row without a tool call are nudged. */
  lemma SilenceIsNudged(env: Env, s: Loop, blocks: seq<Block>)
    requires env.replies(s.calls) == Answer(blocks) && Uses(blocks) == [] && s.noTool < 2
    ensures var h := Heard(s, blocks);
            Step(env, s) == h.(messages := s.messages + [Plain(User, env.words.nudge)],
                               emitted := h.emitted + [MessageEvent(env.words.nudging)])
  {
    HasToolUseIff(blocks);
  }

  /** The third completes the run, unless nothing was done yet and there is a repository to start with. */
  lemma ThirdSilenceCompletes(env: Env, s: Loop, blocks: seq<Block>)
    requires env.replies(s.calls) == Answer(blocks) && Uses(blocks) == [] && s.noTool >= 2
    requires s.actions != [] || env.repoUrl == ""
    ensures var h := Heard(s, blocks);
            Step(env, s) == h.(status := Completed, emitted := h.emitted + [DoneEvent(s.container)])
  {
    HasToolUseIff(blocks);
  }

  // ----- The bootstrap -----

  /** The input of the fixed sequence's first call. */
  function UrlInput(env: Env): Json {
    Object(map["github_url" := Text(env.repoUrl)])
  }

  /** How the fixed sequence ends: at its first call, for want of a plan, at its last call, or well. */
  datatype Ending = NoAnalysis(error: string) | NoPlan | NotGenerated(error: string) | Planned

  function BootEnding(env: Env): Ending {
    var analysis := env.tools(0, "analyze_repo", UrlInput(env));
    if analysis.ToolError? then NoAnalysis(analysis.error)
    else if analysis.plan.None? then NoPlan
    else
      var generated := env.tools(2, "generate_deployment_plan", PlanInput(analysis.plan.value));
      if generated.ToolError? then NotGenerated(generated.error) else Planned
  }

  function BootError(env: Env): Option<string> {
    match BootEnding(env)
    case NoAnalysis(error) => Some(error)
    case NoPlan => Some(env.words.invalidPlan)
    case NotGenerated(error) => Some(error)
    case Planned => None
  }

  /** The fixed sequence on an empty log: the repository is analyzed, then a provider selected, whose outcome does
      not matter, then the plan generated from the analysis; it stops where it cannot go on. */
  ghost predicate BootLog(env: Env, log: seq<Action>) {
    && |log| == (match BootEnding(env) case NoAnalysis(_) => 1 case NoPlan => 2 case _ => 3)
    && log[0].tool == "analyze_repo" && log[0].input == UrlInput(env)
    && (|log| >= 2 ==> log[1].tool == "select_provider" && log[1].input == Object(map[]))
    && (|log| >= 3 ==>
          var analysis := env.tools(0, "analyze_repo", UrlInput(env));
          && analysis.Returned? && analysis.plan.Some?
          && log[2].tool == "generate_deployment_plan"
          && var p := analysis.plan.value;
             log[2].input == Object(map["summary" := p.summary, "estimated_cost_per_hour" := p.estimatedCost,
                                        "containers" := p.containers, "has_smart_contracts" := p.hasSmartContracts]))
  }

  lemma BootstrapFollowsPlan(env: Env, s: Loop)
    requires s.actions == []
    ensures BootLog(env, Bootstrap(env, s).0.actions)
    ensures Bootstrap(env, s).1 == BootError(env)
  {
    BootstrapIs(env, s);
  }

  ghost predicate EndsWith(s: Loop, e: Event) {
    s.status == Failed && s.emitted != [] && s.emitted[|s.emitted| - 1] == e
  }

  /** The fixed sequence was run and logged. If it ended badly the run failed with that error as its last event;
      otherwise it goes on, and the model is told to. */
  ghost predicate AfterBoot(env: Env, h: Loop, s': Loop) {
    var error := BootError(env);
    && BootLog(env, s'.actions) && s'.booted == |s'.actions| && s'.bootstraps == h.bootstraps + 1
    && h.emitted + [MessageEvent(env.words.bootstrapping)] <= s'.emitted
    && (error.None? ==> s'.status == Running && s'.noTool == 0
                        && s'.messages == h.messages + [Plain(User, env.words.goOn)])
    && (error.Some? ==> EndsWith(s', ErrorEvent(error.value)) && s'.messages == h.messages)
  }

  /** And this is how it ends. */
  lemma BootTurnEnds(env: Env, h: Loop)
    requires h.status == Running && h.actions == []
    ensures AfterBoot(env, h, BootTurn(env, h))
  {
    var s0 := Emit(h, MessageEvent(env.words.bootstrapping));
    BootstrapFollowsPlan(env, s0);
    BootstrapExtends(env, s0);
  }

  lemma StepWithoutTools(env: Env, s: Loop, blocks: seq<Block>)
    requires env.replies(s.calls) == Answer(blocks) && Uses(blocks) == []
    ensures Step(env, s) == TextTurn(env, Passed(s, blocks))
  {
    HasToolUseIff(blocks);
  }

  lemma TextTurnBoots(env: Env, s: Loop)
    requires s.noTool >= 2 && s.actions == [] && env.repoUrl != ""
    ensures TextTurn(env, s) == BootTurn(env, s.(noTool := s.noTool + 1))
  {
  }

  /** The third silence on an empty log with a repository runs the fixed sequence, and nothing else does. */
  lemma ThirdSilenceBoots(env: Env, s: Loop, blocks: seq<Block>)
    requires env.replies(s.calls) == Answer(blocks) && Uses(blocks) == [] && s.noTool >= 2
    requires s.actions == [] && env.repoUrl != ""
    ensures Step(env, s) == BootTurn(env, Heard(s, blocks))
  {
    StepWithoutTools(env, s, blocks);
    TextTurnBoots(env, Passed(s, blocks));
  }

  /** What a run's log starts with: nothing of the bootstrap, or the fixed sequence as far as it went. */
  ghost predicate Booted(env: Env, s: Loop) {
    && s.booted <= |s.actions|
    && (s.booted > 0 ==> BootLog(env, s.actions[..s.booted]))
  }

  lemma StepBooted(env: Env, s: Loop)
    requires Booted(env, s)
    ensures Booted(env, Step(env, s))
  {
    StepExtends(env, s);
    var answered, s2, blocks := StepCases(env, s);
    if answered && HasToolUse(blocks) {
      ToolsKeepCounts(env, s2.(noTool := 0), blocks);
      assert Step(env, s).actions[..s.booted] == s.actions[..s.booted];
    } else if answered {
      TextTurnBooted(env, s2);
    }
  }

  lemma TextTurnBooted(env: Env, s: Loop)
    requires Booted(env, s)
    ensures Booted(env, TextTurn(env, s))
  {
    var s1 := s.(noTool := s.noTool + 1);
    if s1.noTool > 2 && s1.actions == [] && env.repoUrl != "" {
      var s0 := Emit(s1, MessageEvent(env.words.bootstrapping));
      BootstrapFollowsPlan(env, s0);
      var log := Bootstrap(env, s0).0.actions;
      assert log[..|log|] == log;
    }
  }

  lemma BootedInEveryRun(env: Env, prompt: string, turns: nat)
    ensures Booted(env, Walk(env, Start(prompt), turns))
  {
    var inv := (x: Loop) => Booted(env, x);
    forall x: Loop | GoesOn(x) && inv(x) ensures inv(Turns(env)(x)) {
      StepBooted(env, x);
    }
    IterateKeeps(Turns(env), GoesOn, inv, Start(prompt), turns);
  }
}
