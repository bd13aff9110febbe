/** What every run of the agent loop keeps, whatever the model and the tools do. */
module AgentRuns {
  import opened ActionLog
  import opened AgentModel

  // ----- The log -----

  /** The log was only added to, and stays a recorded one. */
  ghost predicate Extends(env: Env, s: Loop, s': Loop) {
    s.actions <= s'.actions && (Recorded(env.sha, s.actions) ==> Recorded(env.sha, s'.actions))
  }

  lemma RecordExtends(env: Env, s: Loop, name: string, input: Json)
    ensures Extends(env, s, Record(env, s, name, input))
  {
  }

  lemma {:induction false} ToolsExtend(env: Env, s: Loop, blocks: seq<Block>)
    ensures Extends(env, s, RunTools(env, s, blocks).0)
    decreases |blocks|
  {
    if blocks != [] {
      ToolsExtend(env, s, blocks[..|blocks| - 1]);
    }
  }

  lemma BootstrapExtends(env: Env, s: Loop)
    ensures Extends(env, s, Bootstrap(env, s).0)
    ensures |s.actions| < |Bootstrap(env, s).0.actions| <= |s.actions| + 3
    ensures var s' := Bootstrap(env, s).0;
            s' == s.(actions := s'.actions, emitted := s'.emitted, container := s'.container)
  {
    BootstrapIs(env, s);
    var input := Object(map["github_url" := Text(env.repoUrl)]);
    var s1 := Record(env, s, "analyze_repo", input);
    RecordExtends(env, s, "analyze_repo", input);
    RecordExtends(env, s1, "select_provider", Object(map[]));
  }

  /** What a reply leads to: the end of the run, a tool turn, or a turn without tools. */
  lemma StepCases(env: Env, s: Loop) returns (answered: bool, s2: Loop, blocks: seq<Block>)
    ensures s2 == s.(calls := s.calls + 1, emitted := s2.emitted)
    ensures !answered ==> Step(env, s) == s2.(status := Failed)
    ensures answered ==> Step(env, s) == if HasToolUse(blocks) then ToolTurn(env, s2, blocks) else TextTurn(env, s2)
  {
    match env.replies(s.calls)
    case CallFailed(error) =>
      answered, blocks := false, [];
      s2 := s.(calls := s.calls + 1, emitted := s.emitted + [ErrorEvent(error)]);
    case Answer(bs) =>
      answered, blocks := true, bs;
      s2 := s.(calls := s.calls + 1, emitted := s.emitted + TextEvents(bs));
  }

  lemma StepExtends(env: Env, s: Loop)
    ensures Extends(env, s, Step(env, s))
  {
    var answered, s2, blocks := StepCases(env, s);
    ToolsExtend(env, s2.(noTool := 0), blocks);
    BootstrapExtends(env, Emit(s2.(noTool := s2.noTool + 1), MessageEvent(env.words.bootstrapping)));
  }

  // ----- How many model calls -----

  ghost predicate Counted(s: Loop) {
    && s.noTool <= 2
    && s.bootstraps <= 1
    && (s.bootstraps == 1 ==> s.actions != [])
    && s.calls <= 3 * s.toolTurns + s.noTool + 3 * s.bootstraps
  }

  lemma ToolTurnCounted(env: Env, s: Loop, blocks: seq<Block>)
    requires s.noTool <= 2 && s.bootstraps <= 1 && (s.bootstraps == 1 ==> s.actions != [])
    requires s.calls <= 3 * s.toolTurns + s.noTool + 3 * s.bootstraps + 1
    ensures Counted(ToolTurn(env, s, blocks)) && ToolTurn(env, s, blocks).status == s.status
  {
    ToolsKeepCounts(env, s.(noTool := 0), blocks);
    ToolsExtend(env, s.(noTool := 0), blocks);
  }

  lemma TextTurnCounted(env: Env, s: Loop)
    requires s.status == Running && s.noTool <= 2 && s.bootstraps <= 1 && (s.bootstraps == 1 ==> s.actions != [])
    requires s.calls <= 3 * s.toolTurns + s.noTool + 3 * s.bootstraps + 1
    ensures var s' := TextTurn(env, s);
            && (s'.status == Running ==> Counted(s'))
            && s'.calls <= 3 * s'.toolTurns + 6 && s'.bootstraps <= 1
  {
    BootstrapExtends(env, Emit(s.(noTool := s.noTool + 1), MessageEvent(env.words.bootstrapping)));
  }

  lemma StepCounted(env: Env, s: Loop)
    requires s.status == Running && Counted(s)
    ensures var s' := Step(env, s);
            && (s'.status == Running ==> Counted(s'))
            && s'.calls <= 3 * s'.toolTurns + 6 && s'.bootstraps <= 1
  {
    var answered, s2, blocks := StepCases(env, s);
    if answered {
      if HasToolUse(blocks) {
        ToolTurnCounted(env, s2, blocks);
      } else {
        TextTurnCounted(env, s2);
      }
    }
  }

  // ----- The transcript -----

  function Uses(blocks: seq<Block>): seq<Block>
    decreases |blocks|
  {
    if blocks == [] then []
    else
      var b := blocks[|blocks| - 1];
      Uses(blocks[..|blocks| - 1]) + if b.ToolUse? then [b] else []
  }

  /** Result i answers use i. */
  ghost predicate Answers(results: seq<Block>, uses: seq<Block>) {
    && |results| == |uses|
    && forall i :: 0 <= i < |uses| ==>
         uses[i].ToolUse? && results[i].ToolResult? && results[i].toolUseId == uses[i].id
  }

  /** Plain turns, and pairs of an assistant turn with the answers to its tool calls. */
  ghost predicate Paired(messages: seq<Message>)
    decreases |messages|
  {
    var n := |messages|;
    messages == []
    || (messages[n - 1].Plain? && Paired(messages[..n - 1]))
    || (n >= 2
        && messages[n - 2].Blocks? && messages[n - 2].role == Assistant
        && messages[n - 1].Blocks? && messages[n - 1].role == User
        && Answers(messages[n - 1].blocks, Uses(messages[n - 2].blocks))
        && Paired(messages[..n - 2]))
  }

  /** The tool calls of the transcript, in order. */
  function Called(messages: seq<Message>): seq<Block>
    decreases |messages|
  {
    if messages == [] then []
    else
      var m := messages[|messages| - 1];
      Called(messages[..|messages| - 1]) + if m.Blocks? && m.role == Assistant then Uses(m.blocks) else []
  }

  /** Action i of `log` is the i-th call. */
  ghost predicate LogsCalls(log: seq<Action>, calls: seq<Block>) {
    && |log| == |calls|
    && forall i :: 0 <= i < |calls| ==>
         calls[i].ToolUse? && log[i].tool == calls[i].name && log[i].input == calls[i].input
  }

  /** The tools of one reply are answered one by one and logged in order. */
  lemma {:induction false} ToolsAnswer(env: Env, s: Loop, blocks: seq<Block>)
    ensures var (s', results) := RunTools(env, s, blocks);
            && Answers(results, Uses(blocks))
            && s.actions <= s'.actions
            && LogsCalls(s'.actions[|s.actions|..], Uses(blocks))
    decreases |blocks|
  {
    if blocks != [] {
      var init, b := blocks[..|blocks| - 1], blocks[|blocks| - 1];
      ToolsAnswer(env, s, init);
      var s1 := RunTools(env, s, init).0;
      if b.ToolUse? {
        var s2 := Record(env, s1, b.name, b.input);
        assert s2.actions[|s.actions|..] == s1.actions[|s.actions|..] + [s2.actions[|s1.actions|]];
      }
    }
  }

  /** The transcript pairs calls with answers, and the log is the bootstrap's actions followed by exactly the
      calls of the transcript. */
  ghost predicate Transcribed(s: Loop) {
    && Paired(s.messages)
    && s.booted <= |s.actions| && s.booted <= 3
    && (s.bootstraps == 0 ==> s.booted == 0)
    && LogsCalls(s.actions[s.booted..], Called(s.messages))
  }

  lemma SayKeeps(messages: seq<Message>, text: string)
    requires Paired(messages)
    ensures Paired(messages + [Plain(User, text)])
    ensures Called(messages + [Plain(User, text)]) == Called(messages)
  {
    assert (messages + [Plain(User, text)])[..|messages|] == messages;
  }

  lemma TurnKeeps(messages: seq<Message>, blocks: seq<Block>, results: seq<Block>)
    requires Paired(messages) && Answers(results, Uses(blocks))
    ensures var messages' := messages + [Blocks(Assistant, blocks), Blocks(User, results)];
            Paired(messages') && Called(messages') == Called(messages) + Uses(blocks)
  {
    var messages' := messages + [Blocks(Assistant, blocks), Blocks(User, results)];
    assert messages'[..|messages'| - 2] == messages;
    assert messages'[..|messages'| - 1] == messages + [Blocks(Assistant, blocks)];
    assert (messages + [Blocks(Assistant, blocks)])[..|messages|] == messages;
  }

  lemma LogExtends(log: seq<Action>, log': seq<Action>, from: nat, called: seq<Block>, uses: seq<Block>)
    requires from <= |log| && log <= log'
    requires LogsCalls(log[from..], called) && LogsCalls(log'[|log|..], uses)
    ensures LogsCalls(log'[from..], called + uses)
  {
    assert log'[from..] == log[from..] + log'[|log|..];
  }

  lemma ToolTurnTranscribed(env: Env, s: Loop, blocks: seq<Block>)
    requires Transcribed(s)
    ensures Transcribed(ToolTurn(env, s, blocks))
  {
    var s0 := s.(noTool := 0);
    ToolsAnswer(env, s0, blocks);
    ToolsKeepCounts(env, s0, blocks);
    var (s1, results) := RunTools(env, s0, blocks);
    TurnKeeps(s.messages, blocks, results);
    LogExtends(s.actions, s1.actions, s.booted, Called(s.messages), Uses(blocks));
  }

  lemma TextTurnTranscribed(env: Env, s: Loop)
    requires Transcribed(s) && (s.bootstraps == 1 ==> s.actions != [])
    ensures Transcribed(TextTurn(env, s))
  {
    SayKeeps(s.messages, env.words.nudge);
    SayKeeps(s.messages, env.words.goOn);
    BootstrapExtends(env, Emit(s.(noTool := s.noTool + 1), MessageEvent(env.words.bootstrapping)));
    if s.actions == [] {
      assert Called(s.messages) == [];
    }
  }

  lemma StepTranscribed(env: Env, s: Loop)
    requires Transcribed(s) && Counted(s)
    ensures Transcribed(Step(env, s))
  {
    var answered, s2, blocks := StepCases(env, s);
    if answered {
      if HasToolUse(blocks) {
        ToolTurnTranscribed(env, s2, blocks);
      } else {
        TextTurnTranscribed(env, s2);
      }
    }
  }

  // ----- Whole runs -----

  ghost predicate Sound(env: Env, s: Loop) {
    Recorded(env.sha, s.actions) && Transcribed(s)
  }

  lemma StartSound(env: Env, prompt: string)
    ensures Counted(Start(prompt)) && Sound(env, Start(prompt))
  {
    var s := Start(prompt);
    assert s.messages[..0] == [];
    assert Called(s.messages) == [];
  }

  ghost predicate Bounded(s: Loop) {
    && (s.status == Running ==> Counted(s))
    && s.calls <= 3 * s.toolTurns + 6 && s.bootstraps <= 1
  }

  lemma StepSound(env: Env, s: Loop)
    requires s.status == Running && Sound(env, s) && Bounded(s)
    ensures var s' := Step(env, s); Sound(env, s') && Bounded(s') && s.actions <= s'.actions
  {
    StepExtends(env, s);
    StepCounted(env, s);
    StepTranscribed(env, s);
  }

  lemma WalkKeeps(env: Env, s: Loop, n: nat)
    requires Sound(env, s) && Bounded(s)
    ensures var s' := Walk(env, s, n); Sound(env, s') && Bounded(s') && s.actions <= s'.actions
  {
    var inv := (x: Loop) => Sound(env, x) && Bounded(x) && s.actions <= x.actions;
    forall x: Loop | GoesOn(x) && inv(x) ensures inv(Turns(env)(x)) {
      StepSound(env, x);
    }
    IterateKeeps(Turns(env), GoesOn, inv, s, n);
  }

  lemma FirstTurn(env: Env, s: Loop, n: nat)
    requires n > 0 && s.status == Running
    ensures Walk(env, s, n) == Walk(env, Step(env, s), n - 1)
  {
  }

  lemma WalkOn(env: Env, s: Loop, m: nat, n: nat)
    ensures Walk(env, s, m + n) == Walk(env, Walk(env, s, m), n)
  {
    IterateOn(Turns(env), GoesOn, s, m, n);
  }

  lemma WalkThen(env: Env, s: Loop, m: nat, s1: Loop, n: nat, s2: Loop)
    requires Walk(env, s, m) == s1 && Walk(env, s1, n) == s2
    ensures Walk(env, s, m + n) == s2
  {
    WalkOn(env, s, m, n);
  }

  /** A turn is one call of the model and at most one tool turn. */
  lemma {:induction false} WalkCounts(env: Env, s: Loop, n: nat)
    ensures var s' := Walk(env, s, n);
            && s.toolTurns <= s'.toolTurns <= s.toolTurns + n
            && (s'.status == Running ==> s'.calls == s.calls + n)
    decreases n
  {
    if n > 0 && s.status == Running {
      StepCounts(env, s);
      FirstTurn(env, s, n);
      WalkCounts(env, Step(env, s), n - 1);
    }
  }

  /** Against any model, at any point of a run: with T tool turns so far it made at most 3T + 6 model calls and
      bootstrapped at most once, and its log has index i and its own hash at every position i. */
  lemma RunIsBounded(env: Env, prompt: string, turns: nat)
    ensures var s := Walk(env, Start(prompt), turns);
            && s.calls <= 3 * s.toolTurns + 6
            && s.bootstraps <= 1
            && Recorded(env.sha, s.actions)
            && (s.status == Running ==> s.calls == turns)
  {
    StartSound(env, prompt);
    WalkKeeps(env, Start(prompt), turns);
    WalkCounts(env, Start(prompt), turns);
  }

  ghost predicate Ends(env: Env, prompt: string) {
    exists n: nat :: Walk(env, Start(prompt), n).status != Running
  }

  /** After no number of turns have there been more than `limit` tool turns. */
  ghost predicate ToolTurnsWithin(env: Env, prompt: string, limit: nat) {
    forall n: nat :: Walk(env, Start(prompt), n).toolTurns <= limit
  }

  /** With at most `limit` tool turns, turn 3 * limit + 6 is the last at the latest. */
  lemma EndsWithin(env: Env, prompt: string, limit: nat)
    requires ToolTurnsWithin(env, prompt, limit)
    ensures Walk(env, Start(prompt), 3 * limit + 6).status != Running
  {
    var n := 3 * limit + 6;
    StartSound(env, prompt);
    WalkKeeps(env, Start(prompt), n);
    WalkCounts(env, Start(prompt), n);
  }

  /** A run ends if and only if it makes finitely many tool turns: nothing else keeps the loop going. */
  lemma EndsIffFiniteToolTurns(env: Env, prompt: string)
    ensures Ends(env, prompt) <==> exists limit: nat :: ToolTurnsWithin(env, prompt, limit)
  {
    if limit: nat :| ToolTurnsWithin(env, prompt, limit) {
      EndsWithin(env, prompt, limit);
    }
    if n: nat :| Walk(env, Start(prompt), n).status != Running {
      forall m: nat ensures Walk(env, Start(prompt), m).toolTurns <= n {
        if m <= n {
          WalkCounts(env, Start(prompt), m);
        } else {
          WalkOn(env, Start(prompt), n, m - n);
          WalkCounts(env, Start(prompt), n);
        }
      }
      assert ToolTurnsWithin(env, prompt, n);
    }
  }

  /** The log never loses or changes an entry: what it holds after `m` turns, it still holds after `n`. */
  lemma LogIsAppendOnly(env: Env, prompt: string, m: nat, n: nat)
    requires m <= n
    ensures Walk(env, Start(prompt), m).actions <= Walk(env, Start(prompt), n).actions
  {
    StartSound(env, prompt);
    WalkKeeps(env, Start(prompt), m);
    WalkOn(env, Start(prompt), m, n - m);
    WalkKeeps(env, Walk(env, Start(prompt), m), n - m);
  }

  /** Between two runs, whatever their models and tools and however far they got, equal attested roots mean
      equal calls: the loop's log is one that the Merkle root binds. */
  lemma AttestedRunsBind(env: Env, prompt: string, m: nat, env': Env, prompt': string, n: nat, pair: PairHash)
    requires env.sha == env'.sha
    requires var a, b := Walk(env, Start(prompt), m).actions, Walk(env', Start(prompt'), n).actions;
             a != [] && b != [] && NoCollision(env.sha, pair, a, b)
    ensures var a, b := Walk(env, Start(prompt), m).actions, Walk(env', Start(prompt'), n).actions;
            LogRoot(pair, Hashes(a)) == LogRoot(pair, Hashes(b)) <==> SameCalls(a, b)
  {
    RunIsBounded(env, prompt, m);
    RunIsBounded(env', prompt', n);
    RootBindsLog(env.sha, pair, Walk(env, Start(prompt), m).actions, Walk(env', Start(prompt'), n).actions);
  }
}
