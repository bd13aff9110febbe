/** Which events a run emits, in which order, and which container it ends with. */
module AgentEvents {
  import opened ActionLog
  import opened AgentModel
  import opened AgentRuns
  import opened AgentOutcomes

  // ----- One turn -----

  lemma {:induction false} TextEventsConcat(a: seq<Block>, b: seq<Block>)
    ensures TextEvents(a + b) == TextEvents(a) + TextEvents(b)
    decreases |b|
  {
    if b == [] {
      assert a + b == a;
    } else {
      assert (a + b)[..|a + b| - 1] == a + b[..|b| - 1];
      TextEventsConcat(a, b[..|b| - 1]);
    }
  }

  /** A block on its own: a message if it is a text and not empty. */
  lemma TextEventsOne(b: Block)
    ensures TextEvents([b]) == if b.TextBlock? && b.text != "" then [MessageEvent(b.text)] else []
  {
    assert [b][..0] == [];
  }

  /** The events of one tool call: those the tool emits itself, then the action. */
  function CallEvents(env: Env, index: nat, name: string, input: Json): seq<Event> {
    var o := env.tools(index, name, input);
    var hash := HashString(env.sha(Key(index, name, input)));
    o.emitted
    + [ActionEvent(if o.ToolError? then Action(index, name, input, Null, o.error, hash)
                   else Action(index, name, input, o.value, "", hash))]
  }

  /** The events of a reply's tool calls, first to last. */
  function ToolEvents(env: Env, index: nat, blocks: seq<Block>): seq<Event>
    decreases |blocks|
  {
    if blocks == [] then []
    else if !blocks[0].ToolUse? then ToolEvents(env, index, blocks[1..])
    else CallEvents(env, index, blocks[0].name, blocks[0].input) + ToolEvents(env, index + 1, blocks[1..])
  }

  lemma RecordEmits(env: Env, s: Loop, name: string, input: Json)
    ensures var s' := Record(env, s, name, input);
            s'.emitted == s.emitted + CallEvents(env, |s.actions|, name, input) && |s'.actions| == |s.actions| + 1
  {
    var o := env.tools(|s.actions|, name, input);
    var e := ActionEvent(ActionFor(env, |s.actions|, name, input, o));
    Associate(s.emitted, o.emitted, [e]);
  }

  lemma Associate(a: seq<Event>, b: seq<Event>, c: seq<Event>)
    ensures a + b + c == a + (b + c)
  {
  }

  lemma UsesFirst(blocks: seq<Block>)
    requires blocks != []
    ensures |Uses(blocks)| == |Uses(blocks[1..])| + if blocks[0].ToolUse? then 1 else 0
  {
    assert blocks == [blocks[0]] + blocks[1..] && [blocks[0]][..0] == [];
    UsesConcat([blocks[0]], blocks[1..]);
  }

  lemma {:induction false} ToolEventsLast(env: Env, index: nat, blocks: seq<Block>, b: Block)
    ensures ToolEvents(env, index, blocks + [b]) == ToolEvents(env, index, blocks)
         + if b.ToolUse? then CallEvents(env, index + |Uses(blocks)|, b.name, b.input) else []
    decreases |blocks|
  {
    var all := blocks + [b];
    if blocks == [] {
      assert all[0] == b && all[1..] == [];
    } else {
      assert all[0] == blocks[0] && all[1..] == blocks[1..] + [b];
      UsesFirst(blocks);
      ToolEventsLast(env, if blocks[0].ToolUse? then index + 1 else index, blocks[1..], b);
    }
  }

  lemma {:induction false} ToolsEmit(env: Env, s: Loop, blocks: seq<Block>)
    ensures var s' := RunTools(env, s, blocks).0;
            && s'.emitted == s.emitted + ToolEvents(env, |s.actions|, blocks)
            && |s'.actions| == |s.actions| + |Uses(blocks)|
    decreases |blocks|
  {
    if blocks != [] {
      var init, b := blocks[..|blocks| - 1], blocks[|blocks| - 1];
      assert blocks == init + [b];
      ToolsEmit(env, s, init);
      ToolEventsLast(env, |s.actions|, init, b);
      if b.ToolUse? {
        RecordEmits(env, RunTools(env, s, init).0, b.name, b.input);
        Associate(s.emitted, ToolEvents(env, |s.actions|, init),
                  CallEvents(env, |s.actions| + |Uses(init)|, b.name, b.input));
      }
    }
  }

  /** A turn with tool calls emits its texts and then the events of its calls, adds the reply and the answers to
      the transcript, and starts the count of silences over. */
  lemma ToolTurnOutcome(env: Env, s: Loop, blocks: seq<Block>)
    requires env.replies(s.calls) == Answer(blocks) && Uses(blocks) != []
    ensures var s' := Step(env, s);
            && s'.status == s.status && s'.noTool == 0 && s'.toolTurns == s.toolTurns + 1
            && s'.bootstraps == s.bootstraps && s'.booted == s.booted
            && |s'.messages| == |s.messages| + 2 && s.messages <= s'.messages
            && s'.messages[|s.messages|] == Blocks(Assistant, blocks)
            && s'.messages[|s.messages| + 1].Blocks? && s'.messages[|s.messages| + 1].role == User
            && s'.emitted == s.emitted + TextEvents(blocks) + ToolEvents(env, |s.actions|, blocks)
  {
    HasToolUseIff(blocks);
    var s2 := s.(calls := s.calls + 1, emitted := s.emitted + TextEvents(blocks), noTool := 0);
    ToolsEmit(env, s2, blocks);
    ToolsKeepCounts(env, s2, blocks);
  }

  // ----- Whole runs -----

  /** The actions that events announce. */
  function Announced(events: seq<Event>): seq<Action>
    decreases |events|
  {
    if events == [] then []
    else
      var e := events[|events| - 1];
      Announced(events[..|events| - 1]) + if e.ActionEvent? then [e.action] else []
  }

  lemma {:induction false} AnnouncedConcat(a: seq<Event>, b: seq<Event>)
    ensures Announced(a + b) == Announced(a) + Announced(b)
    decreases |b|
  {
    if b == [] {
      assert a + b == a;
    } else {
      assert (a + b)[..|a + b| - 1] == a + b[..|b| - 1];
      AnnouncedConcat(a, b[..|b| - 1]);
    }
  }

  lemma {:induction false} TextsAnnounceNothing(blocks: seq<Block>)
    ensures Announced(TextEvents(blocks)) == []
    decreases |blocks|
  {
    if blocks != [] {
      var init, b := blocks[..|blocks| - 1], blocks[|blocks| - 1];
      TextsAnnounceNothing(init);
      if b.TextBlock? && b.text != "" {
        AnnounceOne(TextEvents(init), MessageEvent(b.text));
      } else {
        assert TextEvents(blocks) == TextEvents(init);
      }
    }
  }

  lemma AnnounceOne(events: seq<Event>, e: Event)
    ensures Announced(events + [e]) == Announced(events) + if e.ActionEvent? then [e.action] else []
  {
    assert (events + [e])[..|events|] == events;
  }

  /** Tools emit plans and messages, but announce no actions of their own. */
  ghost predicate Discreet(env: Env) {
    forall index, name, input :: Announced(env.tools(index, name, input).emitted) == []
  }

  lemma RecordAnnounces(env: Env, s: Loop, name: string, input: Json)
    requires Discreet(env) && Announced(s.emitted) == s.actions
    ensures var s' := Record(env, s, name, input); Announced(s'.emitted) == s'.actions
  {
    var o := env.tools(|s.actions|, name, input);
    AnnouncedConcat(s.emitted, o.emitted);
    AnnounceOne(s.emitted + o.emitted, ActionEvent(ActionFor(env, |s.actions|, name, input, o)));
  }

  lemma {:induction false} ToolsAnnounce(env: Env, s: Loop, blocks: seq<Block>)
    requires Discreet(env) && Announced(s.emitted) == s.actions
    ensures var s' := RunTools(env, s, blocks).0; Announced(s'.emitted) == s'.actions
    decreases |blocks|
  {
    if blocks != [] {
      var init, b := blocks[..|blocks| - 1], blocks[|blocks| - 1];
      ToolsAnnounce(env, s, init);
      if b.ToolUse? {
        RecordAnnounces(env, RunTools(env, s, init).0, b.name, b.input);
      }
    }
  }

  lemma BootstrapAnnounces(env: Env, s: Loop)
    requires Discreet(env) && Announced(s.emitted) == s.actions
    ensures var s' := Bootstrap(env, s).0; Announced(s'.emitted) == s'.actions
  {
    BootstrapIs(env, s);
    var url := UrlInput(env);
    var s1 := Record(env, s, "analyze_repo", url);
    RecordAnnounces(env, s, "analyze_repo", url);
    var s2 := Record(env, s1, "select_provider", Object(map[]));
    RecordAnnounces(env, s1, "select_provider", Object(map[]));
    var o := env.tools(|s.actions|, "analyze_repo", url);
    if o.Returned? && o.plan.Some? {
      RecordAnnounces(env, s2, "generate_deployment_plan", PlanInput(o.plan.value));
    }
  }

  lemma BootTurnAnnounces(env: Env, s: Loop)
    requires Discreet(env) && Announced(s.emitted) == s.actions
    ensures var s' := BootTurn(env, s); Announced(s'.emitted) == s'.actions
  {
    var s0 := Emit(s, MessageEvent(env.words.bootstrapping));
    AnnounceOne(s.emitted, MessageEvent(env.words.bootstrapping));
    BootstrapAnnounces(env, s0);
    var (s1, error) := Bootstrap(env, s0);
    if error.Some? {
      AnnounceOne(s1.emitted, ErrorEvent(error.value));
    }
  }

  lemma TextTurnAnnounces(env: Env, s: Loop)
    requires Discreet(env) && Announced(s.emitted) == s.actions
    ensures var s' := TextTurn(env, s); Announced(s'.emitted) == s'.actions
  {
    var s1 := s.(noTool := s.noTool + 1);
    if s1.noTool <= 2 {
      AnnounceOne(s.emitted, MessageEvent(env.words.nudging));
    } else if s.actions == [] && env.repoUrl != "" {
      TextTurnBoots(env, s);
      BootTurnAnnounces(env, s1);
    } else {
      AnnounceOne(s.emitted, DoneEvent(s.container));
    }
  }

  lemma StepAnnounces(env: Env, s: Loop)
    requires Discreet(env) && Announced(s.emitted) == s.actions
    ensures var s' := Step(env, s); Announced(s'.emitted) == s'.actions
  {
    match env.replies(s.calls)
    case CallFailed(error) =>
      FailedCall(env, s, error);
      AnnounceOne(s.emitted, ErrorEvent(error));
    case Answer(blocks) =>
      AnnouncedConcat(s.emitted, TextEvents(blocks));
      TextsAnnounceNothing(blocks);
      var s2 := s.(calls := s.calls + 1, emitted := s.emitted + TextEvents(blocks));
      if HasToolUse(blocks) {
        ToolsAnnounce(env, s2.(noTool := 0), blocks);
      } else {
        TextTurnAnnounces(env, s2);
      }
  }

  /** In every run the actions announced to subscribers are the log, entry by entry. */
  lemma EventsAnnounceLog(env: Env, prompt: string, turns: nat)
    requires Discreet(env)
    ensures var s := Walk(env, Start(prompt), turns); Announced(s.emitted) == s.actions
  {
    var inv := (x: Loop) => Announced(x.emitted) == x.actions;
    forall x: Loop | GoesOn(x) && inv(x) ensures inv(Turns(env)(x)) {
      StepAnnounces(env, x);
    }
    IterateKeeps(Turns(env), GoesOn, inv, Start(prompt), turns);
  }

  /** The container that the last call to create one left behind. */
  function LastContainer(env: Env, log: seq<Action>): string
    decreases |log|
  {
    if log == [] then ""
    else
      var a := log[|log| - 1];
      var o := env.tools(|log| - 1, a.tool, a.input);
      if o.container.Some? then o.container.value else LastContainer(env, log[..|log| - 1])
  }

  lemma RecordContainer(env: Env, s: Loop, name: string, input: Json)
    requires s.container == LastContainer(env, s.actions)
    ensures var s' := Record(env, s, name, input); s'.container == LastContainer(env, s'.actions)
  {
    var s' := Record(env, s, name, input);
    assert s'.actions[..|s.actions|] == s.actions;
  }

  lemma {:induction false} ToolsContainer(env: Env, s: Loop, blocks: seq<Block>)
    requires s.container == LastContainer(env, s.actions)
    ensures var s' := RunTools(env, s, blocks).0; s'.container == LastContainer(env, s'.actions)
    decreases |blocks|
  {
    if blocks != [] {
      var init, b := blocks[..|blocks| - 1], blocks[|blocks| - 1];
      ToolsContainer(env, s, init);
      if b.ToolUse? {
        RecordContainer(env, RunTools(env, s, init).0, b.name, b.input);
      }
    }
  }

  lemma BootstrapContainer(env: Env, s: Loop)
    requires s.container == LastContainer(env, s.actions)
    ensures var s' := Bootstrap(env, s).0; s'.container == LastContainer(env, s'.actions)
  {
    BootstrapIs(env, s);
    var url := UrlInput(env);
    var s1 := Record(env, s, "analyze_repo", url);
    RecordContainer(env, s, "analyze_repo", url);
    var s2 := Record(env, s1, "select_provider", Object(map[]));
    RecordContainer(env, s1, "select_provider", Object(map[]));
    var o := env.tools(|s.actions|, "analyze_repo", url);
    if o.Returned? && o.plan.Some? {
      RecordContainer(env, s2, "generate_deployment_plan", PlanInput(o.plan.value));
    }
  }

  /** A run that is over has said so last: done with its container, or the error it failed with. */
  ghost predicate Closed(env: Env, s: Loop) {
    && s.container == LastContainer(env, s.actions)
    && (s.status != Running ==> s.emitted != [])
    && (s.status == Completed ==> s.emitted[|s.emitted| - 1] == DoneEvent(s.container))
    && (s.status == Failed ==> s.emitted[|s.emitted| - 1].ErrorEvent?)
  }

  lemma BootTurnCloses(env: Env, s: Loop)
    requires s.status == Running && s.container == LastContainer(env, s.actions)
    ensures Closed(env, BootTurn(env, s))
  {
    var s0 := Emit(s, MessageEvent(env.words.bootstrapping));
    BootstrapContainer(env, s0);
    BootstrapExtends(env, s0);
  }

  lemma TextTurnCloses(env: Env, s: Loop)
    requires s.status == Running && s.container == LastContainer(env, s.actions)
    ensures Closed(env, TextTurn(env, s))
  {
    if s.noTool >= 2 && s.actions == [] && env.repoUrl != "" {
      TextTurnBoots(env, s);
      BootTurnCloses(env, s.(noTool := s.noTool + 1));
    }
  }

  lemma StepCloses(env: Env, s: Loop)
    requires s.status == Running && Closed(env, s)
    ensures Closed(env, Step(env, s))
  {
    match env.replies(s.calls)
    case CallFailed(error) => FailedCall(env, s, error);
    case Answer(blocks) =>
      var s2 := s.(calls := s.calls + 1, emitted := s.emitted + TextEvents(blocks));
      if HasToolUse(blocks) {
        ToolsContainer(env, s2.(noTool := 0), blocks);
        ToolsKeepCounts(env, s2.(noTool := 0), blocks);
      } else {
        TextTurnCloses(env, s2);
      }
  }

  /** In every run the container is that of the last call that created one, and the end is the last event. */
  lemma RunsClose(env: Env, prompt: string, turns: nat)
    ensures Closed(env, Walk(env, Start(prompt), turns))
  {
    var inv := (x: Loop) => Closed(env, x);
    forall x: Loop | GoesOn(x) && inv(x) ensures inv(Turns(env)(x)) {
      StepCloses(env, x);
    }
    IterateKeeps(Turns(env), GoesOn, inv, Start(prompt), turns);
  }
}
