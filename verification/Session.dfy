/** The session object and its loop, as they update the log, the state and the transcript. */
module SessionLoop {
  import opened ActionLog
  import opened AgentModel
  import opened AgentRuns

  class Session {
    var Actions: seq<Action>
    var State: Status
    var emitted: seq<Event>
    var lastContainerID: string

    constructor ()
      ensures Actions == [] && State == Running && emitted == [] && lastContainerID == ""
    {
      Actions, State, emitted, lastContainerID := [], Running, [], "";
    }

    method Emit(e: Event)
      modifies this`emitted
      ensures emitted == old(emitted) + [e]
    {
      emitted := emitted + [e];
    }

    /** `executeTool`: an arbitrary outcome, with its effects on the session. */
    method ExecuteTool(env: Env, name: string, input: Json) returns (o: ToolOutcome)
      modifies this`emitted, this`lastContainerID
      ensures o == env.tools(|Actions|, name, input)
      ensures emitted == old(emitted) + o.emitted
      ensures lastContainerID == if o.container.Some? then o.container.value else old(lastContainerID)
    {
      o := env.tools(|Actions|, name, input);
      emitted := emitted + o.emitted;
      if o.container.Some? { lastContainerID := o.container.value; }
    }

    /** The session's part of a loop state. */
    ghost predicate Shows(s: Loop)
      reads this
    {
      s.actions == Actions && s.emitted == emitted && s.container == lastContainerID && s.status == State
    }

    /** `executeToolAndRecord`. */
    method ExecuteToolAndRecord(env: Env, name: string, input: Json, ghost s: Loop) returns (o: ToolOutcome)
      requires Shows(s)
      modifies this
      ensures o == OutcomeOf(env, s, name, input) && Shows(Record(env, s, name, input))
    {
      o := ExecuteTool(env, name, input);
      var action := Action(|Actions|, name, input, Null, "", "");
      if o.ToolError? {
        action := action.(error := o.error);
      } else {
        action := action.(result := o.value);
      }
      action := action.(hash := HashString(env.sha(KeyOf(action))));
      Actions := Actions + [action];
      Emit(ActionEvent(action));
    }

    /** `bootstrapInitialPlan`. */
    method BootstrapInitialPlan(env: Env, ghost s: Loop) returns (error: Option<string>)
      requires Shows(s)
      modifies this
      ensures error == Bootstrap(env, s).1 && Shows(Bootstrap(env, s).0)
    {
      BootstrapIs(env, s);
      var url := Object(map["github_url" := Text(env.repoUrl)]);
      var analyzed := ExecuteToolAndRecord(env, "analyze_repo", url, s);
      if analyzed.ToolError? { return Some(analyzed.error); }
      ghost var s1 := Record(env, s, "analyze_repo", url);
      var _ := ExecuteToolAndRecord(env, "select_provider", Object(map[]), s1);
      if analyzed.plan.None? { return Some(env.words.invalidPlan); }
      ghost var s2 := Record(env, s1, "select_provider", Object(map[]));
      var generated := ExecuteToolAndRecord(env, "generate_deployment_plan", PlanInput(analyzed.plan.value), s2);
      return if generated.ToolError? then Some(generated.error) else None;
    }

    /** The tool blocks of one reply, on the loop's own recording path. */
    method ProcessTools(env: Env, blocks: seq<Block>, ghost s: Loop) returns (toolResults: seq<Block>)
      requires Shows(s)
      modifies this
      ensures toolResults == RunTools(env, s, blocks).1 && Shows(RunTools(env, s, blocks).0)
    {
      toolResults := [];
      for i := 0 to |blocks|
        invariant toolResults == RunTools(env, s, blocks[..i]).1 && Shows(RunTools(env, s, blocks[..i]).0)
      {
        assert blocks[..i + 1][..i] == blocks[..i];
        var block := blocks[i];
        if block.ToolUse? {
          var o := ExecuteTool(env, block.name, block.input);
          var action := Action(|Actions|, block.name, block.input, Null, "", "");
          if o.ToolError? {
            action := action.(error := o.error);
          } else {
            action := action.(result := o.value);
          }
          action := action.(hash := HashString(env.sha(KeyOf(action))));
          Actions := Actions + [action];
          Emit(ActionEvent(action));
          var content := if o.ToolError? then "error: " + o.error else env.marshal(o.value);
          toolResults := toolResults + [ToolResult(block.id, content)];
        }
      }
      assert blocks[..|blocks|] == blocks;
    }

    method EmitTexts(blocks: seq<Block>)
      modifies this`emitted
      ensures emitted == old(emitted) + TextEvents(blocks)
    {
      for i := 0 to |blocks|
        invariant emitted == old(emitted) + TextEvents(blocks[..i])
      {
        assert blocks[..i + 1][..i] == blocks[..i];
        if blocks[i].TextBlock? && blocks[i].text != "" {
          Emit(MessageEvent(blocks[i].text));
        }
      }
      assert blocks[..|blocks|] == blocks;
    }

    /** A reply without tool calls: nudge, bootstrap once, or finish. The new loop state is returned beside
        the session's fields; the loop goes on while `State` is running. */
    method NoToolTurn(env: Env, s: Loop) returns (s': Loop)
      requires Shows(s)
      modifies this
      ensures s' == TextTurn(env, s) && Shows(s')
    {
      s' := s.(noTool := s.noTool + 1);
      if s'.noTool <= 2 {
        Emit(MessageEvent(env.words.nudging));
        s' := s'.(messages := s'.messages + [Plain(User, env.words.nudge)]);
      } else if |Actions| == 0 && env.repoUrl != "" {
        Emit(MessageEvent(env.words.bootstrapping));
        ghost var s0 := AgentModel.Emit(s', MessageEvent(env.words.bootstrapping));
        var before := |Actions|;
        var error := BootstrapInitialPlan(env, s0);
        BootstrapExtends(env, s0);
        s' := s'.(bootstraps := s'.bootstraps + 1, booted := |Actions| - before);
        if error.Some? {
          State := Failed;
          Emit(ErrorEvent(error.value));
        } else {
          s' := s'.(noTool := 0, messages := s'.messages + [Plain(User, env.words.goOn)]);
        }
      } else {
        State := Completed;
        Emit(DoneEvent(lastContainerID));
      }
      s' := s'.(actions := Actions, emitted := emitted, container := lastContainerID, status := State);
    }

    /** A reply with tool calls. */
    method ToolsTurn(env: Env, s: Loop, blocks: seq<Block>) returns (s': Loop)
      requires Shows(s)
      modifies this
      ensures s' == ToolTurn(env, s, blocks) && Shows(s')
    {
      s' := s.(noTool := 0);
      ToolsKeepCounts(env, s', blocks);
      var toolResults := ProcessTools(env, blocks, s');
      s' := s'.(messages := s'.messages + [Blocks(Assistant, blocks), Blocks(User, toolResults)],
                toolTurns := s'.toolTurns + 1, actions := Actions, emitted := emitted, container := lastContainerID);
    }

    /** One pass of the loop. */
    method Turn(env: Env, s: Loop) returns (s': Loop)
      requires Shows(s)
      modifies this
      ensures s' == Step(env, s) && Shows(s')
    {
      var reply := env.replies(s.calls);
      s' := s.(calls := s.calls + 1);
      if reply.CallFailed? {
        State := Failed;
        Emit(ErrorEvent(reply.error));
        s' := s'.(status := State, emitted := emitted);
      } else {
        EmitTexts(reply.blocks);
        s' := s'.(emitted := emitted);
        if !HasToolUse(reply.blocks) {
          s' := NoToolTurn(env, s');
        } else {
          s' := ToolsTurn(env, s', reply.blocks);
        }
      }
    }

    /** One pass of the loop, seen from the rest of the run. */
    method NextTurn(env: Env, s: Loop, ghost left: nat) returns (s': Loop)
      requires Shows(s) && State == Running && left > 0
      modifies this
      ensures Shows(s') && Walk(env, s', left - 1) == Walk(env, s, left)
    {
      FirstTurn(env, s, left);
      s' := Turn(env, s);
    }

    /** `Run`, watched for `turns` turns or to its end. The result is the loop state reached, transcript and
        counters included. */
    method Run(env: Env, prompt: string, turns: nat) returns (s: Loop)
      requires Shows(Start(prompt))
      modifies this
      ensures s == Walk(env, Start(prompt), turns) && Shows(s)
    {
      s := Start(prompt);
      ghost var end := Walk(env, s, turns);
      var turn := 0;
      while State == Running && turn < turns
        invariant turn <= turns && Shows(s)
        invariant Walk(env, s, turns - turn) == end
        decreases turns - turn
      {
        s := NextTurn(env, s, turns - turn);
        turn := turn + 1;
      }
    }
  }
}
