/** The bound on model calls is exact: for every T some model makes 3T + 6 calls with T tool turns. */
module AgentBound {
  import opened ActionLog
  import opened AgentModel
  import opened AgentRuns

  const PLAN := Plan(Null, Null, Null, Null)
  const USE := ToolUse("id", "tool", Null)

  /** Tools that always succeed, and a prompt with a repository. */
  ghost predicate Obliging(env: Env) {
    && (forall k, name, input :: env.tools(k, name, input) == Returned(Null, Some(PLAN), [], None))
    && env.repoUrl != ""
  }

  /** One tool call in every third reply, starting with the sixth, and nothing in between. */
  function WastefulReply(turns: nat, i: nat): Reply {
    if 5 <= i < 3 * turns + 5 && (i - 5) % 3 == 0 then Answer([USE]) else Answer([])
  }

  ghost predicate Wasteful(env: Env, turns: nat) {
    forall i: nat {:trigger WastefulReply(turns, i)} :: env.replies(i) == WastefulReply(turns, i)
  }

  lemma Silence(env: Env, turns: nat, i: nat)
    requires Wasteful(env, turns) && (i < 5 || i == 3 * turns + 5)
    ensures env.replies(i) == Answer([])
  {
    assert WastefulReply(turns, i) == Answer([]);
  }

  /** A point of the loop, as far as the count goes. */
  ghost predicate At(s: Loop, calls: nat, toolTurns: nat, noTool: nat, logged: bool) {
    && s.status == Running && s.calls == calls && s.toolTurns == toolTurns && s.noTool == noTool
    && (logged <==> s.actions != [])
  }

  lemma SilentTurn(env: Env, s: Loop, calls: nat, toolTurns: nat, noTool: nat, logged: bool) returns (s': Loop)
    requires At(s, calls, toolTurns, noTool, logged) && noTool < 2
    requires env.replies(calls) == Answer([])
    ensures At(s', calls + 1, toolTurns, noTool + 1, logged) && s' == Step(env, s)
  {
    s' := Step(env, s);
  }

  lemma BusyTurn(env: Env, s: Loop, calls: nat, toolTurns: nat, logged: bool) returns (s': Loop)
    requires At(s, calls, toolTurns, 2, logged)
    requires env.replies(calls) == Answer([USE])
    ensures At(s', calls + 1, toolTurns + 1, 0, true) && s' == Step(env, s)
  {
    s' := Step(env, s);
    var blocks := [USE];
    assert blocks[0].ToolUse? && blocks[..0] == [];
    var s2 := s.(calls := s.calls + 1, emitted := s.emitted + TextEvents(blocks));
    assert HasToolUse(blocks) && s' == ToolTurn(env, s2, blocks);
    assert RunTools(env, s2.(noTool := 0), blocks).0 == Record(env, s2.(noTool := 0), USE.name, USE.input);
  }

  lemma BootingTurn(env: Env, s: Loop, calls: nat) returns (s': Loop)
    requires At(s, calls, 0, 2, false) && Obliging(env)
    requires env.replies(calls) == Answer([])
    ensures At(s', calls + 1, 0, 0, true) && s' == Step(env, s)
  {
    s' := Step(env, s);
    var s2 := s.(calls := s.calls + 1, emitted := s.emitted + TextEvents([]));
    assert s' == TextTurn(env, s2);
    var s3 := s2.(noTool := 3);
    BootSucceeds(env, s3);
    assert TextTurn(env, s2) == BootTurn(env, s3);
  }

  lemma BootSucceeds(env: Env, s: Loop)
    requires Obliging(env) && s.status == Running && s.actions == [] && s.toolTurns == 0
    ensures At(BootTurn(env, s), s.calls, 0, 0, true)
  {
    var s0 := AgentModel.Emit(s, MessageEvent(env.words.bootstrapping));
    BootstrapIs(env, s0);
  }

  lemma LastTurn(env: Env, s: Loop, calls: nat, toolTurns: nat) returns (s': Loop)
    requires At(s, calls, toolTurns, 2, true) && env.replies(calls) == Answer([])
    ensures s' == Walk(env, s, 1) && s'.calls == calls + 1 && s'.toolTurns == toolTurns && s'.status == Completed
  {
    s' := Step(env, s);
    FirstTurn(env, s, 1);
  }

  lemma ThreeReplies(env: Env, turns: nat, done: nat)
    requires Wasteful(env, turns) && done < turns
    ensures var calls := 3 * done + 5;
            && env.replies(calls) == Answer([USE])
            && env.replies(calls + 1) == Answer([]) && env.replies(calls + 2) == Answer([])
  {
    var calls := 3 * done + 5;
    assert (calls - 5) % 3 == 0 && (calls + 1 - 5) % 3 == 1 && (calls + 2 - 5) % 3 == 2;
    assert WastefulReply(turns, calls) == Answer([USE]);
    assert WastefulReply(turns, calls + 1) == WastefulReply(turns, calls + 2) == Answer([]);
  }

  lemma ThreeTurns(env: Env, turns: nat, s: Loop, done: nat) returns (s': Loop)
    requires Wasteful(env, turns) && done < turns && At(s, 3 * done + 5, done, 2, true)
    ensures At(s', 3 * (done + 1) + 5, done + 1, 2, true) && Walk(env, s, 3) == s'
  {
    var calls := 3 * done + 5;
    ThreeReplies(env, turns, done);
    var s1 := BusyTurn(env, s, calls, done, true);
    var s2 := SilentTurn(env, s1, calls + 1, done + 1, 0, true);
    s' := SilentTurn(env, s2, calls + 2, done + 1, 1, true);
    ThreeSteps(env, s, s1, s2, s');
  }

  lemma ThreeSteps(env: Env, s: Loop, s1: Loop, s2: Loop, s3: Loop)
    requires s.status == s1.status == s2.status == Running
    requires s1 == Step(env, s) && s2 == Step(env, s1) && s3 == Step(env, s2)
    ensures Walk(env, s, 3) == s3
  {
    FirstTurn(env, s, 3);
    FirstTurn(env, s1, 2);
    FirstTurn(env, s2, 1);
  }

  /** The state after `done` of the tool turns and the two silences behind each. */
  predicate Due(s: Loop, done: nat) {
    && s.status == Running && s.calls == 3 * done + 5 && s.toolTurns == done && s.noTool == 2 && s.actions != []
  }

  /** Three calls a tool turn from the sixth call on. */
  lemma WastefulAfter(env: Env, turns: nat, s: Loop) returns (s': Loop)
    requires Wasteful(env, turns) && At(s, 5, 0, 2, true)
    ensures At(s', 3 * turns + 5, turns, 2, true) && Walk(env, s, 3 * turns) == s'
  {
    var at := (x: Loop, i: nat) => Due(x, i);
    forall x: Loop, i: nat | i < turns && at(x, i) ensures at(Iterate(Turns(env), GoesOn, x, 3), i + 1) {
      var x' := ThreeTurns(env, turns, x, i);
      assert x' == Iterate(Turns(env), GoesOn, x, 3);
    }
    Laps(Turns(env), GoesOn, at, s, 3, turns);
    s' := Walk(env, s, 3 * turns);
  }

  /** The two silences, the bootstrap, and two silences more before the first tool turn is due. */
  lemma FiveTurns(env: Env, turns: nat, prompt: string) returns (s: Loop)
    requires Wasteful(env, turns) && Obliging(env)
    ensures At(s, 5, 0, 2, true) && Walk(env, Start(prompt), 5) == s
  {
    for i: nat := 0 to 5
      invariant forall k: nat :: k < i ==> env.replies(k) == Answer([])
    {
      Silence(env, turns, i);
    }
    var s1 := SilentTurn(env, Start(prompt), 0, 0, 0, false);
    var s2 := SilentTurn(env, s1, 1, 0, 1, false);
    var s3 := BootingTurn(env, s2, 2);
    var s4 := SilentTurn(env, s3, 3, 0, 0, true);
    s := SilentTurn(env, s4, 4, 0, 1, true);
    ThreeSteps(env, Start(prompt), s1, s2, s3);
    FirstTurn(env, s3, 2);
    FirstTurn(env, s4, 1);
    WalkOn(env, Start(prompt), 3, 2);
  }

  lemma WastefulEnv(turns: nat, sha: LeafHash, marshal: Json -> string, words: Wording) returns (env: Env)
    ensures Wasteful(env, turns) && Obliging(env) && env.sha == sha
  {
    env := Env((i: nat) => WastefulReply(turns, i), (k, name, input) => Returned(Null, Some(PLAN), [], None),
               sha, marshal, "https://github.com/a/b", words);
  }

  lemma WastefulEnd(env: Env, turns: nat, s: Loop) returns (s': Loop)
    requires Wasteful(env, turns) && At(s, 5, 0, 2, true)
    ensures Walk(env, s, 3 * turns + 1) == s'
    ensures s'.toolTurns == turns && s'.calls == 3 * turns + 6 && s'.status == Completed
  {
    var s1 := WastefulAfter(env, turns, s);
    Silence(env, turns, 3 * turns + 5);
    s' := LastTurn(env, s1, 3 * turns + 5, turns);
    WalkThen(env, s, 3 * turns, s1, 1, s');
  }

  /** For every T there is a model against which a run makes T tool turns and 3T + 6 model calls. */
  lemma BoundIsReached(turns: nat, prompt: string, sha: LeafHash, marshal: Json -> string, words: Wording)
    returns (env: Env)
    ensures env.sha == sha
    ensures var s := Walk(env, Start(prompt), 3 * turns + 6);
            s.toolTurns == turns && s.calls == 3 * turns + 6 && s.status == Completed
  {
    env := WastefulEnv(turns, sha, marshal, words);
    var s1 := FiveTurns(env, turns, prompt);
    var s2 := WastefulEnd(env, turns, s1);
    WalkThen(env, Start(prompt), 5, s1, 3 * turns + 1, s2);
  }
}
