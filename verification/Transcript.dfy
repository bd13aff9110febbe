/** The translation of the transcript into the chat format the model is called with. */
module Transcript {
  import opened ActionLog
  import opened AgentModel
  import opened AgentRuns

  datatype ToolCall = ToolCall(id: string, name: string, arguments: string)

  datatype ChatMessage =
    | SystemMsg(content: string)
    | ChatMsg(role: Role, content: string)
    | AssistantMsg(content: string, toolCalls: seq<ToolCall>)
    | ToolMsg(toolCallId: string, content: string)

  function Texts(blocks: seq<Block>): seq<string>
    decreases |blocks|
  {
    if blocks == [] then []
    else
      var b := blocks[|blocks| - 1];
      Texts(blocks[..|blocks| - 1]) + if b.TextBlock? && b.text != "" then [b.text] else []
  }

  /** `strings.Join`. */
  function Join(texts: seq<string>, separator: string): string
    decreases |texts|
  {
    if texts == [] then ""
    else if |texts| == 1 then texts[0]
    else Join(texts[..|texts| - 1], separator) + separator + texts[|texts| - 1]
  }

  function CallsOf(marshal: Json -> string, blocks: seq<Block>): seq<ToolCall>
    decreases |blocks|
  {
    if blocks == [] then []
    else
      var b := blocks[|blocks| - 1];
      CallsOf(marshal, blocks[..|blocks| - 1])
      + if b.ToolUse? then [ToolCall(b.id, b.name, marshal(b.input))] else []
  }

  function ResultsOf(blocks: seq<Block>): seq<ChatMessage>
    decreases |blocks|
  {
    if blocks == [] then []
    else
      var b := blocks[|blocks| - 1];
      ResultsOf(blocks[..|blocks| - 1]) + if b.ToolResult? then [ToolMsg(b.toolUseId, b.content)] else []
  }

  function AssistantOf(marshal: Json -> string, blocks: seq<Block>): ChatMessage {
    AssistantMsg(Join(Texts(blocks), "\n"), CallsOf(marshal, blocks))
  }

  function ConvertOne(marshal: Json -> string, m: Message): seq<ChatMessage> {
    match m
    case Plain(role, text) => [ChatMsg(role, text)]
    case Blocks(Assistant, blocks) => [AssistantOf(marshal, blocks)]
    case Blocks(User, blocks) => ResultsOf(blocks)
  }

  function ConvertAll(marshal: Json -> string, messages: seq<Message>): seq<ChatMessage>
    decreases |messages|
  {
    if messages == [] then []
    else ConvertAll(marshal, messages[..|messages| - 1]) + ConvertOne(marshal, messages[|messages| - 1])
  }

  function Convert(marshal: Json -> string, systemPrompt: string, messages: seq<Message>): seq<ChatMessage> {
    [SystemMsg(systemPrompt)] + ConvertAll(marshal, messages)
  }

  /** The assistant branch of `convertMessagesToOpenAI`. */
  method ConvertAssistant(marshal: Json -> string, blocks: seq<Block>) returns (m: ChatMessage)
    ensures [m] == ConvertOne(marshal, Blocks(Assistant, blocks))
  {
    var texts, calls := [], [];
    for k := 0 to |blocks|
      invariant texts == Texts(blocks[..k]) && calls == CallsOf(marshal, blocks[..k])
    {
      assert blocks[..k + 1][..k] == blocks[..k];
      var b := blocks[k];
      if b.TextBlock? && b.text != "" {
        texts := texts + [b.text];
      }
      if b.ToolUse? {
        calls := calls + [ToolCall(b.id, b.name, marshal(b.input))];
      }
    }
    assert blocks[..|blocks|] == blocks;
    return AssistantMsg(if |texts| > 0 then Join(texts, "\n") else "", calls);
  }

  /** Its user branch. */
  method ConvertResults(blocks: seq<Block>) returns (out: seq<ChatMessage>)
    ensures out == ResultsOf(blocks)
  {
    out := [];
    for k := 0 to |blocks|
      invariant out == ResultsOf(blocks[..k])
    {
      assert blocks[..k + 1][..k] == blocks[..k];
      if blocks[k].ToolResult? {
        out := out + [ToolMsg(blocks[k].toolUseId, blocks[k].content)];
      }
    }
    assert blocks[..|blocks|] == blocks;
  }

  /** `convertMessagesToOpenAI`. */
  method ConvertMessages(marshal: Json -> string, systemPrompt: string, messages: seq<Message>)
    returns (out: seq<ChatMessage>)
    ensures out == Convert(marshal, systemPrompt, messages)
  {
    out := [SystemMsg(systemPrompt)];
    for i := 0 to |messages|
      invariant out == [SystemMsg(systemPrompt)] + ConvertAll(marshal, messages[..i])
    {
      ConvertNext(marshal, messages, i);
      Associate([SystemMsg(systemPrompt)], ConvertAll(marshal, messages[..i]), ConvertOne(marshal, messages[i]));
      match messages[i]
      case Plain(role, text) => out := out + [ChatMsg(role, text)];
      case Blocks(Assistant, blocks) =>
        var m := ConvertAssistant(marshal, blocks);
        out := out + [m];
      case Blocks(User, blocks) =>
        var results := ConvertResults(blocks);
        out := out + results;
    }
    assert messages[..|messages|] == messages;
  }

  lemma ConvertNext(marshal: Json -> string, messages: seq<Message>, i: nat)
    requires i < |messages|
    ensures ConvertAll(marshal, messages[..i + 1])
         == ConvertAll(marshal, messages[..i]) + ConvertOne(marshal, messages[i])
  {
    assert messages[..i + 1][..i] == messages[..i];
  }

  lemma Associate(a: seq<ChatMessage>, b: seq<ChatMessage>, c: seq<ChatMessage>)
    ensures a + b + c == a + (b + c)
  {
  }

  // ----- Well-formedness -----

  /** The tool messages at the head of `out` answer these calls, in this order. */
  ghost predicate AnswersCalls(out: seq<ChatMessage>, calls: seq<ToolCall>) {
    && |calls| <= |out|
    && forall i :: 0 <= i < |calls| ==> out[i].ToolMsg? && out[i].toolCallId == calls[i].id
  }

  /** Every assistant message with k calls is followed immediately by exactly k tool messages with the same
      ids in the same order, and there are no other tool messages. */
  ghost predicate WellFormed(out: seq<ChatMessage>)
    decreases |out|
  {
    out == []
    || match out[0]
       case ToolMsg(_, _) => false
       case AssistantMsg(_, calls) => AnswersCalls(out[1..], calls) && WellFormed(out[1 + |calls|..])
       case _ => WellFormed(out[1..])
  }

  lemma AnswersMore(out: seq<ChatMessage>, more: seq<ChatMessage>, calls: seq<ToolCall>)
    requires AnswersCalls(out, calls)
    ensures AnswersCalls(out + more, calls)
    ensures (out + more)[|calls|..] == out[|calls|..] + more
  {
  }

  lemma {:induction false} WellFormedConcat(a: seq<ChatMessage>, b: seq<ChatMessage>)
    requires WellFormed(a) && WellFormed(b)
    ensures WellFormed(a + b)
    decreases |a|
  {
    if a == [] {
      assert a + b == b;
    } else {
      var rest := a[1..];
      assert (a + b)[0] == a[0] && (a + b)[1..] == rest + b;
      match a[0]
      case AssistantMsg(_, calls) =>
        AnswersMore(rest, b, calls);
        assert a[1 + |calls|..] == rest[|calls|..];
        WellFormedConcat(rest[|calls|..], b);
        assert (a + b)[1 + |calls|..] == (rest + b)[|calls|..];
      case SystemMsg(_) => WellFormedConcat(rest, b);
      case ChatMsg(_, _) => WellFormedConcat(rest, b);
      case ToolMsg(_, _) =>
    }
  }

  /** Calls are converted one for one. */
  lemma {:induction false} CallsOfUses(marshal: Json -> string, blocks: seq<Block>)
    ensures var calls, uses := CallsOf(marshal, blocks), Uses(blocks);
            && |calls| == |uses|
            && forall i :: 0 <= i < |uses| ==>
                 uses[i].ToolUse? && calls[i] == ToolCall(uses[i].id, uses[i].name, marshal(uses[i].input))
    decreases |blocks|
  {
    if blocks != [] {
      CallsOfUses(marshal, blocks[..|blocks| - 1]);
    }
  }

  /** Results are converted one for one. */
  lemma {:induction false} ResultsOfAll(blocks: seq<Block>)
    requires forall i :: 0 <= i < |blocks| ==> blocks[i].ToolResult?
    ensures |ResultsOf(blocks)| == |blocks|
    ensures forall i :: 0 <= i < |blocks| ==> ResultsOf(blocks)[i] == ToolMsg(blocks[i].toolUseId, blocks[i].content)
    decreases |blocks|
  {
    if blocks != [] {
      ResultsOfAll(blocks[..|blocks| - 1]);
    }
  }

  /** One assistant message and the answers to its calls. */
  lemma TurnWellFormed(content: string, calls: seq<ToolCall>, tools: seq<ChatMessage>)
    requires AnswersCalls(tools, calls) && |tools| == |calls|
    ensures WellFormed([AssistantMsg(content, calls)] + tools)
  {
    var out := [AssistantMsg(content, calls)] + tools;
    assert out[1..] == tools;
    assert out[1 + |calls|..] == [];
  }

  lemma ResultsAnswer(marshal: Json -> string, blocks: seq<Block>, results: seq<Block>)
    requires Answers(results, Uses(blocks))
    ensures AnswersCalls(ResultsOf(results), CallsOf(marshal, blocks))
    ensures |ResultsOf(results)| == |CallsOf(marshal, blocks)|
  {
    CallsOfUses(marshal, blocks);
    ResultsOfAll(results);
  }

  lemma ConvertAppend(marshal: Json -> string, messages: seq<Message>, m: Message)
    ensures ConvertAll(marshal, messages + [m]) == ConvertAll(marshal, messages) + ConvertOne(marshal, m)
  {
    assert (messages + [m])[..|messages|] == messages;
  }

  /** The last two messages of a transcript convert to one stretch of chat. */
  lemma ConvertTurn(marshal: Json -> string, messages: seq<Message>, blocks: seq<Block>, results: seq<Block>)
    requires |messages| >= 2 && messages[|messages| - 2] == Blocks(Assistant, blocks)
    requires messages[|messages| - 1] == Blocks(User, results)
    ensures ConvertAll(marshal, messages)
         == ConvertAll(marshal, messages[..|messages| - 2])
            + ([AssistantOf(marshal, blocks)] + ResultsOf(results))
  {
    var init := messages[..|messages| - 2];
    var a, b := Blocks(Assistant, blocks), Blocks(User, results);
    assert messages == init + [a] + [b];
    ConvertAppend(marshal, init, a);
    ConvertAppend(marshal, init + [a], b);
    Associate(ConvertAll(marshal, init), ConvertOne(marshal, a), ConvertOne(marshal, b));
  }

  lemma {:induction false} PairedIsWellFormed(marshal: Json -> string, messages: seq<Message>)
    requires Paired(messages)
    ensures WellFormed(ConvertAll(marshal, messages))
    decreases |messages|
  {
    var n := |messages|;
    if n > 0 {
      if messages[n - 1].Plain? {
        PairedIsWellFormed(marshal, messages[..n - 1]);
        PlainWellFormed(messages[n - 1].role, messages[n - 1].text);
        WellFormedConcat(ConvertAll(marshal, messages[..n - 1]), ConvertOne(marshal, messages[n - 1]));
      } else {
        var blocks, results := messages[n - 2].blocks, messages[n - 1].blocks;
        PairedIsWellFormed(marshal, messages[..n - 2]);
        ResultsAnswer(marshal, blocks, results);
        TurnWellFormed(Join(Texts(blocks), "\n"), CallsOf(marshal, blocks), ResultsOf(results));
        WellFormedConcat(ConvertAll(marshal, messages[..n - 2]),
                         [AssistantOf(marshal, blocks)] + ResultsOf(results));
        ConvertTurn(marshal, messages, blocks, results);
      }
    }
  }

  lemma PlainWellFormed(role: Role, text: string)
    ensures WellFormed([ChatMsg(role, text)])
  {
    assert [ChatMsg(role, text)][1..] == [];
  }

  /** The tool calls a converted transcript shows, in order. */
  function Shown(out: seq<ChatMessage>): seq<ToolCall>
    decreases |out|
  {
    if out == [] then []
    else Shown(out[..|out| - 1]) + if out[|out| - 1].AssistantMsg? then out[|out| - 1].toolCalls else []
  }

  lemma {:induction false} ShownConcat(a: seq<ChatMessage>, b: seq<ChatMessage>)
    ensures Shown(a + b) == Shown(a) + Shown(b)
    decreases |b|
  {
    if b == [] {
      assert a + b == a;
    } else {
      assert (a + b)[..|a + b| - 1] == a + b[..|b| - 1];
      ShownConcat(a, b[..|b| - 1]);
    }
  }

  lemma {:induction false} ResultsShowNothing(blocks: seq<Block>)
    ensures Shown(ResultsOf(blocks)) == []
    decreases |blocks|
  {
    if blocks != [] {
      ResultsShowNothing(blocks[..|blocks| - 1]);
      ShownConcat(ResultsOf(blocks[..|blocks| - 1]),
                  if blocks[|blocks| - 1].ToolResult?
                  then [ToolMsg(blocks[|blocks| - 1].toolUseId, blocks[|blocks| - 1].content)] else []);
    }
  }

  /** The calls shown are the calls of the transcript, name and arguments in order. */
  ghost predicate ShowsCalls(marshal: Json -> string, shown: seq<ToolCall>, called: seq<Block>) {
    && |shown| == |called|
    && forall i :: 0 <= i < |called| ==>
         called[i].ToolUse? && shown[i] == ToolCall(called[i].id, called[i].name, marshal(called[i].input))
  }

  lemma {:induction false} ShowsAllCalls(marshal: Json -> string, messages: seq<Message>)
    ensures ShowsCalls(marshal, Shown(ConvertAll(marshal, messages)), Called(messages))
    decreases |messages|
  {
    if messages != [] {
      var init, m := messages[..|messages| - 1], messages[|messages| - 1];
      ShowsAllCalls(marshal, init);
      ShownConcat(ConvertAll(marshal, init), ConvertOne(marshal, m));
      match m
      case Plain(role, text) =>
        assert Shown([ChatMsg(role, text)]) == Shown([]) + [];
      case Blocks(Assistant, blocks) =>
        CallsOfUses(marshal, blocks);
        var one := ConvertOne(marshal, m);
        assert one[..0] == [];
        assert Shown(one) == CallsOf(marshal, blocks);
      case Blocks(User, blocks) => ResultsShowNothing(blocks);
    }
  }

  lemma HeadedBySystem(systemPrompt: string, out: seq<ChatMessage>)
    requires WellFormed(out)
    ensures WellFormed([SystemMsg(systemPrompt)] + out)
    ensures Shown([SystemMsg(systemPrompt)] + out) == Shown(out)
  {
    var head := [SystemMsg(systemPrompt)];
    assert head[1..] == [];
    WellFormedConcat(head, out);
    assert head[..0] == [] && Shown(head) == [];
    ShownConcat(head, out);
  }

  /** A log that follows the calls of a transcript is what its chat shows. */
  lemma ShownIsLogged(marshal: Json -> string, shown: seq<ToolCall>, log: seq<Action>, from: nat, called: seq<Block>)
    requires from <= |log| && ShowsCalls(marshal, shown, called) && LogsCalls(log[from..], called)
    ensures |shown| + from == |log|
    ensures forall i :: 0 <= i < |shown| ==>
              shown[i].name == log[from + i].tool && shown[i].arguments == marshal(log[from + i].input)
  {
    assert forall i :: 0 <= i < |shown| ==> log[from..][i] == log[from + i];
  }

  /** After any number of turns of any run the chat the model is called with is well-formed, and what it shows
      as tool calls is, after the bootstrap's own actions, exactly the action log. */
  lemma TranscriptAtEveryCall(env: Env, prompt: string, systemPrompt: string, turns: nat)
    ensures var s := Walk(env, Start(prompt), turns); var out := Convert(env.marshal, systemPrompt, s.messages);
            && WellFormed(out)
            && s.booted <= 3 && |Shown(out)| + s.booted == |s.actions|
            && forall i :: 0 <= i < |Shown(out)| ==>
                 && Shown(out)[i].name == s.actions[s.booted + i].tool
                 && Shown(out)[i].arguments == env.marshal(s.actions[s.booted + i].input)
  {
    StartSound(env, prompt);
    WalkKeeps(env, Start(prompt), turns);
    var s := Walk(env, Start(prompt), turns);
    var out := ConvertAll(env.marshal, s.messages);
    PairedIsWellFormed(env.marshal, s.messages);
    HeadedBySystem(systemPrompt, out);
    ShowsAllCalls(env.marshal, s.messages);
    ShownIsLogged(env.marshal, Shown(out), s.actions, s.booted, Called(s.messages));
  }
}
