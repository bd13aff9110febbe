/** What the converted chat says, message by message: nothing of the transcript is lost, added or reordered. */
module TranscriptContent {
  import opened ActionLog
  import opened AgentModel
  import opened AgentRuns
  import opened AgentOutcomes
  import opened Transcript

  // ----- Filters -----

  /** The elements to keep, in order. */
  function Only<T>(keep: T -> bool, xs: seq<T>): seq<T>
    decreases |xs|
  {
    if xs == [] then []
    else Only(keep, xs[..|xs| - 1]) + if keep(xs[|xs| - 1]) then [xs[|xs| - 1]] else []
  }

  lemma {:induction false} OnlyConcat<T>(keep: T -> bool, a: seq<T>, b: seq<T>)
    ensures Only(keep, a + b) == Only(keep, a) + Only(keep, b)
    decreases |b|
  {
    if b == [] {
      assert a + b == a;
    } else {
      assert (a + b)[..|a + b| - 1] == a + b[..|b| - 1];
      OnlyConcat(keep, a, b[..|b| - 1]);
    }
  }

  lemma OnlyOne<T>(keep: T -> bool, x: T)
    ensures Only(keep, [x]) == if keep(x) then [x] else []
  {
    assert [x][..0] == [];
  }

  lemma {:induction false} OnlyAll<T>(keep: T -> bool, xs: seq<T>)
    ensures (forall i :: 0 <= i < |xs| ==> keep(xs[i])) ==> Only(keep, xs) == xs
    ensures (forall i :: 0 <= i < |xs| ==> !keep(xs[i])) ==> Only(keep, xs) == []
    decreases |xs|
  {
    if xs != [] {
      OnlyAll(keep, xs[..|xs| - 1]);
    }
  }

  function Chats(out: seq<ChatMessage>): seq<ChatMessage> {
    Only((m: ChatMessage) => m.ChatMsg?, out)
  }

  function Tools(out: seq<ChatMessage>): seq<ChatMessage> {
    Only((m: ChatMessage) => m.ToolMsg?, out)
  }

  function Assistants(out: seq<ChatMessage>): seq<ChatMessage> {
    Only((m: ChatMessage) => m.AssistantMsg?, out)
  }

  function Plains(messages: seq<Message>): seq<Message> {
    Only((m: Message) => m.Plain?, messages)
  }

  function Replies(messages: seq<Message>): seq<Message> {
    Only((m: Message) => m.Blocks? && m.role == Assistant, messages)
  }

  // ----- One message -----

  lemma {:induction false} ResultsAreTools(blocks: seq<Block>)
    ensures forall i :: 0 <= i < |ResultsOf(blocks)| ==> ResultsOf(blocks)[i].ToolMsg?
    decreases |blocks|
  {
    if blocks != [] {
      ResultsAreTools(blocks[..|blocks| - 1]);
    }
  }

  lemma AllTools(part: seq<ChatMessage>)
    requires forall i :: 0 <= i < |part| ==> part[i].ToolMsg?
    ensures Chats(part) == [] && Tools(part) == part && Assistants(part) == []
  {
    OnlyAll((x: ChatMessage) => x.ChatMsg?, part);
    OnlyAll((x: ChatMessage) => x.ToolMsg?, part);
    OnlyAll((x: ChatMessage) => x.AssistantMsg?, part);
  }

  lemma OneOnly(m: ChatMessage)
    ensures Chats([m]) == (if m.ChatMsg? then [m] else [])
    ensures Tools([m]) == (if m.ToolMsg? then [m] else [])
    ensures Assistants([m]) == (if m.AssistantMsg? then [m] else [])
  {
    OnlyOne((x: ChatMessage) => x.ChatMsg?, m);
    OnlyOne((x: ChatMessage) => x.ToolMsg?, m);
    OnlyOne((x: ChatMessage) => x.AssistantMsg?, m);
  }

  /** A plain message stays one, with its role and text; an assistant's turn becomes one assistant message; and the
      user's answers become tool messages only. */
  lemma OneMessage(marshal: Json -> string, m: Message)
    ensures var part := ConvertOne(marshal, m);
            && Chats(part) == (if m.Plain? then [ChatMsg(m.role, m.text)] else [])
            && Tools(part) == (if m.Blocks? && m.role == User then ResultsOf(m.blocks) else [])
            && Assistants(part) == (if m.Blocks? && m.role == Assistant then part else [])
            && (m.Blocks? && m.role == Assistant ==> |part| == 1)
  {
    match m
    case Plain(role, text) => OneOnly(ChatMsg(role, text));
    case Blocks(Assistant, blocks) => OneOnly(AssistantOf(marshal, blocks));
    case Blocks(User, blocks) =>
      ResultsAreTools(blocks);
      AllTools(ResultsOf(blocks));
  }

  // ----- Whole transcripts -----

  lemma {:induction false} ConvertConcat(marshal: Json -> string, a: seq<Message>, b: seq<Message>)
    ensures ConvertAll(marshal, a + b) == ConvertAll(marshal, a) + ConvertAll(marshal, b)
    decreases |b|
  {
    if b == [] {
      assert a + b == a;
    } else {
      assert (a + b)[..|a + b| - 1] == a + b[..|b| - 1];
      ConvertConcat(marshal, a, b[..|b| - 1]);
      Transcript.Associate(ConvertAll(marshal, a), ConvertAll(marshal, b[..|b| - 1]), ConvertOne(marshal, b[|b| - 1]));
    }
  }

  /** The chat's plain messages are the transcript's, in order, each with its own role and text. */
  lemma {:induction false} PlainsKept(marshal: Json -> string, messages: seq<Message>)
    ensures var chats, plains := Chats(ConvertAll(marshal, messages)), Plains(messages);
            && |chats| == |plains|
            && forall i :: 0 <= i < |plains| ==> plains[i].Plain? && chats[i] == ChatMsg(plains[i].role, plains[i].text)
    decreases |messages|
  {
    if messages != [] {
      var init, m := messages[..|messages| - 1], messages[|messages| - 1];
      PlainsKept(marshal, init);
      OnlyConcat((x: ChatMessage) => x.ChatMsg?, ConvertAll(marshal, init), ConvertOne(marshal, m));
      OneMessage(marshal, m);
    }
  }

  /** Message i carries answer i, to the same call. */
  ghost predicate Carry(tools: seq<ChatMessage>, results: seq<Block>) {
    && |tools| == |results|
    && forall i :: 0 <= i < |results| ==>
         results[i].ToolResult? ==> tools[i] == ToolMsg(results[i].toolUseId, results[i].content)
  }

  lemma CarryConcat(tools: seq<ChatMessage>, results: seq<Block>, tools': seq<ChatMessage>, results': seq<Block>)
    requires Carry(tools, results) && Carry(tools', results')
    ensures Carry(tools + tools', results + results')
  {
  }

  ghost predicate AllResults(results: seq<Block>) {
    forall i :: 0 <= i < |results| ==> results[i].ToolResult?
  }

  lemma AllResultsParts(a: seq<Block>, b: seq<Block>)
    requires AllResults(a + b)
    ensures AllResults(a) && AllResults(b)
  {
    assert forall i :: 0 <= i < |a| ==> a[i] == (a + b)[i];
    assert forall i :: 0 <= i < |b| ==> b[i] == (a + b)[|a| + i];
  }

  lemma ResultsCarry(blocks: seq<Block>)
    requires AllResults(blocks)
    ensures Carry(ResultsOf(blocks), blocks)
  {
    ResultsOfAll(blocks);
  }

  /** Its tool messages are the answers in the transcript, in order. */
  lemma {:induction false} AnswersKept(marshal: Json -> string, messages: seq<Message>)
    requires AllResults(Results(messages))
    ensures Carry(Tools(ConvertAll(marshal, messages)), Results(messages))
    decreases |messages|
  {
    if messages != [] {
      var init, m := messages[..|messages| - 1], messages[|messages| - 1];
      var more := if m.Blocks? && m.role == User then m.blocks else [];
      AllResultsParts(Results(init), more);
      AnswersKept(marshal, init);
      ToolsOfLast(marshal, init, m);
      ResultsCarry(more);
      CarryConcat(Tools(ConvertAll(marshal, init)), Results(init), ResultsOf(more), more);
    }
  }

  lemma ToolsOfLast(marshal: Json -> string, init: seq<Message>, m: Message)
    ensures Tools(ConvertAll(marshal, init) + ConvertOne(marshal, m))
         == Tools(ConvertAll(marshal, init)) + if m.Blocks? && m.role == User then ResultsOf(m.blocks) else []
  {
    OnlyConcat((x: ChatMessage) => x.ToolMsg?, ConvertAll(marshal, init), ConvertOne(marshal, m));
    OneMessage(marshal, m);
  }

  /** Its assistant messages are the model's turns, in order, each with its texts, one to a line, and its calls. */
  lemma {:induction false} RepliesKept(marshal: Json -> string, messages: seq<Message>)
    ensures var said, replies := Assistants(ConvertAll(marshal, messages)), Replies(messages);
            && |said| == |replies|
            && forall i :: 0 <= i < |replies| ==>
                 replies[i].Blocks?
                 && said[i] == AssistantMsg(Join(Texts(replies[i].blocks), "\n"), CallsOf(marshal, replies[i].blocks))
    decreases |messages|
  {
    if messages != [] {
      var init, m := messages[..|messages| - 1], messages[|messages| - 1];
      RepliesKept(marshal, init);
      OnlyConcat((x: ChatMessage) => x.AssistantMsg?, ConvertAll(marshal, init), ConvertOne(marshal, m));
      OneMessage(marshal, m);
    }
  }

  // ----- Texts -----

  /** The texts of a reply are its non-empty text blocks, in order. */
  lemma {:induction false} TextsAre(blocks: seq<Block>)
    ensures var kept := Only((b: Block) => b.TextBlock? && b.text != "", blocks);
            && |Texts(blocks)| == |kept|
            && forall i :: 0 <= i < |kept| ==> kept[i] == TextBlock(Texts(blocks)[i])
    decreases |blocks|
  {
    if blocks != [] {
      TextsAre(blocks[..|blocks| - 1]);
    }
  }

  /** And they are what the run emits as messages when the reply comes in. */
  lemma {:induction false} TextsAreEvents(blocks: seq<Block>)
    ensures |TextEvents(blocks)| == |Texts(blocks)|
    ensures forall i :: 0 <= i < |Texts(blocks)| ==> TextEvents(blocks)[i] == MessageEvent(Texts(blocks)[i])
    decreases |blocks|
  {
    if blocks != [] {
      TextsAreEvents(blocks[..|blocks| - 1]);
    }
  }

  /** Joined texts are the texts themselves with one separator between any two neighbours. */
  lemma {:induction false} JoinConcat(a: seq<string>, b: seq<string>, separator: string)
    requires a != [] && b != []
    ensures Join(a + b, separator) == Join(a, separator) + separator + Join(b, separator)
    decreases |b|
  {
    var init := b[..|b| - 1];
    assert (a + b)[..|a + b| - 1] == a + init;
    if init == [] {
      assert a + init == a;
    } else {
      JoinConcat(a, init, separator);
      assert Join(b, separator) == Join(init, separator) + separator + b[|b| - 1];
    }
  }

  lemma JoinSmallest(text: string, separator: string)
    ensures Join([], separator) == "" && Join([text], separator) == text
  {
  }

  // ----- In every run -----

  lemma StepTalksOn(env: Env, s: Loop)
    ensures s.messages <= Step(env, s).messages
  {
    var answered, s2, blocks := StepCases(env, s);
    if answered && !HasToolUse(blocks) {
      var _ := TextTurnShape(env, s2);
    }
  }

  /** The transcript starts with the user's prompt. */
  lemma PromptFirst(env: Env, prompt: string, turns: nat)
    ensures [Plain(User, prompt)] <= Walk(env, Start(prompt), turns).messages
  {
    var inv := (x: Loop) => [Plain(User, prompt)] <= x.messages;
    forall x: Loop | GoesOn(x) && inv(x) ensures inv(Turns(env)(x)) {
      StepTalksOn(env, x);
    }
    IterateKeeps(Turns(env), GoesOn, inv, Start(prompt), turns);
  }

  lemma ConvertFirst(marshal: Json -> string, prompt: string, messages: seq<Message>)
    requires [Plain(User, prompt)] <= messages
    ensures ConvertAll(marshal, messages) != [] && ConvertAll(marshal, messages)[0] == ChatMsg(User, prompt)
  {
    var first := [Plain(User, prompt)];
    assert messages == first + messages[1..] && first[..0] == [];
    ConvertConcat(marshal, first, messages[1..]);
    assert ConvertAll(marshal, first) == [ChatMsg(User, prompt)];
  }

  lemma HeadIsNoTool(systemPrompt: string, out: seq<ChatMessage>)
    ensures Tools([SystemMsg(systemPrompt)] + out) == Tools(out)
    ensures Chats([SystemMsg(systemPrompt)] + out) == Chats(out)
  {
    var head := [SystemMsg(systemPrompt)];
    OnlyConcat((m: ChatMessage) => m.ToolMsg?, head, out);
    OnlyOne((m: ChatMessage) => m.ToolMsg?, head[0]);
    OnlyConcat((m: ChatMessage) => m.ChatMsg?, head, out);
    OnlyOne((m: ChatMessage) => m.ChatMsg?, head[0]);
  }

  /** Tool message k is the answer to the call at position `from` + k of the log. */
  ghost predicate Reported(env: Env, log: seq<Action>, from: nat, tools: seq<ChatMessage>) {
    && from <= |log| && |tools| == |log| - from
    && forall k :: 0 <= k < |tools| ==>
         var o := env.tools(from + k, log[from + k].tool, log[from + k].input);
         tools[k].ToolMsg?
         && tools[k].content == if o.ToolError? then "error: " + o.error else env.marshal(o.value)
  }

  lemma ToldIsReported(env: Env, log: seq<Action>, from: nat, results: seq<Block>, tools: seq<ChatMessage>)
    requires Told(env, log, from, results) && Carry(tools, results)
    ensures Reported(env, log, from, tools)
  {
  }

  /** At every call of the model in every run, the chat starts with the system prompt and the user's own prompt, and
      its tool messages tell, after the bootstrap's own calls, what each call in the log brought back. */
  lemma ChatTellsWhatHappened(env: Env, prompt: string, systemPrompt: string, turns: nat)
    ensures var s := Walk(env, Start(prompt), turns); var out := Convert(env.marshal, systemPrompt, s.messages);
            && |out| >= 2 && out[0] == SystemMsg(systemPrompt) && out[1] == ChatMsg(User, prompt)
            && Reported(env, s.actions, s.booted, Tools(out))
  {
    var s := Walk(env, Start(prompt), turns);
    AnswersAreOutcomes(env, prompt, turns);
    PromptFirst(env, prompt, turns);
    ConvertFirst(env.marshal, prompt, s.messages);
    AnswersKept(env.marshal, s.messages);
    HeadIsNoTool(systemPrompt, ConvertAll(env.marshal, s.messages));
    ToldIsReported(env, s.actions, s.booted, Results(s.messages), Tools(ConvertAll(env.marshal, s.messages)));
  }
}
