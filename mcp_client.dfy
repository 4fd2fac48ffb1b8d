/** The chat client of app/mcp_client.py: it offers the tools an MCP server
    lists to the model, pulls a structured call out of each reply, has the
    server run it, folds the result back into the history, and gives up after
    a fixed number of model calls. The MCP stdio sessions and the model
    backend are parameters. */
module McpClient {
  import opened Wrappers
  import opened Text
  import opened PyValue
  import opened CallExtraction
  import opened Conversation

  /** A tool as the MCP server lists it. */
  datatype ToolInfo = ToolInfo(name: string, description: string, inputSchema: Json)

  predicate DistinctNames(tools: seq<ToolInfo>) {
    forall i, j :: 0 <= i < j < |tools| ==> tools[i].name != tools[j].name
  }

  /** The dict `available_tools`: one entry per tool name, in insertion order. */
  type ToolTable = tools: seq<ToolInfo> | DistinctNames(tools)

  /** `call_tool(name, arguments)` over an MCP session: `Success(text)` for
      `{"success": True, "result": text}`, `Failure(e)` for
      `{"success": False, "error": e}`. It never raises. */
  type ToolCaller = (Json, Json) -> Result<string, string>

  const NoToolsAnswer: string := "Error: No tools available"
  const ExhaustedAnswer: string := "Sorry, I couldn't complete that request after several attempts."

  // ---------------------------------------------------------------------------
  // The system prompt
  // ---------------------------------------------------------------------------

  function ToolLine(tool: ToolInfo): string {
    "- " + tool.name + ": " + tool.description
  }

  const PromptHead: string := "You have access to these tools:\n"
  const PromptFormatLead: string :=
    "\n\nWhen you need to use a tool, respond with a JSON object in this format:\n"
  const PromptFormatRest: string :=
    " {\"name\": \"tool_name\", \"arguments\": {...}}}\n\n" +
    "After calling a tool, use the result to provide a helpful response to the user.\n" +
    "If you don't need to use any tools, respond normally without the JSON format.\n"

  function SystemPrompt(tools: seq<ToolInfo>): string {
    PromptHead + Join(Lines(tools, ToolLine), '\n') + PromptFormatLead + Marker + PromptFormatRest
  }

  /** The prompt lists each tool by name and description. */
  lemma PromptListsTool(tools: seq<ToolInfo>, i: nat)
    requires i < |tools|
    ensures exists k :: OccursAt(SystemPrompt(tools), ToolLine(tools[i]), k)
  {
    var lines := Join(Lines(tools, ToolLine), '\n');
    JoinHasPart(Lines(tools, ToolLine), '\n', i);
    var k :| OccursAt(lines, Lines(tools, ToolLine)[i], k);
    OccursInTemplate(PromptHead, lines, PromptFormatLead, Marker, PromptFormatRest, ToolLine(tools[i]), k);
    assert OccursAt(SystemPrompt(tools), ToolLine(tools[i]), |PromptHead| + k);
  }

  /** The prompt shows the model the exact marker the extractor looks for. */
  lemma PromptShowsMarker(tools: seq<ToolInfo>)
    ensures Find(SystemPrompt(tools), Marker).Some?
  {
    OccursBetween(PromptHead + Join(Lines(tools, ToolLine), '\n') + PromptFormatLead, Marker, PromptFormatRest);
  }

  // ---------------------------------------------------------------------------
  // One round of the loop, and the whole loop
  // ---------------------------------------------------------------------------

  /** `tool_call["name"]`, then `tool_call["arguments"]`: the call's target, or
      the text of the `KeyError`/`TypeError` the first failing lookup raises. */
  function CallTarget(call: Json): Result<(Json, Json), string> {
    match Subscript(call, "name")
    case Failure(e) => Failure(e)
    case Success(name) =>
      match Subscript(call, "arguments")
      case Failure(e) => Failure(e)
      case Success(arguments) => Success((name, arguments))
  }

  /** The user message that folds a tool's outcome into the history. */
  function ToolResultText(result: Result<string, string>): string {
    "Tool result: " + (match result case Success(text) => text case Failure(e) => "Error: " + e)
  }

  /** One pass of the loop body on the history as it stands: any exception
      (from the backend, or from subscripting the call) ends the loop with
      `Error: <msg>`; a falsy call ends it with the reply. */
  function LoopRound(history: seq<Message>, complete: Backend, parse: Parser, callTool: ToolCaller): Round {
    match complete(history)
    case Failure(e) => Stop(Errored, "Error: " + e)
    case Success(reply) =>
      var call := ExtractWithCloseFallback(reply, parse);
      if !Truthy(call) then Stop(Answered, reply)
      else
        match CallTarget(call)
        case Failure(e) => Stop(Errored, "Error: " + e)
        case Success(target) => Continue(reply, ToolResultText(callTool(target.0, target.1)))
  }

  /** The loop from attempt `attempt` on, with `history` as it stands then. */
  function LoopFrom(history: seq<Message>, attempt: nat, maxLoops: int,
                    complete: Backend, parse: Parser, callTool: ToolCaller): Run
    decreases maxLoops - attempt
  {
    if attempt >= maxLoops then Run(Exhausted, ExhaustedAnswer, history, attempt)
    else
      match LoopRound(history, complete, parse, callTool)
      case Stop(exit, answer) => Run(exit, answer, history, attempt + 1)
      case Continue(reply, feedback) =>
        LoopFrom(history + Folded(reply, feedback), attempt + 1, maxLoops, complete, parse, callTool)
  }

  /** `chat_with_tools(user_message)` with `tools` as the available tools. */
  function Chat(tools: seq<ToolInfo>, userMessage: string, maxLoops: int,
                complete: Backend, parse: Parser, callTool: ToolCaller): Run
  {
    if |tools| == 0 then Run(NoTools, NoToolsAnswer, [], 0)
    else LoopFrom(Seed(SystemPrompt(tools), userMessage), 0, maxLoops, complete, parse, callTool)
  }

  /** What a round that goes on has seen: the backend's reply to the history,
      holding a truthy call with both `"name"` and `"arguments"`, whose
      outcome is the feedback. */
  lemma RoundContinues(history: seq<Message>, complete: Backend, parse: Parser, callTool: ToolCaller)
    requires LoopRound(history, complete, parse, callTool).Continue?
    ensures var round := LoopRound(history, complete, parse, callTool);
      && complete(history) == Success(round.reply)
      && var call := ExtractWithCloseFallback(round.reply, parse);
         Truthy(call) && CallTarget(call).Success? &&
         round.feedback == ToolResultText(callTool(CallTarget(call).value.0, CallTarget(call).value.1))
  {
  }

  /** How a round that stops ends: with the reply when it holds no truthy
      call, and with `Error: <msg>` for the backend's exception or for the
      `KeyError`/`TypeError` of a call lacking `"name"` or `"arguments"`. */
  lemma RoundStops(history: seq<Message>, complete: Backend, parse: Parser, callTool: ToolCaller)
    requires LoopRound(history, complete, parse, callTool).Stop?
    ensures var round := LoopRound(history, complete, parse, callTool);
      && round.exit in {Answered, Errored}
      && (round.exit == Answered ==>
            complete(history) == Success(round.answer) && !Truthy(ExtractWithCloseFallback(round.answer, parse)))
      && (round.exit == Errored ==>
            match complete(history)
            case Failure(e) => round.answer == "Error: " + e
            case Success(reply) =>
              var call := ExtractWithCloseFallback(reply, parse);
              Truthy(call) && CallTarget(call).Failure? && round.answer == "Error: " + CallTarget(call).error)
  {
  }

  /** `history[from..]` is made of rounds that went on, each folded onto the
      history before it. */
  ghost predicate CallRounds(history: seq<Message>, from: nat,
                             complete: Backend, parse: Parser, callTool: ToolCaller)
    requires from <= |history|
    decreases |history| - from
  {
    from == |history| ||
    (from + 2 <= |history| &&
     var round := LoopRound(history[..from], complete, parse, callTool);
     round.Continue? && history[from..from + 2] == Folded(round.reply, round.feedback) &&
     CallRounds(history, from + 2, complete, parse, callTool))
  }

  lemma {:induction false} CallRoundsPrefix(history: seq<Message>, more: seq<Message>, from: nat,
                                            complete: Backend, parse: Parser, callTool: ToolCaller)
    requires from + 2 == |history| <= |more|
    requires CallRounds(more, |history|, complete, parse, callTool)
    requires more[..|history|] == history
    requires var round := LoopRound(history[..from], complete, parse, callTool);
      round.Continue? && history[from..] == Folded(round.reply, round.feedback)
    ensures CallRounds(more, from, complete, parse, callTool)
  {
    assert more[..from] == history[..from];
    assert more[from..from + 2] == history[from..];
  }

  /** A round that goes on hands the loop on with the round folded in. */
  lemma ContinueStep(history: seq<Message>, attempt: nat, maxLoops: int,
                     complete: Backend, parse: Parser, callTool: ToolCaller)
    requires attempt < maxLoops
    requires LoopRound(history, complete, parse, callTool).Continue?
    ensures var round := LoopRound(history, complete, parse, callTool);
      LoopFrom(history, attempt, maxLoops, complete, parse, callTool)
        == LoopFrom(history + Folded(round.reply, round.feedback), attempt + 1, maxLoops, complete, parse, callTool)
  {
  }

  /** A round that stops ends the loop with its exit, which is never exhaustion. */
  lemma StopStep(history: seq<Message>, attempt: nat, maxLoops: int,
                 complete: Backend, parse: Parser, callTool: ToolCaller)
    requires attempt < maxLoops
    requires LoopRound(history, complete, parse, callTool).Stop?
    ensures var round := LoopRound(history, complete, parse, callTool);
      && LoopFrom(history, attempt, maxLoops, complete, parse, callTool)
           == Run(round.exit, round.answer, history, attempt + 1)
      && round.exit != Exhausted
  {
  }

  /** How the loop ends, from any attempt on: with an answer, an error or,
      once the rounds run out, the fixed apology after `maxLoops` questions. */
  lemma {:induction false} LoopExits(history: seq<Message>, attempt: nat, maxLoops: int,
                                     complete: Backend, parse: Parser, callTool: ToolCaller)
    ensures var run := LoopFrom(history, attempt, maxLoops, complete, parse, callTool);
      && run.exit in {Answered, Exhausted, Errored}
      && (run.exit == Exhausted ==> run.queries == Max(attempt, maxLoops) && run.answer == ExhaustedAnswer)
    decreases maxLoops - attempt
  {
    if attempt < maxLoops {
      var round := LoopRound(history, complete, parse, callTool);
      if round.Continue? {
        ContinueStep(history, attempt, maxLoops, complete, parse, callTool);
        LoopExits(history + Folded(round.reply, round.feedback), attempt + 1, maxLoops, complete, parse, callTool);
        assert Max(attempt + 1, maxLoops) == Max(attempt, maxLoops);
      } else {
        StopStep(history, attempt, maxLoops, complete, parse, callTool);
      }
    }
  }

  /** The backend is asked at most `maxLoops` times in all, and at least once
      more whenever the loop stops on a reply. */
  lemma {:induction false} LoopQueries(history: seq<Message>, attempt: nat, maxLoops: int,
                                       complete: Backend, parse: Parser, callTool: ToolCaller)
    ensures var run := LoopFrom(history, attempt, maxLoops, complete, parse, callTool);
      && attempt <= run.queries <= Max(attempt, maxLoops)
      && (run.exit != Exhausted ==> attempt < run.queries)
    decreases maxLoops - attempt
  {
    if attempt < maxLoops {
      var round := LoopRound(history, complete, parse, callTool);
      if round.Continue? {
        ContinueStep(history, attempt, maxLoops, complete, parse, callTool);
        LoopQueries(history + Folded(round.reply, round.feedback), attempt + 1, maxLoops, complete, parse, callTool);
        assert Max(attempt + 1, maxLoops) == Max(attempt, maxLoops);
      } else {
        StopStep(history, attempt, maxLoops, complete, parse, callTool);
      }
    }
  }

  /** The history grows by exactly two messages per call round; the final
      reply is never appended. */
  lemma {:induction false} LoopLength(history: seq<Message>, attempt: nat, maxLoops: int,
                                      complete: Backend, parse: Parser, callTool: ToolCaller)
    ensures var run := LoopFrom(history, attempt, maxLoops, complete, parse, callTool);
      |run.history| == |history| + 2 * (run.queries - attempt - (if run.exit == Exhausted then 0 else 1))
    decreases maxLoops - attempt
  {
    if attempt < maxLoops {
      var round := LoopRound(history, complete, parse, callTool);
      if round.Continue? {
        var next := history + Folded(round.reply, round.feedback);
        ContinueStep(history, attempt, maxLoops, complete, parse, callTool);
        LoopLength(next, attempt + 1, maxLoops, complete, parse, callTool);
        assert |next| == |history| + 2;
      } else {
        StopStep(history, attempt, maxLoops, complete, parse, callTool);
      }
    }
  }

  /** How the loop's counters end up, from any attempt on: the backend is asked
      at most `maxLoops` times in all, running out of rounds gives the fixed
      apology, and the history grows by exactly two messages per call round
      (the final reply is never appended). */
  lemma LoopCounts(history: seq<Message>, attempt: nat, maxLoops: int,
                   complete: Backend, parse: Parser, callTool: ToolCaller)
    ensures var run := LoopFrom(history, attempt, maxLoops, complete, parse, callTool);
      && run.exit in {Answered, Exhausted, Errored}
      && attempt <= run.queries <= Max(attempt, maxLoops)
      && (run.exit != Exhausted ==> attempt < run.queries)
      && (run.exit == Exhausted ==> run.queries == Max(attempt, maxLoops) && run.answer == ExhaustedAnswer)
      && |run.history| == |history| + 2 * (run.queries - attempt - (if run.exit == Exhausted then 0 else 1))
  {
    LoopExits(history, attempt, maxLoops, complete, parse, callTool);
    LoopQueries(history, attempt, maxLoops, complete, parse, callTool);
    LoopLength(history, attempt, maxLoops, complete, parse, callTool);
  }

  /** The history at the end is the history at the start followed by folded
      call rounds and nothing else. */
  lemma {:induction false} LoopHistory(history: seq<Message>, attempt: nat, maxLoops: int,
                                       complete: Backend, parse: Parser, callTool: ToolCaller)
    ensures var run := LoopFrom(history, attempt, maxLoops, complete, parse, callTool);
      && |history| <= |run.history|
      && run.history[..|history|] == history
      && CallRounds(run.history, |history|, complete, parse, callTool)
    decreases maxLoops - attempt
  {
    var run := LoopFrom(history, attempt, maxLoops, complete, parse, callTool);
    if attempt < maxLoops {
      var round := LoopRound(history, complete, parse, callTool);
      if round.Continue? {
        var next := history + Folded(round.reply, round.feedback);
        LoopHistory(next, attempt + 1, maxLoops, complete, parse, callTool);
        assert run == LoopFrom(next, attempt + 1, maxLoops, complete, parse, callTool);
        assert next[..|history|] == history;
        assert next[|history|..] == Folded(round.reply, round.feedback);
        CallRoundsPrefix(next, run.history, |history|, complete, parse, callTool);
      }
    }
  }

  /** How the loop stops, other than by running out of rounds: as the round on
      the final history stops. */
  lemma {:induction false} LoopEnding(history: seq<Message>, attempt: nat, maxLoops: int,
                                      complete: Backend, parse: Parser, callTool: ToolCaller)
    ensures var run := LoopFrom(history, attempt, maxLoops, complete, parse, callTool);
      run.exit != Exhausted ==>
        LoopRound(run.history, complete, parse, callTool) == Stop(run.exit, run.answer)
    decreases maxLoops - attempt
  {
    if attempt < maxLoops {
      var round := LoopRound(history, complete, parse, callTool);
      if round.Continue? {
        LoopEnding(history + Folded(round.reply, round.feedback), attempt + 1, maxLoops, complete, parse, callTool);
      }
    }
  }

  /** A model that answers every history with a well-formed call uses up all
      `maxLoops` rounds and gets the fixed apology, with two messages folded
      in per round. */
  lemma {:induction false} AlwaysCallingExhausts(history: seq<Message>, attempt: nat, maxLoops: int,
                                                 complete: Backend, parse: Parser, callTool: ToolCaller)
    requires forall h :: complete(h).Success? &&
                         var call := ExtractWithCloseFallback(complete(h).value, parse);
                         Truthy(call) && CallTarget(call).Success?
    ensures var run := LoopFrom(history, attempt, maxLoops, complete, parse, callTool);
      && run.exit == Exhausted
      && run.answer == ExhaustedAnswer
      && run.queries == Max(attempt, maxLoops)
      && |run.history| == |history| + 2 * (Max(attempt, maxLoops) - attempt)
    decreases maxLoops - attempt
  {
    if attempt < maxLoops {
      var round := LoopRound(history, complete, parse, callTool);
      assert round.Continue?;
      AlwaysCallingExhausts(history + Folded(round.reply, round.feedback), attempt + 1, maxLoops,
                            complete, parse, callTool);
    }
  }

  /** What a whole invocation guarantees when there are tools: a history that
      starts with the system prompt and the user's message, then only folded
      call rounds (two messages each), and at most `maxLoops` model calls. */
  lemma ChatShape(tools: seq<ToolInfo>, userMessage: string, maxLoops: int,
                  complete: Backend, parse: Parser, callTool: ToolCaller)
    requires |tools| > 0
    ensures var run := Chat(tools, userMessage, maxLoops, complete, parse, callTool);
      && run.exit != NoTools
      && run.queries <= Max(0, maxLoops)
      && |run.history| >= 2
      && run.history[..2] == Seed(SystemPrompt(tools), userMessage)
      && |run.history| == 2 + 2 * (run.queries - (if run.exit == Exhausted then 0 else 1))
      && CallRounds(run.history, 2, complete, parse, callTool)
  {
    SeededLoop(Seed(SystemPrompt(tools), userMessage), maxLoops, complete, parse, callTool);
  }

  lemma SeededLoop(seed: seq<Message>, maxLoops: int,
                   complete: Backend, parse: Parser, callTool: ToolCaller)
    requires |seed| == 2
    ensures var run := LoopFrom(seed, 0, maxLoops, complete, parse, callTool);
      && run.exit != NoTools
      && run.queries <= Max(0, maxLoops)
      && |run.history| >= 2
      && run.history[..2] == seed
      && |run.history| == 2 + 2 * (run.queries - (if run.exit == Exhausted then 0 else 1))
      && CallRounds(run.history, 2, complete, parse, callTool)
  {
    LoopCounts(seed, 0, maxLoops, complete, parse, callTool);
    LoopHistory(seed, 0, maxLoops, complete, parse, callTool);
  }

  // ---------------------------------------------------------------------------
  // The client object
  // ---------------------------------------------------------------------------

  class MCPOllamaClient {
    const serverScriptPath: string
    var availableTools: ToolTable

    constructor(serverScriptPath: string)
      ensures this.serverScriptPath == serverScriptPath
      ensures availableTools == []
    {
      this.serverScriptPath := serverScriptPath;
      availableTools := [];
    }

    /** `connect()`: store the tools the server listed (`get_tools_info()`'s
        dict, empty when listing failed) and return them. */
    method Connect(listed: ToolTable) returns (tools: ToolTable)
      modifies this
      ensures availableTools == listed && tools == listed
    {
      availableTools := listed;
      tools := availableTools;
    }

    /** `create_system_prompt()`: one line per available tool, inside the fixed template. */
    method CreateSystemPrompt() returns (prompt: string)
      ensures prompt == SystemPrompt(availableTools)
    {
      var toolsInfo: seq<string> := [];
      for i := 0 to |availableTools|
        invariant toolsInfo == Lines(availableTools[..i], ToolLine)
      {
        assert availableTools[..i + 1][..i] == availableTools[..i];
        toolsInfo := toolsInfo + [ToolLine(availableTools[i])];
      }
      assert availableTools[..|availableTools|] == availableTools;
      prompt := PromptHead + Join(toolsInfo, '\n') + PromptFormatLead + Marker + PromptFormatRest;
    }

    /** `extract_tool_call(text)`: the `"tool_call"` value of the first marked
        object, or `None`. */
    method ExtractToolCall(text: string, parse: Parser) returns (call: Json)
      ensures call == ExtractWithCloseFallback(text, parse)
    {
      call := JNull;
      var found := Find(text, Marker);
      if found.None? {
        return;
      }
      var start := found.value;
      var firstClose := FindFrom(text, "}", start);
      if firstClose.None? {
        return;
      }
      var end := firstClose.value;
      var braceCount := 0;
      for i := start to |text|
        invariant braceCount == Balance(text[start..i])
        invariant MatchingClose(text, start) == FirstCloseFrom(text, start, i)
        invariant end == firstClose.value
      {
        BalanceStep(text, start, i);
        if text[i] == '{' {
          braceCount := braceCount + 1;
        } else if text[i] == '}' {
          braceCount := braceCount - 1;
          if braceCount == 0 {
            end := i;
            break;
          }
        }
      }
      assert end == ScanEnd(text, start, firstClose.value);
      assert ExtractWithCloseFallback(text, parse) == ToolCallMember(parse(text[start..end + 1]));
      call := ToolCallMember(parse(text[start..end + 1]));
    }

    /** One pass of the body of `chat_with_tools`' loop: ask the model, look
        for a call, and either stop (the reply, or the text of the exception
        the outer handler turns into `Error: <msg>`) or run the tool and
        return the two messages' texts. */
    method RunRound(history: seq<Message>, complete: Backend, parse: Parser, callTool: ToolCaller)
      returns (round: Round)
      ensures round == LoopRound(history, complete, parse, callTool)
    {
      var response := complete(history);
      if response.Failure? {
        return Stop(Errored, "Error: " + response.error);
      }
      var assistantMsg := response.value;
      var toolCall := ExtractToolCall(assistantMsg, parse);
      if !Truthy(toolCall) {
        return Stop(Answered, assistantMsg);
      }
      var name := Subscript(toolCall, "name");
      if name.Failure? {
        return Stop(Errored, "Error: " + name.error);
      }
      var arguments := Subscript(toolCall, "arguments");
      if arguments.Failure? {
        return Stop(Errored, "Error: " + arguments.error);
      }
      var toolResult := callTool(name.value, arguments.value);
      var content := "Tool result: " + (if toolResult.Success? then toolResult.value else "Error: " + toolResult.error);
      return Continue(assistantMsg, content);
    }

    /** `chat_with_tools(user_message)`: the loop itself. `MAX_LOOPS` comes from
        configuration and is a parameter here. */
    method ChatWithTools(userMessage: string, maxLoops: int,
                         complete: Backend, parse: Parser, callTool: ToolCaller)
      returns (answer: string)
      ensures answer == Chat(availableTools, userMessage, maxLoops, complete, parse, callTool).answer
      ensures |availableTools| == 0 ==> answer == NoToolsAnswer
    {
      if |availableTools| == 0 {
        return NoToolsAnswer;
      }
      var systemPrompt := CreateSystemPrompt();
      var history := [Message(System, systemPrompt), Message(User, userMessage)];
      var attempt: nat := 0;
      while attempt < maxLoops
        invariant LoopFrom(history, attempt, maxLoops, complete, parse, callTool)
               == Chat(availableTools, userMessage, maxLoops, complete, parse, callTool)
        decreases maxLoops - attempt
      {
        var round := RunRound(history, complete, parse, callTool);
        if round.Stop? {
          return round.answer;
        }
        history := history + Folded(round.reply, round.feedback);
        attempt := attempt + 1;
      }
      return ExhaustedAnswer;
    }
  }
}
