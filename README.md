# Tool-call control path of gemma_fn_calling_demo, in Dafny

The repository is a demo of function calling with a Gemma 3 model served by
Ollama. The model is told in its system prompt to answer with a JSON object
that starts with `{"tool_call":` when it wants a tool run. The program then:

1. finds that marker in the free-form reply;
2. counts `{` and `}` from there until the count returns to zero;
3. parses the span, dispatches the call and folds the result back into the
   conversation;
4. asks the model again, up to a fixed number of rounds.

The same control path appears three times, with different edge cases:

- the MCP client of `app/mcp_client.py`, whose tools come from an MCP server;
- the self-contained demo `examples/simple_function_calling.py`, with three
  local tools;
- the minimal `examples/basic_example.py`, which asks the model at most twice.

The MCP server in `app/main.py` contributes the argument parsing of two tool
wrappers: comma-separated wave numbers, and comma-separated column names.

The model is split into these modules:

- `Wrappers`: `Option` and `Result`.
- `Text`: the Python string operations the code relies on. These are `find`,
  `split`/`join` on one character, `strip`, `lower`, `int()` and `str()` of
  integers.
- `PyValue`: the values `json.loads` yields. It also holds Python
  truthiness, `str`/`repr`, `d.get`, `d[key]`, and the texts of the exceptions
  these raise.
- `CallExtraction`: what every extractor computes. This covers the brace
  balance, the first index where the count closes, and the two extractor
  functions. One falls back to the first `}` (MCP client); the other falls
  back to the marker itself (both examples).
- `Conversation`: messages, the backend type, and the record of how a chat
  invocation ended (`Run`).
- `McpClient`: the class `MCPOllamaClient`. Its `availableTools` field is set
  by `Connect`. Its prompt-building loop, brace-scanning loop and bounded chat
  loop are methods, each proved equal to a specification function.
- `SimpleFunctionCalling`: the registry, the three tools, `execute_tool`,
  the prompt loop, the scan loop and the `max_iterations` loop.
- `BasicExample`: `add_numbers` with Python's `+`, `execute_function`, the
  scan loop, and `simple_chat` as a record of the one or two requests it sends.
- `ServerTools`: `load_picking_waves_tool` and `parse_encoded_storage_tool`.
  Their loader and analysis are parameters.

Parts that do I/O or call into code outside the model become parameters:

- the model backend, a function from the history to the reply or the
  exception text;
- `json.loads`, a function from text to a dict or a failure;
- MCP `call_tool`;
- the clock;
- Python's `eval`;
- the WMS loader and analysis functions.

Every loop counts braces wherever they stand, inside JSON strings too; the
model keeps that.

## Model

| member | source | states |
|---|---|---|
| Text.FindFrom | app/mcp_client.py:141-143 | `str.find`: the first occurrence at or after the start, none before it; `None` (the `-1`) exactly when there is none |
| Text.Split | app/main.py:42 | `split(',')` gives at least one segment, and no segment contains the separator |
| Text.Join | app/mcp_client.py:54 | `sep.join(parts)`; `JoinSplit` and `SplitJoin` make it the inverse of `split` |
| Text.JoinSplit | app/main.py:42 | joining the segments of `split` with the separator gives back the original text |
| Text.SplitJoin | app/main.py:65 | splitting a join of separator-free parts gives back the parts |
| Text.SplitCount | app/main.py:42 | `split` yields one segment more than there are separators |
| Text.SplitConcat | app/main.py:65 | splitting `a + sep + b` gives the segments of `a` followed by those of `b` |
| Text.SplitTrailing | app/main.py:42 | a trailing separator leaves an empty last segment |
| Text.Strip | app/main.py:42 | `strip()` is the slice of the text that starts after its leading whitespace, with only whitespace after the slice; the result neither starts nor ends with whitespace |
| Text.LeadingSpaces | app/main.py:42 | the count of leading whitespace characters: all of them whitespace, and the next character, if any, is not |
| Text.Lower | examples/simple_function_calling.py:50 | `lower()` maps each character through the lower-case map and keeps the length |
| Text.ParseShowInt | app/main.py:42 | `int(str(n)) == n` for every integer |
| Text.ParseInt | app/main.py:42 | `int()` of a stripped text: an optional sign and ASCII digits; its meaning is pinned by `ParseShowInt` and used by `ParseIntsReads` |
| Text.ShowInt | examples/basic_example.py:21 | `str(n)` of an integer; `ShowIntChars` gives its shape and `ParseShowInt` its read-back |
| Text.ShowIntChars | app/main.py:42 | `str(n)` is non-empty, starts with `-` exactly when `n` is negative, has only digits after its first character, and has no surrounding whitespace |
| Text.Lines | app/mcp_client.py:50-52 | the append loop over the tools makes one line per item, in order, each the line of that item |
| PyValue.Get | examples/simple_function_calling.py:187-188 | `d.get(key)` finds a value exactly when some entry has that key, and the value is that entry's |
| PyValue.Subscript | app/mcp_client.py:114-117 | `v[key]` succeeds exactly when `v` is a dict holding `key`, and then returns that entry's value; otherwise it raises the `KeyError` or `TypeError` of `SubscriptError` |
| CallExtraction.FirstCloseFrom | app/mcp_client.py:147-154 | the scan stops at the first index where a `}` brings the count to zero; none exists when it does not stop |
| CallExtraction.OpenBeforeClose | app/mcp_client.py:146-154 | until the scan stops, every prefix read from the marker has a positive count |
| CallExtraction.MatchedSpanBalanced | app/mcp_client.py:146-156 | the span the scan stops on ends in `}` and is balanced, and every proper prefix of it is still open |
| CallExtraction.UnmatchedStaysOpen | app/mcp_client.py:147-156 | when the scan never stops, the count stays positive through the end of the text |
| CallExtraction.ClosesIffBalances | app/mcp_client.py:146-154 | the scan stops exactly when some prefix from the marker is balanced |
| CallExtraction.MatchingCloseExtend | app/mcp_client.py:147-154 | text after the closing brace does not move where the scan stops |
| CallExtraction.ExtractorsAgreeWhenBalanced | examples/simple_function_calling.py:117-134 | when the braces balance, all three extractors parse the same minimal balanced span from the first marker |
| CallExtraction.ExtractWithCloseFallback | app/mcp_client.py:137-162 | the MCP client's extractor; `CloseFallbackSpan`, `ExtractorsAgreeWhenBalanced` and `ExtractionIgnoresLaterText` state what it reads |
| CallExtraction.ExtractWithStartFallback | examples/simple_function_calling.py:105-138 | the examples' extractor (also examples/basic_example.py:37-58); `StartFallbackSpan`, `ExtractorsAgreeWhenBalanced` and `ExtractionIgnoresLaterText` state what it reads |
| CallExtraction.CloseFallbackSpan | app/mcp_client.py:143-158 | unbalanced braces: the MCP client gives `None` when no `}` follows the marker, and otherwise parses up to the first `}`, a span that is still open |
| CallExtraction.StartFallbackSpan | examples/simple_function_calling.py:118-134 | unbalanced braces: the examples keep `end` at the marker, parse `{` alone, and so find no call |
| CallExtraction.ExtractionIgnoresLaterText | app/mcp_client.py:141-162 | once the first marker's object closes, any later text (more markers included) leaves the extracted call unchanged, for both extractors |
| McpClient.PromptListsTool | app/mcp_client.py:54-62 | the system prompt contains the line of every available tool |
| McpClient.PromptShowsMarker | app/mcp_client.py:57-58 | the format taught in the prompt contains the exact marker the extractor searches for |
| McpClient.SystemPrompt | app/mcp_client.py:48-62 | the prompt template around the tool lines; `PromptListsTool` and `PromptShowsMarker` state what it contains |
| McpClient.LoopRound | app/mcp_client.py:97-133 | one pass of the loop body; `RoundContinues` and `RoundStops` state when it goes on or stops and with what text |
| McpClient.LoopFrom | app/mcp_client.py:96-135 | the loop from a given attempt on; `LoopCounts`, `LoopHistory`, `LoopEnding` and `AlwaysCallingExhausts` state its outcome |
| McpClient.Chat | app/mcp_client.py:85-135 | a whole `chat_with_tools` call; `ChatShape` states its history and model-call bound |
| McpClient.LoopCounts | app/mcp_client.py:96-135 | the loop answers, errs or runs out, after at most `MAX_LOOPS` model calls; running out gives the fixed apology; the history grows by two messages per call round |
| McpClient.LoopHistory | app/mcp_client.py:119-126 | the final history is the starting history followed only by call rounds: the reply, then `Tool result: <result>` or `Tool result: Error: <error>` |
| McpClient.RoundContinues | app/mcp_client.py:97-126 | a round goes on only when the backend replied with a truthy call holding both `"name"` and `"arguments"`, and the feedback is `Tool result: ` with the tool's result or `Error: ` and its error |
| McpClient.RoundStops | app/mcp_client.py:97-133 | a round that stops either answers with the backend's reply, which holds no truthy call, or errs with `Error: ` plus the backend's exception or the `KeyError`/`TypeError` of a call lacking `"name"` or `"arguments"` |
| McpClient.LoopEnding | app/mcp_client.py:96-133 | short of running out, the loop ends exactly as the round on the final history stops, with that round's exit and text |
| McpClient.AlwaysCallingExhausts | app/mcp_client.py:96-135 | a model that always replies with a well-formed call uses every round and gets the fixed apology |
| McpClient.ChatShape | app/mcp_client.py:90-96 | with tools, the history starts as `[system prompt, user message]`, holds only call rounds after that (2+2k messages), and the model is asked at most `MAX_LOOPS` times |
| McpClient.MCPOllamaClient.constructor | app/mcp_client.py:13-16 | a new client stores its server path and has no tools |
| McpClient.MCPOllamaClient.Connect | app/mcp_client.py:43-46 | `connect` replaces the tool table with the listed tools and returns it |
| McpClient.MCPOllamaClient.CreateSystemPrompt | app/mcp_client.py:48-62 | the append loop builds exactly the prompt of the current tool table |
| McpClient.MCPOllamaClient.ExtractToolCall | app/mcp_client.py:137-162 | the scan loop computes the close-fallback extractor: `None` without a marker or a following `}`, else the `"tool_call"` member of the scanned span, `None` on a parse failure or a missing key |
| McpClient.MCPOllamaClient.RunRound | app/mcp_client.py:97-133 | one pass of the loop body computes the round specification: stop with the reply or the `Error: ` text, or go on with the reply and the tool-result message |
| McpClient.MCPOllamaClient.ChatWithTools | app/mcp_client.py:85-135 | the loop returns what the loop specification returns; with no tools it returns `Error: No tools available` without asking the model |
| SimpleFunctionCalling.Lookup | examples/simple_function_calling.py:57-79 | the registry finds an entry exactly for its three names, and the entry carries that name |
| SimpleFunctionCalling.GetCurrentTime | examples/simple_function_calling.py:22-25 | the clock reading labelled with the timezone asked for, before and after it |
| SimpleFunctionCalling.Calculate | examples/simple_function_calling.py:27-38 | for a text, the invalid-characters error is returned exactly when some character is outside `0123456789+-*/.() `, whatever `eval` would do |
| SimpleFunctionCalling.WhitelistAdmitsNoNames | examples/simple_function_calling.py:31-33 | a text that passes the whitelist has no letter, underscore or quote for `eval` to see |
| SimpleFunctionCalling.GetWeather | examples/simple_function_calling.py:40-54 | the weather lookup; `WeatherReport` and `WeatherKnownIff` state when it reports weather |
| SimpleFunctionCalling.WeatherReport | examples/simple_function_calling.py:48-54 | `get_weather` on a text never raises, and its report starts with `Weather in ` exactly when the lookup finds the lower-cased city |
| SimpleFunctionCalling.WeatherKnownIff | examples/simple_function_calling.py:40-54 | `get_weather` reports weather exactly when the lower-cased city is one of the four known ones, and otherwise says the data is not available for the city as written |
| SimpleFunctionCalling.Bind | examples/simple_function_calling.py:150 | `function(**arguments)` binds exactly when the arguments are a dict whose every key is the parameter's name and a value or default exists; it binds the value passed, or else the default |
| SimpleFunctionCalling.Invoke | examples/simple_function_calling.py:150 | binding then running the tool function; `ExecuteTool` states how its result or exception is returned |
| SimpleFunctionCalling.ExecuteTool | examples/simple_function_calling.py:140-153 | only an unhashable name raises; any other unregistered name returns `Error: Unknown tool '<name>'`; a registered name returns its tool's text, or `Error executing <name>: <msg>` when the tool raises |
| SimpleFunctionCalling.UnknownToolIff | examples/simple_function_calling.py:142-153 | the unknown-tool text comes back exactly for names outside the registry, whatever a registered tool reports or raises |
| SimpleFunctionCalling.Dispatch | examples/simple_function_calling.py:187-192 | `tool_call.get(...)` then `execute_tool`; `DispatchDefaults` states the defaults |
| SimpleFunctionCalling.DispatchDefaults | examples/simple_function_calling.py:187-192 | a call without `"name"` is dispatched as `None` and reports an unknown tool; one without `"arguments"` runs with `{}` |
| SimpleFunctionCalling.PromptListsTool | examples/simple_function_calling.py:84-91 | the prompt contains the line of every registered tool with its parameter |
| SimpleFunctionCalling.PromptShowsMarker | examples/simple_function_calling.py:93-94 | the format taught in the prompt contains the marker the extractor searches for |
| SimpleFunctionCalling.SystemPrompt | examples/simple_function_calling.py:81-103 | the prompt of the registry; `PromptListsTool` and `PromptShowsMarker` state what it contains |
| SimpleFunctionCalling.CreateSystemPrompt | examples/simple_function_calling.py:81-103 | the append loop builds exactly the prompt of the registry |
| SimpleFunctionCalling.ExtractToolCall | examples/simple_function_calling.py:105-138 | the scan loop computes the start-fallback extractor: `None` without a marker, else the `"tool_call"` member of the scanned span, `None` on a parse failure or a missing key |
| SimpleFunctionCalling.LoopRound | examples/simple_function_calling.py:168-199 | one pass of the loop body; `RoundContinues`, `RoundStops` and `EmptyCallContinues` state when it goes on or stops and with what text |
| SimpleFunctionCalling.LoopFrom | examples/simple_function_calling.py:166-203 | the loop from a given iteration on; `LoopCounts`, `LoopHistory` and `LoopEnding` state its outcome |
| SimpleFunctionCalling.Chat | examples/simple_function_calling.py:155-203 | a whole `chat_with_tools` call; `ChatShape` and `DefaultChatBound` state its history and model-call bound |
| SimpleFunctionCalling.LoopCounts | examples/simple_function_calling.py:166-203 | at most `max_iterations` model calls; running out gives `Maximum iterations reached without final response.`; two messages per call round |
| SimpleFunctionCalling.LoopHistory | examples/simple_function_calling.py:196-199 | the final history is the starting history followed only by call rounds: the reply, then `Tool result: <result>` |
| SimpleFunctionCalling.RoundContinues | examples/simple_function_calling.py:168-199 | a round goes on only when the backend replied with a call other than `None` that dispatched without raising, and the feedback is `Tool result: ` with its result |
| SimpleFunctionCalling.RoundStops | examples/simple_function_calling.py:168-192 | a round that stops answers with a reply holding no call at all, reports a backend exception as `Error communicating with model: <msg>`, or lets the dispatch exception escape |
| SimpleFunctionCalling.LoopEnding | examples/simple_function_calling.py:166-199 | short of running out, the loop ends exactly as the round on the final history stops, with that round's exit and text |
| SimpleFunctionCalling.EmptyCallContinues | examples/simple_function_calling.py:181-199 | a call parsed as `{}` does not end the loop: the round goes on and folds the unknown-tool text for the name `None` |
| SimpleFunctionCalling.ChatShape | examples/simple_function_calling.py:155-166 | the history starts as `[system prompt, user message]` and then holds only call rounds (2+2k messages), with at most `max_iterations` model calls |
| SimpleFunctionCalling.DefaultChatBound | examples/simple_function_calling.py:155-166 | with the default `max_iterations=3`, at most three model calls and a history of at most eight messages |
| SimpleFunctionCalling.RunRound | examples/simple_function_calling.py:168-199 | one pass of the loop body computes the round specification: stop with the reply, the reported backend error or the escaping exception, or go on with the reply and `Tool result: <result>` |
| SimpleFunctionCalling.ChatWithTools | examples/simple_function_calling.py:155-203 | the loop returns, or raises, what the loop specification does |
| BasicExample.PyAdd | examples/basic_example.py:21 | Python's `+`: numbers and booleans add, texts and lists concatenate, and every other pair raises |
| BasicExample.GetTime | examples/basic_example.py:15-17 | `Current time: ` followed by the clock reading |
| BasicExample.AddNumbers | examples/basic_example.py:19-21 | the equation text or the `TypeError` of `+`; `EquationWords` and `AddNumbersReadsBack` state its layout on integers |
| BasicExample.EquationWords | examples/basic_example.py:19-21 | on integers, the report is the two operands, `+`, `=` and the sum, joined by single spaces |
| BasicExample.AddNumbersReadsBack | examples/basic_example.py:19-21 | for integers, the report `a + b = s` splits at spaces into `a`, `+`, `b`, `=` and the sum, each read back by `int()` |
| BasicExample.ExecuteFunction | examples/basic_example.py:60-67 | `get_time` returns the time text; `add_numbers` raises on non-dict arguments and otherwise adds `args.get("a", 0)` and `args.get("b", 0)`; any other name gives `Unknown function: <name>` |
| BasicExample.MissingOperandsAreZero | examples/basic_example.py:64-65 | `add_numbers` with neither operand reports `0 + 0 = 0` |
| BasicExample.MissingSecondOperand | examples/basic_example.py:64-65 | `add_numbers` with only an integer `a` reports `a + 0 = a` |
| BasicExample.PromptShowsMarker | examples/basic_example.py:24-35 | the fixed prompt shows the marker the extractor searches for |
| BasicExample.ExtractFunctionCall | examples/basic_example.py:37-58 | the scan loop computes the start-fallback extractor; a missing `"tool_call"` is swallowed and gives `None` |
| BasicExample.SimpleChat | examples/basic_example.py:69-112 | one or two requests, the first `[system, user]`; with two, the second extends the first by the reply and a user message, and its reply is returned as it is |
| BasicExample.NoCallAnswersAtOnce | examples/basic_example.py:88-112 | with no call or a falsy one, the first reply is returned after a single request |
| BasicExample.CallMakesSecondRequest | examples/basic_example.py:88-109 | a named call that runs gives exactly `[system, user, reply, Function result: <result>]` as the second request, whose reply is returned |
| BasicExample.MissingNameRaises | examples/basic_example.py:88-90 | a truthy call without `"name"` lets the `KeyError` escape after one request |
| ServerTools.ParseIntsReads | app/main.py:42 | the list is read exactly when every stripped segment is an integer, and holds those integers in segment order |
| ServerTools.ParseInts | app/main.py:42 | the list comprehension over the segments; `ParseIntsReads` states when it reads and what |
| ServerTools.WaveList | app/main.py:39-44 | `wave_list` as the wrapper computes it; `WaveListRoundTrip`, `BadSegmentRejected` and `TrailingCommaRejected` state what it accepts |
| ServerTools.LoadPickingWavesTool | app/main.py:37-47 | an absent or empty argument loads every wave; an unreadable one returns the error dict without consulting the loader; otherwise the loader gets the parsed list |
| ServerTools.WaveListRoundTrip | app/main.py:39-42 | integers joined with commas are read back as the same list, in order |
| ServerTools.BadSegmentRejected | app/main.py:40-44 | in a non-empty argument, any one segment that is not an integer gives the error text |
| ServerTools.TrailingCommaRejected | app/main.py:42-44 | a trailing comma is refused |
| ServerTools.StrippedNonEmptyClean | app/main.py:65 | every column kept is non-empty, has no surrounding whitespace and no comma |
| ServerTools.StrippedNonEmptyAppend | app/main.py:65 | the filter keeps order: filtering a concatenation is concatenating the filtered parts |
| ServerTools.Columns | app/main.py:65 | every column passed on is non-empty, has no surrounding whitespace and no comma |
| ServerTools.ColumnsConcat | app/main.py:65 | the columns of `a,b` are those of `a` followed by those of `b`, so empty segments add nothing |
| ServerTools.ColumnsRoundTrip | app/main.py:65 | clean columns joined with commas come back as they were |
| ServerTools.ParseEncodedStorageTool | app/main.py:61-69 | the analysis result is returned as it is; its exception becomes `{'error': 'Failed to parse encoded columns: <msg>'}` |

## Left out

- Network and subprocess I/O are parameters: the Ollama `client.chat` call, the MCP stdio sessions (`get_tools_info`, `call_tool`, `create_mcp_client`) and the MCP server's `mcp.run()`.
- McpClient.ToolCaller: the inspection of `result.content` inside `call_tool` is MCP SDK object handling; only its success or error text is modelled.
- `async`/`await`: each round is modelled strictly in sequence, as it runs.
- `json.loads` is a parameter; JSON numbers are integers only, so floats are not modelled.
- The model does not cover a dict with repeated keys; `Get` returns the first entry.
- PyValue.Repr: strings are quoted with `'` and not escaped, so a text that holds a quote or a backslash is shown differently from Python.
- Exception texts follow CPython 3.11 wording. `SimpleFunctionCalling.Bind` names the function as `__main__.<name>()` in the non-mapping case, as it reads when the script runs directly.
- CallExtraction.ExtractWithCloseFallback and CallExtraction.ExtractWithStartFallback: `json.loads` is a parameter that returns a dict or fails with `JSONDecodeError`; CPython's other exceptions from it (the `ValueError` for an integer literal of more than 4300 digits, the `RecursionError` for very deep nesting) are not modelled, so a reply that triggers them reads as a plain answer here instead of `Error: ...` (MCP client), an escaping exception (simple example) or `None` (basic example).
- Text.ParseShowInt: `int(str(n)) == n` is proved for every integer, but CPython refuses to convert integers of more than 4300 digits; that limit is not modelled.
- Text.ParseInt: accepts an optional sign and ASCII digits only, of any length; Python's `int` also accepts underscores between digits and non-ASCII digits, and refuses more than 4300 digits.
- Text.IsSpace: ASCII whitespace only; Python's `strip` also removes non-ASCII whitespace.
- Text.Lower: exact only where the result is compared with an ASCII text (the weather lookup), which is its only use.
- SimpleFunctionCalling.Env: one clock reading serves a whole chat invocation, where the source reads the clock at each `get_current_time` call. `eval` itself is a parameter, and Python's float arithmetic is not modelled.
- SimpleFunctionCalling.ToolLine: each tool has one parameter, so the `", ".join` over parameters is written for one part.
- `get_time` in examples/basic_example.py takes the formatted clock reading as a parameter.
- `print` logging, the interactive `main()` loops and the demo `__main__` blocks are not modelled.
- `MODEL_NAME` and the model argument are not modelled. `MAX_LOOPS` comes from configuration and is a parameter.
- The remaining wrappers of app/main.py only forward their arguments; they are not modelled.
- The WMS analysis functions behind `load_picking_waves_tool` and `parse_encoded_storage_tool` are not part of this model. The same holds for app/tools.py (LLM calls, timezones, randomness), app/chat_server.py (HTTP plumbing), app/schemas.py and tests/.
