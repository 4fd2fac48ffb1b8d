/** The self-contained demo of examples/simple_function_calling.py: three
    local tools in a registry, a system prompt that teaches the call format,
    the brace-scanning extractor, the dispatcher with its error strings, and a
    chat loop bounded by `max_iterations`. The model backend, the clock and
    Python's `eval` are parameters. */
module SimpleFunctionCalling {
  import opened Wrappers
  import opened Text
  import opened PyValue
  import opened CallExtraction
  import opened Conversation

  // ---------------------------------------------------------------------------
  // The registry
  // ---------------------------------------------------------------------------

  /** Which Python function a registry entry calls. */
  datatype ToolKind = CurrentTime | Calculator | Weather

  /** The one parameter of a tool function: its name, the description the
      prompt shows, and its default value, if it has one. */
  datatype ParamSpec = ParamSpec(name: string, description: string, default: Option<string>)

  datatype ToolSpec = ToolSpec(name: string, kind: ToolKind, description: string, param: ParamSpec)

  /** `AVAILABLE_TOOLS`, in insertion order. */
  const AvailableTools: seq<ToolSpec> := [
    ToolSpec("get_current_time", CurrentTime, "Get current time for a given timezone",
             ParamSpec("timezone", "Timezone (e.g., 'UTC', 'JST', 'EST')", Some("UTC"))),
    ToolSpec("calculate", Calculator, "Calculate simple math expressions",
             ParamSpec("expression", "Math expression to calculate (e.g., '2 + 2', '10 * 5')", None)),
    ToolSpec("get_weather", Weather, "Get weather information for a city",
             ParamSpec("city", "City name (e.g., 'Tokyo', 'London', 'New York')", None))
  ]

  predicate Registered(name: string) {
    exists i :: 0 <= i < |AvailableTools| && AvailableTools[i].name == name
  }

  /** `AVAILABLE_TOOLS[name]`, if the name is a key. */
  function Lookup(name: string): (r: Option<ToolSpec>)
    ensures r.Some? <==> Registered(name)
    ensures r.Some? ==> r.value.name == name && r.value in AvailableTools
  {
    if name == "get_current_time" then Some(AvailableTools[0])
    else if name == "calculate" then Some(AvailableTools[1])
    else if name == "get_weather" then Some(AvailableTools[2])
    else None
  }

  // ---------------------------------------------------------------------------
  // The tool functions
  // ---------------------------------------------------------------------------

  /** Python's `eval(expression)` on a text: `str()` of the value, or the
      text of the exception it raised. */
  type Evaluator = string -> Result<string, string>

  /** What the tools need from outside the model: one reading of the UTC clock,
      already formatted as `%Y-%m-%d %H:%M:%S`, and `eval`. */
  datatype Env = Env(now: string, eval: Evaluator)

  /** `get_current_time(timezone)`: the clock reading labelled with whatever
      timezone was asked for. */
  function GetCurrentTime(timezone: Json, now: string): string {
    "Current time in " + Str(timezone) + ": " + now + " " + Str(timezone)
  }

  /** `allowed_chars`. */
  const AllowedChars: string := "0123456789+-*/.() "

  const InvalidCharacters: string := "Error: Invalid characters in expression"

  /** `c in allowed_chars` for one element the whitelist loop iterates over:
      only a one-character text can be in the set, and a list or dict element
      cannot even be looked up. */
  function AllowedElement(c: Json): Result<bool, string> {
    if !Hashable(c) then Failure(UnhashableError(c))
    else Success(c.JStr? && |c.s| == 1 && c.s[0] in AllowedChars)
  }

  /** `all(c in allowed_chars for c in items)`, stopping at the first element
      that is not allowed or cannot be looked up. */
  function AllAllowed(items: seq<Json>): Result<bool, string> {
    if items == [] then Success(true)
    else
      match AllowedElement(items[0])
      case Failure(e) => Failure(e)
      case Success(ok) => if ok then AllAllowed(items[1..]) else Success(false)
  }

  /** `all(c in allowed_chars for c in expression)` for any argument the model
      may send: a text is checked character by character, a dict by its keys,
      and anything else that is not iterable raises a `TypeError`. */
  function Whitelisted(expression: Json): Result<bool, string> {
    match expression
    case JStr(s) => Success(forall i :: 0 <= i < |s| ==> s[i] in AllowedChars)
    case JArr(items) => AllAllowed(items)
    case JObj(fields) => Success(forall i :: 0 <= i < |fields| ==>
                           |fields[i].key| == 1 && fields[i].key[0] in AllowedChars)
    case _ => Failure("'" + TypeName(expression) + "' object is not iterable")
  }

  /** `calculate(expression)`: the whitelist decides, before anything is
      evaluated, whether the text is refused. Every exception is caught and
      reported with the expression. */
  function Calculate(expression: Json, eval: Evaluator): (r: string)
    ensures expression.JStr? ==>
              (r == InvalidCharacters <==>
               exists i :: 0 <= i < |expression.s| && expression.s[i] !in AllowedChars)
  {
    var shown := Str(expression);
    match Whitelisted(expression)
    case Failure(e) => "Error calculating '" + shown + "': " + e
    case Success(ok) =>
      if !ok then InvalidCharacters
      else
        var value := if expression.JStr? then eval(expression.s)
                     else Failure("eval() arg 1 must be a string, bytes or code object");
        match value
        case Success(v) =>
          var r := "Result: " + shown + " = " + v;
          // the texts differ at their first character, which settles the iff
          assert r[0] != InvalidCharacters[0];
          r
        case Failure(e) =>
          var r := "Error calculating '" + shown + "': " + e;
          // `Error calculating` and `Error: Invalid` differ at index 5
          assert r[5] != InvalidCharacters[5];
          r
  }

  /** A text that passes the whitelist holds no letter, underscore or quote, so
      `eval` never sees a name, an attribute or a string literal. */
  lemma WhitelistAdmitsNoNames(s: string)
    requires Whitelisted(JStr(s)) == Success(true)
    ensures forall i :: 0 <= i < |s| ==>
              !('a' <= s[i] <= 'z') && !('A' <= s[i] <= 'Z') &&
              s[i] != '_' && s[i] != '\'' && s[i] != '"'
  {
    forall i | 0 <= i < |s|
      ensures !('a' <= s[i] <= 'z') && !('A' <= s[i] <= 'Z') &&
              s[i] != '_' && s[i] != '\'' && s[i] != '"'
    {
      assert s[i] in AllowedChars;
      var k :| 0 <= k < |AllowedChars| && AllowedChars[k] == s[i];
    }
  }

  /** `weather_data`, keyed by lower-case city name. */
  const WeatherData: seq<(string, string)> := [
    ("tokyo", "Sunny, 22\U{B0}C"),
    ("london", "Cloudy, 15\U{B0}C"),
    ("new york", "Rainy, 18\U{B0}C"),
    ("paris", "Partly cloudy, 19\U{B0}C")
  ]

  function WeatherLookup(key: string): (r: Option<string>)
    ensures r.Some? <==> exists i :: 0 <= i < |WeatherData| && WeatherData[i].0 == key
  {
    if key == "tokyo" then Some(WeatherData[0].1)
    else if key == "london" then Some(WeatherData[1].1)
    else if key == "new york" then Some(WeatherData[2].1)
    else if key == "paris" then Some(WeatherData[3].1)
    else None
  }

  /** `get_weather(city)`: the entry for the city in any letter case; a city
      that is not a text has no `lower` and raises. */
  function GetWeather(city: Json): Result<string, string> {
    if !city.JStr? then Failure(AttributeError(city, "lower"))
    else
      match WeatherLookup(Lower(city.s))
      case Some(data) => Success("Weather in " + city.s + ": " + data)
      case None => Success("Weather data not available for " + city.s)
  }

  const WeatherPrefix: string := "Weather in "

  /** The four cities are the keys the lookup knows. */
  lemma WeatherKeys(key: string)
    ensures WeatherLookup(key).Some? <==> key in {"tokyo", "london", "new york", "paris"}
  {
  }

  /** A found city's report starts with the weather prefix. */
  lemma FoundReport(city: string, data: string)
    ensures var t := WeatherPrefix + city + ": " + data;
      |t| >= |WeatherPrefix| && t[..|WeatherPrefix|] == WeatherPrefix
  {
    var t := WeatherPrefix + city + ": " + data;
    assert t == WeatherPrefix + (city + ": " + data);
  }

  /** The not-available text does not start with the weather prefix: it has
      `d` at index 8, where the prefix has `i`. */
  lemma MissingReport(city: string)
    ensures var t := "Weather data not available for " + city;
      !(|t| >= |WeatherPrefix| && t[..|WeatherPrefix|] == WeatherPrefix)
  {
    var t := "Weather data not available for " + city;
    assert t[8] == 'd';
    assert WeatherPrefix[8] == 'i';
  }

  /** A report starts with the weather prefix exactly when the lookup found
      the city; otherwise the city is echoed in the not-available text. */
  lemma WeatherReport(city: string)
    ensures var r := GetWeather(JStr(city));
      && r.Success?
      && (|r.value| >= |WeatherPrefix| && r.value[..|WeatherPrefix|] == WeatherPrefix <==>
          WeatherLookup(Lower(city)).Some?)
      && (WeatherLookup(Lower(city)).None? ==> r.value == "Weather data not available for " + city)
  {
    match WeatherLookup(Lower(city))
    case Some(data) =>
      assert GetWeather(JStr(city)).value == WeatherPrefix + city + ": " + data;
      FoundReport(city, data);
    case None =>
      MissingReport(city);
  }

  /** The lookup ignores letter case, and a report is given exactly for the
      four known cities; the city is echoed as it was written. */
  lemma WeatherKnownIff(city: string)
    ensures var r := GetWeather(JStr(city));
      && r.Success?
      && (|r.value| >= |WeatherPrefix| && r.value[..|WeatherPrefix|] == WeatherPrefix <==>
          Lower(city) in {"tokyo", "london", "new york", "paris"})
      && (Lower(city) !in {"tokyo", "london", "new york", "paris"} ==>
          r.value == "Weather data not available for " + city)
  {
    WeatherKeys(Lower(city));
    WeatherReport(city);
  }

  // ---------------------------------------------------------------------------
  // Dispatch
  // ---------------------------------------------------------------------------

  /** The first key of `fields` that is not `param`, if any. */
  function UnexpectedKey(fields: seq<Field>, param: string): (r: Option<string>)
    ensures r.None? <==> forall i :: 0 <= i < |fields| ==> fields[i].key == param
    ensures r.Some? ==> r.value != param && exists i :: 0 <= i < |fields| && fields[i].key == r.value
  {
    if fields == [] then None
    else if fields[0].key != param then Some(fields[0].key)
    else
      var r := UnexpectedKey(fields[1..], param);
      assert forall i :: 1 <= i < |fields| ==> fields[i] == fields[1..][i - 1];
      r
  }

  /** How `function(**arguments)` binds the tool function's one parameter: the
      value passed, the default, or the `TypeError` Python raises. */
  function Bind(tool: ToolSpec, arguments: Json): (r: Result<Json, string>)
    ensures r.Success? <==>
              arguments.JObj? &&
              (forall i :: 0 <= i < |arguments.fields| ==> arguments.fields[i].key == tool.param.name) &&
              (Get(arguments.fields, tool.param.name).Some? || tool.param.default.Some?)
    ensures r.Success? && Get(arguments.fields, tool.param.name).Some? ==>
              r.value == Get(arguments.fields, tool.param.name).value
    ensures r.Success? && Get(arguments.fields, tool.param.name).None? && tool.param.default.Some? ==>
              r.value == JStr(tool.param.default.value)
  {
    if !arguments.JObj? then
      Failure("__main__." + tool.name + "() argument after ** must be a mapping, not " + TypeName(arguments))
    else
      match UnexpectedKey(arguments.fields, tool.param.name)
      case Some(key) => Failure(tool.name + "() got an unexpected keyword argument '" + key + "'")
      case None =>
        match Get(arguments.fields, tool.param.name)
        case Some(v) => Success(v)
        case None =>
          match tool.param.default
          case Some(d) => Success(JStr(d))
          case None => Failure(tool.name + "() missing 1 required positional argument: '" + tool.param.name + "'")
  }

  /** `function(**arguments)`: the tool's result, or the text of the exception. */
  function Invoke(tool: ToolSpec, arguments: Json, env: Env): Result<string, string> {
    match Bind(tool, arguments)
    case Failure(e) => Failure(e)
    case Success(v) =>
      match tool.kind
      case CurrentTime => Success(GetCurrentTime(v, env.now))
      case Calculator => Success(Calculate(v, env.eval))
      case Weather => GetWeather(v)
  }

  function UnknownTool(name: Json): string {
    "Error: Unknown tool '" + Str(name) + "'"
  }

  /** `execute_tool(tool_name, arguments)`. Only a list or dict as the name
      escapes as an exception (the registry lookup cannot hash it); every other
      failure becomes a returned text. */
  function ExecuteTool(name: Json, arguments: Json, env: Env): (r: Result<string, string>)
    ensures r.Failure? <==> !Hashable(name)
    ensures r.Failure? ==> r.error == UnhashableError(name)
    ensures Hashable(name) && !(name.JStr? && Registered(name.s)) ==> r == Success(UnknownTool(name))
    ensures name.JStr? && Registered(name.s) ==>
              r == Success(match Invoke(Lookup(name.s).value, arguments, env)
                           case Success(text) => text
                           case Failure(e) => "Error executing " + name.s + ": " + e)
  {
    if !Hashable(name) then Failure(UnhashableError(name))
    else if !name.JStr? || Lookup(name.s).None? then Success(UnknownTool(name))
    else
      match Invoke(Lookup(name.s).value, arguments, env)
      case Success(text) => Success(text)
      case Failure(e) => Success("Error executing " + name.s + ": " + e)
  }

  /** A test that tells the unknown-tool text (`Error: Unknown ...`) apart
      from every report of a registered tool by three characters: reports
      start with `Current`, `Weather`, `Result`, `Error: Invalid`,
      `Error calculating` or `Error executing`, so each differs at index 0, 5
      or 7. Comparing single characters keeps these proofs small. */
  predicate LooksUnknown(t: string) {
    |t| > 7 && t[0] == 'E' && t[5] == ':' && t[7] == 'U'
  }

  /** The calculator's error text has a space at index 5, where the
      unknown-tool text has `:`. */
  lemma CalculationErrorShape(shown: string, e: string)
    ensures ("Error calculating '" + shown + "': " + e)[5] == ' '
  {
    var head := "Error calculating '";
    assert ("Error calculating '" + shown + "': " + e) == head + (shown + "': " + e);
  }

  lemma CalculateNotUnknown(expression: Json, eval: Evaluator)
    ensures !LooksUnknown(Calculate(expression, eval))
  {
    var shown := Str(expression);
    match Whitelisted(expression)
    case Failure(e) =>
      CalculationErrorShape(shown, e);
    case Success(ok) =>
      if !ok {
        assert Calculate(expression, eval)[7] == 'I';
      } else {
        var value := if expression.JStr? then eval(expression.s)
                     else Failure("eval() arg 1 must be a string, bytes or code object");
        match value
        case Success(v) =>
          assert Calculate(expression, eval)[0] == 'R';
        case Failure(e) =>
          CalculationErrorShape(shown, e);
      }
  }

  /** No tool function's report has the unknown-tool shape. */
  lemma InvokeNotUnknown(tool: ToolSpec, arguments: Json, env: Env)
    requires Invoke(tool, arguments, env).Success?
    ensures !LooksUnknown(Invoke(tool, arguments, env).value)
  {
    var r := Invoke(tool, arguments, env).value;
    var v := Bind(tool, arguments).value;
    match tool.kind
    case CurrentTime =>
      assert r == GetCurrentTime(v, env.now);
      assert r[0] == 'C';
    case Weather =>
      assert GetWeather(v).Success? && r == GetWeather(v).value;
      assert r[0] == 'W';
    case Calculator =>
      assert r == Calculate(v, env.eval);
      CalculateNotUnknown(v, env.eval);
  }

  /** The text of a tool that raised has a space at index 5, where the
      unknown-tool text has `:`. */
  lemma ExecutionErrorShape(name: string, e: string)
    ensures ("Error executing " + name + ": " + e)[5] == ' '
  {
    var head := "Error executing ";
    assert ("Error executing " + name + ": " + e) == head + (name + ": " + e);
  }

  /** Whatever a registered tool reports, it is not taken for an unknown tool. */
  lemma RegisteredNotUnknown(name: string, arguments: Json, env: Env)
    requires Registered(name)
    ensures ExecuteTool(JStr(name), arguments, env).Success?
    ensures !LooksUnknown(ExecuteTool(JStr(name), arguments, env).value)
  {
    var tool := Lookup(name).value;
    var r := ExecuteTool(JStr(name), arguments, env).value;
    var invoked := Invoke(tool, arguments, env);
    if invoked.Failure? {
      assert r == "Error executing " + name + ": " + invoked.error;
      ExecutionErrorShape(name, invoked.error);
    } else {
      assert r == invoked.value;
      InvokeNotUnknown(tool, arguments, env);
    }
  }

  lemma UnknownToolShape(name: Json)
    ensures LooksUnknown(UnknownTool(name))
  {
    var t := UnknownTool(name);
    assert t == "Error: Unknown tool '" + (Str(name) + "'");
    assert t[..8] == "Error: U";
  }

  /** The unknown-tool text is given exactly for names outside the registry,
      whatever the arguments and whatever a registered tool reports. */
  lemma UnknownToolIff(name: string, arguments: Json, env: Env)
    ensures ExecuteTool(JStr(name), arguments, env) == Success(UnknownTool(JStr(name))) <==> !Registered(name)
  {
    if Registered(name) {
      RegisteredNotUnknown(name, arguments, env);
      UnknownToolShape(JStr(name));
    }
  }

  /** The `"tool_call"` value is a dict here (anything else has no `get` and
      raises); `"name"` defaults to `None` and `"arguments"` to `{}`. */
  function Dispatch(call: Json, env: Env): Result<string, string> {
    if !call.JObj? then Failure(AttributeError(call, "get"))
    else ExecuteTool(GetOr(call.fields, "name", JNull), GetOr(call.fields, "arguments", JObj([])), env)
  }

  /** A call without `"name"` is still dispatched, under the name `None`, and
      reports an unknown tool; one without `"arguments"` runs with no arguments. */
  lemma DispatchDefaults(fields: seq<Field>, env: Env)
    ensures Get(fields, "name").None? ==> Dispatch(JObj(fields), env) == Success("Error: Unknown tool 'None'")
    ensures Get(fields, "arguments").None? ==>
              Dispatch(JObj(fields), env) == ExecuteTool(GetOr(fields, "name", JNull), JObj([]), env)
  {
    if Get(fields, "name").None? {
      assert GetOr(fields, "name", JNull) == JNull;
      assert UnknownTool(JNull) == "Error: Unknown tool 'None'";
    }
  }

  // ---------------------------------------------------------------------------
  // The system prompt
  // ---------------------------------------------------------------------------

  /** One line of the tool list; each tool has exactly one parameter, so the
      `", ".join` over the parameters has one part. */
  function ToolLine(tool: ToolSpec): string {
    "- " + tool.name + "(" + tool.param.name + ": " + tool.param.description + "): " + tool.description
  }

  const PromptHead: string := "You have access to these tools:\n"
  const PromptFormatLead: string :=
    "\n\nWhen you need to use a tool, respond with a JSON object in this exact format:\n"
  const PromptFormatRest: string :=
    " {\"name\": \"tool_name\", \"arguments\": {\"param1\": \"value1\", \"param2\": \"value2\"}}}\n\n" +
    "Examples:\n" +
    "- To get time: {\"tool_call\": {\"name\": \"get_current_time\", \"arguments\": {\"timezone\": \"JST\"}}}\n" +
    "- To calculate: {\"tool_call\": {\"name\": \"calculate\", \"arguments\": {\"expression\": \"15 * 3\"}}}\n" +
    "- To get weather: {\"tool_call\": {\"name\": \"get_weather\", \"arguments\": {\"city\": \"Tokyo\"}}}\n\n" +
    "After calling a tool, I'll provide the result and you should give a helpful response to the user.\n" +
    "If you don't need to use any tools, respond normally without JSON.\n"

  /** The prompt template around the lines of `tools`. */
  function PromptWith(tools: seq<ToolSpec>): string {
    PromptHead + Join(Lines(tools, ToolLine), '\n') + PromptFormatLead + Marker + PromptFormatRest
  }

  /** `create_system_prompt()`. */
  function SystemPrompt(): string {
    PromptWith(AvailableTools)
  }

  lemma PromptWithListsTool(tools: seq<ToolSpec>, i: nat)
    requires i < |tools|
    ensures exists k :: OccursAt(PromptWith(tools), ToolLine(tools[i]), k)
  {
    var lines := Join(Lines(tools, ToolLine), '\n');
    JoinHasPart(Lines(tools, ToolLine), '\n', i);
    var k :| OccursAt(lines, Lines(tools, ToolLine)[i], k);
    OccursInTemplate(PromptHead, lines, PromptFormatLead, Marker, PromptFormatRest, ToolLine(tools[i]), k);
    assert OccursAt(PromptWith(tools), ToolLine(tools[i]), |PromptHead| + k);
  }

  /** The prompt lists every registered tool with its parameter. */
  lemma PromptListsTool(i: nat)
    requires i < |AvailableTools|
    ensures exists k :: OccursAt(SystemPrompt(), ToolLine(AvailableTools[i]), k)
  {
    PromptWithListsTool(AvailableTools, i);
    var k :| OccursAt(PromptWith(AvailableTools), ToolLine(AvailableTools[i]), k);
    assert OccursAt(SystemPrompt(), ToolLine(AvailableTools[i]), k);
  }

  /** The format the prompt teaches starts with the marker the extractor looks for. */
  lemma PromptShowsMarker()
    ensures Find(SystemPrompt(), Marker).Some?
  {
    OccursBetween(PromptHead + Join(Lines(AvailableTools, ToolLine), '\n') + PromptFormatLead, Marker, PromptFormatRest);
  }

  /** The prompt loop: one line appended per registry entry, in registry order. */
  method CreateSystemPrompt() returns (prompt: string)
    ensures prompt == SystemPrompt()
  {
    var toolDescriptions: seq<string> := [];
    for i := 0 to |AvailableTools|
      invariant toolDescriptions == Lines(AvailableTools[..i], ToolLine)
    {
      assert AvailableTools[..i + 1][..i] == AvailableTools[..i];
      toolDescriptions := toolDescriptions + [ToolLine(AvailableTools[i])];
    }
    assert AvailableTools[..|AvailableTools|] == AvailableTools;
    prompt := PromptHead + Join(toolDescriptions, '\n') + PromptFormatLead + Marker + PromptFormatRest;
    assert prompt == PromptWith(AvailableTools);
  }

  // ---------------------------------------------------------------------------
  // Extraction
  // ---------------------------------------------------------------------------

  /** `extract_tool_call(text)`: when the braces never balance, `end` stays at
      the marker and the one-character span `{` is parsed. */
  method ExtractToolCall(text: string, parse: Parser) returns (call: Json)
    ensures call == ExtractWithStartFallback(text, parse)
  {
    var found := Find(text, Marker);
    if found.None? {
      return JNull;
    }
    var start := found.value;
    var braceCount := 0;
    var end := start;
    for i := start to |text|
      invariant braceCount == Balance(text[start..i])
      invariant MatchingClose(text, start) == FirstCloseFrom(text, start, i)
      invariant end == start
    {
      BalanceStep(text, start, i);
      if text[i] == '{' {
        braceCount := braceCount + 1;
      } else if text[i] == '}' {
        braceCount := braceCount - 1;
        if braceCount == 0 {
          end := i;
          break;
        }
      }
    }
    assert end == ScanEnd(text, start, start);
    assert ExtractWithStartFallback(text, parse) == ToolCallMember(parse(text[start..end + 1]));
    call := ToolCallMember(parse(text[start..end + 1]));
  }

  // ---------------------------------------------------------------------------
  // The chat loop
  // ---------------------------------------------------------------------------

  const DefaultMaxIterations: int := 3
  const ExhaustedAnswer: string := "Maximum iterations reached without final response."

  /** One pass of the loop body on the conversation as it stands: the
      backend's exception is reported, a call that is exactly `None` ends the
      loop with the reply, and an exception from dispatching the call escapes. */
  function LoopRound(history: seq<Message>, complete: Backend, parse: Parser, env: Env): Round {
    match complete(history)
    case Failure(e) => Stop(Errored, "Error communicating with model: " + e)
    case Success(reply) =>
      var call := ExtractWithStartFallback(reply, parse);
      if call == JNull then Stop(Answered, reply)
      else
        match Dispatch(call, env)
        case Failure(e) => Stop(Raised, e)
        case Success(result) => Continue(reply, "Tool result: " + result)
  }

  /** The loop from iteration `iteration` on, with `history` as it stands then. */
  function LoopFrom(history: seq<Message>, iteration: nat, maxIterations: int,
                    complete: Backend, parse: Parser, env: Env): Run
    decreases maxIterations - iteration
  {
    if iteration >= maxIterations then Run(Exhausted, ExhaustedAnswer, history, iteration)
    else
      match LoopRound(history, complete, parse, env)
      case Stop(exit, answer) => Run(exit, answer, history, iteration + 1)
      case Continue(reply, feedback) =>
        LoopFrom(history + Folded(reply, feedback), iteration + 1, maxIterations, complete, parse, env)
  }

  /** `chat_with_tools(user_message, max_iterations=maxIterations)`. */
  function Chat(userMessage: string, maxIterations: int, complete: Backend, parse: Parser, env: Env): Run {
    LoopFrom(Seed(SystemPrompt(), userMessage), 0, maxIterations, complete, parse, env)
  }

  /** What a round that goes on has seen: the backend's reply to the history,
      holding a call other than `None` that dispatched without raising, whose
      result is the feedback. */
  lemma RoundContinues(history: seq<Message>, complete: Backend, parse: Parser, env: Env)
    requires LoopRound(history, complete, parse, env).Continue?
    ensures var round := LoopRound(history, complete, parse, env);
      && complete(history) == Success(round.reply)
      && var call := ExtractWithStartFallback(round.reply, parse);
         call != JNull && Dispatch(call, env).Success? &&
         round.feedback == "Tool result: " + Dispatch(call, env).value
  {
  }

  /** How a round that stops ends: with the reply when it holds no call;
      with the backend's exception, reported; or with the exception that
      dispatching the call raised, which escapes. */
  lemma RoundStops(history: seq<Message>, complete: Backend, parse: Parser, env: Env)
    requires LoopRound(history, complete, parse, env).Stop?
    ensures var round := LoopRound(history, complete, parse, env);
      && round.exit in {Answered, Errored, Raised}
      && (round.exit == Answered ==>
            complete(history) == Success(round.answer) && ExtractWithStartFallback(round.answer, parse) == JNull)
      && (round.exit == Errored ==>
            complete(history).Failure? && round.answer == "Error communicating with model: " + complete(history).error)
      && (round.exit == Raised ==>
            complete(history).Success? &&
            var call := ExtractWithStartFallback(complete(history).value, parse);
            call != JNull && Dispatch(call, env) == Failure(round.answer))
  {
  }

  /** `history[from..]` is made of rounds that went on, each folded onto the
      history before it. */
  ghost predicate CallRounds(history: seq<Message>, from: nat, complete: Backend, parse: Parser, env: Env)
    requires from <= |history|
    decreases |history| - from
  {
    from == |history| ||
    (from + 2 <= |history| &&
     var round := LoopRound(history[..from], complete, parse, env);
     round.Continue? && history[from..from + 2] == Folded(round.reply, round.feedback) &&
     CallRounds(history, from + 2, complete, parse, env))
  }

  lemma {:induction false} CallRoundsPrefix(history: seq<Message>, more: seq<Message>, from: nat,
                                            complete: Backend, parse: Parser, env: Env)
    requires from + 2 == |history| <= |more|
    requires CallRounds(more, |history|, complete, parse, env)
    requires more[..|history|] == history
    requires var round := LoopRound(history[..from], complete, parse, env);
      round.Continue? && history[from..] == Folded(round.reply, round.feedback)
    ensures CallRounds(more, from, complete, parse, env)
  {
    assert more[..from] == history[..from];
    assert more[from..from + 2] == history[from..];
  }

  /** The counters at the end: at most `max_iterations` model calls, the fixed
      text when they run out, and two messages per call round. */
  lemma {:induction false} LoopCounts(history: seq<Message>, iteration: nat, maxIterations: int,
                                      complete: Backend, parse: Parser, env: Env)
    ensures var run := LoopFrom(history, iteration, maxIterations, complete, parse, env);
      && run.exit in {Answered, Exhausted, Errored, Raised}
      && iteration <= run.queries <= Max(iteration, maxIterations)
      && (run.exit != Exhausted ==> iteration < run.queries)
      && (run.exit == Exhausted ==> run.queries == Max(iteration, maxIterations) && run.answer == ExhaustedAnswer)
      && |run.history| == |history| + 2 * (run.queries - iteration - (if run.exit == Exhausted then 0 else 1))
    decreases maxIterations - iteration
  {
    if iteration < maxIterations {
      var round := LoopRound(history, complete, parse, env);
      if round.Continue? {
        var next := history + Folded(round.reply, round.feedback);
        LoopCounts(next, iteration + 1, maxIterations, complete, parse, env);
        assert LoopFrom(history, iteration, maxIterations, complete, parse, env) == LoopFrom(next, iteration + 1, maxIterations, complete, parse, env);
      } else {
        RoundStops(history, complete, parse, env);
        assert LoopFrom(history, iteration, maxIterations, complete, parse, env) == Run(round.exit, round.answer, history, iteration + 1);
      }
    }
  }

  /** The history at the end is the history at the start followed by call
      rounds and nothing else. */
  lemma {:induction false} LoopHistory(history: seq<Message>, iteration: nat, maxIterations: int,
                                       complete: Backend, parse: Parser, env: Env)
    ensures var run := LoopFrom(history, iteration, maxIterations, complete, parse, env);
      && |history| <= |run.history|
      && run.history[..|history|] == history
      && CallRounds(run.history, |history|, complete, parse, env)
    decreases maxIterations - iteration
  {
    var run := LoopFrom(history, iteration, maxIterations, complete, parse, env);
    if iteration < maxIterations {
      var round := LoopRound(history, complete, parse, env);
      if round.Continue? {
        var next := history + Folded(round.reply, round.feedback);
        LoopHistory(next, iteration + 1, maxIterations, complete, parse, env);
        assert run == LoopFrom(next, iteration + 1, maxIterations, complete, parse, env);
        assert next[..|history|] == history;
        assert next[|history|..] == Folded(round.reply, round.feedback);
        CallRoundsPrefix(next, run.history, |history|, complete, parse, env);
      }
    }
  }

  /** How the loop stops short of the budget: as the round on the final
      history stops. */
  lemma {:induction false} LoopEnding(history: seq<Message>, iteration: nat, maxIterations: int,
                                      complete: Backend, parse: Parser, env: Env)
    ensures var run := LoopFrom(history, iteration, maxIterations, complete, parse, env);
      run.exit != Exhausted ==> LoopRound(run.history, complete, parse, env) == Stop(run.exit, run.answer)
    decreases maxIterations - iteration
  {
    if iteration < maxIterations {
      var round := LoopRound(history, complete, parse, env);
      if round.Continue? {
        LoopEnding(history + Folded(round.reply, round.feedback), iteration + 1, maxIterations, complete, parse, env);
      }
    }
  }

  /** A call that parses to `{}` does not end the loop, unlike in the MCP
      client: it is dispatched under the name `None` and the round goes on. */
  lemma EmptyCallContinues(history: seq<Message>, complete: Backend, parse: Parser, env: Env)
    requires complete(history).Success?
    requires ExtractWithStartFallback(complete(history).value, parse) == JObj([])
    ensures LoopRound(history, complete, parse, env)
         == Continue(complete(history).value, "Tool result: " + UnknownTool(JNull))
  {
    assert GetOr([], "name", JNull) == JNull;
    assert Dispatch(JObj([]), env) == Success(UnknownTool(JNull));
  }

  /** A whole invocation: the history starts with the system prompt and the
      user's message and then holds only call rounds, and the model is asked at
      most `max_iterations` times. */
  lemma ChatShape(userMessage: string, maxIterations: int, complete: Backend, parse: Parser, env: Env)
    ensures var run := Chat(userMessage, maxIterations, complete, parse, env);
      && run.queries <= Max(0, maxIterations)
      && |run.history| >= 2
      && run.history[..2] == Seed(SystemPrompt(), userMessage)
      && |run.history| == 2 + 2 * (run.queries - (if run.exit == Exhausted then 0 else 1))
      && CallRounds(run.history, 2, complete, parse, env)
  {
    var seed := Seed(SystemPrompt(), userMessage);
    LoopCounts(seed, 0, maxIterations, complete, parse, env);
    LoopHistory(seed, 0, maxIterations, complete, parse, env);
  }

  /** With the default `max_iterations=3`, the model is asked at most three
      times and the history never grows past three call rounds. */
  lemma DefaultChatBound(userMessage: string, complete: Backend, parse: Parser, env: Env)
    ensures var run := Chat(userMessage, DefaultMaxIterations, complete, parse, env);
      run.queries <= 3 && |run.history| <= 8
  {
    ChatShape(userMessage, DefaultMaxIterations, complete, parse, env);
  }

  /** One pass of the body of `chat_with_tools`' loop: ask the model, look
      for a call, and either stop (the reply, the reported backend error, or
      the escaping exception) or dispatch the call and return the two
      messages' texts. */
  method RunRound(conversation: seq<Message>, complete: Backend, parse: Parser, env: Env)
    returns (round: Round)
    ensures round == LoopRound(conversation, complete, parse, env)
  {
    var response := complete(conversation);
    if response.Failure? {
      return Stop(Errored, "Error communicating with model: " + response.error);
    }
    var assistantResponse := response.value;
    var toolCall := ExtractToolCall(assistantResponse, parse);
    if toolCall == JNull {
      return Stop(Answered, assistantResponse);
    }
    if !toolCall.JObj? {
      return Stop(Raised, AttributeError(toolCall, "get"));
    }
    var toolName := GetOr(toolCall.fields, "name", JNull);
    var arguments := GetOr(toolCall.fields, "arguments", JObj([]));
    var toolResult := ExecuteTool(toolName, arguments, env);
    if toolResult.Failure? {
      return Stop(Raised, toolResult.error);
    }
    return Continue(assistantResponse, "Tool result: " + toolResult.value);
  }

  /** `chat_with_tools`: the returned text, or the exception that escapes. */
  method ChatWithTools(userMessage: string, maxIterations: int, complete: Backend, parse: Parser, env: Env)
    returns (outcome: Result<string, string>)
    ensures outcome == Returned(Chat(userMessage, maxIterations, complete, parse, env))
  {
    var systemPrompt := CreateSystemPrompt();
    var conversation := [Message(System, systemPrompt), Message(User, userMessage)];
    var iteration: nat := 0;
    while iteration < maxIterations
      invariant LoopFrom(conversation, iteration, maxIterations, complete, parse, env)
             == Chat(userMessage, maxIterations, complete, parse, env)
      decreases maxIterations - iteration
    {
      var round := RunRound(conversation, complete, parse, env);
      if round.Stop? {
        return if round.exit == Raised then Failure(round.answer) else Success(round.answer);
      }
      conversation := conversation + Folded(round.reply, round.feedback);
      iteration := iteration + 1;
    }
    return Success(ExhaustedAnswer);
  }
}
