/** The minimal demo of examples/basic_example.py: a fixed system prompt, two
    functions, the brace-scanning extractor, and `simple_chat`, which asks the
    model at most twice. The model backend and the clock are parameters. */
module BasicExample {
  import opened Wrappers
  import opened Text
  import opened PyValue
  import opened CallExtraction
  import opened Conversation

  // ---------------------------------------------------------------------------
  // The two functions
  // ---------------------------------------------------------------------------

  /** `get_time()`, given the local clock already formatted as `%H:%M:%S`. */
  function GetTime(now: string): string {
    "Current time: " + now
  }

  /** Python's `a + b` on decoded JSON values: numbers (and booleans) add,
      texts and lists concatenate, and anything else raises a `TypeError`,
      whose text is given. */
  function PyAdd(a: Json, b: Json): (r: Result<Json, string>)
    ensures r.Success? <==>
              ((a.JNum? || a.JBool?) && (b.JNum? || b.JBool?)) || (a.JStr? && b.JStr?) || (a.JArr? && b.JArr?)
    ensures (a.JNum? || a.JBool?) && (b.JNum? || b.JBool?) ==> r == Success(JNum(IntValue(a) + IntValue(b)))
    ensures a.JStr? && b.JStr? ==> r == Success(JStr(a.s + b.s))
    ensures a.JArr? && b.JArr? ==> r == Success(JArr(a.items + b.items))
  {
    if a.JStr? then
      if b.JStr? then Success(JStr(a.s + b.s))
      else Failure("can only concatenate str (not \"" + TypeName(b) + "\") to str")
    else if a.JArr? then
      if b.JArr? then Success(JArr(a.items + b.items))
      else Failure("can only concatenate list (not \"" + TypeName(b) + "\") to list")
    else if (a.JNum? || a.JBool?) && (b.JNum? || b.JBool?) then Success(JNum(IntValue(a) + IntValue(b)))
    else Failure("unsupported operand type(s) for +: '" + TypeName(a) + "' and '" + TypeName(b) + "'")
  }

  /** The integer a number or a boolean stands for (`True` is 1). */
  function IntValue(v: Json): int
    requires v.JNum? || v.JBool?
  {
    if v.JNum? then v.n else if v.b then 1 else 0
  }

  /** `add_numbers(a, b)`: the sum written out as an equation, or the
      `TypeError` that adding the two raised. */
  function AddNumbers(a: Json, b: Json): Result<string, string> {
    match PyAdd(a, b)
    case Failure(e) => Failure(e)
    case Success(sum) => Success(Str(a) + " + " + Str(b) + " = " + Str(sum))
  }

  /** The equation's layout: its five words joined with single spaces. */
  lemma EquationJoin(x: string, y: string, z: string)
    ensures Join([x, "+", y, "=", z], ' ') == x + " + " + y + " = " + z
  {
    var parts := [x, "+", y, "=", z];
    assert Join(parts[4..], ' ') == z;
    var j3 := Join(parts[3..], ' ');
    assert parts[3..][1..] == parts[4..];
    assert j3 == "=" + " " + z;
    var j2 := Join(parts[2..], ' ');
    assert parts[2..][1..] == parts[3..];
    assert j2 == y + " " + j3;
    var j1 := Join(parts[1..], ' ');
    assert parts[1..][1..] == parts[2..];
    assert j1 == "+" + " " + j2;
    assert Join(parts, ' ') == x + " " + j1;
  }

  /** On integers the equation is the five words joined with single spaces. */
  lemma EquationWords(a: int, b: int)
    ensures AddNumbers(JNum(a), JNum(b))
         == Success(Join([ShowInt(a), "+", ShowInt(b), "=", ShowInt(a + b)], ' '))
  {
    assert PyAdd(JNum(a), JNum(b)) == Success(JNum(a + b));
    assert Str(JNum(a)) == ShowInt(a) && Str(JNum(b)) == ShowInt(b) && Str(JNum(a + b)) == ShowInt(a + b);
    EquationJoin(ShowInt(a), ShowInt(b), ShowInt(a + b));
  }

  /** `str(n)` holds no space, so splitting at spaces keeps it whole. */
  lemma NoSpaceShown(n: int)
    ensures ' ' !in ShowInt(n)
  {
    ShowIntChars(n);
    forall i | 0 <= i < |ShowInt(n)| ensures ShowInt(n)[i] != ' ' {
      if i > 0 {
        assert IsDigit(ShowInt(n)[i]);
      }
    }
  }

  /** Words without spaces come back whole from the spaced equation. */
  lemma WordsSplit(x: string, y: string, z: string)
    requires ' ' !in x && ' ' !in y && ' ' !in z
    ensures Split(Join([x, "+", y, "=", z], ' '), ' ') == [x, "+", y, "=", z]
  {
    var parts := [x, "+", y, "=", z];
    assert forall i :: 0 <= i < |parts| ==> ' ' !in parts[i] by {
      assert parts[1] == "+" && parts[3] == "=";
    }
    SplitJoin(parts, ' ');
  }

  /** On integers the equation reads back: splitting it at the spaces gives
      the two operands, the operator, `=` and the sum, each as `int()` reads it. */
  lemma AddNumbersReadsBack(a: int, b: int)
    ensures AddNumbers(JNum(a), JNum(b)).Success?
    ensures var parts := Split(AddNumbers(JNum(a), JNum(b)).value, ' ');
      && |parts| == 5
      && ParseInt(parts[0]) == Some(a)
      && parts[1] == "+"
      && ParseInt(parts[2]) == Some(b)
      && parts[3] == "="
      && ParseInt(parts[4]) == Some(a + b)
  {
    NoSpaceShown(a);
    NoSpaceShown(b);
    NoSpaceShown(a + b);
    EquationWords(a, b);
    WordsSplit(ShowInt(a), ShowInt(b), ShowInt(a + b));
    ParseShowInt(a);
    ParseShowInt(b);
    ParseShowInt(a + b);
  }

  const UnknownFunctionPrefix: string := "Unknown function: "

  /** `execute_function(name, args)`: the result, or (`Failure`) the exception
      that escapes; `args` must be a dict only for `add_numbers`, and missing
      operands default to 0. */
  function ExecuteFunction(name: Json, args: Json, now: string): (r: Result<string, string>)
    ensures name != JStr("get_time") && name != JStr("add_numbers") ==>
              r == Success(UnknownFunctionPrefix + Str(name))
    ensures name == JStr("get_time") ==> r == Success(GetTime(now))
    ensures name == JStr("add_numbers") && !args.JObj? ==> r == Failure(AttributeError(args, "get"))
    ensures name == JStr("add_numbers") && args.JObj? ==>
              r == AddNumbers(GetOr(args.fields, "a", JNum(0)), GetOr(args.fields, "b", JNum(0)))
  {
    if name == JStr("get_time") then Success(GetTime(now))
    else if name == JStr("add_numbers") then
      if !args.JObj? then Failure(AttributeError(args, "get"))
      else AddNumbers(GetOr(args.fields, "a", JNum(0)), GetOr(args.fields, "b", JNum(0)))
    else Success(UnknownFunctionPrefix + Str(name))
  }

  /** Missing operands count as 0: a call with neither `a` nor `b` reports
      `0 + 0 = 0`. */
  lemma MissingOperandsAreZero(fields: seq<Field>, now: string)
    requires Get(fields, "a").None? && Get(fields, "b").None?
    ensures ExecuteFunction(JStr("add_numbers"), JObj(fields), now) == Success("0 + 0 = 0")
  {
    assert DigitChar(0) == '0';
    var zero := Str(JNum(0));
    assert zero == "0";
    assert zero + " + " + zero + " = " + zero == "0 + 0 = 0";
    assert PyAdd(JNum(0), JNum(0)) == Success(JNum(0));
  }

  /** With only an integer `a`, the report is `a + 0 = a`. */
  lemma MissingSecondOperand(fields: seq<Field>, a: int, now: string)
    requires Get(fields, "a") == Some(JNum(a)) && Get(fields, "b").None?
    ensures ExecuteFunction(JStr("add_numbers"), JObj(fields), now)
         == Success(ShowInt(a) + " + 0 = " + ShowInt(a))
  {
    assert DigitChar(0) == '0';
    var zero := Str(JNum(0));
    assert zero == "0";
    assert PyAdd(JNum(a), JNum(0)) == Success(JNum(a));
    var shown := Str(JNum(a));
    assert shown == ShowInt(a);
    assert AddNumbers(JNum(a), JNum(0)) == Success(shown + " + " + zero + " = " + shown);
    assert shown + " + " + zero + " = " + shown == ShowInt(a) + " + 0 = " + ShowInt(a);
  }

  // ---------------------------------------------------------------------------
  // The prompt and the extractor
  // ---------------------------------------------------------------------------

  const PromptLead: string :=
    "You can call these functions:\n\n" +
    "1. get_time() - Returns current time\n" +
    "2. add_numbers(a, b) - Adds two numbers\n\n" +
    "To call a function, respond with JSON in this format:\n"
  const PromptRest: string :=
    " {\"name\": \"function_name\", \"arguments\": {\"param\": \"value\"}}}\n\n" +
    "Examples:\n" +
    "- {\"tool_call\": {\"name\": \"get_time\", \"arguments\": {}}}\n" +
    "- {\"tool_call\": {\"name\": \"add_numbers\", \"arguments\": {\"a\": 5, \"b\": 3}}}\n"

  /** `SYSTEM_PROMPT`. */
  const SystemPrompt: string := PromptLead + Marker + PromptRest

  /** The format the prompt teaches starts with the marker the extractor looks for. */
  lemma PromptShowsMarker()
    ensures Find(SystemPrompt, Marker).Some?
    ensures Find(SystemPrompt, Marker).value <= |PromptLead|
  {
    OccursBetween(PromptLead, Marker, PromptRest);
  }

  /** `extract_function_call(response)`: when the braces never balance, `end`
      stays at the marker and the one-character span `{` is parsed; a missing
      `"tool_call"` key, like a parse error, is swallowed and gives `None`. */
  method ExtractFunctionCall(response: string, parse: Parser) returns (call: Json)
    ensures call == ExtractWithStartFallback(response, parse)
  {
    call := JNull;
    var found := Find(response, Marker);
    if found.Some? {
      var start := found.value;
      var braceCount := 0;
      var end := start;
      for i := start to |response|
        invariant braceCount == Balance(response[start..i])
        invariant MatchingClose(response, start) == FirstCloseFrom(response, start, i)
        invariant end == start
      {
        BalanceStep(response, start, i);
        if response[i] == '{' {
          braceCount := braceCount + 1;
        } else if response[i] == '}' {
          braceCount := braceCount - 1;
          if braceCount == 0 {
            end := i;
            break;
          }
        }
      }
      assert end == ScanEnd(response, start, start);
      assert ExtractWithStartFallback(response, parse) == ToolCallMember(parse(response[start..end + 1]));
      call := ToolCallMember(parse(response[start..end + 1]));
    }
  }

  // ---------------------------------------------------------------------------
  // simple_chat
  // ---------------------------------------------------------------------------

  /** How one `simple_chat` call went: what the caller gets (the returned
      text, or the text of the exception that escapes) and every message list
      sent to the model, in order. */
  datatype Exchange = Exchange(outcome: Result<string, string>, requests: seq<seq<Message>>)

  /** The message that hands the function's result back to the model. */
  function ResultMessage(result: string): Message {
    Message(User, "Function result: " + result)
  }

  /** `simple_chat(user_message)`. A backend failure escapes; a truthy call
      is subscripted for `"name"` without a check; the second reply is
      returned as it is, without looking for a call in it. */
  function SimpleChat(userMessage: string, complete: Backend, parse: Parser, now: string): (x: Exchange)
    ensures 1 <= |x.requests| <= 2
    ensures x.requests[0] == Seed(SystemPrompt, userMessage)
    ensures |x.requests| == 2 ==> x.outcome == complete(x.requests[1])
    ensures |x.requests| == 2 ==>
              && |x.requests[1]| == 4
              && x.requests[1][..2] == x.requests[0]
              && complete(x.requests[0]).Success?
              && x.requests[1][2] == Message(Assistant, complete(x.requests[0]).value)
              && x.requests[1][3].role == User
  {
    var first := Seed(SystemPrompt, userMessage);
    match complete(first)
    case Failure(e) => Exchange(Failure(e), [first])
    case Success(reply) =>
      var call := ExtractWithStartFallback(reply, parse);
      if !Truthy(call) then Exchange(Success(reply), [first])
      else
        match Subscript(call, "name")
        case Failure(e) => Exchange(Failure(e), [first])
        case Success(name) =>
          match ExecuteFunction(name, GetOr(call.fields, "arguments", JObj([])), now)
          case Failure(e) => Exchange(Failure(e), [first])
          case Success(result) =>
            var second := first + [Message(Assistant, reply), ResultMessage(result)];
            Exchange(complete(second), [first, second])
  }

  /** With no call, or a falsy one (`{}`, `0`, `""`, ...), the first reply is
      the answer and the model is asked once. */
  lemma NoCallAnswersAtOnce(userMessage: string, complete: Backend, parse: Parser, now: string)
    requires complete(Seed(SystemPrompt, userMessage)).Success?
    requires !Truthy(ExtractWithStartFallback(complete(Seed(SystemPrompt, userMessage)).value, parse))
    ensures var x := SimpleChat(userMessage, complete, parse, now);
      x.outcome == complete(Seed(SystemPrompt, userMessage)) && |x.requests| == 1
  {
  }

  /** A call that names a function and runs without raising leads to exactly
      one more request: the first one followed by the reply and the result. */
  lemma CallMakesSecondRequest(userMessage: string, complete: Backend, parse: Parser, now: string)
    requires complete(Seed(SystemPrompt, userMessage)).Success?
    requires var call := ExtractWithStartFallback(complete(Seed(SystemPrompt, userMessage)).value, parse);
      && Truthy(call) && call.JObj? && Get(call.fields, "name").Some?
      && ExecuteFunction(Get(call.fields, "name").value, GetOr(call.fields, "arguments", JObj([])), now).Success?
    ensures var first := Seed(SystemPrompt, userMessage);
      var reply := complete(first).value;
      var call := ExtractWithStartFallback(reply, parse);
      var result := ExecuteFunction(Get(call.fields, "name").value, GetOr(call.fields, "arguments", JObj([])), now).value;
      var x := SimpleChat(userMessage, complete, parse, now);
      && x.requests == [first, first + [Message(Assistant, reply), ResultMessage(result)]]
      && x.outcome == complete(x.requests[1])
  {
  }

  /** A truthy call object without `"name"` is not handled: the `KeyError`
      escapes `simple_chat` after a single request. */
  lemma MissingNameRaises(userMessage: string, complete: Backend, parse: Parser, now: string)
    requires complete(Seed(SystemPrompt, userMessage)).Success?
    requires var call := ExtractWithStartFallback(complete(Seed(SystemPrompt, userMessage)).value, parse);
      call.JObj? && call.fields != [] && Get(call.fields, "name").None?
    ensures var x := SimpleChat(userMessage, complete, parse, now);
      x.outcome == Failure("'name'") && |x.requests| == 1
  {
    var call := ExtractWithStartFallback(complete(Seed(SystemPrompt, userMessage)).value, parse);
    assert Repr(JStr("name")) == "'name'";
    assert Subscript(call, "name") == Failure("'name'");
  }
}
