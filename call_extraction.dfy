/** What the three tool-call extractors of the repository compute, stated once:
    locate the first `{"tool_call":` marker, count braces from there until the
    count returns to zero, parse that span and take its `"tool_call"` member.
    The extractors differ only in the span they parse when the braces never
    balance. Each extractor's own scan loop lives beside its source module and
    is proved equal to one of the two functions here. */
module CallExtraction {
  import opened Wrappers
  import opened Text
  import opened PyValue

  /** The literal that introduces a structured call in model output. */
  const Marker: string := "{\"tool_call\":"

  /** `json.loads`, applied only to texts that begin with `{`: it either fails
      (`None`, the `JSONDecodeError`) or yields a dict. */
  type Parser = string -> Option<seq<Field>>

  // ---------------------------------------------------------------------------
  // Brace counting
  // ---------------------------------------------------------------------------

  function Delta(c: char): int {
    if c == '{' then 1 else if c == '}' then -1 else 0
  }

  /** The count of `{` minus the count of `}` in `s`, wherever they stand
      (inside JSON strings too). */
  function Balance(s: string): int {
    if s == [] then 0 else Balance(s[..|s| - 1]) + Delta(s[|s| - 1])
  }

  /** One more character moves the count by that character's delta. */
  lemma BalanceStep(text: string, start: nat, i: nat)
    requires start <= i < |text|
    ensures Balance(text[start..i + 1]) == Balance(text[start..i]) + Delta(text[i])
  {
    assert text[start..i + 1][..i - start] == text[start..i];
  }

  /** The scan that starts at `start` stops at `i`: a `}` there brings the
      running count back to zero. */
  predicate ClosesAt(text: string, start: nat, i: nat) {
    start <= i < |text| && text[i] == '}' && Balance(text[start..i + 1]) == 0
  }

  function FirstCloseFrom(text: string, start: nat, from: nat): (r: Option<nat>)
    requires start <= from
    ensures r.Some? ==> from <= r.value && ClosesAt(text, start, r.value)
    ensures r.Some? ==> forall k :: from <= k < r.value ==> !ClosesAt(text, start, k)
    ensures r.None? ==> forall k :: from <= k ==> !ClosesAt(text, start, k)
    decreases |text| - from
  {
    if from >= |text| then None
    else if ClosesAt(text, start, from) then Some(from)
    else FirstCloseFrom(text, start, from + 1)
  }

  /** Where the brace scan from `start` stops, if it ever does. */
  function MatchingClose(text: string, start: nat): Option<nat> {
    FirstCloseFrom(text, start, start)
  }

  /** Until the scan stops, every prefix it has read has a positive count. */
  lemma {:induction false} OpenBeforeClose(text: string, start: nat, j: nat)
    requires start < j <= |text| && text[start] == '{'
    requires forall k :: start <= k < j ==> !ClosesAt(text, start, k)
    ensures Balance(text[start..j]) > 0
  {
    if j == start + 1 {
      assert text[start..j] == [text[start]];
      assert text[start..j][..0] == [];
    } else {
      OpenBeforeClose(text, start, j - 1);
      BalanceStep(text, start, j - 1);
      assert !ClosesAt(text, start, j - 1);
    }
  }

  /** The span the scan stops on is balanced, and every proper prefix of it
      is still open: it is the shortest balanced text from `start`. */
  lemma MatchedSpanBalanced(text: string, start: nat)
    requires start < |text| && text[start] == '{'
    requires MatchingClose(text, start).Some?
    ensures var i := MatchingClose(text, start).value;
      text[i] == '}' && Balance(text[start..i + 1]) == 0 &&
      forall j :: start < j <= i ==> Balance(text[start..j]) > 0
  {
    var i := MatchingClose(text, start).value;
    forall j | start < j <= i
      ensures Balance(text[start..j]) > 0
    {
      OpenBeforeClose(text, start, j);
    }
  }

  /** When the scan never stops (truncated output), the count stays positive
      through to the end of the text. */
  lemma UnmatchedStaysOpen(text: string, start: nat)
    requires start < |text| && text[start] == '{'
    requires MatchingClose(text, start).None?
    ensures forall j :: start < j <= |text| ==> Balance(text[start..j]) > 0
  {
    forall j | start < j <= |text|
      ensures Balance(text[start..j]) > 0
    {
      OpenBeforeClose(text, start, j);
    }
  }

  /** The scan stops exactly when some prefix from `start` is balanced. */
  lemma ClosesIffBalances(text: string, start: nat)
    requires start < |text| && text[start] == '{'
    ensures MatchingClose(text, start).Some? <==>
            exists j :: start < j <= |text| && Balance(text[start..j]) == 0
  {
    if MatchingClose(text, start).Some? {
      var i := MatchingClose(text, start).value;
      assert start < i + 1 <= |text| && Balance(text[start..i + 1]) == 0;
    } else {
      UnmatchedStaysOpen(text, start);
    }
  }

  lemma {:induction false} FirstCloseExtend(text: string, more: string, start: nat, from: nat)
    requires start <= from
    requires FirstCloseFrom(text, start, from).Some?
    ensures FirstCloseFrom(text + more, start, from) == FirstCloseFrom(text, start, from)
    decreases |text| - from
  {
    var t := text + more;
    assert t[start..from + 1] == text[start..from + 1];
    assert t[from] == text[from];
    if !ClosesAt(text, start, from) {
      FirstCloseExtend(text, more, start, from + 1);
    }
  }

  /** Text after the closing brace does not move where the scan stops. */
  lemma MatchingCloseExtend(text: string, more: string, start: nat)
    requires MatchingClose(text, start).Some?
    ensures MatchingClose(text + more, start) == MatchingClose(text, start)
  {
    FirstCloseExtend(text, more, start, start);
  }

  // ---------------------------------------------------------------------------
  // The two extractors
  // ---------------------------------------------------------------------------

  /** `parsed["tool_call"]` (or `parsed.get("tool_call")`), with a parse
      failure or a missing key giving `None`. */
  function ToolCallMember(parsed: Option<seq<Field>>): Json {
    match parsed
    case None => JNull
    case Some(fields) => GetOr(fields, "tool_call", JNull)
  }

  /** Where the scan ends when the braces balance, `fallback` otherwise. */
  function ScanEnd(text: string, start: nat, fallback: nat): nat {
    match MatchingClose(text, start)
    case Some(i) => i
    case None => fallback
  }

  /** The extractor of the MCP client: no `}` at or after the marker gives
      `None` without parsing; unbalanced braces fall back to the span up to
      the first `}`. */
  function ExtractWithCloseFallback(text: string, parse: Parser): Json {
    match Find(text, Marker)
    case None => JNull
    case Some(start) =>
      match FindFrom(text, "}", start)
      case None => JNull
      case Some(firstClose) =>
        ToolCallMember(parse(text[start..ScanEnd(text, start, firstClose) + 1]))
  }

  /** The extractor of the two example scripts: unbalanced braces leave the
      end at the marker itself, so the span parsed is just `{`. */
  function ExtractWithStartFallback(text: string, parse: Parser): Json {
    match Find(text, Marker)
    case None => JNull
    case Some(start) =>
      ToolCallMember(parse(text[start..ScanEnd(text, start, start) + 1]))
  }

  lemma MarkerOpens(text: string, start: nat)
    requires OccursAt(text, Marker, start)
    ensures start < |text| && text[start] == '{'
  {
    assert text[start..start + |Marker|][0] == '{';
  }

  /** Where the braces balance, both extractors parse the same span: the
      shortest balanced text from the first marker. */
  lemma ExtractorsAgreeWhenBalanced(text: string, parse: Parser)
    requires Find(text, Marker).Some?
    requires MatchingClose(text, Find(text, Marker).value).Some?
    ensures var start := Find(text, Marker).value;
      var i := MatchingClose(text, start).value;
      && Balance(text[start..i + 1]) == 0
      && (forall j :: start < j <= i ==> Balance(text[start..j]) > 0)
      && ExtractWithCloseFallback(text, parse) == ToolCallMember(parse(text[start..i + 1]))
      && ExtractWithStartFallback(text, parse) == ToolCallMember(parse(text[start..i + 1]))
  {
    var start := Find(text, Marker).value;
    var i := MatchingClose(text, start).value;
    MarkerOpens(text, start);
    MatchedSpanBalanced(text, start);
    assert text[i..i + 1] == "}";
    assert OccursAt(text, "}", i);
    var f := FindFrom(text, "}", start);
    assert f.Some?;
  }

  /** Unbalanced braces: the MCP client parses up to the first `}` after the
      marker, a span that is itself still open. */
  lemma CloseFallbackSpan(text: string, parse: Parser)
    requires Find(text, Marker).Some?
    requires MatchingClose(text, Find(text, Marker).value).None?
    ensures var start := Find(text, Marker).value;
      match FindFrom(text, "}", start)
      case None => ExtractWithCloseFallback(text, parse) == JNull
      case Some(f) =>
        Balance(text[start..f + 1]) > 0 &&
        ExtractWithCloseFallback(text, parse) == ToolCallMember(parse(text[start..f + 1]))
  {
    var start := Find(text, Marker).value;
    MarkerOpens(text, start);
    UnmatchedStaysOpen(text, start);
  }

  /** Unbalanced braces: the example scripts parse the one-character span `{`,
      which no JSON parser accepts, so no call is found. */
  lemma StartFallbackSpan(text: string, parse: Parser)
    requires Find(text, Marker).Some?
    requires MatchingClose(text, Find(text, Marker).value).None?
    requires parse("{").None?
    ensures ExtractWithStartFallback(text, parse) == JNull
  {
    var start := Find(text, Marker).value;
    MarkerOpens(text, start);
    assert text[start..start + 1] == "{";
  }

  /** Once the first marker's object closes inside `text`, a longer text
      finds the same marker, the same first `}` after it, the same matching
      close and the same span. */
  lemma ScanIgnoresLaterText(text: string, more: string, start: nat)
    requires Find(text, Marker) == Some(start)
    requires MatchingClose(text, start).Some?
    ensures Find(text + more, Marker) == Some(start)
    ensures FindFrom(text, "}", start).Some?
    ensures FindFrom(text + more, "}", start) == FindFrom(text, "}", start)
    ensures MatchingClose(text + more, start) == MatchingClose(text, start)
    ensures var i := MatchingClose(text, start).value;
      i < |text| && (text + more)[start..i + 1] == text[start..i + 1]
  {
    var i := MatchingClose(text, start).value;
    FindFromExtend(text, more, Marker, 0);
    MatchingCloseExtend(text, more, start);
    assert OccursAt(text, "}", i) by { assert text[i..i + 1] == "}"; }
    FindFromExtend(text, more, "}", start);
    assert (text + more)[start..i + 1] == text[start..i + 1];
  }

  lemma CloseFallbackIgnoresLaterText(text: string, more: string, parse: Parser)
    requires Find(text, Marker).Some?
    requires MatchingClose(text, Find(text, Marker).value).Some?
    ensures ExtractWithCloseFallback(text + more, parse) == ExtractWithCloseFallback(text, parse)
  {
    var start := Find(text, Marker).value;
    ScanIgnoresLaterText(text, more, start);
    var firstClose := FindFrom(text, "}", start).value;
    var i := MatchingClose(text, start).value;
    assert ScanEnd(text, start, firstClose) == i == ScanEnd(text + more, start, firstClose);
    var span := text[start..i + 1];
    assert ExtractWithCloseFallback(text + more, parse) == ToolCallMember(parse(span));
    assert ExtractWithCloseFallback(text, parse) == ToolCallMember(parse(span));
  }

  lemma StartFallbackIgnoresLaterText(text: string, more: string, parse: Parser)
    requires Find(text, Marker).Some?
    requires MatchingClose(text, Find(text, Marker).value).Some?
    ensures ExtractWithStartFallback(text + more, parse) == ExtractWithStartFallback(text, parse)
  {
    var start := Find(text, Marker).value;
    ScanIgnoresLaterText(text, more, start);
    var i := MatchingClose(text, start).value;
    assert ScanEnd(text, start, start) == i == ScanEnd(text + more, start, start);
    var span := text[start..i + 1];
    assert ExtractWithStartFallback(text + more, parse) == ToolCallMember(parse(span));
    assert ExtractWithStartFallback(text, parse) == ToolCallMember(parse(span));
  }

  /** Only the first marker's object is read: once it closes, later text
      (further markers included) changes nothing, for either extractor. */
  lemma ExtractionIgnoresLaterText(text: string, more: string, parse: Parser)
    requires Find(text, Marker).Some?
    requires MatchingClose(text, Find(text, Marker).value).Some?
    ensures ExtractWithCloseFallback(text + more, parse) == ExtractWithCloseFallback(text, parse)
    ensures ExtractWithStartFallback(text + more, parse) == ExtractWithStartFallback(text, parse)
  {
    CloseFallbackIgnoresLaterText(text, more, parse);
    StartFallbackIgnoresLaterText(text, more, parse);
  }
}
