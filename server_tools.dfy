/** The argument handling of two tool wrappers that app/main.py registers with
    the MCP server: the comma-separated wave numbers of
    `load_picking_waves_tool` and the comma-separated columns of
    `parse_encoded_storage_tool`. The data loader and the analysis behind them
    are parameters. */
module ServerTools {
  import opened Wrappers
  import opened Text
  import opened PyValue

  /** `str(d)` for the one-entry dict `{"error": message}` the wrappers return. */
  function ErrorDict(message: string): string {
    Repr(JObj([Field("error", JStr(message))]))
  }

  const InvalidWaveNumbers: string :=
    ErrorDict("Invalid wave numbers format. Use comma-separated integers.")

  // ---------------------------------------------------------------------------
  // Wave numbers
  // ---------------------------------------------------------------------------

  /** `[int(w.strip()) for w in segments]`, with `None` for the `ValueError`
      the first unreadable segment raises. */
  function ParseInts(segments: seq<string>): (r: Option<seq<int>>)
    ensures r.Some? ==> |r.value| == |segments|
  {
    if segments == [] then Some([])
    else
      var head := ParseInt(Strip(segments[0]));
      var rest := ParseInts(segments[1..]);
      if head.Some? && rest.Some? then Some([head.value] + rest.value) else None
  }

  /** The list is read exactly when every segment is an integer once
      stripped, and then holds those integers in segment order. */
  lemma {:induction false} ParseIntsReads(segments: seq<string>)
    ensures ParseInts(segments).Some? <==> forall i :: 0 <= i < |segments| ==> ParseInt(Strip(segments[i])).Some?
    ensures ParseInts(segments).Some? ==>
              forall i :: 0 <= i < |segments| ==> ParseInt(Strip(segments[i])) == Some(ParseInts(segments).value[i])
  {
    if segments != [] {
      var rest := segments[1..];
      ParseIntsReads(rest);
      var head := ParseInt(Strip(segments[0]));
      if ParseInts(segments).Some? {
        var values := ParseInts(segments).value;
        assert head.Some? && ParseInts(rest).Some? && values == [head.value] + ParseInts(rest).value;
        forall i | 0 <= i < |segments|
          ensures ParseInt(Strip(segments[i])) == Some(values[i])
        {
          if i > 0 {
            assert segments[i] == rest[i - 1];
          }
        }
      } else if head.Some? {
        assert ParseInts(rest).None?;
        var j :| 0 <= j < |rest| && ParseInt(Strip(rest[j])).None?;
        assert segments[j + 1] == rest[j];
      }
    }
  }

  /** `wave_list` as the wrapper computes it: `None` (every wave) for an absent
      or empty argument, otherwise one integer per comma-separated segment, or
      the error text. */
  function WaveList(waveNumbers: Option<string>): Result<Option<seq<int>>, string> {
    match waveNumbers
    case None => Success(None)
    case Some(text) =>
      if text == "" then Success(None)
      else
        match ParseInts(Split(text, ','))
        case None => Failure(InvalidWaveNumbers)
        case Some(waves) => Success(Some(waves))
  }

  /** `load_picking_waves(data_dir, wave_list)`, returning `str()` of its result. */
  type WaveLoader = (string, Option<seq<int>>) -> string

  /** `load_picking_waves_tool(data_dir, wave_numbers)`: an unreadable list is
      answered with the error text and the loader is not consulted. */
  function LoadPickingWavesTool(dataDir: string, waveNumbers: Option<string>, load: WaveLoader): (r: string)
    ensures waveNumbers.None? || waveNumbers == Some("") ==> r == load(dataDir, None)
    ensures WaveList(waveNumbers).Failure? ==> r == InvalidWaveNumbers
    ensures WaveList(waveNumbers).Success? ==> r == load(dataDir, WaveList(waveNumbers).value)
  {
    match WaveList(waveNumbers)
    case Failure(e) => e
    case Success(waves) => load(dataDir, waves)
  }

  function ShowAll(xs: seq<int>): (parts: seq<string>)
    ensures |parts| == |xs|
    ensures forall i :: 0 <= i < |xs| ==> parts[i] == ShowInt(xs[i])
  {
    if xs == [] then [] else [ShowInt(xs[0])] + ShowAll(xs[1..])
  }

  lemma {:induction false} ParseShown(xs: seq<int>)
    ensures ParseInts(ShowAll(xs)) == Some(xs)
  {
    if xs != [] {
      var parts := ShowAll(xs);
      ShowIntChars(xs[0]);
      StripKeeps(parts[0]);
      ParseShowInt(xs[0]);
      assert parts[1..] == ShowAll(xs[1..]);
      ParseShown(xs[1..]);
      assert [xs[0]] + xs[1..] == xs;
    }
  }

  /** Integers written out with commas are not empty and split back into
      the written integers. */
  lemma ShownSplit(xs: seq<int>)
    requires |xs| > 0
    ensures Join(ShowAll(xs), ',') != ""
    ensures Split(Join(ShowAll(xs), ','), ',') == ShowAll(xs)
  {
    var parts := ShowAll(xs);
    forall i | 0 <= i < |parts|
      ensures ',' !in parts[i]
    {
      ShowIntChars(xs[i]);
    }
    SplitJoin(parts, ',');
    var text := Join(parts, ',');
    ShowIntChars(xs[0]);
    if |parts| == 1 {
      assert text == parts[0];
    } else {
      assert text == parts[0] + [','] + Join(parts[1..], ',');
    }
  }

  /** Wave numbers written out with commas are read back as they were, in order. */
  lemma WaveListRoundTrip(xs: seq<int>)
    requires |xs| > 0
    ensures WaveList(Some(Join(ShowAll(xs), ','))) == Success(Some(xs))
  {
    ShownSplit(xs);
    ParseShown(xs);
  }

  /** In a non-empty argument, one segment that is not an integer, wherever it
      stands, turns the whole call into the error text, whatever the loader
      would have said. (The empty argument means every wave.) */
  lemma BadSegmentRejected(dataDir: string, text: string, i: nat, load: WaveLoader)
    requires text != ""
    requires i < |Split(text, ',')| && ParseInt(Strip(Split(text, ',')[i])).None?
    ensures LoadPickingWavesTool(dataDir, Some(text), load) == InvalidWaveNumbers
  {
    ParseIntsReads(Split(text, ','));
  }

  /** A trailing comma leaves an empty segment, which `int()` refuses. */
  lemma TrailingCommaRejected(text: string)
    ensures WaveList(Some(text + ",")) == Failure(InvalidWaveNumbers)
  {
    var parts := Split(text + [','], ',');
    SplitTrailing(text, ',');
    assert Strip(parts[|parts| - 1]) == "";
    assert ParseInt("").None?;
    ParseIntsReads(parts);
    assert text + "," == text + [','];
  }

  // ---------------------------------------------------------------------------
  // Encoded columns
  // ---------------------------------------------------------------------------

  /** A column as the wrapper passes it on: non-empty, with no whitespace at
      either end. */
  predicate Clean(col: string) {
    col != [] && !IsSpace(col[0]) && !IsSpace(col[|col| - 1])
  }

  /** `[s.strip() for s in segments if s.strip()]`. */
  function StrippedNonEmpty(segments: seq<string>): (cols: seq<string>)
    ensures |cols| <= |segments|
  {
    if segments == [] then []
    else
      var rest := StrippedNonEmpty(segments[1..]);
      var head := Strip(segments[0]);
      if head == [] then rest else [head] + rest
  }

  /** Every column kept is clean, and free of commas when the segments are. */
  lemma {:induction false} StrippedNonEmptyClean(segments: seq<string>, sep: char)
    requires forall s :: s in segments ==> sep !in s
    ensures forall c :: c in StrippedNonEmpty(segments) ==> Clean(c) && sep !in c
  {
    if segments != [] {
      assert forall s :: s in segments[1..] ==> s in segments;
      StrippedNonEmptyClean(segments[1..], sep);
      assert segments[0] in segments;
    }
  }

  lemma {:induction false} StrippedNonEmptyAppend(a: seq<string>, b: seq<string>)
    ensures StrippedNonEmpty(a + b) == StrippedNonEmpty(a) + StrippedNonEmpty(b)
  {
    if a != [] {
      assert (a + b)[1..] == a[1..] + b;
      StrippedNonEmptyAppend(a[1..], b);
    } else {
      assert a + b == b;
    }
  }

  /** `columns_list`: the comma-separated segments, stripped, with the empty
      ones dropped. */
  function Columns(encoded: string): (cols: seq<string>)
    ensures forall c :: c in cols ==> Clean(c) && ',' !in c
  {
    var segments := Split(encoded, ',');
    assert forall s :: s in segments ==> ',' !in s;
    StrippedNonEmptyClean(segments, ',');
    StrippedNonEmpty(segments)
  }

  /** The columns of two comma-joined texts are the columns of the first
      followed by those of the second: order is kept and an empty segment
      (`,,` or a trailing comma) adds nothing. */
  lemma ColumnsConcat(a: string, b: string)
    ensures Columns(a + "," + b) == Columns(a) + Columns(b)
  {
    assert a + "," + b == a + [','] + b;
    SplitConcat(a, ',', b);
    StrippedNonEmptyAppend(Split(a, ','), Split(b, ','));
  }

  /** Columns that are already clean come back as they were written. */
  lemma {:induction false} ColumnsRoundTrip(cols: seq<string>)
    requires |cols| >= 1
    requires forall c :: c in cols ==> Clean(c) && ',' !in c
    ensures Columns(Join(cols, ',')) == cols
  {
    StripKeeps(cols[0]);
    SplitSingle(cols[0], ',');
    assert Columns(cols[0]) == [cols[0]];
    if |cols| > 1 {
      ColumnsRoundTrip(cols[1..]);
      ColumnsConcat(cols[0], Join(cols[1..], ','));
      assert Join(cols, ',') == cols[0] + "," + Join(cols[1..], ',');
    }
  }

  /** `parse_encoded_storage(location, columns_list)`: `str()` of its result,
      or the text of the exception it raised. */
  type StorageParser = (string, seq<string>) -> Result<string, string>

  /** `parse_encoded_storage_tool(location, encoded_columns)`: an exception is
      returned as an error dict instead of propagating. */
  function ParseEncodedStorageTool(location: string, encodedColumns: string, analyze: StorageParser): (r: string)
    ensures analyze(location, Columns(encodedColumns)).Success? ==> r == analyze(location, Columns(encodedColumns)).value
    ensures analyze(location, Columns(encodedColumns)).Failure? ==>
              r == ErrorDict("Failed to parse encoded columns: " + analyze(location, Columns(encodedColumns)).error)
  {
    match analyze(location, Columns(encodedColumns))
    case Success(text) => text
    case Failure(e) => ErrorDict("Failed to parse encoded columns: " + e)
  }
}
