/** The handful of Python `str` operations the core relies on: `find`, `in`,
    `split` with a one-character separator, `join`, `strip()`, `lower()`,
    `int()` and `str()` of an integer.  Whitespace, letters and digits are the
    ASCII ones. */
module Text {
  import opened Wrappers

  // ---------------------------------------------------------------------------
  // Searching
  // ---------------------------------------------------------------------------

  /** `pat` occurs in `text` starting at index `k`. */
  predicate OccursAt(text: string, pat: string, k: nat) {
    k + |pat| <= |text| && text[k..k + |pat|] == pat
  }

  /** Python's `text.find(pat, from)`: the first index at or after `from`
      where `pat` occurs, with `None` standing for -1. */
  function FindFrom(text: string, pat: string, from: nat): (r: Option<nat>)
    ensures r.Some? ==> from <= r.value && OccursAt(text, pat, r.value)
    ensures r.Some? ==> forall k :: from <= k < r.value ==> !OccursAt(text, pat, k)
    ensures r.None? ==> forall k :: from <= k ==> !OccursAt(text, pat, k)
    decreases |text| - from
  {
    if from + |pat| > |text| then None
    else if OccursAt(text, pat, from) then Some(from)
    else FindFrom(text, pat, from + 1)
  }

  /** Python's `text.find(pat)`; `pat in text` is `Find(text, pat).Some?`. */
  function Find(text: string, pat: string): Option<nat> {
    FindFrom(text, pat, 0)
  }

  /** A pattern placed between two texts is found no later than where it was placed. */
  lemma OccursBetween(a: string, pat: string, b: string)
    ensures OccursAt(a + pat + b, pat, |a|)
    ensures Find(a + pat + b, pat).Some? && Find(a + pat + b, pat).value <= |a|
  {
    var t := a + pat + b;
    assert t[|a|..|a| + |pat|] == pat;
    assert OccursAt(t, pat, |a|);
  }

  /** Searching a longer text that starts with `text` finds the same first
      occurrence, once `text` already holds one. */
  lemma {:induction false} FindFromExtend(text: string, more: string, pat: string, from: nat)
    requires FindFrom(text, pat, from).Some?
    ensures FindFrom(text + more, pat, from) == FindFrom(text, pat, from)
    decreases |text| - from
  {
    var t := text + more;
    if OccursAt(text, pat, from) {
      assert t[from..from + |pat|] == text[from..from + |pat|];
    } else {
      if from + |pat| <= |text| {
        assert t[from..from + |pat|] == text[from..from + |pat|];
      }
      FindFromExtend(text, more, pat, from + 1);
    }
  }

  /** An occurrence inside `b` is an occurrence inside `a + b + c`, shifted by `|a|`. */
  lemma OccursWithin(a: string, b: string, c: string, pat: string, k: nat)
    requires OccursAt(b, pat, k)
    ensures OccursAt(a + b + c, pat, |a| + k)
  {
    assert (a + b + c)[|a| + k..|a| + k + |pat|] == b[k..k + |pat|];
  }

  /** An occurrence inside `body` is an occurrence inside a template that
      puts `body` after `head`. */
  lemma OccursInTemplate(head: string, body: string, lead: string, marker: string, rest: string,
                         pat: string, k: nat)
    requires OccursAt(body, pat, k)
    ensures OccursAt(head + body + lead + marker + rest, pat, |head| + k)
  {
    var t := head + body + lead + marker + rest;
    assert t[|head| + k..|head| + k + |pat|] == body[k..k + |pat|];
  }

  // ---------------------------------------------------------------------------
  // split and join
  // ---------------------------------------------------------------------------

  /** Python's `s.split(sep)` for a one-character separator: the segments
      between separators, in order; `"".split(",")` is `[""]`. */
  function Split(s: string, sep: char): (parts: seq<string>)
    ensures |parts| >= 1
    ensures forall i :: 0 <= i < |parts| ==> sep !in parts[i]
  {
    if s == [] then [""]
    else
      var rest := Split(s[1..], sep);
      if s[0] == sep then [""] + rest
      else [[s[0]] + rest[0]] + rest[1..]
  }

  /** Python's `sep.join(parts)`. */
  function Join(parts: seq<string>, sep: char): string {
    if parts == [] then ""
    else if |parts| == 1 then parts[0]
    else parts[0] + [sep] + Join(parts[1..], sep)
  }

  /** `[line(x) for x in items]`: one line per item, in order. */
  function Lines<T>(items: seq<T>, line: T -> string): (lines: seq<string>)
    ensures |lines| == |items|
    ensures forall i :: 0 <= i < |items| ==> lines[i] == line(items[i])
  {
    if items == [] then [] else Lines(items[..|items| - 1], line) + [line(items[|items| - 1])]
  }

  /** Every part can be found in the joined text. */
  lemma {:induction false} JoinHasPart(parts: seq<string>, sep: char, i: nat)
    requires i < |parts|
    ensures exists k :: OccursAt(Join(parts, sep), parts[i], k)
  {
    if |parts| == 1 {
      assert OccursAt(Join(parts, sep), parts[0], 0);
    } else if i == 0 {
      OccursWithin([], parts[0], [sep] + Join(parts[1..], sep), parts[0], 0) by {
        assert OccursAt(parts[0], parts[0], 0);
      }
      assert [] + parts[0] + ([sep] + Join(parts[1..], sep)) == Join(parts, sep);
    } else {
      JoinHasPart(parts[1..], sep, i - 1);
      var k :| OccursAt(Join(parts[1..], sep), parts[1..][i - 1], k);
      OccursWithin(parts[0] + [sep], Join(parts[1..], sep), [], parts[i], k);
      assert parts[0] + [sep] + Join(parts[1..], sep) + [] == Join(parts, sep);
    }
  }

  /** Number of occurrences of `c` in `s`. */
  function Count(s: string, c: char): nat {
    if s == [] then 0 else (if s[0] == c then 1 else 0) + Count(s[1..], c)
  }

  /** Joining the segments back with the separator gives the original text. */
  lemma {:induction false} JoinSplit(s: string, sep: char)
    ensures Join(Split(s, sep), sep) == s
  {
    if s != [] {
      var rest := Split(s[1..], sep);
      JoinSplit(s[1..], sep);
      if s[0] == sep {
        assert ([""] + rest)[1..] == rest;
      } else if |rest| > 1 {
        var parts := [[s[0]] + rest[0]] + rest[1..];
        assert parts[1..] == rest[1..];
        assert Join(rest, sep) == rest[0] + [sep] + Join(rest[1..], sep);
      }
    }
  }

  /** A segment free of the separator, followed by the separator, splits off
      as the first part. */
  lemma {:induction false} SplitAfterSegment(p: string, sep: char, t: string)
    requires sep !in p
    ensures Split(p + [sep] + t, sep) == [p] + Split(t, sep)
  {
    if p == [] {
      assert p + [sep] + t == [sep] + t;
      assert ([sep] + t)[1..] == t;
    } else {
      assert (p + [sep] + t)[1..] == p[1..] + [sep] + t;
      SplitAfterSegment(p[1..], sep, t);
      assert [p[0]] + p[1..] == p;
    }
  }

  /** A text free of the separator is a single segment. */
  lemma {:induction false} SplitSingle(p: string, sep: char)
    requires sep !in p
    ensures Split(p, sep) == [p]
  {
    if p != [] {
      SplitSingle(p[1..], sep);
      assert [p[0]] + p[1..] == p;
    }
  }

  /** Splitting undoes joining, as long as no segment holds the separator. */
  lemma {:induction false} SplitJoin(parts: seq<string>, sep: char)
    requires |parts| >= 1
    requires forall i :: 0 <= i < |parts| ==> sep !in parts[i]
    ensures Split(Join(parts, sep), sep) == parts
  {
    if |parts| == 1 {
      SplitSingle(parts[0], sep);
    } else {
      SplitJoin(parts[1..], sep);
      SplitAfterSegment(parts[0], sep, Join(parts[1..], sep));
    }
  }

  /** `split` yields one segment more than there are separators. */
  lemma {:induction false} SplitCount(s: string, sep: char)
    ensures |Split(s, sep)| == Count(s, sep) + 1
  {
    if s != [] {
      SplitCount(s[1..], sep);
    }
  }

  /** Splitting at a separator placed between two texts splits each of them. */
  /** Replacing the first part of `left + right` touches only `left`. */
  lemma PrependToFirst(first: string, left: seq<string>, right: seq<string>)
    requires |left| >= 1
    ensures [first] + (left + right)[1..] == ([first] + left[1..]) + right
  {
    assert (left + right)[1..] == left[1..] + right;
  }

  lemma {:induction false} SplitConcat(a: string, sep: char, b: string)
    ensures Split(a + [sep] + b, sep) == Split(a, sep) + Split(b, sep)
  {
    var s := a + [sep] + b;
    if a == [] {
      assert s == [sep] + b;
      assert s[1..] == b;
    } else {
      assert s[0] == a[0];
      assert s[1..] == a[1..] + [sep] + b;
      SplitConcat(a[1..], sep, b);
      var left, right := Split(a[1..], sep), Split(b, sep);
      assert Split(s[1..], sep) == left + right;
      if a[0] == sep {
        assert Split(s, sep) == [""] + (left + right);
        assert Split(a, sep) == [""] + left;
      } else {
        var first := [a[0]] + left[0];
        PrependToFirst(first, left, right);
        assert Split(s, sep) == [first] + (left + right)[1..];
        assert Split(a, sep) == [first] + left[1..];
      }
    }
  }

  /** A trailing separator leaves an empty last segment. */
  lemma {:induction false} SplitTrailing(s: string, sep: char)
    ensures var parts := Split(s + [sep], sep); parts[|parts| - 1] == ""
  {
    if s == [] {
      assert [sep][1..] == [];
    } else {
      assert (s + [sep])[1..] == s[1..] + [sep];
      SplitTrailing(s[1..], sep);
    }
  }

  // ---------------------------------------------------------------------------
  // strip and lower
  // ---------------------------------------------------------------------------

  /** The ASCII characters Python's `str.isspace()` accepts. */
  predicate IsSpace(c: char) {
    c == ' ' || c == '\t' || c == '\n' || c == '\r' ||
    c == '\U{0B}' || c == '\U{0C}' || ('\U{1C}' <= c <= '\U{1F}')
  }

  function TrimStart(s: string): (r: string)
    ensures |r| <= |s| && r == s[|s| - |r|..]
    ensures forall k :: 0 <= k < |s| - |r| ==> IsSpace(s[k])
    ensures r == [] || !IsSpace(r[0])
  {
    if s != [] && IsSpace(s[0]) then TrimStart(s[1..]) else s
  }

  function TrimEnd(s: string): (r: string)
    ensures |r| <= |s| && r == s[..|r|]
    ensures forall k :: |r| <= k < |s| ==> IsSpace(s[k])
    ensures r == [] || !IsSpace(r[|r| - 1])
  {
    if s != [] && IsSpace(s[|s| - 1]) then TrimEnd(s[..|s| - 1]) else s
  }

  /** How many whitespace characters `s` starts with. */
  function LeadingSpaces(s: string): (k: nat)
    ensures k <= |s|
    ensures forall j :: 0 <= j < k ==> IsSpace(s[j])
    ensures k == |s| || !IsSpace(s[k])
  {
    |s| - |TrimStart(s)|
  }

  /** Python's `s.strip()`: the text without leading and trailing whitespace.
      It is the slice of `s` after its leading whitespace, with only
      whitespace after it, and it neither starts nor ends with whitespace. */
  function Strip(s: string): (r: string)
    ensures r == [] || (!IsSpace(r[0]) && !IsSpace(r[|r| - 1]))
    ensures LeadingSpaces(s) + |r| <= |s| && r == s[LeadingSpaces(s)..LeadingSpaces(s) + |r|]
    ensures forall j :: LeadingSpaces(s) + |r| <= j < |s| ==> IsSpace(s[j])
    ensures forall c :: c in r ==> c in s
  {
    var t := TrimStart(s);
    var r := TrimEnd(t);
    PrefixOfSuffix(s, t, r);
    r
  }

  /** A prefix `r` of a suffix `t` of `s` is a slice of `s`; the rest of `t`
      is the rest of `s`. */
  lemma PrefixOfSuffix(s: string, t: string, r: string)
    requires |t| <= |s| && t == s[|s| - |t|..]
    requires |r| <= |t| && r == t[..|r|]
    ensures var k := |s| - |t|;
      r == s[k..k + |r|] && forall j :: k + |r| <= j < |s| ==> s[j] == t[j - k]
    ensures forall c :: c in r ==> c in s
  {
    var k := |s| - |t|;
    assert r == s[k..k + |r|];
    forall c | c in r ensures c in s {
      var i :| 0 <= i < |r| && r[i] == c;
      assert s[k + i] == c;
    }
  }

  /** A text without surrounding whitespace is left as it is by `strip()`. */
  lemma StripKeeps(s: string)
    requires s == [] || (!IsSpace(s[0]) && !IsSpace(s[|s| - 1]))
    ensures Strip(s) == s
  {
  }

  /** The lower case of `c`, exact for every character whose lower case is an
      ASCII letter: `A`..`Z`, and the KELVIN SIGN, which lowers to `k`. Other
      characters are left as they are. */
  function LowerChar(c: char): char {
    if 'A' <= c <= 'Z' then (c as int + 32) as char
    else if c == '\U{212A}' then 'k'
    else c
  }

  /** Python's `s.lower()`, as far as it decides equality with an ASCII text. */
  function Lower(s: string): (r: string)
    ensures |r| == |s|
    ensures forall i :: 0 <= i < |s| ==> r[i] == LowerChar(s[i])
  {
    if s == [] then [] else [LowerChar(s[0])] + Lower(s[1..])
  }

  // ---------------------------------------------------------------------------
  // int() and str() of integers
  // ---------------------------------------------------------------------------

  predicate IsDigit(c: char) { '0' <= c <= '9' }

  /** One or more decimal digits. */
  predicate AllDigits(s: string) {
    |s| > 0 && forall i :: 0 <= i < |s| ==> IsDigit(s[i])
  }

  function DigitsValue(s: string): nat
    requires forall i :: 0 <= i < |s| ==> IsDigit(s[i])
  {
    if s == [] then 0
    else
      var d := s[|s| - 1] as int - '0' as int;
      assert IsDigit(s[|s| - 1]);
      DigitsValue(s[..|s| - 1]) * 10 + d
  }

  /** Python's `int(s)` on an already stripped text: an optional sign and one
      or more ASCII digits (leading zeros allowed); `None` stands for the
      `ValueError`. */
  function ParseInt(s: string): Option<int> {
    if |s| > 0 && (s[0] == '+' || s[0] == '-') then
      if AllDigits(s[1..]) then
        var magnitude: int := DigitsValue(s[1..]);
        Some(if s[0] == '-' then -magnitude else magnitude)
      else None
    else if AllDigits(s) then Some(DigitsValue(s))
    else None
  }

  function DigitChar(d: nat): char
    requires d < 10
  {
    ('0' as int + d) as char
  }

  function ShowNat(n: nat): (s: string)
    ensures AllDigits(s)
  {
    if n < 10 then [DigitChar(n)] else ShowNat(n / 10) + [DigitChar(n % 10)]
  }

  /** Python's `str(n)` for an integer. */
  function ShowInt(n: int): string {
    if n < 0 then "-" + ShowNat(-n) else ShowNat(n)
  }

  lemma {:induction false} ShowNatValue(n: nat)
    ensures DigitsValue(ShowNat(n)) == n
  {
    if n >= 10 {
      var s := ShowNat(n);
      assert s[..|s| - 1] == ShowNat(n / 10);
      ShowNatValue(n / 10);
    }
  }

  /** `int(str(n)) == n`. */
  lemma ParseShowInt(n: int)
    ensures ParseInt(ShowInt(n)) == Some(n)
  {
    if n < 0 {
      ShowNatValue(-n);
      assert ShowInt(n)[1..] == ShowNat(-n);
    } else {
      ShowNatValue(n);
    }
  }

  /** `str(n)` is made of digits and at most a leading minus sign. */
  lemma ShowIntChars(n: int)
    ensures |ShowInt(n)| > 0
    ensures forall c :: c in ShowInt(n) ==> c == '-' || IsDigit(c)
    ensures ShowInt(n)[0] == '-' <==> n < 0
    ensures forall i :: 0 < i < |ShowInt(n)| ==> IsDigit(ShowInt(n)[i])
    ensures !IsSpace(ShowInt(n)[0]) && !IsSpace(ShowInt(n)[|ShowInt(n)| - 1])
  {
    var d := ShowNat(if n < 0 then -n else n);
    assert forall c :: c in d ==> IsDigit(c);
    if n < 0 {
      assert ShowInt(n) == "-" + d;
      assert forall i :: 0 < i < |ShowInt(n)| ==> ShowInt(n)[i] == d[i - 1];
    } else {
      assert ShowInt(n) == d && IsDigit(d[0]);
    }
  }
}
