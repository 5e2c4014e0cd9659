/**
 * Extraction of the new revision id from the text the arc tool prints, i.e. the effect of
 * `output.match(/Revision URI.+\/+(D\d+)$/m)` followed by taking the capture group, and the
 * conversion of a revision id into the numeric key Conduit expects.
 *
 * With the `m` flag `.` never crosses a line terminator and `$` matches before one, so a match
 * lies within one line. The regex is modelled as a predicate on one line (`Matches`), a
 * function computing its capture (`LineCapture`), and a search for the first matching line.
 */
module RevisionUri {
  import opened Wrappers

  /** The literal the pattern starts with. */
  const Marker: string := "Revision URI"

  /** JavaScript line terminators: LF, CR, LINE SEPARATOR, PARAGRAPH SEPARATOR. */
  predicate IsLineTerminator(c: char)
  {
    c == '\n' || c == '\r' || c == '\U{2028}' || c == '\U{2029}'
  }

  predicate TerminatorFree(s: string)
  {
    forall k :: 0 <= k < |s| ==> !IsLineTerminator(s[k])
  }

  /** `\d` without the `u` flag: the ASCII digits. */
  predicate IsDigit(c: char)
  {
    '0' <= c <= '9'
  }

  predicate AllDigits(s: string)
  {
    forall k :: 0 <= k < |s| ==> IsDigit(s[k])
  }

  /** The shape of the capture group `(D\d+)`. */
  predicate IsRevisionId(t: string)
  {
    |t| >= 2 && t[0] == 'D' && AllDigits(t[1..])
  }

  // ---------------------------------------------------------------------------------------
  // Splitting into lines

  /** Index of the first line terminator in `s`, or `|s|` when there is none. */
  function LineEnd(s: string): (e: nat)
    ensures e <= |s|
    ensures TerminatorFree(s[..e])
    ensures e < |s| ==> IsLineTerminator(s[e])
  {
    if s == [] then 0
    else if IsLineTerminator(s[0]) then 0
    else
      var e' := LineEnd(s[1..]);
      assert s[..1 + e'] == [s[0]] + s[1..][..e'];
      1 + e'
  }

  /** The lines of `s`: the maximal terminator-free pieces between line terminators. */
  function Lines(s: string): (ls: seq<string>)
    ensures |ls| >= 1
    ensures forall j :: 0 <= j < |ls| ==> TerminatorFree(ls[j])
    decreases |s|
  {
    var e := LineEnd(s);
    if e == |s| then [s] else [s[..e]] + Lines(s[e + 1..])
  }

  /** A line without terminators is the only line of itself. */
  lemma LinesOfOneLine(s: string)
    requires TerminatorFree(s)
    ensures Lines(s) == [s]
  {
    LineEndOfFree(s);
  }

  /** A terminator after a terminator-free prefix ends the first line. */
  lemma {:induction false} LinesCons(a: string, t: char, b: string)
    requires TerminatorFree(a) && IsLineTerminator(t)
    ensures Lines(a + [t] + b) == [a] + Lines(b)
  {
    var s := a + [t] + b;
    LineEndAfterFree(a, t, b);
    assert s[..|a|] == a;
    assert s[|a| + 1..] == b;
  }

  lemma {:induction false} LineEndOfFree(s: string)
    requires TerminatorFree(s)
    ensures LineEnd(s) == |s|
  {
    if s != [] {
      assert TerminatorFree(s[1..]) by {
        forall k | 0 <= k < |s[1..]| ensures !IsLineTerminator(s[1..][k]) {
          assert s[1..][k] == s[k + 1];
        }
      }
      LineEndOfFree(s[1..]);
    }
  }

  lemma {:induction false} LineEndAfterFree(a: string, t: char, b: string)
    requires TerminatorFree(a) && IsLineTerminator(t)
    ensures LineEnd(a + [t] + b) == |a|
  {
    var s := a + [t] + b;
    if a == [] {
      assert s[0] == t;
    } else {
      assert s[0] == a[0];
      assert s[1..] == a[1..] + [t] + b;
      assert TerminatorFree(a[1..]) by {
        forall k | 0 <= k < |a[1..]| ensures !IsLineTerminator(a[1..][k]) {
          assert a[1..][k] == a[k + 1];
        }
      }
      LineEndAfterFree(a[1..], t, b);
    }
  }

  // ---------------------------------------------------------------------------------------
  // The regex on one line: reference definition

  predicate MarkerAt(line: string, i: int)
  {
    0 <= i && i + |Marker| <= |line| && line[i..i + |Marker|] == Marker
  }

  /**
   * The regex matches `line` starting at `i`: `Revision URI` occupies `line[i..i+12]`, `.+` the
   * non-empty `line[i+12..k]`, `\/+` the non-empty run of slashes `line[k..m]`, and `(D\d+)$` the
   * rest of the line, `line[m..]`.
   */
  ghost predicate MatchesAt(line: string, i: int, k: int, m: int)
  {
    && MarkerAt(line, i)
    && i + |Marker| < k < m <= |line|
    && (forall p :: k <= p < m ==> line[p] == '/')
    && IsRevisionId(line[m..])
  }

  /** The regex matches the terminator-free `line` and captures `id`. */
  ghost predicate Matches(line: string, id: string)
  {
    exists i, k, m :: MatchesAt(line, i, k, m) && id == line[m..]
  }

  // ---------------------------------------------------------------------------------------
  // The regex on one line: computation

  /** Length of the longest all-digit suffix of `s`. */
  function DigitSuffixLen(s: string): (n: nat)
    ensures n <= |s|
    ensures AllDigits(s[|s| - n..])
    ensures n < |s| ==> !IsDigit(s[|s| - n - 1])
  {
    if s == [] || !IsDigit(s[|s| - 1]) then 0
    else
      var p := s[..|s| - 1];
      var n' := DigitSuffixLen(p);
      assert s[|s| - (n' + 1)..] == p[|p| - n'..] + [s[|s| - 1]];
      n' + 1
  }

  /** Whether `Marker` occurs in `line` at some index below `n`. */
  function MarkerBelow(line: string, n: int): (b: bool)
    ensures b <==> exists i :: 0 <= i < n && MarkerAt(line, i)
    decreases n
  {
    if n <= 0 then false else MarkerAt(line, n - 1) || MarkerBelow(line, n - 1)
  }

  /**
   * The capture of the regex on one line: the line must end in `/D` and digits, and `Marker`
   * must occur at least 13 characters before that slash, so that `.+` gets one character.
   */
  function LineCapture(line: string): (r: Option<string>)
    ensures r.Some? ==> IsRevisionId(r.value) && |r.value| < |line|
    ensures r.Some? ==> line[|line| - |r.value|..] == r.value
  {
    var n := DigitSuffixLen(line);
    var m := |line| - n - 1;
    if n >= 1 && m >= 1 && line[m] == 'D' && line[m - 1] == '/' && MarkerBelow(line, m - 1 - |Marker|)
    then
      assert line[m..][1..] == line[|line| - n..];
      Some(line[m..])
    else None
  }

  /** What `LineCapture` finds, the regex matches. */
  lemma LineCaptureSound(line: string)
    requires LineCapture(line).Some?
    ensures Matches(line, LineCapture(line).value)
  {
    var n := DigitSuffixLen(line);
    var m := |line| - n - 1;
    var i :| 0 <= i < m - 1 - |Marker| && MarkerAt(line, i);
    assert MatchesAt(line, i, m - 1, m);
  }

  /** What the regex matches, `LineCapture` finds. */
  lemma LineCaptureComplete(line: string, id: string)
    requires Matches(line, id)
    ensures LineCapture(line) == Some(id)
  {
    var i, k, m :| MatchesAt(line, i, k, m) && id == line[m..];
    CaptureStart(line, m);
    var n := DigitSuffixLen(line);
    assert line[m] == id[0] == 'D';
    assert line[m - 1] == '/';
    assert 0 <= i < m - 1 - |Marker| && MarkerAt(line, i);
    assert MarkerBelow(line, m - 1 - |Marker|);
    assert n >= 1 && m >= 1;
  }

  /** The computed capture is exactly the regex's: it matches iff `LineCapture` finds `id`. */
  lemma LineCaptureIsMatch(line: string, id: string)
    ensures LineCapture(line) == Some(id) <==> Matches(line, id)
  {
    if LineCapture(line) == Some(id) {
      LineCaptureSound(line);
    }
    if Matches(line, id) {
      LineCaptureComplete(line, id);
    }
  }

  /** Where `D\d+` ends a line, the `D` is the character before the longest digit suffix. */
  lemma CaptureStart(line: string, m: int)
    requires 0 <= m <= |line| && IsRevisionId(line[m..])
    ensures m == |line| - DigitSuffixLen(line) - 1
  {
    var t := line[m..];
    forall p | m < p < |line| ensures IsDigit(line[p]) {
      assert line[p] == t[1..][p - m - 1];
    }
    assert !IsDigit(line[m]);
  }

  /** The capture of a line is unique: a line never matches with two different ids. */
  lemma CaptureIsUnique(line: string, id1: string, id2: string)
    requires Matches(line, id1) && Matches(line, id2)
    ensures id1 == id2
  {
    LineCaptureIsMatch(line, id1);
    LineCaptureIsMatch(line, id2);
  }

  // ---------------------------------------------------------------------------------------
  // The first matching line of the whole output

  /** The capture of every line of `ls`, in order. */
  function Captures(ls: seq<string>): (cs: seq<Option<string>>)
    ensures |cs| == |ls|
    ensures forall j :: 0 <= j < |ls| ==> cs[j] == LineCapture(ls[j])
  {
    seq(|ls|, j requires 0 <= j < |ls| => LineCapture(ls[j]))
  }

  lemma CapturesCons(a: string, ls: seq<string>)
    ensures Captures([a] + ls) == [LineCapture(a)] + Captures(ls)
  {
    var l, r := Captures([a] + ls), [LineCapture(a)] + Captures(ls);
    forall j | 0 <= j < |l| ensures l[j] == r[j] {
      if j > 0 {
        assert ([a] + ls)[j] == ls[j - 1];
      }
    }
  }

  /** Index of the first present entry of `cs` from `k` on; `|cs|` when there is none. */
  function FirstSome(cs: seq<Option<string>>, k: nat): (j: nat)
    requires k <= |cs|
    ensures k <= j <= |cs|
    ensures j < |cs| ==> cs[j].Some?
    ensures forall j' :: k <= j' < j ==> cs[j'].None?
    decreases |cs| - k
  {
    if k == |cs| || cs[k].Some? then k else FirstSome(cs, k + 1)
  }

  /** Putting an entry in front shifts every later first index by one. */
  lemma {:induction false} FirstSomeShift(c: Option<string>, cs: seq<Option<string>>, k: nat)
    requires k <= |cs|
    ensures FirstSome([c] + cs, k + 1) == FirstSome(cs, k) + 1
    decreases |cs| - k
  {
    var cs' := [c] + cs;
    if k < |cs| {
      assert cs'[k + 1] == cs[k];
      if cs[k].None? {
        FirstSomeShift(c, cs, k + 1);
      }
    }
  }

  /** The first present entry of `cs`, or `None`. */
  function FirstPresent(cs: seq<Option<string>>): (r: Option<string>)
    ensures r.None? <==> forall j :: 0 <= j < |cs| ==> cs[j].None?
    ensures r.Some? ==> r in cs
  {
    var j := FirstSome(cs, 0);
    if j < |cs| then cs[j] else None
  }

  /** An absent first entry is skipped. */
  lemma FirstPresentSkips(c: Option<string>, cs: seq<Option<string>>)
    requires c.None?
    ensures FirstPresent([c] + cs) == FirstPresent(cs)
  {
    FirstSomeShift(c, cs, 0);
    var j := FirstSome(cs, 0);
    if j < |cs| {
      assert ([c] + cs)[j + 1] == cs[j];
    }
  }

  /** The capture of the first line of `ls` the regex matches. */
  function FirstCapture(ls: seq<string>): (r: Option<string>)
    ensures r.None? <==> forall j :: 0 <= j < |ls| ==> LineCapture(ls[j]).None?
    ensures r.Some? ==> IsRevisionId(r.value)
  {
    FirstPresent(Captures(ls))
  }

  /** `results[1]` of `output.match(/Revision URI.+\/+(D\d+)$/m)`, or `None` when there is no match. */
  function ExtractRevisionId(output: string): (r: Option<string>)
    ensures r.Some? ==> IsRevisionId(r.value)
  {
    FirstCapture(Lines(output))
  }

  /** The regex matches no line of `ls`. */
  ghost predicate NoLineMatches(ls: seq<string>)
  {
    forall j, id :: 0 <= j < |ls| ==> !Matches(ls[j], id)
  }

  /** `FirstCapture` finds nothing exactly when the regex matches no line of `ls`. */
  lemma FirstCaptureNoneIffNoMatch(ls: seq<string>)
    ensures FirstCapture(ls).None? <==> NoLineMatches(ls)
  {
    if FirstCapture(ls).None? {
      forall j, id | 0 <= j < |ls| ensures !Matches(ls[j], id) {
        if Matches(ls[j], id) {
          LineCaptureComplete(ls[j], id);
        }
      }
    } else {
      LineCaptureSound(ls[FirstSome(Captures(ls), 0)]);
    }
  }

  /** Line `j` of `ls` is the first one the regex matches, and it captures `id`. */
  ghost predicate FirstMatchAt(ls: seq<string>, j: int, id: string)
  {
    0 <= j < |ls| && Matches(ls[j], id) && NoLineMatches(ls[..j])
  }

  /** What `FirstCapture` finds is the regex's capture on the first line of `ls` it matches. */
  lemma FirstCaptureIsFirstMatch(ls: seq<string>)
    requires FirstCapture(ls).Some?
    ensures exists j :: FirstMatchAt(ls, j, FirstCapture(ls).value)
  {
    var r := FirstCapture(ls);
    var j := FirstSome(Captures(ls), 0);
    LineCaptureSound(ls[j]);
    forall j', id | 0 <= j' < j ensures !Matches(ls[..j][j'], id) {
      if Matches(ls[j'], id) {
        LineCaptureComplete(ls[j'], id);
      }
    }
    assert FirstMatchAt(ls, j, r.value);
  }

  /** No id is extracted exactly when the regex matches no line of the output. */
  lemma ExtractNoneIffNoMatch(output: string)
    ensures ExtractRevisionId(output).None? <==> NoLineMatches(Lines(output))
  {
    var ls := Lines(output);
    assert ExtractRevisionId(output) == FirstCapture(ls);
    FirstCaptureNoneIffNoMatch(ls);
  }

  /** An extracted id is what the regex captures on the first line of the output it matches. */
  lemma ExtractIsFirstMatch(output: string)
    requires ExtractRevisionId(output).Some?
    ensures exists j :: FirstMatchAt(Lines(output), j, ExtractRevisionId(output).value)
  {
    var ls := Lines(output);
    assert ExtractRevisionId(output) == FirstCapture(ls);
    FirstCaptureIsFirstMatch(ls);
  }

  /** A first line without a capture is skipped. */
  lemma FirstCaptureSkips(a: string, ls: seq<string>)
    requires LineCapture(a).None?
    ensures FirstCapture([a] + ls) == FirstCapture(ls)
  {
    CapturesCons(a, ls);
    FirstPresentSkips(LineCapture(a), Captures(ls));
  }

  /** A first line with a capture decides. */
  lemma FirstCaptureTakes(a: string, ls: seq<string>)
    requires LineCapture(a).Some?
    ensures FirstCapture([a] + ls) == LineCapture(a)
  {
    CapturesCons(a, ls);
  }

  /** A non-matching first line is skipped. */
  lemma ExtractSkipsLine(a: string, t: char, b: string)
    requires TerminatorFree(a) && IsLineTerminator(t) && LineCapture(a).None?
    ensures ExtractRevisionId(a + [t] + b) == ExtractRevisionId(b)
  {
    LinesCons(a, t, b);
    FirstCaptureSkips(a, Lines(b));
  }

  /** A matching first line decides the result, whatever follows it. */
  lemma ExtractTakesLine(a: string, t: char, b: string)
    requires TerminatorFree(a) && IsLineTerminator(t) && LineCapture(a).Some?
    ensures ExtractRevisionId(a + [t] + b) == LineCapture(a)
  {
    LinesCons(a, t, b);
    FirstCaptureTakes(a, Lines(b));
  }

  // ---------------------------------------------------------------------------------------
  // The Conduit key of a revision

  /** `revisionId.substr(1)`: the id with its first character dropped (`''` stays `''`). */
  function StripD(revisionId: string): (key: string)
    ensures |revisionId| > 0 ==> [revisionId[0]] + key == revisionId
    ensures |revisionId| == 0 ==> key == ""
  {
    if |revisionId| == 0 then "" else revisionId[1..]
  }

  /** For an extracted id the key is its non-empty digit string, and `"D" + key` gives the id back. */
  lemma StripDOfRevisionId(id: string)
    requires IsRevisionId(id)
    ensures var key := StripD(id); |key| >= 1 && AllDigits(key) && "D" + key == id
  {
  }
}

/** The regex on the outputs the repository's tests feed to `createNewRevision`, and on edge cases. */
module RevisionUriExamples {
  import opened Wrappers
  import opened RevisionUri

  /** The URI line of the tests' report: `Revision URI: https://foo.bar/D111`, indented by eight spaces. */
  const UriLine: string := Indent + Marker + UriTail + "/D" + TestDigits

  const Indent: string := "        "
  const UriTail: string := ": https://foo.bar"
  const TestDigits: string := "111"

  /** A line with `Marker`, at least one more character, a slash, `D` and digits captures `D` and the digits. */
  lemma CaptureOfShape(pre: string, mid: string, digits: string)
    requires |mid| >= 1 && |digits| >= 1 && AllDigits(digits)
    ensures LineCapture(pre + Marker + mid + "/D" + digits) == Some("D" + digits)
  {
    var line := pre + Marker + mid + "/D" + digits;
    var i := |pre|;
    var k := i + |Marker| + |mid|;
    assert line[i..i + |Marker|] == Marker;
    assert line[k] == '/';
    assert line[k + 1..] == "D" + digits;
    assert ("D" + digits)[1..] == digits;
    assert MatchesAt(line, i, k, k + 1);
    LineCaptureComplete(line, "D" + digits);
  }

  lemma TerminatorFreeAppend(a: string, b: string)
    requires TerminatorFree(a) && TerminatorFree(b)
    ensures TerminatorFree(a + b)
  {
    forall k | 0 <= k < |a + b| ensures !IsLineTerminator((a + b)[k]) {
      if k >= |a| {
        assert (a + b)[k] == b[k - |a|];
      }
    }
  }

  /** Solver helper: the tests' id spelled out from its pieces. */
  lemma TestId()
    ensures "D" + TestDigits == "D111" && AllDigits(TestDigits)
  {
  }

  lemma UriLineCapture()
    ensures LineCapture(UriLine) == Some("D111")
  {
    TestId();
    CaptureOfShape(Indent, UriTail, TestDigits);
  }

  lemma UriLineIsALine()
    ensures TerminatorFree(UriLine)
  {
    TerminatorFreeAppend(Indent, Marker);
    TerminatorFreeAppend(Indent + Marker, UriTail);
    TerminatorFreeAppend(Indent + Marker + UriTail, "/D");
    TerminatorFreeAppend(Indent + Marker + UriTail + "/D", TestDigits);
  }

  /** An output without line terminators is one line, and its capture is the result. */
  lemma OneLineOutput(line: string)
    requires TerminatorFree(line)
    ensures ExtractRevisionId(line) == LineCapture(line)
  {
    LinesOfOneLine(line);
    FirstCaptureTakesOnly(line);
  }

  lemma FirstCaptureTakesOnly(line: string)
    ensures FirstCapture([line]) == LineCapture(line)
  {
    if LineCapture(line).Some? {
      FirstCaptureTakes(line, []);
      assert [line] + [] == [line];
    }
  }

  lemma SingleLineCapture()
    ensures LineCapture(SingleLine) == Some("D111")
  {
    TestId();
    CaptureOfShape("", UriTail, TestDigits);
    NoPrefix(Marker, UriTail, "/D", TestDigits);
  }

  /** Solver helper: an empty prefix is dropped. */
  lemma NoPrefix(a: string, b: string, c: string, d: string)
    ensures "" + a + b + c + d == a + b + c + d
  {
  }

  lemma SingleLineIsALine()
    ensures TerminatorFree(SingleLine)
  {
    TerminatorFreeAppend(Marker, UriTail);
    TerminatorFreeAppend(Marker + UriTail, "/D");
    TerminatorFreeAppend(Marker + UriTail + "/D", TestDigits);
  }

  /** A one-line output: the whole output is the line. */
  lemma SingleLineOutput()
    ensures ExtractRevisionId(SingleLine) == Some("D111")
  {
    SingleLineCapture();
    SingleLineIsALine();
    OneLineOutput(SingleLine);
  }

  /** What `arc diff --create` prints in the repository's one-line tests. */
  const SingleLine: string := Marker + UriTail + "/D" + TestDigits

  /** What `arc diff --create` prints in the repository's tests. */
  const Report: string := "\n" + CreatedLine + "\n" + UriLine + "\n" + AfterUriLine

  const CreatedLine: string := "Created a new Differential revision:"
  const AfterUriLine: string := "\nIncluded changes:\n  M     testfile.php\n\t\t\t\t"

  /** A leading line terminator only adds an empty first line, which never matches. */
  lemma LeadingNewline(s: string)
    ensures ExtractRevisionId("\n" + s) == ExtractRevisionId(s)
  {
    assert "\n" + s == [] + ['\n'] + s;
    ExtractSkipsLine([], '\n', s);
  }

  /** An output whose first line does not match and whose second does. */
  lemma SecondLineDecides(a: string, b: string, c: string)
    requires TerminatorFree(a) && LineCapture(a).None?
    requires TerminatorFree(b) && LineCapture(b).Some?
    ensures ExtractRevisionId(a + "\n" + b + "\n" + c) == LineCapture(b)
  {
    var second := b + ['\n'] + c;
    Regroup(a, b, c);
    ExtractTakesLine(b, '\n', c);
    ExtractSkipsLine(a, '\n', second);
  }

  /** Solver helper: regroups the output of `ThirdLineDecides`. */
  lemma RegroupFront(a: string, b: string, c: string)
    ensures "\n" + a + "\n" + b + "\n" + c == "\n" + (a + "\n" + b + "\n" + c)
  {
  }

  /** Solver helper: regroups the output of `SecondLineDecides`. */
  lemma Regroup(a: string, b: string, c: string)
    ensures a + "\n" + b + "\n" + c == a + ['\n'] + (b + ['\n'] + c)
  {
  }

  /** An output whose first line is empty, whose second does not match and whose third does. */
  lemma ThirdLineDecides(a: string, b: string, c: string)
    requires TerminatorFree(a) && LineCapture(a).None?
    requires TerminatorFree(b) && LineCapture(b).Some?
    ensures ExtractRevisionId("\n" + a + "\n" + b + "\n" + c) == LineCapture(b)
  {
    var rest := a + "\n" + b + "\n" + c;
    RegroupFront(a, b, c);
    SecondLineDecides(a, b, c);
    LeadingNewline(rest);
  }

  lemma CreatedLineDoesNotMatch()
    ensures TerminatorFree(CreatedLine) && LineCapture(CreatedLine).None?
  {
    assert DigitSuffixLen(CreatedLine) == 0;
  }


  /** The multi-line report: its third line is the first the regex matches. */
  lemma ReportOutput()
    ensures ExtractRevisionId(Report) == Some("D111")
  {
    CreatedLineDoesNotMatch();
    UriLineIsALine();
    UriLineCapture();
    ThirdLineDecides(CreatedLine, UriLine, AfterUriLine);
  }

  /** `$` anchors the id at the end of the line: trailing text means no match. */
  lemma TrailingTextDoesNotMatch()
    ensures LineCapture("Revision URI: https://foo.bar/D111 ").None?
  {
  }

  /** `\d+` needs at least one digit after the `D`. */
  lemma BareDDoesNotMatch()
    ensures LineCapture("Revision URI: https://foo.bar/D").None?
  {
  }

  /** `.+` needs at least one character between `Revision URI` and the slashes. */
  lemma SlashRightAfterMarkerDoesNotMatch()
    ensures LineCapture("Revision URI/D1").None?
  {
    var line := "Revision URI/D1";
    CaptureStart(line, 13);
  }

  /** Several slashes before the id are all absorbed by `\/+` or `.+`. */
  lemma DoubleSlashMatches()
    ensures LineCapture("Revision URI: x//D42") == Some("D42")
  {
    var line := "Revision URI: x//D42";
    assert MatchesAt(line, 0, 15, 17);
    LineCaptureComplete(line, "D42");
  }

  /** The Conduit key for the tests' revision. */
  lemma TestRevisionKey()
    ensures StripD("D111") == "111"
  {
  }
}
