/**
 * `clean_response` of `response_cleaner.py`: split into lines, strip each,
 * drop blank ones, remove one leading run of bullet characters and the
 * whitespace after it, delete every `*`, join with single spaces, delete every
 * case-insensitive `Action:` up to the end of its line, and strip the result.
 */
module ResponseCleaner {
  import opened Wrappers
  import opened TextUtil

  /** The line boundaries of Python's `str.splitlines()`. */
  predicate IsLineBoundary(c: char)
  {
    || c == '\n' || c == '\r' || c == '\U{0B}' || c == '\U{0C}'
    || ('\U{1C}' <= c <= '\U{1E}')
    || c == '\U{85}' || c == '\U{2028}' || c == '\U{2029}'
  }

  predicate NoLineBoundary(s: string)
  {
    forall k :: 0 <= k < |s| ==> !IsLineBoundary(s[k])
  }

  /**
   * `str.splitlines()` on `text`, with `current` the part of the line read so
   * far: a boundary ends a line, "\r\n" counts as one boundary, and a last line
   * without a boundary after it is kept only if it is not empty.
   */
  function SplitFrom(text: string, current: string): (lines: seq<string>)
    requires NoLineBoundary(current)
    ensures forall i :: 0 <= i < |lines| ==> NoLineBoundary(lines[i])
    decreases |text|
  {
    if text == [] then
      (if current == [] then [] else [current])
    else if IsLineBoundary(text[0]) then
      var rest := if text[0] == '\r' && |text| > 1 && text[1] == '\n' then text[2..] else text[1..];
      [current] + SplitFrom(rest, "")
    else
      SplitFrom(text[1..], current + [text[0]])
  }

  /** Python's `text.splitlines()`; no line contains a line boundary. */
  function SplitLines(text: string): (lines: seq<string>)
    ensures forall i :: 0 <= i < |lines| ==> NoLineBoundary(lines[i])
  {
    SplitFrom(text, "")
  }

  /**
   * The character class `[\*\-\â€¢]` as the source file spells it: `*`, `-`,
   * U+00E2, U+20AC and U+00A2 (the three bytes of a UTF-8 bullet read as
   * Latin text), so the bullet U+2022 itself is not in it.
   */
  predicate IsBulletChar(c: char)
  {
    c == '*' || c == '-' || c == '\U{E2}' || c == '\U{20AC}' || c == '\U{A2}'
  }

  /** Length of the run of bullet characters at the start of `s`. */
  function BulletRun(s: string): (n: nat)
    ensures n <= |s|
    ensures forall k :: 0 <= k < n ==> IsBulletChar(s[k])
    ensures n == |s| || !IsBulletChar(s[n])
  {
    if s != [] && IsBulletChar(s[0]) then 1 + BulletRun(s[1..]) else 0
  }

  /**
   * `re.sub(r"^[\*\-\â€¢]+\s*", "", line)`: one leading run of bullet characters
   * and the whitespace after it are removed; without a leading bullet the line
   * is unchanged.
   */
  function StripBullet(line: string): (r: string)
    ensures |r| <= |line| && r == line[|line| - |r|..]
    ensures BulletRun(line) == 0 ==> r == line
    ensures BulletRun(line) > 0 ==>
      && BulletRun(line) <= |line| - |r|
      && (forall k :: BulletRun(line) <= k < |line| - |r| ==> IsSpace(line[k]))
      && (r == [] || !IsSpace(r[0]))
  {
    var n := BulletRun(line);
    if n == 0 then line else TrimLeft(line[n..])
  }

  /** `re.sub(r"\*+", "", line)`: every `*` is deleted and nothing else changes. */
  function DeleteStars(s: string): (r: string)
    ensures '*' !in r
    ensures |r| <= |s|
    ensures forall c :: c in r <==> c in s && c != '*'
  {
    if s == [] then []
    else (if s[0] == '*' then [] else [s[0]]) + DeleteStars(s[1..])
  }

  /** What `Action:` matches at offset `k` under `re.IGNORECASE` (Unicode rules for 'i'). */
  predicate ActionCharAt(c: char, k: nat)
  {
    match k
    case 0 => c == 'a' || c == 'A'
    case 1 => c == 'c' || c == 'C'
    case 2 => c == 't' || c == 'T'
    case 3 => c == 'i' || c == 'I' || c == '\U{130}' || c == '\U{131}'
    case 4 => c == 'o' || c == 'O'
    case 5 => c == 'n' || c == 'N'
    case 6 => c == ':'
    case _ => false
  }

  /** `w` is a 7-character word that `Action:` matches case-insensitively. */
  predicate IsActionTag(w: string)
  {
    && |w| == 7
    && ActionCharAt(w[0], 0) && ActionCharAt(w[1], 1) && ActionCharAt(w[2], 2) && ActionCharAt(w[3], 3)
    && ActionCharAt(w[4], 4) && ActionCharAt(w[5], 5) && ActionCharAt(w[6], 6)
  }

  /** A case-insensitive `Action:` starts at index `i` of `s`. */
  predicate ActionAt(s: string, i: nat)
  {
    i + 7 <= |s| && IsActionTag(s[i..i + 7])
  }

  /** The first case-insensitive `Action:` at or after `from`. */
  function FindAction(s: string, from: nat): (r: Option<nat>)
    requires from <= |s|
    ensures r.Some? ==> from <= r.value && ActionAt(s, r.value)
    ensures r.Some? ==> forall j :: from <= j < r.value ==> !ActionAt(s, j)
    ensures r.None? ==> forall j: nat :: from <= j ==> !ActionAt(s, j)
    decreases |s| - from
  {
    if ActionAt(s, from) then Some(from)
    else if from == |s| then None
    else FindAction(s, from + 1)
  }

  /**
   * `re.sub(r"Action:.*", "", s, flags=re.I)`: each match runs from an
   * `Action:` to the next "\n" (which `.` does not match) or to the end, and is
   * deleted; the search resumes at that newline.
   */
  function RemoveActions(s: string): string
    decreases |s|
  {
    match FindAction(s, 0)
    case None => s
    case Some(i) =>
      match FindFrom(s, "\n", i + 7)
      case None => s[..i]
      case Some(j) => s[..i] + RemoveActions(s[j..])
  }

  /**
   * The part of `s` before its first case-insensitive `Action:`, or all of `s`
   * when it has none: the cut falls at the first match, so the part kept
   * contains no match.
   */
  function BeforeAction(s: string): (r: string)
    ensures |r| <= |s| && r == s[..|r|]
    ensures r == s || ActionAt(s, |r|)
    ensures forall j :: 0 <= j < |r| ==> !ActionAt(s, j)
    ensures forall i: nat :: !ActionAt(r, i)
  {
    match FindAction(s, 0)
    case None => s
    case Some(i) =>
      PrefixHasNoAction(s, i);
      s[..i]
  }

  /** The kept, cleaned lines of the raw lines, in order (the loop's `lines`). */
  function CleanedLines(raw: seq<string>): seq<string>
    decreases |raw|
  {
    if raw == [] then []
    else
      var line := Strip(raw[|raw| - 1]);
      CleanedLines(raw[..|raw| - 1]) + (if line == "" then [] else [DeleteStars(StripBullet(line))])
  }

  /** The text `clean_response` joins before removing the `Action:` part. */
  function Joined(text: string): string
  {
    Join(" ", CleanedLines(SplitLines(text)))
  }

  /** `clean_response(text)` as a function. */
  function Clean(text: string): string
  {
    Strip(RemoveActions(Joined(text)))
  }

  /** `clean_response`: the loop over the lines, then the join and the `Action:` removal. */
  method CleanResponse(text: string) returns (cleaned: string)
    ensures cleaned == Clean(text)
    ensures '*' !in cleaned
    ensures NoLineBoundary(cleaned)
    ensures forall i: nat :: !ActionAt(cleaned, i)
    ensures cleaned == [] || (!IsSpace(cleaned[0]) && !IsSpace(cleaned[|cleaned| - 1]))
  {
    var raw := SplitLines(text);
    var lines: seq<string> := [];
    for i := 0 to |raw|
      invariant lines == CleanedLines(raw[..i])
    {
      assert raw[..i + 1][..i] == raw[..i];
      var line := Strip(raw[i]);
      if line == "" {
        continue;
      }
      line := StripBullet(line);
      line := DeleteStars(line);
      lines := lines + [line];
    }
    assert raw[..|raw|] == raw;
    cleaned := Join(" ", lines);
    cleaned := Strip(RemoveActions(cleaned));
    CleanHasNoStar(text);
    CleanHasNoLineBoundary(text);
    CleanHasNoAction(text);
  }

  // ---------- properties of the specification ----------

  /** Every character `RemoveActions` keeps was in its input. */
  lemma {:induction false} RemoveActionsChars(s: string, c: char)
    requires c in RemoveActions(s)
    ensures c in s
    decreases |s|
  {
    match FindAction(s, 0)
    case None =>
    case Some(i) =>
      match FindFrom(s, "\n", i + 7)
      case None =>
      case Some(j) =>
        if c !in s[..i] {
          RemoveActionsChars(s[j..], c);
        }
  }

  /** On text without a newline, `RemoveActions` keeps exactly what comes before the first `Action:`. */
  lemma RemoveActionsOneLine(s: string)
    requires '\n' !in s
    ensures RemoveActions(s) == BeforeAction(s)
  {
    match FindAction(s, 0)
    case None =>
    case Some(i) =>
      match FindFrom(s, "\n", i + 7)
      case None =>
      case Some(j) =>
        NewlineAt(s, j);
        assert false;
  }

  lemma NewlineAt(s: string, j: nat)
    requires OccursAt(s, "\n", j)
    ensures '\n' in s
  {
    assert s[j..j + 1] == "\n";
    assert s[j] == '\n';
  }

  /** A character of a slice is a character of the whole. */
  lemma SliceChar(s: string, i: nat, j: nat, c: char)
    requires i <= j <= |s| && c in s[i..j]
    ensures c in s
  {
    var k :| 0 <= k < j - i && s[i..j][k] == c;
    assert s[i + k] == c;
  }

  /** A character of a suffix is a character of the whole. */
  lemma SuffixChar(s: string, suffix: string, c: char)
    requires |suffix| <= |s| && suffix == s[|s| - |suffix|..] && c in suffix
    ensures c in s
  {
    SliceChar(s, |s| - |suffix|, |s|, c);
  }

  lemma StripBulletChars(t: string, c: char)
    requires c in StripBullet(t)
    ensures c in t
  {
    SuffixChar(t, StripBullet(t), c);
  }

  lemma StripChars(raw: string, c: char)
    requires c in Strip(raw)
    ensures c in raw
  {
    SliceChar(raw, StripStart(raw), StripStart(raw) + |Strip(raw)|, c);
  }

  /** Every character of a cleaned line comes from the raw line, and is not `*`. */
  lemma CleanLineChars(raw: string, c: char)
    requires c in DeleteStars(StripBullet(Strip(raw)))
    ensures c in raw && c != '*'
  {
    StripBulletChars(Strip(raw), c);
    StripChars(raw, c);
  }

  /** Every character of the cleaned lines comes from a raw line, and is not `*`. */
  lemma {:induction false} CleanedLinesChars(raw: seq<string>, i: nat, c: char)
    requires i < |CleanedLines(raw)| && c in CleanedLines(raw)[i]
    ensures c != '*' && exists j :: 0 <= j < |raw| && c in raw[j]
    decreases |raw|
  {
    var init := raw[..|raw| - 1];
    var line := Strip(raw[|raw| - 1]);
    if i < |CleanedLines(init)| {
      CleanedLinesChars(init, i, c);
      var j :| 0 <= j < |init| && c in init[j];
      assert raw[j] == init[j];
    } else {
      CleanLineChars(raw[|raw| - 1], c);
    }
  }

  /** The joined text has no `*` and no line boundary. */
  lemma JoinedChars(text: string, c: char)
    requires c in Joined(text)
    ensures c != '*' && !IsLineBoundary(c)
  {
    var raw := SplitLines(text);
    var lines := CleanedLines(raw);
    JoinChars(" ", lines, c);
    if c !in " " {
      var i :| 0 <= i < |lines| && c in lines[i];
      CleanedLinesChars(raw, i, c);
      var j :| 0 <= j < |raw| && c in raw[j];
      assert NoLineBoundary(raw[j]);
    }
  }

  /** The output contains no `*`. */
  lemma CleanHasNoStar(text: string)
    ensures '*' !in Clean(text)
  {
    var removed := RemoveActions(Joined(text));
    if '*' in Clean(text) {
      var k :| 0 <= k < |Clean(text)| && Clean(text)[k] == '*';
      assert removed[StripStart(removed) + k] == '*';
      RemoveActionsChars(Joined(text), '*');
      JoinedChars(text, '*');
    }
  }

  /** The output contains no line boundary: the lines are joined into one. */
  lemma CleanHasNoLineBoundary(text: string)
    ensures NoLineBoundary(Clean(text))
  {
    var removed := RemoveActions(Joined(text));
    forall k | 0 <= k < |Clean(text)|
      ensures !IsLineBoundary(Clean(text)[k])
    {
      var c := Clean(text)[k];
      assert removed[StripStart(removed) + k] == c;
      RemoveActionsChars(Joined(text), c);
      JoinedChars(text, c);
    }
  }

  /** The joined text has no newline, so the `Action:` removal cuts it at its first match. */
  lemma CleanIsStrippedPrefix(text: string)
    ensures Clean(text) == Strip(BeforeAction(Joined(text)))
  {
    if '\n' in Joined(text) {
      JoinedChars(text, '\n');
    }
    RemoveActionsOneLine(Joined(text));
  }

  /** An `Action:` in a slice is an `Action:` in the whole text. */
  lemma ActionInSlice(s: string, a: nat, b: nat, i: nat)
    requires a <= b <= |s| && ActionAt(s[a..b], i)
    ensures ActionAt(s, a + i)
  {
    var w := s[a..b][i..i + 7];
    assert forall k :: 0 <= k < 7 ==> w[k] == s[a..b][i + k];
    assert forall k :: 0 <= k < 7 ==> w[k] == s[a + i + k];
    assert w == s[a + i..a + i + 7];
  }

  /** A slice of a text without `Action:` has none either. */
  lemma SliceHasNoAction(s: string, a: nat, b: nat)
    requires a <= b <= |s|
    requires forall i: nat :: !ActionAt(s, i)
    ensures forall i: nat :: !ActionAt(s[a..b], i)
  {
    forall i: nat | ActionAt(s[a..b], i)
      ensures false
    {
      ActionInSlice(s, a, b, i);
    }
  }

  /** A prefix that no `Action:` of the whole text starts in contains none. */
  lemma PrefixHasNoAction(s: string, n: nat)
    requires n <= |s| && forall j :: 0 <= j < n ==> !ActionAt(s, j)
    ensures forall i: nat :: !ActionAt(s[..n], i)
  {
    forall i: nat | ActionAt(s[..n], i)
      ensures false
    {
      ActionInSlice(s, 0, n, i);
    }
  }

  /** Stripping what comes before the first `Action:` leaves no `Action:`. */
  lemma StrippedCutHasNoAction(s: string)
    ensures forall i: nat :: !ActionAt(Strip(BeforeAction(s)), i)
  {
    var cut := BeforeAction(s);
    SliceHasNoAction(cut, StripStart(cut), StripStart(cut) + |Strip(cut)|);
  }

  /** The output contains no case-insensitive `Action:`, so anything after one is gone. */
  lemma CleanHasNoAction(text: string)
    ensures forall i: nat :: !ActionAt(Clean(text), i)
  {
    CleanIsStrippedPrefix(text);
    StrippedCutHasNoAction(Joined(text));
  }

  /** The output has no whitespace at either end. */
  lemma CleanIsTrimmed(text: string)
    ensures Clean(text) == [] || (!IsSpace(Clean(text)[0]) && !IsSpace(Clean(text)[|Clean(text)| - 1]))
  {
    StripIsTrimmed(RemoveActions(Joined(text)), Clean(text));
  }

  lemma StripIsTrimmed(s: string, r: string)
    requires r == Strip(s)
    ensures r == [] || (!IsSpace(r[0]) && !IsSpace(r[|r| - 1]))
  {
  }

  /** Empty input gives "". */
  lemma CleanEmpty()
    ensures Clean("") == ""
  {
    assert SplitLines("") == [];
    assert CleanedLines([]) == [];
    assert Joined("") == "";
    assert FindAction("", 0) == None;
    assert RemoveActions("") == "";
  }

  /**
   * A line that the loop keeps as it is: no line boundary, no whitespace at
   * either end, no leading bullet character and no `*`.
   */
  predicate PlainLine(s: string)
  {
    s != [] && NoLineBoundary(s) && !IsSpace(s[0]) && !IsSpace(s[|s| - 1]) && !IsBulletChar(s[0]) && '*' !in s
  }

  /**
   * A line that is only a bullet is not blank, so it is kept, as an empty
   * segment: between two plain lines it leaves two spaces (for example,
   * "x\n-\ny" cleans to "x  y").
   */
  lemma BulletOnlyLineKeptEmpty(a: string, c: char, b: string)
    requires PlainLine(a) && PlainLine(b) && IsBulletChar(c)
    requires forall i: nat :: !ActionAt(a + "  " + b, i)
    ensures Clean(a + "\n" + [c] + "\n" + b) == a + "  " + b
  {
    var text := a + "\n" + [c] + "\n" + b;
    ThreeLines(a, c, b);
    ThreeLinesCleaned(a, c, b);
    JoinAroundEmpty(a, b);
    CleanVia(text, [a] + [[c]] + [b], [a, "", b], a + "  " + b);
    ActionFreeKept(a + "  " + b);
  }

  /** Joining with one space around an empty segment leaves two spaces. */
  lemma JoinAroundEmpty(a: string, b: string)
    ensures Join(" ", [a, "", b]) == a + "  " + b
  {
    var lines := [a, "", b];
    assert lines[1..] == ["", b];
    assert ["", b][1..] == [b];
    assert Join(" ", [b]) == b;
    assert Join(" ", ["", b]) == "" + " " + b;
    assert Join(" ", lines) == a + " " + ("" + " " + b);
    assert a + " " + ("" + " " + b) == a + "  " + b;
  }

  /** A text with no `Action:` and no surrounding whitespace survives the cut and the strip. */
  lemma ActionFreeKept(s: string)
    requires s != [] && !IsSpace(s[0]) && !IsSpace(s[|s| - 1])
    requires forall i: nat :: !ActionAt(s, i)
    ensures Strip(BeforeAction(s)) == s
  {
    assert BeforeAction(s) == s;
    StripUnchanged(s);
  }

  lemma ThreeLines(a: string, c: char, b: string)
    requires NoLineBoundary(a) && NoLineBoundary(b) && b != [] && IsBulletChar(c)
    ensures SplitLines(a + "\n" + [c] + "\n" + b) == [a] + [[c]] + [b]
  {
    var rest := [c] + "\n" + b;
    assert a + "\n" + [c] + "\n" + b == a + ['\n'] + rest;
    assert rest == [c] + ['\n'] + b;
    SplitLinesBreak(a, '\n', rest);
    SplitLinesBreak([c], '\n', b);
    SplitLinesLast(b);
  }

  lemma ThreeLinesCleaned(a: string, c: char, b: string)
    requires PlainLine(a) && PlainLine(b) && IsBulletChar(c)
    ensures CleanedLines([a] + [[c]] + [b]) == [a, "", b]
  {
    TwoLinesCleaned(a, c);
    KeepPlain([a] + [[c]], b);
  }

  lemma TwoLinesCleaned(a: string, c: char)
    requires PlainLine(a) && IsBulletChar(c)
    ensures CleanedLines([a] + [[c]]) == [a, ""]
  {
    KeepPlain([], a);
    assert [] + [a] == [a];
    KeepBullet([a], c);
  }

  /** A plain line is appended to the loop's `lines` as it is. */
  lemma KeepPlain(raw: seq<string>, line: string)
    requires PlainLine(line)
    ensures CleanedLines(raw + [line]) == CleanedLines(raw) + [line]
  {
    PlainLineIsClean(line);
    CleanedLinesSnoc(raw, line);
  }

  /** A line that is one bullet character alone is appended to the loop's `lines` as "". */
  lemma KeepBullet(raw: seq<string>, c: char)
    requires IsBulletChar(c)
    ensures CleanedLines(raw + [[c]]) == CleanedLines(raw) + [""]
  {
    BulletAloneCleansEmpty(c);
    CleanedLinesSnoc(raw, [c]);
  }

  /** A plain line is kept as it is. */
  lemma PlainLineIsClean(s: string)
    requires PlainLine(s)
    ensures Strip(s) != "" && CleanLine(s) == s
  {
    StripUnchanged(s);
    assert BulletRun(s) == 0;
    DeleteStarsNone(s);
  }

  /** A line that is one bullet character alone is kept, and cleans to the empty string. */
  lemma BulletAloneCleansEmpty(c: char)
    requires IsBulletChar(c)
    ensures Strip([c]) != "" && CleanLine([c]) == ""
  {
    StripUnchanged([c]);
    BulletRunOne([c]);
    assert [c][1..] == "";
  }

  /** The loop's `lines` after one more raw line: the line is appended cleaned, unless it is blank. */
  lemma CleanedLinesSnoc(raw: seq<string>, line: string)
    ensures CleanedLines(raw + [line]) == CleanedLines(raw) + (if Strip(line) == "" then [] else [CleanLine(line)])
  {
    assert (raw + [line])[..|raw|] == raw;
  }

  /** `clean_response` through its stages: split, clean the lines, join, cut at `Action:`, strip. */
  lemma CleanVia(text: string, raw: seq<string>, lines: seq<string>, joined: string)
    requires SplitLines(text) == raw && CleanedLines(raw) == lines && Join(" ", lines) == joined
    ensures Clean(text) == Strip(BeforeAction(joined))
  {
    CleanIsStrippedPrefix(text);
  }

  /** A reply of one line that is its own strip is cleaned by cleaning that line and cutting at `Action:`. */
  lemma CleanSingleLine(line: string)
    requires NoLineBoundary(line) && line != [] && !IsSpace(line[0]) && !IsSpace(line[|line| - 1])
    ensures Clean(line) == Strip(BeforeAction(CleanLine(line)))
  {
    SplitLinesLast(line);
    CleanedLinesSnoc([], line);
    assert [] + [line] == [line];
    StripUnchanged(line);
    CleanVia(line, [line], [CleanLine(line)], CleanLine(line));
  }

  /** A single bullet character that no other bullet character follows is a run of one. */
  lemma BulletRunOne(s: string)
    requires |s| >= 1 && IsBulletChar(s[0]) && (|s| == 1 || !IsBulletChar(s[1]))
    ensures BulletRun(s) == 1
  {
    assert BulletRun(s[1..]) == 0;
  }

  /** Only one leading run is removed: "- - x" becomes "- x". */
  lemma StripBulletRemovesOneRun()
    ensures DeleteStars(StripBullet("- - x")) == "- x"
  {
    BulletRunOne("- - x");
    assert "- - x"[1..] == " - x";
    StripStartAt(" - x", 1);
    assert " - x"[1..] == "- x";
    DeleteStarsNone("- x");
  }

  /**
   * Cleaning is not idempotent: "- - x" cleans to "- x", and cleaning that
   * again removes the second bullet.
   */
  lemma CleanNotIdempotent()
    ensures Clean("- - x") == "- x"
    ensures Clean(Clean("- - x")) == "x"
  {
    CleanOnce();
    CleanTwice();
  }

  lemma CleanOnce()
    ensures Clean("- - x") == "- x"
  {
    CleanSingleLine("- - x");
    StripUnchanged("- - x");
    StripBulletRemovesOneRun();
    assert BeforeAction("- x") == "- x";
    StripUnchanged("- x");
  }

  lemma CleanTwice()
    ensures Clean("- x") == "x"
  {
    CleanSingleLine("- x");
    StripUnchanged("- x");
    StripBulletAgain();
    assert BeforeAction("x") == "x";
    StripUnchanged("x");
  }

  /** Stripping the bullet of "- x" leaves "x". */
  lemma StripBulletAgain()
    ensures DeleteStars(StripBullet("- x")) == "x"
  {
    BulletRunOne("- x");
    assert "- x"[1..] == " x";
    StripStartAt(" x", 1);
    assert " x"[1..] == "x";
    DeleteStarsNone("x");
  }

  /** The bullet U+2022 is not stripped, while a leading U+00E2 is. */
  lemma BulletClassAsSpelled()
    ensures StripBullet("\U{2022} x") == "\U{2022} x"
    ensures StripBullet("\U{E2}me") == "me"
  {
    assert BulletRun("\U{2022} x") == 0;
    assert BulletRun("\U{E2}me") == 1;
  }

  // ---------- everything after the first `Action:` is dropped, later lines included ----------

  /** Reading characters without a line boundary only extends the current line. */
  lemma {:induction false} SplitFromNoBoundary(a: string, rest: string, current: string)
    requires NoLineBoundary(current) && NoLineBoundary(a)
    ensures NoLineBoundary(current + a)
    ensures SplitFrom(a + rest, current) == SplitFrom(rest, current + a)
    decreases |a|
  {
    if a == [] {
      assert a + rest == rest && current + a == current;
    } else {
      assert (a + rest)[0] == a[0] && (a + rest)[1..] == a[1..] + rest;
      assert current + [a[0]] + a[1..] == current + a;
      SplitFromNoBoundary(a[1..], rest, current + [a[0]]);
    }
  }

  /**
   * A line ended by a one-character boundary (any of them, "\r" only when no
   * "\n" follows it) is the first line of the split, and the split goes on
   * after that boundary.
   */
  lemma SplitLinesBreak(a: string, c: char, b: string)
    requires NoLineBoundary(a) && IsLineBoundary(c)
    requires !(c == '\r' && b != [] && b[0] == '\n')
    ensures SplitLines(a + [c] + b) == [a] + SplitLines(b)
  {
    assert a + [c] + b == a + ([c] + b);
    SplitFromNoBoundary(a, [c] + b, "");
    assert "" + a == a;
    assert ([c] + b)[1..] == b;
  }

  /** "\r\n" is one boundary: it ends one line, and no empty line comes between. */
  lemma SplitLinesCrLf(a: string, b: string)
    requires NoLineBoundary(a)
    ensures SplitLines(a + "\r\n" + b) == [a] + SplitLines(b)
  {
    assert a + "\r\n" + b == a + ("\r\n" + b);
    SplitFromNoBoundary(a, "\r\n" + b, "");
    assert "" + a == a;
    assert ("\r\n" + b)[2..] == b;
  }

  /** The empty text has no lines. */
  lemma SplitLinesEmpty()
    ensures SplitLines("") == []
  {
  }

  /** A non-empty last line without a boundary is a line of its own. */
  lemma SplitLinesLast(a: string)
    requires NoLineBoundary(a) && a != []
    ensures SplitLines(a) == [a]
  {
    SplitFromNoBoundary(a, "", "");
    assert a + "" == a && "" + a == a;
  }

  /** What the loop makes of one raw line it keeps. */
  function CleanLine(raw: string): string
  {
    DeleteStars(StripBullet(Strip(raw)))
  }

  /** A first raw line that is not blank gives the first cleaned line. */
  lemma {:induction false} CleanedLinesHead(raw: seq<string>)
    requires raw != [] && Strip(raw[0]) != ""
    ensures CleanedLines(raw) != [] && CleanedLines(raw)[0] == CleanLine(raw[0])
    decreases |raw|
  {
    if |raw| > 1 {
      var init := raw[..|raw| - 1];
      assert init[0] == raw[0];
      CleanedLinesHead(init);
    } else {
      assert raw[..0] == [];
    }
  }

  /** Deleting stars distributes over concatenation. */
  lemma {:induction false} DeleteStarsAppend(a: string, b: string)
    ensures DeleteStars(a + b) == DeleteStars(a) + DeleteStars(b)
    decreases |a|
  {
    if a != [] {
      assert (a + b)[0] == a[0] && (a + b)[1..] == a[1..] + b;
      DeleteStarsAppend(a[1..], b);
    } else {
      assert a + b == b;
    }
  }

  /** Text without a star is left as it is. */
  lemma {:induction false} DeleteStarsNone(s: string)
    requires '*' !in s
    ensures DeleteStars(s) == s
    decreases |s|
  {
    if s != [] {
      assert s == [s[0]] + s[1..];
      DeleteStarsNone(s[1..]);
    }
  }

  /** Text that starts with `Action:` keeps nothing before it. */
  lemma CutAtStart(s: string)
    requires ActionAt(s, 0)
    ensures Strip(BeforeAction(s)) == ""
  {
    assert FindAction(s, 0) == Some(0);
    assert BeforeAction(s) == "";
  }

  /** When the joined text starts with `Action:`, the whole reply is removed. */
  lemma LeadingActionClearsAll(text: string)
    requires ActionAt(Joined(text), 0)
    ensures Clean(text) == ""
  {
    CleanIsStrippedPrefix(text);
    CutAtStart(Joined(text));
  }

  /** The raw line `- **Action:**` followed by the rest of that line. */
  function BoldActionLine(tail: string): string
  {
    "- **Action:**" + tail
  }

  /** Stripping such a line keeps at least its first 13 characters. */
  lemma BoldActionStrip(tail: string)
    ensures var t := Strip(BoldActionLine(tail));
      |t| >= 13 && t[..13] == "- **Action:**"
  {
    var l := BoldActionLine(tail);
    assert l[0] == '-' && l[12] == '*';
    assert TrimLeft(l) == l;
    var t := TrimRight(l);
    if |t| <= 12 {
      assert false;
    }
    assert t[..13] == l[..13];
  }

  /** Such a line cleans to text that starts with `Action:`. */
  lemma BoldActionClean(tail: string)
    ensures Strip(BoldActionLine(tail)) != ""
    ensures var c := CleanLine(BoldActionLine(tail));
      |c| >= 7 && c[..7] == "Action:"
  {
    BoldActionStrip(tail);
    var t := Strip(BoldActionLine(tail));
    DashSpaceBullet(t);
    var u := t[2..];
    assert u[..11] == t[..13][2..];
    BoldTagStars(u);
  }

  /** A line starting "- *" loses exactly its dash and the space after it. */
  lemma DashSpaceBullet(t: string)
    requires |t| >= 3 && t[0] == '-' && t[1] == ' ' && t[2] == '*'
    ensures StripBullet(t) == t[2..]
  {
    assert BulletRun(t[1..]) == 0;
    assert BulletRun(t) == 1;
    assert t[1..][1..] == t[2..];
    assert TrimLeft(t[2..]) == t[2..];
  }

  /** Deleting the stars of "**Action:**..." leaves text starting with "Action:". */
  lemma BoldTagStars(u: string)
    requires |u| >= 11 && u[..11] == "**Action:**"
    ensures |DeleteStars(u)| >= 7 && DeleteStars(u)[..7] == "Action:"
  {
    assert u[0] == '*' && u[1] == '*';
    assert DeleteStars(u) == DeleteStars(u[1..]);
    assert DeleteStars(u[1..]) == DeleteStars(u[2..]);
    var v := u[2..];
    assert v[..7] == "Action:";
    assert forall k :: 0 <= k < 7 ==> v[k] != '*';
    DeleteStarsKeepsStarFreePrefix(v, 7);
  }

  /** Deleting stars keeps a star-free prefix as it is. */
  lemma {:induction false} DeleteStarsKeepsStarFreePrefix(s: string, n: nat)
    requires n <= |s| && forall k :: 0 <= k < n ==> s[k] != '*'
    ensures |DeleteStars(s)| >= n && DeleteStars(s)[..n] == s[..n]
    decreases n
  {
    if n > 0 {
      DeleteStarsKeepsStarFreePrefix(s[1..], n - 1);
      assert DeleteStars(s) == [s[0]] + DeleteStars(s[1..]);
    }
  }

  /** The joined text starts with the cleaned first line, when that line is kept. */
  lemma JoinedStartsWithFirstLine(first: string, rest: string)
    requires NoLineBoundary(first) && Strip(first) != ""
    ensures var c := CleanLine(first);
      |c| <= |Joined(first + "\n" + rest)| && Joined(first + "\n" + rest)[..|c|] == c
  {
    SplitLinesBreak(first, '\n', rest);
    var raw := SplitLines(first + "\n" + rest);
    assert raw[0] == first;
    CleanedLinesHead(raw);
    JoinStartsWithFirst(" ", CleanedLines(raw));
  }

  lemma BoldActionLineHasNoBoundary(tail: string)
    requires NoLineBoundary(tail)
    ensures NoLineBoundary(BoldActionLine(tail))
  {
    var l := BoldActionLine(tail);
    forall k | 0 <= k < |l| ensures !IsLineBoundary(l[k]) {
      if k >= 13 {
        assert l[k] == tail[k - 13];
      }
    }
  }

  /** The joined text of such a reply starts with `Action:`. */
  lemma BoldActionJoined(tail: string, rest: string)
    requires NoLineBoundary(tail)
    ensures ActionAt(Joined(BoldActionLine(tail) + "\n" + rest), 0)
  {
    BoldActionLineHasNoBoundary(tail);
    BoldActionClean(tail);
    JoinedStartsWithFirstLine(BoldActionLine(tail), rest);
    PrefixedByAction(Joined(BoldActionLine(tail) + "\n" + rest), CleanLine(BoldActionLine(tail)));
  }

  /** Text that begins with a piece that begins with "Action:" has `Action:` at index 0. */
  lemma PrefixedByAction(s: string, c: string)
    requires |c| <= |s| && s[..|c|] == c && |c| >= 7 && c[..7] == "Action:"
    ensures ActionAt(s, 0)
  {
    assert s[0..7] == c[..7];
    assert IsActionTag("Action:");
  }

  /**
   * A reply whose first line is a bold `Action:` bullet cleans to "", whatever
   * follows it: the removal runs over the joined single line, so every later
   * line goes too.
   */
  lemma BoldActionFirstClearsAll(tail: string, rest: string)
    requires NoLineBoundary(tail)
    ensures Clean(BoldActionLine(tail) + "\n" + rest) == ""
  {
    BoldActionJoined(tail, rest);
    LeadingActionClearsAll(BoldActionLine(tail) + "\n" + rest);
  }

  /** The reply "- **Action:** do X", "- Point one", "* Point two" (three lines) cleans to "". */
  lemma BoldActionExample(text: string)
    requires text == "- **Action:** do X\n- Point one\n* Point two"
    ensures Clean(text) == ""
  {
    assert NoLineBoundary(" do X");
    ExampleLines(text);
    BoldActionFirstClearsAll(" do X", "- Point one\n* Point two");
  }

  /** The example reply is a bold `Action:` line followed by two bullet lines. */
  lemma ExampleLines(text: string)
    requires text == "- **Action:** do X\n- Point one\n* Point two"
    ensures text == BoldActionLine(" do X") + "\n" + "- Point one\n* Point two"
  {
  }
}
