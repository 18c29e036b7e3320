/**
 * The Python string built-ins the core relies on, stated on `seq<char>`:
 * `str.isspace`, `str.strip`, ASCII `str.lower`, the `in` substring test
 * and `str.join`.
 */
module TextUtil {
  import opened Wrappers

  /** Python's `str.isspace()` for one character; it is also what `\s` matches in a `str` regex. */
  predicate IsSpace(c: char)
  {
    || c == ' '
    || ('\t' <= c <= '\r')
    || ('\U{1C}' <= c <= '\U{1F}')
    || c == '\U{85}' || c == '\U{A0}' || c == '\U{1680}'
    || ('\U{2000}' <= c <= '\U{200A}')
    || c == '\U{2028}' || c == '\U{2029}' || c == '\U{202F}' || c == '\U{205F}' || c == '\U{3000}'
  }

  /** The first index at or after `i` that holds no whitespace, or `|s|`. */
  function SkipSpaces(s: string, i: nat): (r: nat)
    requires i <= |s|
    ensures i <= r <= |s| && (r == |s| || !IsSpace(s[r]))
    ensures forall k :: i <= k < r ==> IsSpace(s[k])
    decreases |s| - i
  {
    if i < |s| && IsSpace(s[i]) then SkipSpaces(s, i + 1) else i
  }

  /** The index just after the last non-whitespace character before `j`, or 0. */
  function SkipSpacesBack(s: string, j: nat): (r: nat)
    requires j <= |s|
    ensures r <= j && (r == 0 || !IsSpace(s[r - 1]))
    ensures forall k :: r <= k < j ==> IsSpace(s[k])
  {
    if j > 0 && IsSpace(s[j - 1]) then SkipSpacesBack(s, j - 1) else j
  }

  /** Index in `s` where `Strip(s)` starts: the length of the leading whitespace. */
  function StripStart(s: string): (r: nat)
    ensures r <= |s| && (r == |s| || !IsSpace(s[r]))
    ensures forall k :: 0 <= k < r ==> IsSpace(s[k])
  {
    SkipSpaces(s, 0)
  }

  /** Index in `s` where `Strip(s)` ends: `|s|` less the length of the trailing whitespace. */
  function StripEnd(s: string): (r: nat)
    ensures r <= |s| && (r == 0 || !IsSpace(s[r - 1]))
    ensures forall k :: r <= k < |s| ==> IsSpace(s[k])
  {
    SkipSpacesBack(s, |s|)
  }

  /** Python's `str.lstrip()`: the suffix of `s` after its leading whitespace. */
  function TrimLeft(s: string): (r: string)
    ensures |r| <= |s| && r == s[|s| - |r|..]
    ensures forall k :: 0 <= k < |s| - |r| ==> IsSpace(s[k])
    ensures r == [] || !IsSpace(r[0])
  {
    s[StripStart(s)..]
  }

  /** Python's `str.rstrip()`: the prefix of `s` before its trailing whitespace. */
  function TrimRight(s: string): (r: string)
    ensures |r| <= |s| && r == s[..|r|]
    ensures forall k :: |r| <= k < |s| ==> IsSpace(s[k])
    ensures r == [] || !IsSpace(r[|r| - 1])
  {
    s[..StripEnd(s)]
  }

  /**
   * Python's `str.strip()`: the infix of `s` left after removing whitespace at both
   * ends; everything removed is whitespace and the ends of the result are not.
   */
  function Strip(s: string): (r: string)
    ensures StripStart(s) + |r| <= |s| && r == s[StripStart(s)..StripStart(s) + |r|]
    ensures forall k :: 0 <= k < StripStart(s) ==> IsSpace(s[k])
    ensures forall k :: StripStart(s) + |r| <= k < |s| ==> IsSpace(s[k])
    ensures r == [] || (!IsSpace(r[0]) && !IsSpace(r[|r| - 1]))
    ensures r == [] <==> forall k :: 0 <= k < |s| ==> IsSpace(s[k])
  {
    var a := StripStart(s);
    var b := StripEnd(s);
    if a < b then s[a..b] else []
  }

  /** Python's `str.lower()` on ASCII letters; every other character is left as it is. */
  function LowerChar(c: char): char
  {
    if 'A' <= c <= 'Z' then (c as int + 32) as char else c
  }

  function Lower(s: string): (r: string)
    ensures |r| == |s| && forall k :: 0 <= k < |s| ==> r[k] == LowerChar(s[k])
  {
    seq(|s|, k requires 0 <= k < |s| => LowerChar(s[k]))
  }

  /** The first index at or after `i` that holds whitespace, or `|s|`. */
  function WordEnd(s: string, i: nat): (r: nat)
    requires i <= |s|
    ensures i <= r <= |s| && (r == |s| || IsSpace(s[r]))
    ensures forall k :: i <= k < r ==> !IsSpace(s[k])
    decreases |s| - i
  {
    if i < |s| && !IsSpace(s[i]) then WordEnd(s, i + 1) else i
  }

  /**
   * Python's `s.split()[0]`: the first maximal run of non-whitespace characters,
   * or `None` where `split()` returns `[]` and indexing it fails.
   */
  function FirstWord(s: string): (r: Option<string>)
    ensures r.None? <==> forall k :: 0 <= k < |s| ==> IsSpace(s[k])
    ensures r.Some? ==> r.value != [] && forall k :: 0 <= k < |r.value| ==> !IsSpace(r.value[k])
    ensures r.Some? ==> (forall k :: 0 <= k < StripStart(s) ==> IsSpace(s[k])) && OccursAt(s, r.value, StripStart(s))
    ensures r.Some? ==> StripStart(s) + |r.value| == |s| || IsSpace(s[StripStart(s) + |r.value|])
  {
    var a := StripStart(s);
    if a == |s| then None else Some(s[a..WordEnd(s, a)])
  }

  /** `StripStart(s)` is the index of the first non-whitespace character, if any. */
  lemma StripStartAt(s: string, q: nat)
    requires q <= |s| && (q == |s| || !IsSpace(s[q])) && forall k :: 0 <= k < q ==> IsSpace(s[k])
    ensures StripStart(s) == q && TrimLeft(s) == s[q..]
  {
  }

  /** Text that neither starts nor ends with whitespace is its own `strip()`. */
  lemma StripUnchanged(s: string)
    requires s != [] && !IsSpace(s[0]) && !IsSpace(s[|s| - 1])
    ensures Strip(s) == s
  {
    assert StripStart(s) == 0;
    assert StripEnd(s) == |s|;
  }

  /**
   * The first word is determined by the properties `FirstWord` promises: a
   * non-empty run without whitespace, right after the leading whitespace, and
   * ending at whitespace or at the end.
   */
  lemma FirstWordUnique(s: string, w: string)
    requires w != [] && forall k :: 0 <= k < |w| ==> !IsSpace(w[k])
    requires OccursAt(s, w, StripStart(s))
    requires StripStart(s) + |w| == |s| || IsSpace(s[StripStart(s) + |w|])
    ensures FirstWord(s) == Some(w)
  {
    var at := StripStart(s);
    assert s[at] == w[0];
    var r := FirstWord(s);
    assert r.Some?;
  }

  /**
   * `split()` ignores whitespace around the text: cutting off whitespace at
   * either end does not change the first word.
   */
  lemma FirstWordOfInfix(s: string, a: nat, b: nat)
    requires a <= b <= |s|
    requires forall k :: 0 <= k < a ==> IsSpace(s[k])
    requires forall k :: b <= k < |s| ==> IsSpace(s[k])
    ensures FirstWord(s[a..b]) == FirstWord(s)
  {
    var t := s[a..b];
    if FirstWord(t).None? {
      forall k | 0 <= k < |s| ensures IsSpace(s[k]) {
        if a <= k < b {
          assert s[k] == t[k - a];
        }
      }
    } else {
      InfixWord(s, a, b, FirstWord(t).value);
    }
  }

  /** The word found in `s[a..b]` is also the first word of `s`. */
  lemma InfixWord(s: string, a: nat, b: nat, w: string)
    requires a <= b <= |s|
    requires forall k :: 0 <= k < a ==> IsSpace(s[k])
    requires forall k :: b <= k < |s| ==> IsSpace(s[k])
    requires FirstWord(s[a..b]) == Some(w)
    ensures FirstWord(s) == Some(w)
  {
    var p := StripStart(s[a..b]);
    WordInInfix(s, a, b, w, p);
    FirstWordUnique(s, w);
  }

  /** A word placed as `FirstWord` places it in `s[a..b]` is placed the same way in `s`. */
  lemma WordInInfix(s: string, a: nat, b: nat, w: string, p: nat)
    requires a <= b <= |s|
    requires forall k :: 0 <= k < a ==> IsSpace(s[k])
    requires forall k :: b <= k < |s| ==> IsSpace(s[k])
    requires w != [] && forall k :: 0 <= k < |w| ==> !IsSpace(w[k])
    requires OccursAt(s[a..b], w, p)
    requires forall k :: 0 <= k < p ==> IsSpace(s[a..b][k])
    requires p + |w| == b - a || IsSpace(s[a..b][p + |w|])
    ensures OccursAt(s, w, StripStart(s))
    ensures StripStart(s) + |w| == |s| || IsSpace(s[StripStart(s) + |w|])
  {
    var t := s[a..b];
    SpacesBeforeInfix(s, a, b, p);
    assert s[a + p] == t[p];
    StripStartAt(s, a + p);
    forall k | 0 <= k < |w| ensures s[a + p..a + p + |w|][k] == w[k] {
      assert w[k] == t[p + k];
    }
    assert s[a + p..a + p + |w|] == w;
    if p + |w| < |t| {
      assert s[a + p + |w|] == t[p + |w|];
    }
  }

  /** Whitespace before `a` followed by whitespace at the start of `s[a..b]`. */
  lemma SpacesBeforeInfix(s: string, a: nat, b: nat, p: nat)
    requires a <= b <= |s| && p <= b - a
    requires forall k :: 0 <= k < a ==> IsSpace(s[k])
    requires forall k :: 0 <= k < p ==> IsSpace(s[a..b][k])
    ensures forall k :: 0 <= k < a + p ==> IsSpace(s[k])
  {
    forall k | a <= k < a + p ensures IsSpace(s[k]) {
      assert s[k] == s[a..b][k - a];
    }
  }

  /** Lower-casing keeps whitespace and non-whitespace as they are. */
  lemma LowerCharKeepsSpace(c: char)
    ensures IsSpace(LowerChar(c)) <==> IsSpace(c)
  {
  }

  /** Lower-casing commutes with taking a slice. */
  lemma LowerOfSlice(s: string, a: nat, b: nat)
    requires a <= b <= |s|
    ensures Lower(s[a..b]) == Lower(s)[a..b]
  {
    forall k | 0 <= k < b - a ensures Lower(s[a..b])[k] == Lower(s)[a..b][k] {
      assert s[a..b][k] == s[a + k];
    }
  }

  /** `s.strip().lower().split()[0]` is `s.lower().split()[0]`. */
  lemma FirstWordOfLowerStrip(s: string)
    ensures FirstWord(Lower(Strip(s))) == FirstWord(Lower(s))
  {
    var at := StripStart(s);
    var end := at + |Strip(s)|;
    assert Strip(s) == s[at..end];
    LowerOfSlice(s, at, end);
    LowerKeepsBlanks(s, at, end);
    FirstWordOfInfix(Lower(s), at, end);
  }

  /** Whitespace outside `s[a..b]` stays whitespace after lower-casing. */
  lemma LowerKeepsBlanks(s: string, a: nat, b: nat)
    requires a <= b <= |s|
    requires forall k :: 0 <= k < a ==> IsSpace(s[k])
    requires forall k :: b <= k < |s| ==> IsSpace(s[k])
    ensures forall k :: 0 <= k < a ==> IsSpace(Lower(s)[k])
    ensures forall k :: b <= k < |s| ==> IsSpace(Lower(s)[k])
  {
    forall k | 0 <= k < |s| && !(a <= k < b) ensures IsSpace(Lower(s)[k]) {
      LowerCharKeepsSpace(s[k]);
    }
  }

  /** A word taken from lower-cased text has no ASCII capitals. */
  lemma FirstWordOfLower(s: string)
    requires FirstWord(Lower(s)).Some?
    ensures var w := FirstWord(Lower(s)).value;
      forall k :: 0 <= k < |w| ==> !('A' <= w[k] <= 'Z')
  {
    var lowered := Lower(s);
    var w := FirstWord(lowered).value;
    var at := StripStart(lowered);
    assert lowered[at..at + |w|] == w;
    forall k | 0 <= k < |w| ensures !('A' <= w[k] <= 'Z') {
      assert w[k] == lowered[at + k];
    }
  }

  /** `p` occurs in `s` starting at index `i`. */
  predicate OccursAt(s: string, p: string, i: nat)
  {
    i + |p| <= |s| && s[i..i + |p|] == p
  }

  /** Python's `p in s` for strings, as a property. */
  ghost predicate Contains(s: string, p: string)
  {
    exists i: nat :: OccursAt(s, p, i)
  }

  /** First index at or after `from` where `p` occurs in `s`, if any. */
  function FindFrom(s: string, p: string, from: nat): (r: Option<nat>)
    requires from <= |s|
    ensures r.Some? ==> from <= r.value && OccursAt(s, p, r.value)
    ensures r.Some? ==> forall j :: from <= j < r.value ==> !OccursAt(s, p, j)
    ensures r.None? ==> forall j: nat :: from <= j ==> !OccursAt(s, p, j)
    decreases |s| - from
  {
    if OccursAt(s, p, from) then Some(from)
    else if from == |s| then None
    else FindFrom(s, p, from + 1)
  }

  /** The executable substring test, equivalent to `Contains`. */
  predicate HasSubstring(s: string, p: string)
    ensures HasSubstring(s, p) <==> Contains(s, p)
  {
    FindFrom(s, p, 0).Some?
  }

  /** Python's `sep.join(parts)`. */
  function Join(sep: string, parts: seq<string>): string
  {
    if |parts| == 0 then ""
    else if |parts| == 1 then parts[0]
    else parts[0] + sep + Join(sep, parts[1..])
  }

  /** A join starts with its first part. */
  lemma JoinStartsWithFirst(sep: string, parts: seq<string>)
    requires parts != []
    ensures |parts[0]| <= |Join(sep, parts)| && Join(sep, parts)[..|parts[0]|] == parts[0]
  {
  }

  /** Joining one more part adds the separator and that part at the end. */
  lemma {:induction false} JoinSnoc(sep: string, parts: seq<string>, x: string)
    ensures Join(sep, parts + [x]) == if parts == [] then x else Join(sep, parts) + sep + x
  {
    if |parts| >= 2 {
      assert (parts + [x])[1..] == parts[1..] + [x];
      JoinSnoc(sep, parts[1..], x);
    } else if |parts| == 1 {
      assert (parts + [x])[1..] == [x];
    }
  }

  /** Joining a concatenation: the two joins meet at one separator. */
  lemma {:induction false} JoinAppend(sep: string, a: seq<string>, b: seq<string>)
    requires a != [] && b != []
    ensures Join(sep, a + b) == Join(sep, a) + sep + Join(sep, b)
  {
    if |a| == 1 {
      assert (a + b)[1..] == b;
    } else {
      assert (a + b)[1..] == a[1..] + b;
      JoinAppend(sep, a[1..], b);
    }
  }

  /** Every character of a join comes from the separator or from one of the parts. */
  lemma {:induction false} JoinChars(sep: string, parts: seq<string>, c: char)
    requires c in Join(sep, parts)
    ensures c in sep || exists i :: 0 <= i < |parts| && c in parts[i]
  {
    if |parts| >= 2 {
      var rest := Join(sep, parts[1..]);
      assert Join(sep, parts) == parts[0] + sep + rest;
      if c in rest {
        JoinChars(sep, parts[1..], c);
        if c !in sep {
          var i :| 0 <= i < |parts[1..]| && c in parts[1..][i];
          assert c in parts[i + 1];
        }
      } else if c !in sep {
        assert c in parts[0];
      }
    } else if |parts| == 1 {
      assert c in parts[0];
    }
  }
}
