/** Python string operations used by the modelled code, with their Python
    semantics written out: `in`, `startswith`, `strip`, `split`, `join`,
    `replace`, `lower`, `upper`, `title` and `str(int)`.
    Case mapping covers ASCII letters only. */
module Text {
  import opened Wrappers

  /** The character set of Python's `str.isspace()`. */
  predicate IsSpace(c: char) {
    || c == ' '
    || ('\t' <= c <= '\r')
    || ('\U{1c}' <= c <= '\U{1f}')
    || c == '\U{85}' || c == '\U{a0}' || c == '\U{1680}'
    || ('\U{2000}' <= c <= '\U{200a}')
    || c == '\U{2028}' || c == '\U{2029}' || c == '\U{202f}' || c == '\U{205f}' || c == '\U{3000}'
  }

  predicate IsAsciiLetter(c: char) {
    ('a' <= c <= 'z') || ('A' <= c <= 'Z')
  }

  function LowerChar(c: char): char {
    if 'A' <= c <= 'Z' then (c as int + 32) as char else c
  }

  function UpperChar(c: char): char {
    if 'a' <= c <= 'z' then (c as int - 32) as char else c
  }

  /** `s.lower()` */
  function Lower(s: string): (r: string)
    ensures |r| == |s|
  {
    seq(|s|, i requires 0 <= i < |s| => LowerChar(s[i]))
  }

  /** `s.upper()` */
  function Upper(s: string): (r: string)
    ensures |r| == |s|
  {
    seq(|s|, i requires 0 <= i < |s| => UpperChar(s[i]))
  }

  /** Lower-casing twice is lower-casing once. */
  lemma LowerIdempotent(s: string)
    ensures Lower(Lower(s)) == Lower(s)
  {
  }

  lemma LowerConcat(a: string, b: string)
    ensures Lower(a + b) == Lower(a) + Lower(b)
  {
  }

  /** `s.startswith(p)` */
  predicate StartsWith(s: string, p: string) {
    p <= s
  }

  // ---------------------------------------------------------------------
  // Substring search

  predicate OccursAt(s: string, sub: string, i: nat) {
    i + |sub| <= |s| && s[i..i + |sub|] == sub
  }

  /** The index of the first occurrence of a non-empty `sub` in `s` at or
      after `from`. */
  function FirstIndexFrom(s: string, sub: string, from: nat): (r: Option<nat>)
    requires |sub| > 0 && from <= |s|
    ensures r.Some? ==> from <= r.value && OccursAt(s, sub, r.value)
    decreases |s| - from
  {
    if |s| - from < |sub| then None
    else if s[from..from + |sub|] == sub then Some(from)
    else FirstIndexFrom(s, sub, from + 1)
  }

  /** No occurrence at or after `from` comes before the one found, and none
      exists when none is found. */
  lemma {:induction false} FirstIndexFromSpec(s: string, sub: string, from: nat)
    requires |sub| > 0 && from <= |s|
    ensures var r := FirstIndexFrom(s, sub, from);
            && (r.Some? ==> forall j: nat :: from <= j < r.value ==> !OccursAt(s, sub, j))
            && (r.None? ==> forall j: nat :: from <= j ==> !OccursAt(s, sub, j))
    decreases |s| - from
  {
    if |s| - from >= |sub| && s[from..from + |sub|] != sub {
      FirstIndexFromSpec(s, sub, from + 1);
    }
  }

  /** The index of the first occurrence of a non-empty `sub` in `s`. */
  function FirstIndex(s: string, sub: string): (r: Option<nat>)
    requires |sub| > 0
    ensures r.Some? ==> OccursAt(s, sub, r.value)
  {
    FirstIndexFrom(s, sub, 0)
  }

  lemma FirstIndexSpec(s: string, sub: string)
    requires |sub| > 0
    ensures var r := FirstIndex(s, sub);
            && (r.Some? ==> forall j: nat :: j < r.value ==> !OccursAt(s, sub, j))
            && (r.None? ==> forall j: nat :: !OccursAt(s, sub, j))
  {
    FirstIndexFromSpec(s, sub, 0);
  }

  /** Python's `sub in s`. */
  predicate Contains(s: string, sub: string) {
    |sub| == 0 || FirstIndex(s, sub).Some?
  }

  lemma ContainsIffOccurs(s: string, sub: string)
    ensures Contains(s, sub) <==> exists i: nat :: OccursAt(s, sub, i)
  {
    if |sub| == 0 {
      assert OccursAt(s, sub, 0);
    } else {
      FirstIndexSpec(s, sub);
    }
  }

  /** A string contains every one of its infixes. */
  lemma ContainsInfix(a: string, sub: string, b: string)
    ensures Contains(a + sub + b, sub)
  {
    assert OccursAt(a + sub + b, sub, |a|) by {
      assert (a + sub + b)[|a|..|a| + |sub|] == sub;
    }
    ContainsIffOccurs(a + sub + b, sub);
  }

  lemma PrefixOccurs(s: string, sub: string, n: nat)
    requires n <= |s|
    ensures forall j: nat :: OccursAt(s[..n], sub, j) ==> OccursAt(s, sub, j)
  {
    forall j: nat | OccursAt(s[..n], sub, j) ensures OccursAt(s, sub, j) {
      assert s[..n][j..j + |sub|] == s[j..j + |sub|];
    }
  }

  lemma SuffixOccurs(s: string, sub: string, n: nat)
    requires n <= |s|
    ensures forall j: nat :: OccursAt(s[n..], sub, j) ==> OccursAt(s, sub, n + j)
  {
    forall j: nat | OccursAt(s[n..], sub, j) ensures OccursAt(s, sub, n + j) {
      assert s[n..][j..j + |sub|] == s[n + j..n + j + |sub|];
    }
  }

  /** `s.split(sep)[0]`: the text before the first occurrence of `sep`. */
  function BeforeFirst(s: string, sep: string): (r: string)
    requires |sep| > 0
    ensures r <= s
    ensures !Contains(r, sep)
    ensures Contains(s, sep) ==> r + sep <= s
    ensures !Contains(s, sep) ==> r == s
  {
    match FirstIndex(s, sep)
    case None =>
      FirstIndexSpec(s, sep);
      s
    case Some(i) =>
      FirstIndexSpec(s, sep);
      PrefixOccurs(s, sep, i);
      assert s[..i] + sep == s[..i + |sep|];
      s[..i]
  }

  /** `s.split(sep)[-1]`: the text after the last occurrence of `sep` found by
      Python's left-to-right, non-overlapping scan. */
  function AfterLast(s: string, sep: string): (r: string)
    requires |sep| > 0
    ensures |r| <= |s| && r == s[|s| - |r|..]
  {
    s[LastSegmentFrom(s, sep, 0)..]
  }

  /** Where the last piece of `s[from..].split(sep)` starts: just past each
      occurrence of `sep` in turn. */
  function LastSegmentFrom(s: string, sep: string, from: nat): (k: nat)
    requires |sep| > 0 && from <= |s|
    ensures from <= k <= |s|
    decreases |s| - from
  {
    match FirstIndexFrom(s, sep, from)
    case None => from
    case Some(i) => LastSegmentFrom(s, sep, i + |sep|)
  }

  /** No separator starts inside the last piece. */
  lemma {:induction false} LastSegmentClean(s: string, sep: string, from: nat)
    requires |sep| > 0 && from <= |s|
    ensures forall j: nat :: LastSegmentFrom(s, sep, from) <= j ==> !OccursAt(s, sep, j)
    decreases |s| - from
  {
    match FirstIndexFrom(s, sep, from)
    case None =>
      FirstIndexFromSpec(s, sep, from);
    case Some(i) =>
      LastSegmentClean(s, sep, i + |sep|);
  }

  /** The last piece starts at `from` or right after a separator. */
  lemma {:induction false} LastSegmentAfterSep(s: string, sep: string, from: nat)
    requires |sep| > 0 && from <= |s|
    ensures var k := LastSegmentFrom(s, sep, from);
            k == from || (from + |sep| <= k && OccursAt(s, sep, k - |sep|))
    decreases |s| - from
  {
    match FirstIndexFrom(s, sep, from)
    case None =>
    case Some(i) =>
      LastSegmentAfterSep(s, sep, i + |sep|);
  }

  /** The last piece is the whole string exactly when there is no
      separator. */
  lemma LastSegmentAtStart(s: string, sep: string)
    requires |sep| > 0
    ensures LastSegmentFrom(s, sep, 0) == 0 <==> !Contains(s, sep)
  {
    var f := FirstIndexFrom(s, sep, 0);
    assert FirstIndex(s, sep) == f;
    if f.Some? {
      assert LastSegmentFrom(s, sep, 0) == LastSegmentFrom(s, sep, f.value + |sep|) >= |sep|;
    }
  }

  /** What is left after the last separator holds no separator, and is
      preceded by one whenever `s` holds a separator at all. */
  lemma AfterLastSpec(s: string, sep: string)
    requires |sep| > 0
    ensures var r := AfterLast(s, sep);
            && !Contains(r, sep)
            && (Contains(s, sep) ==> |sep| + |r| <= |s| && sep + r == s[|s| - |sep| - |r|..])
            && (!Contains(s, sep) ==> r == s)
  {
    AfterLastClean(s, sep);
    var k := LastSegmentFrom(s, sep, 0);
    LastSegmentAtStart(s, sep);
    if Contains(s, sep) {
      LastSegmentAfterSep(s, sep, 0);
      assert s[k - |sep|..] == s[k - |sep|..k] + s[k..];
    }
  }

  lemma AfterLastClean(s: string, sep: string)
    requires |sep| > 0
    ensures !Contains(AfterLast(s, sep), sep)
  {
    var k := LastSegmentFrom(s, sep, 0);
    LastSegmentClean(s, sep, 0);
    SuffixOccurs(s, sep, k);
    ContainsIffOccurs(s[k..], sep);
  }

  /** The fenced-JSON extraction used on LLM output:
      `content.split("```json")[-1].split("```")[0]` when `"```json" in content`. */
  function ExtractFence(content: string): (r: string)
    ensures !Contains(content, "```json") ==> r == content
    ensures Contains(content, "```json") ==>
              var after := AfterLast(content, "```json");
              && r <= after && !Contains(r, "```") && !Contains(after, "```json")
              && (Contains(after, "```") ==> r + "```" <= after)
              && (!Contains(after, "```") ==> r == after)
  {
    if Contains(content, "```json") then
      AfterLastSpec(content, "```json");
      BeforeFirst(AfterLast(content, "```json"), "```")
    else content
  }

  /** `s.replace(pat, rep)`: a left-to-right, non-overlapping scan. */
  function ReplaceAll(s: string, pat: string, rep: string): (r: string)
    requires |pat| > 0
    ensures !Contains(s, pat) ==> r == s
    decreases |s|
  {
    if |s| < |pat| then s
    else if s[..|pat|] == pat then
      ContainsIffOccurs(s, pat);
      assert OccursAt(s, pat, 0);
      rep + ReplaceAll(s[|pat|..], pat, rep)
    else
      SuffixOccurs(s, pat, 1);
      ContainsIffOccurs(s, pat);
      ContainsIffOccurs(s[1..], pat);
      assert [s[0]] + s[1..] == s;
      [s[0]] + ReplaceAll(s[1..], pat, rep)
  }

  // ---------------------------------------------------------------------
  // strip

  /** `s.lstrip(chars)` where `drop` says which characters are stripped. */
  function TrimLeft(s: string, drop: char -> bool): (r: string)
    ensures |r| <= |s| && r == s[|s| - |r|..]
    ensures |r| > 0 ==> !drop(r[0])
    ensures forall k :: 0 <= k < |s| - |r| ==> drop(s[k])
    decreases |s|
  {
    if |s| > 0 && drop(s[0]) then TrimLeft(s[1..], drop) else s
  }

  /** `s.rstrip(chars)` */
  function TrimRight(s: string, drop: char -> bool): (r: string)
    ensures r <= s
    ensures |r| > 0 ==> !drop(r[|r| - 1])
    ensures forall k :: |r| <= k < |s| ==> drop(s[k])
    decreases |s|
  {
    if |s| > 0 && drop(s[|s| - 1]) then TrimRight(s[..|s| - 1], drop) else s
  }

  function Trim(s: string, drop: char -> bool): string {
    TrimRight(TrimLeft(s, drop), drop)
  }

  /** `s.strip()` */
  function Strip(s: string): string {
    Trim(s, IsSpace)
  }

  /** `s.strip(c)` for one character `c`. */
  function StripChar(s: string, c: char): string {
    Trim(s, x => x == c)
  }

  /** Stripping a stripped string changes nothing. */
  lemma {:induction false} StripIdempotent(s: string)
    ensures Strip(Strip(s)) == Strip(s)
  {
    var r := Strip(s);
    var l := TrimLeft(r, IsSpace);
    if |r| > 0 {
      assert TrimRight(TrimLeft(s, IsSpace), IsSpace) == r;
      assert !IsSpace(r[0]);
      assert l == r;
      assert !IsSpace(r[|r| - 1]);
    }
  }

  /** A string of whitespace only strips to the empty string. */
  lemma StripBlank(s: string)
    requires forall i :: 0 <= i < |s| ==> IsSpace(s[i])
    ensures Strip(s) == ""
  {
  }

  /** A string without whitespace at either end is its own strip. */
  lemma StripUnpadded(s: string)
    requires |s| > 0 ==> !IsSpace(s[0]) && !IsSpace(s[|s| - 1])
    ensures Strip(s) == s
  {
  }

  /** `s.strip(chars)` leaves a string alone whose end characters are not
      stripped. */
  lemma TrimUnpadded(s: string, drop: char -> bool)
    requires |s| > 0 ==> !drop(s[0]) && !drop(s[|s| - 1])
    ensures Trim(s, drop) == s
  {
  }

  /** A string with no character `c` contains no pattern that begins with `c`. */
  lemma NoCharNoPattern(s: string, pat: string)
    requires |pat| > 0 && forall k :: 0 <= k < |s| ==> s[k] != pat[0]
    ensures !Contains(s, pat)
  {
    ContainsIffOccurs(s, pat);
    forall i: nat ensures !OccursAt(s, pat, i) {
      if i + |pat| <= |s| {
        assert s[i..i + |pat|][0] == s[i];
      }
    }
  }

  /** Lower-casing neither creates nor removes whitespace. */
  lemma LowerKeepsSpaces(s: string)
    ensures forall i :: 0 <= i < |s| ==> (IsSpace(Lower(s)[i]) <==> IsSpace(s[i]))
  {
  }

  // ---------------------------------------------------------------------
  // split() and join

  /** `sep.join(parts)` */
  function Join(parts: seq<string>, sep: string): string {
    if |parts| == 0 then ""
    else if |parts| == 1 then parts[0]
    else parts[0] + sep + Join(parts[1..], sep)
  }

  predicate ValidWord(w: string) {
    |w| > 0 && forall k :: 0 <= k < |w| ==> !IsSpace(w[k])
  }

  /** The length of the run of non-space characters at the front of `s`. */
  function WordLen(s: string): (n: nat)
    ensures n <= |s|
    ensures forall k :: 0 <= k < n ==> !IsSpace(s[k])
    ensures n < |s| ==> IsSpace(s[n])
    decreases |s|
  {
    if |s| == 0 || IsSpace(s[0]) then 0 else 1 + WordLen(s[1..])
  }

  /** `s.split()`: the maximal runs of non-space characters, in order. */
  function Words(s: string): (ws: seq<string>)
    ensures forall i :: 0 <= i < |ws| ==> ValidWord(ws[i])
    decreases |s|
  {
    if |s| == 0 then []
    else if IsSpace(s[0]) then Words(s[1..])
    else
      var n := WordLen(s);
      [s[..n]] + Words(s[n..])
  }

  /** A string in which whitespace occurs only as single ' ' between two
      non-space characters. */
  predicate Collapsed(t: string) {
    forall i :: 0 <= i < |t| && IsSpace(t[i]) ==> t[i] == ' ' && 0 < i < |t| - 1 && !IsSpace(t[i + 1])
  }

  /** `" ".join(s.split())` */
  function CollapseSpaces(s: string): string {
    Join(Words(s), " ")
  }

  lemma {:induction false} JoinWordsCollapsed(ws: seq<string>)
    requires forall i :: 0 <= i < |ws| ==> ValidWord(ws[i])
    ensures var t := Join(ws, " ");
            Collapsed(t) && (|ws| > 0 ==> |t| > 0 && !IsSpace(t[0]) && !IsSpace(t[|t| - 1]))
  {
    if |ws| > 1 {
      JoinWordsCollapsed(ws[1..]);
      var w, rest := ws[0], Join(ws[1..], " ");
      var t := w + " " + rest;
      assert Join(ws, " ") == t;
      forall i | 0 <= i < |t| && IsSpace(t[i])
        ensures t[i] == ' ' && 0 < i < |t| - 1 && !IsSpace(t[i + 1])
      {
        if i > |w| {
          assert t[i] == rest[i - |w| - 1];
          if i + 1 < |t| {
            assert t[i + 1] == rest[i - |w|];
          }
        } else if i == |w| {
          assert t[i + 1] == rest[0];
        }
      }
      assert t[|t| - 1] == rest[|rest| - 1];
    } else if |ws| == 1 {
      assert Join(ws, " ") == ws[0];
    }
  }

  lemma CollapseSpacesCollapsed(s: string)
    ensures Collapsed(CollapseSpaces(s))
  {
    JoinWordsCollapsed(Words(s));
  }

  lemma {:induction false} WordsOfWord(w: string, rest: string)
    requires ValidWord(w)
    ensures Words(w) == [w]
    ensures Words(w + " " + rest) == [w] + Words(rest)
  {
    assert WordLen(w) == |w|;
    assert w[..|w|] == w && w[|w|..] == "";
    var s := w + " " + rest;
    assert s[|w|] == ' ';
    assert WordLen(s) == |w|;
    assert s[..|w|] == w;
    assert s[|w|..] == " " + rest;
    assert (" " + rest)[1..] == rest;
  }

  /** Splitting a single-space join of words gives the words back. */
  lemma {:induction false} WordsOfJoin(ws: seq<string>)
    requires forall i :: 0 <= i < |ws| ==> ValidWord(ws[i])
    ensures Words(Join(ws, " ")) == ws
  {
    if |ws| == 1 {
      WordsOfWord(ws[0], "");
    } else if |ws| > 1 {
      WordsOfJoin(ws[1..]);
      WordsOfWord(ws[0], Join(ws[1..], " "));
      assert ws == [ws[0]] + ws[1..];
    }
  }

  /** An occurrence in `s` is an occurrence in `pre + s`, shifted by `|pre|`. */
  lemma OccursAfterPrefix(pre: string, s: string, sub: string, k: nat)
    requires OccursAt(s, sub, k)
    ensures OccursAt(pre + s, sub, |pre| + k)
  {
    assert (pre + s)[|pre| + k..|pre| + k + |sub|] == s[k..k + |sub|];
  }

  /** Where part `i` occurs in the joined string. */
  lemma {:induction false} JoinOccurs(parts: seq<string>, sep: string, i: nat) returns (k: nat)
    requires i < |parts|
    ensures OccursAt(Join(parts, sep), parts[i], k)
  {
    if i == 0 {
      k := 0;
      if |parts| > 1 {
        assert Join(parts, sep) == parts[0] + (sep + Join(parts[1..], sep));
      }
    } else {
      var k' := JoinOccurs(parts[1..], sep, i - 1);
      var pre := parts[0] + sep;
      assert Join(parts, sep) == pre + Join(parts[1..], sep);
      OccursAfterPrefix(pre, Join(parts[1..], sep), parts[i], k');
      k := |pre| + k';
    }
  }

  /** Every part of a join occurs in the joined string. */
  lemma JoinContains(parts: seq<string>, sep: string, i: nat)
    requires i < |parts|
    ensures Contains(Join(parts, sep), parts[i])
  {
    var k := JoinOccurs(parts, sep, i);
    ContainsIffOccurs(Join(parts, sep), parts[i]);
  }


  /** A string already in collapsed form is its own collapse. */
  lemma {:induction false} CollapsedFixed(t: string)
    requires Collapsed(t)
    ensures CollapseSpaces(t) == t
    decreases |t|
  {
    if |t| > 0 {
      assert !IsSpace(t[0]);
      var n := WordLen(t);
      var w := t[..n];
      assert ValidWord(w);
      if n == |t| {
        assert w == t;
        WordsOfWord(w, "");
      } else {
        var rest := t[n + 1..];
        assert t[n] == ' ' && !IsSpace(t[n + 1]);
        assert t == w + " " + rest;
        forall i | 0 <= i < |rest| && IsSpace(rest[i])
          ensures rest[i] == ' ' && 0 < i < |rest| - 1 && !IsSpace(rest[i + 1])
        {
          assert rest[i] == t[n + 1 + i];
          if i + 1 < |rest| {
            assert rest[i + 1] == t[n + 2 + i];
          }
        }
        CollapsedFixed(rest);
        WordsOfWord(w, rest);
        assert |Words(rest)| > 0 by {
          assert rest[0] == t[n + 1];
          WordLenPositive(rest);
        }
        assert Join([w] + Words(rest), " ") == w + " " + Join(Words(rest), " ") by {
          assert ([w] + Words(rest))[1..] == Words(rest);
        }
      }
    }
  }

  lemma WordLenPositive(s: string)
    requires |s| > 0 && !IsSpace(s[0])
    ensures |Words(s)| > 0
  {
  }

  /** Collapsing whitespace twice changes nothing more. */
  lemma CollapseSpacesIdempotent(s: string)
    ensures CollapseSpaces(CollapseSpaces(s)) == CollapseSpaces(s)
  {
    WordsOfJoin(Words(s));
  }

  // ---------------------------------------------------------------------
  // title() and str(int)

  /** `s.title()`: a letter is upper-cased when it follows a non-letter and
      lower-cased when it follows a letter. */
  function TitleFrom(s: string, afterLetter: bool): (r: string)
    ensures |r| == |s|
    decreases |s|
  {
    if |s| == 0 then ""
    else if IsAsciiLetter(s[0]) then
      [if afterLetter then LowerChar(s[0]) else UpperChar(s[0])] + TitleFrom(s[1..], true)
    else [s[0]] + TitleFrom(s[1..], false)
  }

  /** `title()` keeps every non-letter and changes only the case of letters. */
  lemma {:induction false} TitleFromKeeps(s: string, afterLetter: bool)
    ensures var r := TitleFrom(s, afterLetter);
            && (forall i :: 0 <= i < |s| && !IsAsciiLetter(s[i]) ==> r[i] == s[i])
            && (forall i :: 0 <= i < |s| && IsAsciiLetter(s[i]) ==> LowerChar(r[i]) == LowerChar(s[i]))
    decreases |s|
  {
    if |s| > 0 {
      TitleFromKeeps(s[1..], IsAsciiLetter(s[0]));
      var r := TitleFrom(s, afterLetter);
      assert forall i :: 1 <= i < |s| ==> r[i] == TitleFrom(s[1..], IsAsciiLetter(s[0]))[i - 1] && s[i] == s[1..][i - 1];
    }
  }

  /** One step of `title()`: the first character, then the rest. */
  lemma TitleFromCons(c: char, rest: string, afterLetter: bool)
    ensures TitleFrom([c] + rest, afterLetter)
         == [if !IsAsciiLetter(c) then c else if afterLetter then LowerChar(c) else UpperChar(c)]
            + TitleFrom(rest, IsAsciiLetter(c))
  {
    assert ([c] + rest)[1..] == rest;
  }

  /** A run of lower-case letters after a letter is left as it is. */
  lemma {:induction false} TitleFromLowerRun(w: string, rest: string)
    requires forall i :: 0 <= i < |w| ==> 'a' <= w[i] <= 'z'
    ensures TitleFrom(w + rest, true) == w + TitleFrom(rest, true)
  {
    if |w| > 0 {
      TitleFromCons(w[0], w[1..] + rest, true);
      assert w + rest == [w[0]] + (w[1..] + rest);
      TitleFromLowerRun(w[1..], rest);
      assert IsAsciiLetter(w[0]) && LowerChar(w[0]) == w[0];
      calc {
        TitleFrom(w + rest, true);
        [w[0]] + TitleFrom(w[1..] + rest, true);
        [w[0]] + (w[1..] + TitleFrom(rest, true));
        { assert w == [w[0]] + w[1..]; }
        w + TitleFrom(rest, true);
      }
    } else {
      assert w + rest == rest;
    }
  }

  function Title(s: string): string {
    TitleFrom(s, false)
  }

  /** `s.replace(a, b)` for single characters. */
  function ReplaceChar(s: string, a: char, b: char): (r: string)
    ensures |r| == |s|
  {
    seq(|s|, i requires 0 <= i < |s| => if s[i] == a then b else s[i])
  }

  predicate IsDigit(c: char) {
    '0' <= c <= '9'
  }

  function DigitChar(d: nat): char
    requires d < 10
  {
    ('0' as int + d) as char
  }

  /** `str(n)` for a non-negative integer. */
  function NatToString(n: nat): (r: string)
    ensures |r| > 0 && forall i :: 0 <= i < |r| ==> IsDigit(r[i])
    ensures r[0] == '0' ==> n == 0
    decreases n
  {
    if n < 10 then [DigitChar(n)] else NatToString(n / 10) + [DigitChar(n % 10)]
  }

  /** `int(s)` for a string of decimal digits. */
  function DigitsValue(s: string): nat
    requires forall i :: 0 <= i < |s| ==> IsDigit(s[i])
  {
    if |s| == 0 then 0
    else
      assert IsDigit(s[|s| - 1]);
      DigitsValue(s[..|s| - 1]) * 10 + (s[|s| - 1] as int - '0' as int)
  }

  /** `int(str(n)) == n` */
  lemma {:induction false} NatToStringRoundTrip(n: nat)
    ensures DigitsValue(NatToString(n)) == n
  {
    if n >= 10 {
      NatToStringRoundTrip(n / 10);
      var r := NatToString(n);
      assert r[..|r| - 1] == NatToString(n / 10);
    }
  }

  lemma NatToStringInjective(m: nat, n: nat)
    ensures NatToString(m) == NatToString(n) ==> m == n
  {
    NatToStringRoundTrip(m);
    NatToStringRoundTrip(n);
  }
}
