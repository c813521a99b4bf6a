/** The JavaScript string operations the service and the components rely on. */
module JsStrings {

  /** The WhiteSpace code points of ECMAScript (section 12.2 of ECMA-262): tab, vertical tab, form
      feed, the byte order mark and the space separators of Unicode category Zs. */
  const WhiteSpaceCodePoints: set<char> := {
    '\t', '\U{000B}', '\U{000C}', '\U{FEFF}',
    ' ', '\U{00A0}', '\U{1680}', '\U{2000}', '\U{2001}', '\U{2002}', '\U{2003}', '\U{2004}', '\U{2005}',
    '\U{2006}', '\U{2007}', '\U{2008}', '\U{2009}', '\U{200A}', '\U{202F}', '\U{205F}', '\U{3000}'
  }

  /** The LineTerminator code points of ECMAScript (section 12.3 of ECMA-262). */
  const LineTerminators: set<char> := {'\n', '\r', '\U{2028}', '\U{2029}'}

  /** The characters `String.prototype.trim` removes: exactly the WhiteSpace and LineTerminator code
      points. */
  predicate IsWhitespace(c: char)
  {
    || c == '\t' || c == '\n' || c == '\U{000B}' || c == '\U{000C}' || c == '\r' || c == ' '
    || c == '\U{00A0}' || c == '\U{1680}' || ('\U{2000}' <= c <= '\U{200A}')
    || c == '\U{2028}' || c == '\U{2029}' || c == '\U{202F}' || c == '\U{205F}'
    || c == '\U{3000}' || c == '\U{FEFF}'
  }

  /** The characters `trim` removes are exactly the ECMAScript WhiteSpace and LineTerminator code
      points. */
  lemma WhitespaceIsEcmaScript(c: char)
    ensures IsWhitespace(c) <==> c in WhiteSpaceCodePoints + LineTerminators
  {
  }

  /** Every character of `s` is whitespace. */
  predicate IsBlank(s: string)
  {
    forall i :: 0 <= i < |s| ==> IsWhitespace(s[i])
  }

  /** Leading whitespace removed. */
  function TrimStart(s: string): (r: string)
    ensures |r| <= |s| && r == s[|s| - |r|..]
    ensures r == [] || !IsWhitespace(r[0])
    ensures IsBlank(s[..|s| - |r|])
  {
    if s == [] || !IsWhitespace(s[0]) then s
    else
      var r := TrimStart(s[1..]);
      assert s[..|s| - |r|] == [s[0]] + s[1..][..|s| - 1 - |r|];
      assert s[|s| - |r|..] == s[1..][|s| - 1 - |r|..];
      r
  }

  /** Trailing whitespace removed. */
  function TrimEnd(s: string): (r: string)
    ensures |r| <= |s| && r == s[..|r|]
    ensures r == [] || !IsWhitespace(r[|r| - 1])
    ensures IsBlank(s[|r|..])
  {
    if s == [] || !IsWhitespace(s[|s| - 1]) then s else TrimEnd(s[..|s| - 1])
  }

  /** `s.trim()`: the piece of `s` left once the whitespace at both ends is removed. It occurs in `s`
      between a blank prefix and a blank suffix, and neither starts nor ends with whitespace. */
  function Trim(s: string): (r: string)
    ensures |r| <= |s|
    ensures r == [] || (!IsWhitespace(r[0]) && !IsWhitespace(r[|r| - 1]))
    ensures exists k :: OccursAt(s, r, k) && IsBlank(s[..k]) && IsBlank(s[k + |r|..])
  {
    var t := TrimStart(s);
    var r := TrimEnd(t);
    TrimBetweenBlanks(s, t, r);
    r
  }

  /** What trimming both ends leaves lies in `s` between a blank prefix and a blank suffix. */
  lemma TrimBetweenBlanks(s: string, t: string, r: string)
    requires |t| <= |s| && t == s[|s| - |t|..] && IsBlank(s[..|s| - |t|])
    requires |r| <= |t| && r == t[..|r|] && IsBlank(t[|r|..])
    ensures OccursAt(s, r, |s| - |t|) && IsBlank(s[..|s| - |t|]) && IsBlank(s[|s| - |t| + |r|..])
  {
  }

  /** `!s.trim()` holds exactly for the strings made only of whitespace (the empty one included). */
  lemma TrimEmptyIffBlank(s: string)
    ensures Trim(s) == "" <==> IsBlank(s)
  {
  }

  /** `!s.trim()`: the string is empty once trimmed, which is when it is blank. */
  function TrimsToEmpty(s: string): (empty: bool)
    ensures empty <==> IsBlank(s)
  {
    TrimEmptyIffBlank(s);
    Trim(s) == ""
  }

  /** `t` is a substring of `s` (`s.includes(t)`). */
  ghost predicate Includes(s: string, t: string)
  {
    exists i :: OccursAt(s, t, i)
  }

  /** `t` occurs in `s` starting at index `i`. */
  predicate OccursAt(s: string, t: string, i: int)
  {
    0 <= i <= |s| - |t| && s[i..i + |t|] == t
  }

  /** What either half includes, the concatenation includes. */
  lemma IncludesConcat(a: string, b: string, t: string)
    ensures Includes(a, t) ==> Includes(a + b, t)
    ensures Includes(b, t) ==> Includes(a + b, t)
  {
    if Includes(a, t) {
      var i :| OccursAt(a, t, i);
      assert (a + b)[i..i + |t|] == a[i..i + |t|];
      assert OccursAt(a + b, t, i);
    }
    if Includes(b, t) {
      var i :| OccursAt(b, t, i);
      assert (a + b)[|a| + i..|a| + i + |t|] == b[i..i + |t|];
      assert OccursAt(a + b, t, |a| + i);
    }
  }

  /** What the first half includes, the concatenation includes. */
  lemma IncludesLeft(a: string, b: string, t: string)
    requires Includes(a, t)
    ensures Includes(a + b, t)
  {
    IncludesConcat(a, b, t);
  }

  /** What the second half includes, the concatenation includes. */
  lemma IncludesRight(a: string, b: string, t: string)
    requires Includes(b, t)
    ensures Includes(a + b, t)
  {
    IncludesConcat(a, b, t);
  }

  /** An opening that includes `a` and `b`, followed by a line that includes `c` and `d`, opens a
      string that includes all four. */
  lemma IncludesInAppend(head: string, line: string, a: string, b: string, c: string, d: string)
    requires Includes(head, a) && Includes(head, b) && Includes(line, c) && Includes(line, d)
    ensures head <= head + line
    ensures Includes(head + line, a) && Includes(head + line, b)
    ensures Includes(head + line, c) && Includes(head + line, d)
  {
    IncludesLeft(head, line, a);
    IncludesLeft(head, line, b);
    IncludesRight(head, line, c);
    IncludesRight(head, line, d);
  }

  /** A template literal: its pieces (literal text and substituted values) one after another. */
  function Template(pieces: seq<string>): string
  {
    if pieces == [] then "" else pieces[0] + Template(pieces[1..])
  }

  /** A template literal includes each of its pieces. */
  lemma {:induction false} TemplateIncludes(pieces: seq<string>, k: nat)
    requires k < |pieces|
    ensures Includes(Template(pieces), pieces[k])
  {
    if k == 0 {
      assert OccursAt(pieces[0] + Template(pieces[1..]), pieces[0], 0);
    } else {
      TemplateIncludes(pieces[1..], k - 1);
      IncludesConcat(pieces[0], Template(pieces[1..]), pieces[k]);
    }
  }

  /** `xs.join([sep])`. */
  function Join(xs: seq<string>, sep: char): (r: string)
    ensures xs == [] ==> r == ""
    ensures |xs| == 1 ==> r == xs[0]
    ensures xs != [] ==> xs[0] <= r
  {
    if xs == [] then "" else if |xs| == 1 then xs[0] else xs[0] + [sep] + Join(xs[1..], sep)
  }

  /** `s.split([sep])`: the pieces between the occurrences of `sep`. There is always one piece, no
      piece holds `sep`, and the first piece is what precedes the first `sep` (all of `s` without one). */
  function Split(s: string, sep: char): (r: seq<string>)
    ensures |r| >= 1
    ensures forall k :: 0 <= k < |r| ==> sep !in r[k]
    ensures r[0] <= s && (|r[0]| == |s| || s[|r[0]|] == sep)
    decreases |s|
  {
    if s == [] then [""]
    else if s[0] == sep then [""] + Split(s[1..], sep)
    else
      var rest := Split(s[1..], sep);
      [[s[0]] + rest[0]] + rest[1..]
  }

  /** A string without the separator splits into itself alone. */
  lemma {:induction false} SplitWithoutSep(s: string, sep: char)
    requires sep !in s
    ensures Split(s, sep) == [s]
  {
    if s != [] {
      SplitWithoutSep(s[1..], sep);
      assert [s[0]] + s[1..] == s;
    }
  }

  /** Splitting at the first separator: the piece before it, then the pieces of what follows it. */
  lemma {:induction false} SplitAtFirst(x: string, sep: char, t: string)
    requires sep !in x
    ensures Split(x + [sep] + t, sep) == [x] + Split(t, sep)
  {
    if x == [] {
      assert x + [sep] + t == [sep] + t;
      assert ([sep] + t)[1..] == t;
    } else {
      var s := x + [sep] + t;
      assert s[0] == x[0] && s[1..] == x[1..] + [sep] + t;
      SplitAtFirst(x[1..], sep, t);
      assert [x[0]] + x[1..] == x;
    }
  }

  /** Joining with a separator that no piece contains, then splitting at it, gives the pieces back. */
  lemma {:induction false} SplitJoin(xs: seq<string>, sep: char)
    requires |xs| >= 1
    requires forall k :: 0 <= k < |xs| ==> sep !in xs[k]
    ensures Split(Join(xs, sep), sep) == xs
  {
    if |xs| == 1 {
      SplitWithoutSep(xs[0], sep);
    } else {
      SplitJoin(xs[1..], sep);
      SplitAtFirst(xs[0], sep, Join(xs[1..], sep));
      assert [xs[0]] + xs[1..] == xs;
    }
  }

  /** Index of the first occurrence of `c` in `s` (`s.indexOf(c)` when it is found). */
  function IndexOf(s: string, c: char): (i: nat)
    requires c in s
    ensures i < |s| && s[i] == c && c !in s[..i]
  {
    if s[0] == c then 0 else 1 + IndexOf(s[1..], c)
  }

  /** The UTF-16 code units of a character: two (a surrogate pair) above the Basic Multilingual Plane. */
  function CodeUnits(c: char): nat
  {
    if c as int > 0xFFFF then 2 else 1
  }

  /** `s.length`, which counts UTF-16 code units: at least one and at most two per character, and
      exactly one per character when every character lies in the Basic Multilingual Plane. */
  function Utf16Length(s: string): (n: nat)
    ensures |s| <= n <= 2 * |s|
    ensures (forall i :: 0 <= i < |s| ==> s[i] as int <= 0xFFFF) ==> n == |s|
  {
    if s == [] then 0
    else
      var n := Utf16Length(s[1..]);
      assert forall i :: 1 <= i < |s| ==> s[1..][i - 1] == s[i];
      CodeUnits(s[0]) + n
  }
}
