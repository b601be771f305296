/**
 * The JavaScript string operations the bot relies on, over `string` (a
 * sequence of Unicode scalar values): `split` and `join` on a one-character
 * separator, `trim`, `padEnd`, the first-occurrence `replace`, `startsWith`
 * and `endsWith`, and lower-casing of a first character.
 */
module Strings {
  import opened Common

  predicate StartsWith(s: string, prefix: string) {
    |prefix| <= |s| && s[..|prefix|] == prefix
  }

  predicate EndsWith(s: string, suffix: string) {
    |suffix| <= |s| && s[|s| - |suffix|..] == suffix
  }

  /** Number of occurrences of `c` in `s`. */
  function Count(s: string, c: char): nat {
    if |s| == 0 then 0 else (if s[0] == c then 1 else 0) + Count(s[1..], c)
  }

  lemma {:induction false} CountAppend(a: string, b: string, c: char)
    ensures Count(a + b, c) == Count(a, c) + Count(b, c)
  {
    if |a| == 0 {
      assert a + b == b;
    } else {
      assert (a + b)[1..] == a[1..] + b;
      CountAppend(a[1..], b, c);
    }
  }

  lemma {:induction false} CountAbsent(s: string, c: char)
    requires c !in s
    ensures Count(s, c) == 0
  {
    if |s| > 0 {
      CountAbsent(s[1..], c);
    }
  }

  /**
   * `s.split(sep)` for a one-character separator: the pieces between the
   * separators, empty pieces included, so there is always one piece more
   * than there are separators.
   */
  function Split(s: string, sep: char): (parts: seq<string>)
    ensures |parts| == Count(s, sep) + 1
    ensures forall i :: 0 <= i < |parts| ==> sep !in parts[i]
  {
    if |s| == 0 then [""]
    else
      var rest := Split(s[1..], sep);
      if s[0] == sep then [""] + rest
      else [[s[0]] + rest[0]] + rest[1..]
  }

  /** `parts.join(sep)`. */
  function Join(parts: seq<string>, sep: char): string
    requires |parts| >= 1
  {
    if |parts| == 1 then parts[0] else parts[0] + [sep] + Join(parts[1..], sep)
  }

  lemma {:induction false} JoinConsChar(c: char, parts: seq<string>, sep: char)
    requires |parts| >= 1
    ensures Join([[c] + parts[0]] + parts[1..], sep) == [c] + Join(parts, sep)
  {
    var ps := [[c] + parts[0]] + parts[1..];
    assert ps[1..] == parts[1..];
  }

  /** Joining the pieces of a split with the same separator gives back the string. */
  lemma {:induction false} JoinSplit(s: string, sep: char)
    ensures Join(Split(s, sep), sep) == s
  {
    if |s| > 0 {
      var rest := Split(s[1..], sep);
      JoinSplit(s[1..], sep);
      if s[0] == sep {
        assert ([""] + rest)[1..] == rest;
        assert s == [sep] + s[1..];
      } else {
        JoinConsChar(s[0], rest, sep);
        assert s == [s[0]] + s[1..];
      }
    }
  }

  /** Splitting a join of separator-free pieces gives back the pieces. */
  lemma {:induction false} SplitJoin(parts: seq<string>, sep: char)
    requires |parts| >= 1
    requires forall i :: 0 <= i < |parts| ==> sep !in parts[i]
    ensures Split(Join(parts, sep), sep) == parts
  {
    if |parts| == 1 {
      SplitSepFree(parts[0], sep);
    } else {
      SplitJoin(parts[1..], sep);
      SplitPrefix(parts[0], Join(parts[1..], sep), sep);
      assert [parts[0]] + parts[1..] == parts;
    }
  }

  /** A separator-free string splits into itself alone. */
  lemma {:induction false} SplitSepFree(s: string, sep: char)
    requires sep !in s
    ensures Split(s, sep) == [s]
  {
    if |s| > 0 {
      SplitSepFree(s[1..], sep);
      assert [s[0]] + s[1..] == s;
    }
  }

  /** A separator-free head followed by a separator splits off as its own piece. */
  lemma {:induction false} SplitPrefix(head: string, tail: string, sep: char)
    requires sep !in head
    ensures Split(head + [sep] + tail, sep) == [head] + Split(tail, sep)
  {
    var s := head + [sep] + tail;
    if |head| == 0 {
      assert s == [sep] + tail;
      assert s[1..] == tail;
    } else {
      assert s[1..] == head[1..] + [sep] + tail;
      SplitPrefix(head[1..], tail, sep);
      assert [head[0]] + head[1..] == head;
    }
  }

  /**
   * The characters JavaScript's `trim` removes: the WhiteSpace and
   * LineTerminator code points of section 12.2 and 12.3 of ECMA-262
   * (tab, vertical tab, form feed, space, no-break space, the byte order
   * mark, the Zs space separators, line feed, carriage return, and the line
   * and paragraph separators).
   */
  predicate IsWhitespace(c: char) {
    c == '\t' || c == '\n' || c == '\U{0B}' || c == '\U{0C}' || c == '\r' ||
    c == ' ' || c == '\U{A0}' || c == '\U{1680}' ||
    ('\U{2000}' <= c <= '\U{200A}') ||
    c == '\U{2028}' || c == '\U{2029}' || c == '\U{202F}' || c == '\U{205F}' ||
    c == '\U{3000}' || c == '\U{FEFF}'
  }

  predicate AllWhitespace(s: string) {
    forall i :: 0 <= i < |s| ==> IsWhitespace(s[i])
  }

  /** Length of the run of whitespace `s` starts with. */
  function LeadingWhitespace(s: string): (k: nat)
    ensures k <= |s| && AllWhitespace(s[..k]) && (k == |s| || !IsWhitespace(s[k]))
  {
    if |s| > 0 && IsWhitespace(s[0]) then
      var k := 1 + LeadingWhitespace(s[1..]);
      assert s[..k] == [s[0]] + s[1..][..k - 1];
      k
    else 0
  }

  /** Where the run of whitespace `s` ends with begins. */
  function TrailingWhitespace(s: string): (k: nat)
    ensures k <= |s| && AllWhitespace(s[k..]) && (k == 0 || !IsWhitespace(s[k - 1]))
  {
    if |s| > 0 && IsWhitespace(s[|s| - 1]) then
      var k := TrailingWhitespace(s[..|s| - 1]);
      assert s[k..] == s[..|s| - 1][k..] + [s[|s| - 1]];
      k
    else |s|
  }

  /** `s` with its leading whitespace removed. */
  function TrimStart(s: string): (r: string)
    ensures |r| <= |s| && r == s[|s| - |r|..]
    ensures AllWhitespace(s[..|s| - |r|])
    ensures r == [] || !IsWhitespace(r[0])
  {
    s[LeadingWhitespace(s)..]
  }

  /** `s` with its trailing whitespace removed. */
  function TrimEnd(s: string): (r: string)
    ensures |r| <= |s| && r == s[..|r|]
    ensures AllWhitespace(s[|r|..])
    ensures r == [] || !IsWhitespace(r[|r| - 1])
  {
    s[..TrailingWhitespace(s)]
  }

  /** JavaScript's `s.trim()`. */
  function Trim(s: string): string {
    TrimEnd(TrimStart(s))
  }

  /**
   * What `trim` returns is the unique middle part of `s` that neither starts
   * nor ends with whitespace and is surrounded only by whitespace.
   */
  lemma {:induction false} TrimIsMiddle(s: string)
    ensures exists i, j ::
      (0 <= i <= j <= |s| && Trim(s) == s[i..j] && AllWhitespace(s[..i]) && AllWhitespace(s[j..]))
    ensures Trim(s) == [] || (!IsWhitespace(Trim(s)[0]) && !IsWhitespace(Trim(s)[|Trim(s)| - 1]))
  {
    var i, j := TrimBounds(s);
  }

  /** The bounds of the middle part `trim` keeps. */
  lemma {:induction false} TrimBounds(s: string) returns (i: nat, j: nat)
    ensures i <= j <= |s| && Trim(s) == s[i..j]
    ensures AllWhitespace(s[..i]) && AllWhitespace(s[j..])
    ensures Trim(s) == [] || (!IsWhitespace(Trim(s)[0]) && !IsWhitespace(Trim(s)[|Trim(s)| - 1]))
  {
    var t := TrimStart(s);
    var r := TrimEnd(t);
    i, j := MiddleBounds(s, t, r);
  }

  /**
   * A part `r` cut from the front of a part `t` cut from the back of `s`,
   * with only whitespace cut away and none left at either end of `r`.
   */
  lemma {:induction false} MiddleBounds(s: string, t: string, r: string) returns (i: nat, j: nat)
    requires |t| <= |s| && t == s[|s| - |t|..] && AllWhitespace(s[..|s| - |t|])
    requires t == [] || !IsWhitespace(t[0])
    requires |r| <= |t| && r == t[..|r|] && AllWhitespace(t[|r|..])
    requires r == [] || !IsWhitespace(r[|r| - 1])
    ensures i == |s| - |t| && j == i + |r| && j <= |s| && r == s[i..j]
    ensures AllWhitespace(s[..i]) && AllWhitespace(s[j..])
    ensures r == [] || (!IsWhitespace(r[0]) && !IsWhitespace(r[|r| - 1]))
  {
    i := |s| - |t|;
    j := i + |r|;
    assert r == s[i..j];
    if r != [] {
      assert r[0] == t[0];
    }
    forall k | 0 <= k < |s| - j
      ensures IsWhitespace(s[j..][k])
    {
      assert s[j..][k] == t[|r|..][k];
    }
  }

  /** A string that starts with a non-whitespace character is unchanged by `TrimStart`. */
  lemma {:induction false} TrimStartKeeps(s: string)
    requires |s| > 0 && !IsWhitespace(s[0])
    ensures TrimStart(s) == s
  {
  }

  /** Trimming the end of `a + b` when `b` is all whitespace is trimming the end of `a`. */
  lemma {:induction false} TrimEndWhitespaceTail(a: string, b: string)
    requires AllWhitespace(b)
    ensures TrimEnd(a + b) == TrimEnd(a)
  {
    TrailingWhitespaceTail(a, b);
    var k := TrailingWhitespace(a);
    assert (a + b)[..k] == a[..k];
  }

  lemma {:induction false} TrailingWhitespaceTail(a: string, b: string)
    requires AllWhitespace(b)
    ensures TrailingWhitespace(a + b) == TrailingWhitespace(a)
    decreases |b|
  {
    if |b| > 0 {
      var s := a + b;
      assert s[..|s| - 1] == a + b[..|b| - 1];
      assert s[|s| - 1] == b[|b| - 1];
      TrailingWhitespaceTail(a, b[..|b| - 1]);
    } else {
      assert a + b == a;
    }
  }

  /** A string that does not end in whitespace is unchanged by `TrimEnd`. */
  lemma {:induction false} TrimEndKeeps(s: string)
    requires |s| > 0 && !IsWhitespace(s[|s| - 1])
    ensures TrimEnd(s) == s
  {
  }

  /** A string that neither starts nor ends with whitespace is unchanged by `Trim`. */
  lemma {:induction false} TrimKeeps(s: string)
    requires s == [] || (!IsWhitespace(s[0]) && !IsWhitespace(s[|s| - 1]))
    ensures Trim(s) == s
  {
    if s == [] {
      assert TrimStart(s) == s;
      assert TrimEnd(s) == s;
    } else {
      TrimStartKeeps(s);
      TrimEndKeeps(s);
    }
  }

  /** Trimming the end of `a + b` when `b` has some non-whitespace trims only `b`. */
  lemma {:induction false} TrimEndConcat(a: string, b: string)
    requires TrimEnd(b) != []
    ensures TrimEnd(a + b) == a + TrimEnd(b)
  {
    TrailingWhitespaceConcat(a, b);
    var k := TrailingWhitespace(b);
    assert (a + b)[..|a| + k] == a + b[..k];
  }

  lemma {:induction false} TrailingWhitespaceConcat(a: string, b: string)
    requires TrailingWhitespace(b) > 0
    ensures TrailingWhitespace(a + b) == |a| + TrailingWhitespace(b)
    decreases |b|
  {
    var s := a + b;
    assert s[|s| - 1] == b[|b| - 1];
    if IsWhitespace(b[|b| - 1]) {
      assert s[..|s| - 1] == a + b[..|b| - 1];
      TrailingWhitespaceConcat(a, b[..|b| - 1]);
    }
  }

  /** `s.padEnd(width, ' ')`: `s` followed by as many spaces as make it `width` long. */
  function PadEnd(s: string, width: nat): (r: string)
    ensures |r| == if |s| >= width then |s| else width
    ensures r[..|s|] == s
    ensures forall i :: |s| <= i < |r| ==> r[i] == ' '
  {
    if |s| >= width then s else s + seq(width - |s|, _ => ' ')
  }

  /** `pat` occurs in `s` at index `i`. */
  predicate OccursAt(s: string, pat: string, i: nat) {
    i + |pat| <= |s| && s[i..i + |pat|] == pat
  }

  /** `s.indexOf(pat, from)`, with `None` for JavaScript's -1. */
  function IndexOfFrom(s: string, pat: string, from: nat): (r: Option<nat>)
    decreases |s| - from
    ensures r.Some? ==> from <= r.value && OccursAt(s, pat, r.value)
    ensures r.Some? ==> forall j :: from <= j < r.value ==> !OccursAt(s, pat, j)
    ensures r.None? ==> forall j :: from <= j ==> !OccursAt(s, pat, j)
  {
    if from + |pat| > |s| then None
    else if OccursAt(s, pat, from) then Some(from)
    else IndexOfFrom(s, pat, from + 1)
  }

  /** `s.replace(pat, '')` with a string pattern: only the first occurrence goes. */
  function RemoveFirst(s: string, pat: string): (r: string)
  {
    match IndexOfFrom(s, pat, 0)
    case None => s
    case Some(i) => s[..i] + s[i + |pat|..]
  }

  /** Removing a prefix that is there drops exactly that prefix. */
  lemma {:induction false} RemoveFirstPrefix(s: string, pat: string)
    requires StartsWith(s, pat)
    ensures RemoveFirst(s, pat) == s[|pat|..]
  {
    assert OccursAt(s, pat, 0);
  }

  /** Removing a pattern that does not occur changes nothing. */
  lemma {:induction false} RemoveFirstAbsent(s: string, pat: string)
    requires forall j :: 0 <= j <= |s| ==> !OccursAt(s, pat, j)
    ensures RemoveFirst(s, pat) == s
  {
  }

  /**
   * The first occurrence is the one removed: the result is `s` with the
   * leftmost occurrence of `pat` cut out, and `pat` occurs nowhere before it.
   */
  lemma {:induction false} RemoveFirstLeftmost(s: string, pat: string, i: nat)
    requires OccursAt(s, pat, i)
    requires forall j :: 0 <= j < i ==> !OccursAt(s, pat, j)
    ensures RemoveFirst(s, pat) == s[..i] + s[i + |pat|..]
    ensures |RemoveFirst(s, pat)| == |s| - |pat|
  {
    var r := IndexOfFrom(s, pat, 0);
    assert r.Some?;
    assert r.value == i;
  }

  predicate IsDigit(c: char) {
    '0' <= c <= '9'
  }

  predicate AllDigits(s: string) {
    forall i :: 0 <= i < |s| ==> IsDigit(s[i])
  }

  /** Length of the run of digits `t` starts with. */
  function LeadingDigits(t: string): (k: nat)
    ensures k <= |t| && AllDigits(t[..k]) && (k == |t| || !IsDigit(t[k]))
  {
    if |t| > 0 && IsDigit(t[0]) then
      var k := 1 + LeadingDigits(t[1..]);
      assert t[..k] == [t[0]] + t[1..][..k - 1];
      k
    else 0
  }

  lemma {:induction false} LeadingDigitsOf(digits: string, rest: string)
    requires AllDigits(digits)
    requires rest == [] || !IsDigit(rest[0])
    ensures LeadingDigits(digits + rest) == |digits|
  {
    if |digits| > 0 {
      assert (digits + rest)[1..] == digits[1..] + rest;
      LeadingDigitsOf(digits[1..], rest);
    } else {
      assert digits + rest == rest;
    }
  }

  predicate IsAsciiUpper(c: char) {
    'A' <= c <= 'Z'
  }

  /** `c.toLowerCase()` on the ASCII letters; every other character is kept. */
  function AsciiLower(c: char): char {
    if IsAsciiUpper(c) then (c as int + 32) as char else c
  }

  /** `s.charAt(0).toLowerCase() + s.slice(1)`. */
  function LowerFirst(s: string): (r: string)
    ensures |r| == |s|
    ensures |s| > 0 ==> r[1..] == s[1..] && r[0] == AsciiLower(s[0])
    ensures |s| > 0 ==> !IsAsciiUpper(r[0])
  {
    if |s| == 0 then "" else [AsciiLower(s[0])] + s[1..]
  }
}
