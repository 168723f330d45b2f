/**
 * String helpers shared by both route files: ASCII character classes, the
 * JavaScript `trim`, `split`, `includes`, `toLowerCase`/`toUpperCase` over ASCII,
 * decimal rendering of numbers inside template literals, and the greedy
 * `/\[[\s\S]*\]/` and `/\{[\s\S]*\}/` matches.
 */
module Text {
  import opened Wrappers

  // ---------------------------------------------------------------------------
  // Character classes (ASCII approximations of the JavaScript regex classes)
  // ---------------------------------------------------------------------------

  /** `\s` and the characters `String.prototype.trim` removes, restricted to ASCII. */
  predicate IsSpace(c: char) {
    c == ' ' || c == '\t' || c == '\n' || c == '\r' || c == '\U{000B}' || c == '\U{000C}'
  }

  predicate IsDigit(c: char) { '0' <= c <= '9' }

  predicate IsUpper(c: char) { 'A' <= c <= 'Z' }

  predicate IsLower(c: char) { 'a' <= c <= 'z' }

  function LowerChar(c: char): char {
    if IsUpper(c) then (c as int + 32) as char else c
  }

  function UpperChar(c: char): char {
    if IsLower(c) then (c as int - 32) as char else c
  }

  /** `toLowerCase()` on ASCII letters. */
  function ToLower(s: string): (r: string)
    ensures |r| == |s|
    ensures forall i :: 0 <= i < |s| ==> !IsUpper(r[i])
  {
    seq(|s|, i requires 0 <= i < |s| => LowerChar(s[i]))
  }

  /** Lower-casing works character by character, so it distributes over concatenation. */
  lemma ToLowerAppend(a: string, b: string)
    ensures ToLower(a + b) == ToLower(a) + ToLower(b)
  {
    assert forall i :: 0 <= i < |a + b| ==> ToLower(a + b)[i] == (ToLower(a) + ToLower(b))[i];
  }

  /** `toUpperCase()` on ASCII letters. */
  function ToUpper(s: string): (r: string)
    ensures |r| == |s|
    ensures forall i :: 0 <= i < |s| ==> !IsLower(r[i])
  {
    seq(|s|, i requires 0 <= i < |s| => UpperChar(s[i]))
  }

  /** `x || d` for a string member: a missing or empty string gives the default. */
  function OrElse(x: Option<string>, d: string): (r: string)
    ensures r == d || (x == Some(r) && r != "")
    ensures x.Some? && x.value != "" ==> r == x.value
  {
    if x.Some? && x.value != "" then x.value else d
  }

  // ---------------------------------------------------------------------------
  // Substring search (`includes`)
  // ---------------------------------------------------------------------------

  predicate StartsWith(s: string, w: string) {
    |w| <= |s| && s[..|w|] == w
  }

  /** `s.includes(w)`. */
  predicate Contains(s: string, w: string)
    decreases |s|
  {
    StartsWith(s, w) || (|s| > 0 && Contains(s[1..], w))
  }

  /** Independent reference: `w` occurs in `s` at some position. */
  ghost predicate OccursIn(w: string, s: string) {
    exists i :: 0 <= i <= |s| && StartsWith(s[i..], w)
  }

  lemma {:induction false} ContainsIsOccurrence(s: string, w: string)
    ensures Contains(s, w) <==> OccursIn(w, s)
    decreases |s|
  {
    if StartsWith(s, w) {
      assert s[0..] == s;
    } else if |s| > 0 {
      ContainsIsOccurrence(s[1..], w);
      if OccursIn(w, s[1..]) {
        var i :| 0 <= i <= |s[1..]| && StartsWith(s[1..][i..], w);
        assert s[1..][i..] == s[i + 1..];
      }
      if OccursIn(w, s) {
        var i :| 0 <= i <= |s| && StartsWith(s[i..], w);
        assert i != 0;
        assert s[1..][i - 1..] == s[i..];
      }
    }
  }

  /** An interpolated value is found verbatim in the text around it. */
  lemma {:induction false} ContainsInfix(a: string, w: string, b: string)
    ensures Contains(a + w + b, w)
    decreases |a|
  {
    if |a| == 0 {
      assert a + w + b == w + b;
      assert (w + b)[..|w|] == w;
    } else {
      assert (a + w + b)[1..] == a[1..] + w + b;
      ContainsInfix(a[1..], w, b);
    }
  }

  /** Whatever a string contains, a longer string with it as a prefix contains too. */
  lemma {:induction false} ContainsExtend(a: string, b: string, w: string)
    requires Contains(a, w)
    ensures Contains(a + b, w)
    decreases |a|
  {
    if StartsWith(a, w) {
      assert (a + b)[..|w|] == a[..|w|];
    } else {
      assert (a + b)[1..] == a[1..] + b;
      ContainsExtend(a[1..], b, w);
    }
  }

  /** ... and so does one with it as a suffix. */
  lemma {:induction false} ContainsPrepend(a: string, b: string, w: string)
    requires Contains(b, w)
    ensures Contains(a + b, w)
    decreases |a|
  {
    if |a| == 0 {
      assert a + b == b;
    } else {
      assert (a + b)[1..] == a[1..] + b;
      ContainsPrepend(a[1..], b, w);
    }
  }

  /** Every character of a contained string occurs in the containing one. */
  lemma {:induction false} ContainsChars(s: string, w: string, c: char)
    requires Contains(s, w) && c in w
    ensures c in s
    decreases |s|
  {
    if StartsWith(s, w) {
      assert s[..|w|] == w;
    } else {
      ContainsChars(s[1..], w, c);
    }
  }

  /** Containment is transitive: what a contained string contains, the container contains. */
  lemma ContainsTrans(s: string, m: string, w: string)
    requires Contains(s, m) && Contains(m, w)
    ensures Contains(s, w)
  {
    ContainsIsOccurrence(s, m);
    ContainsIsOccurrence(m, w);
    var i :| 0 <= i <= |s| && StartsWith(s[i..], m);
    var j :| 0 <= j <= |m| && StartsWith(m[j..], w);
    assert s[i..][..|m|] == m;
    assert forall k :: 0 <= k < |w| ==> s[i + j + k] == s[i..][..|m|][j + k] == m[j..][..|w|][k];
    assert s[i + j..][..|w|] == w;
    ContainsIsOccurrence(s, w);
  }

  // ---------------------------------------------------------------------------
  // trim
  // ---------------------------------------------------------------------------

  /** Number of whitespace characters at the start of `s`. */
  function LeadingSpaces(s: string): (n: nat)
    ensures n <= |s|
    ensures forall i :: 0 <= i < n ==> IsSpace(s[i])
    ensures n < |s| ==> !IsSpace(s[n])
  {
    if |s| > 0 && IsSpace(s[0]) then 1 + LeadingSpaces(s[1..]) else 0
  }

  /** Number of whitespace characters at the end of `s`. */
  function TrailingSpaces(s: string): (n: nat)
    ensures n <= |s|
    ensures forall i :: |s| - n <= i < |s| ==> IsSpace(s[i])
    ensures n < |s| ==> !IsSpace(s[|s| - 1 - n])
  {
    if |s| > 0 && IsSpace(s[|s| - 1]) then 1 + TrailingSpaces(s[..|s| - 1]) else 0
  }

  /** `s.trim()`: the slice of `s` left after removing leading and trailing whitespace. */
  function Trim(s: string): (r: string)
    ensures r == [] || (!IsSpace(r[0]) && !IsSpace(r[|r| - 1]))
    ensures LeadingSpaces(s) + |r| <= |s|
    ensures r == s[LeadingSpaces(s)..LeadingSpaces(s) + |r|]
    ensures forall k :: LeadingSpaces(s) + |r| <= k < |s| ==> IsSpace(s[k])
  {
    var i := LeadingSpaces(s);
    var rest := s[i..];
    var j := TrailingSpaces(rest);
    var r := rest[..|rest| - j];
    assert r == s[i..i + |r|];
    r
  }

  // ---------------------------------------------------------------------------
  // split
  // ---------------------------------------------------------------------------

  /** Index of the first `c` in `s`. */
  function IndexOf(s: string, c: char): (r: nat)
    requires c in s
    ensures r < |s| && s[r] == c && c !in s[..r]
  {
    if s[0] == c then 0 else 1 + IndexOf(s[1..], c)
  }

  /** Index of the last `c` in `s`. */
  function LastIndexOf(s: string, c: char): (r: nat)
    requires c in s
    ensures r < |s| && s[r] == c && c !in s[r + 1..]
  {
    if s[|s| - 1] == c then |s| - 1 else LastIndexOf(s[..|s| - 1], c)
  }

  /** `s.split(sep)` for a one-character separator: an empty string gives `[""]`. */
  function Split(s: string, sep: char): (r: seq<string>)
    ensures |r| >= 1
    ensures forall k :: 0 <= k < |r| ==> sep !in r[k]
    decreases |s|
  {
    if sep !in s then [s]
    else
      var i := IndexOf(s, sep);
      [s[..i]] + Split(s[i + 1..], sep)
  }

  /** `parts.join(sep)`. */
  function Join(parts: seq<string>, sep: char): string
    requires |parts| >= 1
  {
    if |parts| == 1 then parts[0] else parts[0] + [sep] + Join(parts[1..], sep)
  }

  /** Splitting loses nothing: joining the pieces gives back the text. */
  lemma {:induction false} SplitJoin(s: string, sep: char)
    ensures Join(Split(s, sep), sep) == s
    decreases |s|
  {
    if sep in s {
      var i := IndexOf(s, sep);
      var rest := Split(s[i + 1..], sep);
      SplitJoin(s[i + 1..], sep);
      assert Split(s, sep) == [s[..i]] + rest;
      assert ([s[..i]] + rest)[1..] == rest;
      assert Join(Split(s, sep), sep) == s[..i] + [sep] + Join(rest, sep);
      assert s == s[..i] + [sep] + s[i + 1..];
    }
  }

  /** Splitting a line that has no separator, then the separator, then the rest. */
  lemma SplitCons(a: string, sep: char, b: string)
    requires sep !in a
    ensures Split(a + [sep] + b, sep) == [a] + Split(b, sep)
  {
    var s := a + [sep] + b;
    assert s[|a|] == sep;
    var i := IndexOf(s, sep);
    assert s[..|a|] == a;
    assert i == |a|;
    assert s[..i] == a && s[i + 1..] == b;
  }

  // ---------------------------------------------------------------------------
  // Decimal rendering of numbers in template literals
  // ---------------------------------------------------------------------------

  function DigitChar(d: nat): char
    requires d < 10
  {
    ('0' as int + d) as char
  }

  /** `String(n)` for a non-negative integer. */
  function NatToString(n: nat): (r: string)
    ensures |r| >= 1
    ensures forall i :: 0 <= i < |r| ==> IsDigit(r[i])
  {
    if n < 10 then [DigitChar(n)] else NatToString(n / 10) + [DigitChar(n % 10)]
  }

  /** `String(n)` for any integer. */
  function IntToString(n: int): (r: string)
    ensures |r| >= 1
  {
    if n < 0 then "-" + NatToString(-n) else NatToString(n)
  }

  /** Different numbers are rendered differently. */
  lemma {:induction false} NatToStringInjective(a: nat, b: nat)
    requires NatToString(a) == NatToString(b)
    ensures a == b
    decreases a
  {
    var sa, sb := NatToString(a), NatToString(b);
    if a < 10 && b < 10 {
      assert DigitChar(a) == sa[0] == sb[0] == DigitChar(b);
    } else if a >= 10 && b >= 10 {
      assert sa[|sa| - 1] == DigitChar(a % 10) && sb[|sb| - 1] == DigitChar(b % 10);
      assert sa[..|sa| - 1] == NatToString(a / 10);
      assert sb[..|sb| - 1] == NatToString(b / 10);
      NatToStringInjective(a / 10, b / 10);
    }
  }

  // ---------------------------------------------------------------------------
  // Greedy bracket match: `text.match(/\[[\s\S]*\]/)` and `/\{[\s\S]*\}/`
  // ---------------------------------------------------------------------------

  /**
   * The leftmost-longest match of `open [\s\S]* close`: from the first `open`
   * to the last `close` after it, or None when no `close` follows the first `open`.
   */
  function GreedyMatch(s: string, open: char, close: char): (r: Option<string>)
  {
    if open !in s then None
    else
      var p := IndexOf(s, open);
      if close !in s[p + 1..] then None
      else Some(s[p..LastIndexOf(s, close) + 1])
  }

  /** A bracket pair exists: some `open` strictly before some `close`. */
  ghost predicate HasPair(s: string, open: char, close: char) {
    exists i, j :: 0 <= i < j < |s| && s[i] == open && s[j] == close
  }

  /** The match is found exactly when the text holds an `open` before a `close`. */
  lemma GreedyMatchFound(s: string, open: char, close: char)
    ensures GreedyMatch(s, open, close).Some? <==> HasPair(s, open, close)
  {
    if HasPair(s, open, close) {
      var i, j :| 0 <= i < j < |s| && s[i] == open && s[j] == close;
      var p := IndexOf(s, open);
      assert s[p + 1..][j - p - 1] == close;
    }
    if GreedyMatch(s, open, close).Some? {
      var p := IndexOf(s, open);
      var k := IndexOf(s[p + 1..], close);
      assert s[p + 1 + k] == close;
    }
  }

  /**
   * `s[i]` is the first `open` of `s` and `s[j]` the last `close`, and the
   * first comes before the last.
   */
  ghost predicate Brackets(s: string, open: char, close: char, i: int, j: int) {
    && 0 <= i < j < |s|
    && s[i] == open && s[j] == close
    && open !in s[..i] && close !in s[j + 1..]
  }

  /** When a `close` follows the first `open`, the first `open` comes before the last `close`. */
  lemma FirstOpenBeforeLastClose(s: string, open: char, close: char)
    requires open in s && close in s[IndexOf(s, open) + 1..]
    ensures IndexOf(s, open) < LastIndexOf(s, close)
  {
    var p := IndexOf(s, open);
    var q := LastIndexOf(s, close);
    var j := p + 1 + IndexOf(s[p + 1..], close);
    assert s[j] == close;
  }

  /** When found, the match runs from the first `open` of the text to the last `close` of the text. */
  lemma GreedyMatchShape(s: string, open: char, close: char)
    requires GreedyMatch(s, open, close).Some?
    ensures exists i, j :: Brackets(s, open, close, i, j) && GreedyMatch(s, open, close).value == s[i..j + 1]
  {
    FirstOpenBeforeLastClose(s, open, close);
    var p := IndexOf(s, open);
    var q := LastIndexOf(s, close);
    assert Brackets(s, open, close, p, q);
  }
}
