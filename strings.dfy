/** The JavaScript string operations the dashboard relies on (`trim`, `split`, `includes`,
    `startsWith`, `toLowerCase`, truthiness), on strings as sequences of characters. */
module Strings {
  import opened Wrappers

  /** The characters matched by `\s` in a regular expression and removed by `trim()`: the
      WhiteSpace class (tab, vertical tab, form feed, space, no-break space, byte-order mark
      and the Unicode space separators) and the LineTerminator class (line feed, carriage
      return, line and paragraph separators). Both operations use this same set. */
  predicate IsWhitespace(c: char) {
    c == '\t' || c == '\n' || c == '\U{000B}' || c == '\U{000C}' || c == '\r' || c == ' '
    || c == '\U{00A0}' || c == '\U{1680}' || ('\U{2000}' <= c <= '\U{200A}')
    || c == '\U{2028}' || c == '\U{2029}' || c == '\U{202F}' || c == '\U{205F}'
    || c == '\U{3000}' || c == '\U{FEFF}'
  }

  /** `\d`: an ASCII decimal digit. */
  predicate IsDigit(c: char) {
    '0' <= c <= '9'
  }

  predicate AllWhitespace(s: string) {
    forall i :: 0 <= i < |s| ==> IsWhitespace(s[i])
  }

  predicate AllDigits(s: string) {
    forall i :: 0 <= i < |s| ==> IsDigit(s[i])
  }

  /** The first position at or after `i` that does not hold whitespace (or `|s|`). */
  function SkipWhitespace(s: string, i: nat): (n: nat)
    requires i <= |s|
    ensures i <= n <= |s|
    ensures forall k :: i <= k < n ==> IsWhitespace(s[k])
    ensures n == |s| || !IsWhitespace(s[n])
    decreases |s| - i
  {
    if i < |s| && IsWhitespace(s[i]) then SkipWhitespace(s, i + 1) else i
  }

  /** The position just after the last character before `j` that is not whitespace (or 0). */
  function SkipWhitespaceBack(s: string, j: nat): (n: nat)
    requires j <= |s|
    ensures n <= j
    ensures forall k :: n <= k < j ==> IsWhitespace(s[k])
    ensures n == 0 || !IsWhitespace(s[n - 1])
    decreases j
  {
    if j > 0 && IsWhitespace(s[j - 1]) then SkipWhitespaceBack(s, j - 1) else j
  }

  /** `SkipWhitespace` is determined by the properties it ensures. */
  lemma {:induction false} SkipWhitespaceUnique(s: string, i: nat, n: nat)
    requires i <= n <= |s|
    requires forall k :: i <= k < n ==> IsWhitespace(s[k])
    requires n == |s| || !IsWhitespace(s[n])
    ensures SkipWhitespace(s, i) == n
    decreases n - i
  {
    if i < n {
      SkipWhitespaceUnique(s, i + 1, n);
    }
  }

  /** `SkipWhitespaceBack` is determined by the properties it ensures. */
  lemma {:induction false} SkipWhitespaceBackUnique(s: string, j: nat, n: nat)
    requires n <= j <= |s|
    requires forall k :: n <= k < j ==> IsWhitespace(s[k])
    requires n == 0 || !IsWhitespace(s[n - 1])
    ensures SkipWhitespaceBack(s, j) == n
    decreases j - n
  {
    if n < j {
      SkipWhitespaceBackUnique(s, j - 1, n);
    }
  }

  /** `String.prototype.trim`: drops the leading and the trailing whitespace. */
  function Trim(s: string): (r: string)
    ensures r == [] <==> AllWhitespace(s)
    ensures r != [] ==> !IsWhitespace(r[0]) && !IsWhitespace(r[|r| - 1])
    ensures |r| <= |s|
  {
    var start := SkipWhitespace(s, 0);
    var end := SkipWhitespaceBack(s, |s|);
    if start == |s| then "" else s[start..end]
  }

  /** Trimming only removes characters: whatever is in the result was in the input. */
  lemma TrimKeepsChars(s: string)
    ensures forall c :: c in Trim(s) ==> c in s
  {
    var start := SkipWhitespace(s, 0);
    var end := SkipWhitespaceBack(s, |s|);
    if start < |s| {
      forall c | c in s[start..end] ensures c in s {
        var k :| 0 <= k < end - start && s[start..end][k] == c;
        assert s[start + k] == c;
      }
    }
  }

  /** A string is blank when `trim()` leaves nothing, i.e. it is falsy after trimming. */
  predicate IsBlank(s: string) {
    Trim(s) == []
  }

  lemma AllWhitespaceConcat(a: string, k: string, b: string)
    requires AllWhitespace(a) && AllWhitespace(k) && AllWhitespace(b)
    ensures AllWhitespace(a + k + b)
  {
    var s := a + k + b;
    forall x | 0 <= x < |s| ensures IsWhitespace(s[x]) {
      if x < |a| {
        assert s[x] == a[x];
      } else if x < |a| + |k| {
        assert s[x] == k[x - |a|];
      } else {
        assert s[x] == b[x - |a| - |k|];
      }
    }
  }

  lemma SkipPaddedStart(a: string, k: string, b: string)
    requires AllWhitespace(a) && SkipWhitespace(k, 0) < |k|
    ensures SkipWhitespace(a + k + b, 0) == |a| + SkipWhitespace(k, 0)
  {
    var s := a + k + b;
    var i := SkipWhitespace(k, 0);
    assert s[|a| + i] == k[i];
    forall x | 0 <= x < |a| + i ensures IsWhitespace(s[x]) {
      if x < |a| { assert s[x] == a[x]; } else { assert s[x] == k[x - |a|]; }
    }
    SkipWhitespaceUnique(s, 0, |a| + i);
  }

  lemma SkipPaddedEnd(a: string, k: string, b: string)
    requires AllWhitespace(b) && SkipWhitespaceBack(k, |k|) > 0
    ensures SkipWhitespaceBack(a + k + b, |a + k + b|) == |a| + SkipWhitespaceBack(k, |k|)
  {
    var s := a + k + b;
    var j := SkipWhitespaceBack(k, |k|);
    assert s[|a| + j - 1] == k[j - 1];
    forall x | |a| + j <= x < |s| ensures IsWhitespace(s[x]) {
      if x < |a| + |k| { assert s[x] == k[x - |a|]; } else { assert s[x] == b[x - |a| - |k|]; }
    }
    SkipWhitespaceBackUnique(s, |s|, |a| + j);
  }

  /** Whitespace around a string does not change what `trim()` returns. */
  lemma TrimPadding(a: string, k: string, b: string)
    requires AllWhitespace(a) && AllWhitespace(b)
    ensures Trim(a + k + b) == Trim(k)
  {
    if AllWhitespace(k) {
      AllWhitespaceConcat(a, k, b);
    } else {
      var x :| 0 <= x < |k| && !IsWhitespace(k[x]);
      TrimPaddingCore(a, k, b, x);
    }
  }

  lemma TrimPaddingCore(a: string, k: string, b: string, x: nat)
    requires AllWhitespace(a) && AllWhitespace(b) && x < |k| && !IsWhitespace(k[x])
    ensures Trim(a + k + b) == Trim(k)
  {
    var s := a + k + b;
    var i := SkipWhitespace(k, 0);
    var j := SkipWhitespaceBack(k, |k|);
    assert i <= x < j;
    SkipPaddedStart(a, k, b);
    SkipPaddedEnd(a, k, b);
    MiddleSlice(a, k, b, i, j);
    TrimBetween(k, i, j);
    TrimBetween(s, |a| + i, |a| + j);
  }

  lemma TrimBetween(s: string, start: nat, end: nat)
    requires start < |s| && SkipWhitespace(s, 0) == start && SkipWhitespaceBack(s, |s|) == end
    ensures Trim(s) == s[start..end]
  {
  }

  lemma MiddleSlice(a: string, k: string, b: string, i: nat, j: nat)
    requires i <= j <= |k|
    ensures (a + k + b)[|a| + i..|a| + j] == k[i..j]
  {
  }

  /** A string with no whitespace at either end is its own `trim()`. */
  lemma TrimUnpadded(s: string)
    requires s == [] || (!IsWhitespace(s[0]) && !IsWhitespace(s[|s| - 1]))
    ensures Trim(s) == s
  {
    if s != [] {
      SkipWhitespaceUnique(s, 0, 0);
      SkipWhitespaceBackUnique(s, |s|, |s|);
    }
  }

  /** `includes`: `needle` occurs in `hay` at some position. */
  predicate Contains(hay: string, needle: string)
    decreases |hay|
  {
    needle <= hay || (|hay| > 0 && Contains(hay[1..], needle))
  }

  /** `needle` occurs in `hay` starting at position `k`. */
  predicate OccursAt(hay: string, needle: string, k: nat) {
    k + |needle| <= |hay| && hay[k..k + |needle|] == needle
  }

  /** `includes` finds exactly the substrings: `needle` occurs at some position of `hay`. */
  lemma {:induction false} ContainsIff(hay: string, needle: string)
    ensures Contains(hay, needle) <==> exists k: nat :: OccursAt(hay, needle, k)
    decreases |hay|
  {
    if needle <= hay {
      assert OccursAt(hay, needle, 0);
    } else if |hay| > 0 {
      ContainsIff(hay[1..], needle);
      if exists k: nat :: OccursAt(hay, needle, k) {
        var k: nat :| OccursAt(hay, needle, k);
        assert k != 0;
        assert hay[1..][k - 1..k - 1 + |needle|] == hay[k..k + |needle|];
        assert OccursAt(hay[1..], needle, k - 1);
      }
      if Contains(hay[1..], needle) {
        var k: nat :| OccursAt(hay[1..], needle, k);
        assert hay[k + 1..k + 1 + |needle|] == hay[1..][k..k + |needle|];
        assert OccursAt(hay, needle, k + 1);
      }
    }
  }

  lemma SuffixOfAppend(a: string, b: string, n: nat)
    requires n <= |b|
    ensures (a + b)[|a + b| - n..] == b[|b| - n..]
  {
  }

  /** `endsWith(suffix)`. */
  predicate EndsWith(s: string, suffix: string) {
    |suffix| <= |s| && s[|s| - |suffix|..] == suffix
  }

  /** `toLowerCase` on one character; only the ASCII letters are mapped. */
  function LowerChar(c: char): char {
    if 'A' <= c <= 'Z' then (c as int + 32) as char else c
  }

  /** `toUpperCase` on one character; only the ASCII letters are mapped. */
  function UpperChar(c: char): char {
    if 'a' <= c <= 'z' then (c as int - 32) as char else c
  }

  function ToLower(s: string): (r: string)
    ensures |r| == |s|
  {
    seq(|s|, i requires 0 <= i < |s| => LowerChar(s[i]))
  }

  function ToUpper(s: string): (r: string)
    ensures |r| == |s|
  {
    seq(|s|, i requires 0 <= i < |s| => UpperChar(s[i]))
  }

  /** `replace(from, to)` with a one-character string pattern: only the first occurrence. */
  function ReplaceFirst(s: string, from: char, to: char): (r: string)
    ensures |r| == |s|
    ensures from !in s ==> r == s
    decreases |s|
  {
    if s == [] then []
    else if s[0] == from then [to] + s[1..]
    else [s[0]] + ReplaceFirst(s[1..], from, to)
  }

  /** Only the first occurrence is replaced: everything before it and after it is kept. */
  lemma {:induction false} ReplaceFirstAt(s: string, from: char, to: char, k: nat)
    requires k < |s| && s[k] == from && from !in s[..k]
    ensures ReplaceFirst(s, from, to) == s[..k] + [to] + s[k + 1..]
    decreases k
  {
    if k > 0 {
      assert s[0] in s[..k];
      assert s[1..][..k - 1] == s[1..k];
      ReplaceFirstAt(s[1..], from, to, k - 1);
      assert s[1..][k..] == s[k + 1..];
      assert s[..k] == [s[0]] + s[1..k];
    }
  }

  /** `split(sep)` with a one-character string separator. */
  function SplitOn(s: string, sep: char): (parts: seq<string>)
    ensures |parts| >= 1
    ensures forall i :: 0 <= i < |parts| ==> sep !in parts[i]
    decreases |s|
  {
    if |s| == 0 then [""]
    else
      var rest := SplitOn(s[1..], sep);
      if s[0] == sep then [""] + rest else [[s[0]] + rest[0]] + rest[1..]
  }

  /** `join(sep)` with a one-character separator. */
  function Join(parts: seq<string>, sep: char): string
    decreases |parts|
  {
    if |parts| == 0 then ""
    else if |parts| == 1 then parts[0]
    else parts[0] + [sep] + Join(parts[1..], sep)
  }

  /** Splitting and joining back on the same separator gives the original string. */
  lemma {:induction false} JoinSplitOn(s: string, sep: char)
    ensures Join(SplitOn(s, sep), sep) == s
    decreases |s|
  {
    if |s| > 0 {
      var rest := SplitOn(s[1..], sep);
      JoinSplitOn(s[1..], sep);
      if s[0] == sep {
        assert SplitOn(s, sep) == [""] + rest;
        assert ([""] + rest)[1..] == rest;
        assert s == [s[0]] + s[1..];
      } else {
        var parts := [[s[0]] + rest[0]] + rest[1..];
        assert SplitOn(s, sep) == parts;
        if |rest| == 1 {
          assert s == [s[0]] + s[1..];
        } else {
          assert parts[1..] == rest[1..];
          assert Join(rest, sep) == rest[0] + [sep] + Join(rest[1..], sep);
          assert s == [s[0]] + s[1..];
        }
      }
    }
  }

  lemma {:induction false} SplitOnPrefix(x: string, rest: string, sep: char)
    requires sep !in x
    ensures SplitOn(x + rest, sep) == [x + SplitOn(rest, sep)[0]] + SplitOn(rest, sep)[1..]
    decreases |x|
  {
    var r := SplitOn(rest, sep);
    if x == [] {
      assert x + rest == rest;
      assert x + r[0] == r[0];
      assert [r[0]] + r[1..] == r;
    } else {
      assert (x + rest)[0] == x[0];
      assert (x + rest)[1..] == x[1..] + rest;
      SplitOnPrefix(x[1..], rest, sep);
      assert [x[0]] + (x[1..] + r[0]) == x + r[0];
    }
  }

  /** `split(sep)[0]` is the text before the first separator. */
  lemma FirstPartBeforeSeparator(x: string, rest: string, sep: char)
    requires sep !in x
    ensures SplitOn(x + [sep] + rest, sep)[0] == x
  {
    SplitOnPrefix(x, [sep] + rest, sep);
    assert x + [sep] + rest == x + ([sep] + rest);
    assert ([sep] + rest)[1..] == rest;
    assert x + "" == x;
  }

  /** A string holding the separator splits into at least two parts. */
  lemma {:induction false} SplitOnSeparated(s: string, sep: char)
    requires sep in s
    ensures |SplitOn(s, sep)| >= 2
    decreases |s|
  {
    if s[0] != sep {
      var k :| 0 <= k < |s| && s[k] == sep;
      assert s[1..][k - 1] == sep;
      SplitOnSeparated(s[1..], sep);
    }
  }

  /** Joining parts that do not contain the separator and splitting again gives the parts. */
  lemma {:induction false} SplitOnJoin(parts: seq<string>, sep: char)
    requires |parts| >= 1
    requires forall i :: 0 <= i < |parts| ==> sep !in parts[i]
    ensures SplitOn(Join(parts, sep), sep) == parts
    decreases |parts|
  {
    if |parts| == 1 {
      SplitOnPrefix(parts[0], "", sep);
      assert parts[0] + "" == parts[0];
    } else {
      var j := Join(parts[1..], sep);
      SplitOnJoin(parts[1..], sep);
      assert Join(parts, sep) == parts[0] + ([sep] + j);
      SplitOnPrefix(parts[0], [sep] + j, sep);
      assert ([sep] + j)[1..] == j;
      assert SplitOn([sep] + j, sep) == [""] + SplitOn(j, sep);
      assert parts[0] + "" == parts[0];
      assert parts == [parts[0]] + parts[1..];
    }
  }

  function DigitChar(d: nat): (c: char)
    requires d < 10
    ensures IsDigit(c)
  {
    ('0' as int + d) as char
  }

  /** The decimal text of a number, as template literals print it. */
  function NatToString(n: nat): (r: string)
    ensures |r| >= 1 && AllDigits(r)
    decreases n
  {
    if n < 10 then [DigitChar(n)] else NatToString(n / 10) + [DigitChar(n % 10)]
  }

  /** The number a string of decimal digits denotes. */
  function DigitsValue(s: string): nat
    requires AllDigits(s)
    decreases |s|
  {
    if s == [] then 0 else 10 * DigitsValue(s[..|s| - 1]) + (s[|s| - 1] as int - '0' as int)
  }

  /** Printing a number and reading the digits back gives the number. */
  lemma {:induction false} NatToStringRoundTrip(n: nat)
    ensures DigitsValue(NatToString(n)) == n
    decreases n
  {
    if n >= 10 {
      NatToStringRoundTrip(n / 10);
      var r := NatToString(n);
      assert r[..|r| - 1] == NatToString(n / 10);
    }
  }

  /** JavaScript truthiness of an optional string: present and non-empty. */
  predicate Truthy(s: Option<string>) {
    s.Some? && s.value != ""
  }

  /** `s || ''`. */
  function OrEmpty(s: Option<string>): (r: string)
    ensures r != "" <==> Truthy(s)
    ensures Truthy(s) ==> r == s.value
  {
    if s.Some? then s.value else ""
  }
}
