/**
 * The string operations of Python that the downloaders use: `in` on strings, `startswith`,
 * `endswith`, `find`, `lower`, `strip`, `split`, `isdigit`/`int`, `str(n)` and `replace`,
 * together with the facts about them that the other modules rely on.
 */
module Text {
  import opened Wrappers

  predicate StartsWith(s: string, prefix: string) {
    |prefix| <= |s| && s[..|prefix|] == prefix
  }

  predicate EndsWith(s: string, suffix: string) {
    |suffix| <= |s| && s[|s| - |suffix|..] == suffix
  }

  /** `s.find(sub)`: the first position at which `sub` occurs in `s`. */
  function IndexOf(s: string, sub: string): (r: Option<nat>)
    ensures r.Some? ==> r.value + |sub| <= |s| && s[r.value..r.value + |sub|] == sub
    ensures r.Some? ==> forall j :: 0 <= j < r.value ==> !StartsWith(s[j..], sub)
    ensures r.None? ==> forall j :: 0 <= j <= |s| ==> !StartsWith(s[j..], sub)
    decreases |s|
  {
    if StartsWith(s, sub) then Some(0)
    else if s == [] then None
    else
      match IndexOf(s[1..], sub)
      case None =>
        NotInTail(s, sub);
        None
      case Some(i) =>
        FirstInTail(s, sub, i);
        Some(i + 1)
  }

  /** With no occurrence at the start of `s` nor in its tail, there is none at all. */
  lemma {:induction false} NotInTail(s: string, sub: string)
    requires s != [] && !StartsWith(s, sub)
    requires forall j :: 0 <= j <= |s[1..]| ==> !StartsWith(s[1..][j..], sub)
    ensures forall j :: 0 <= j <= |s| ==> !StartsWith(s[j..], sub)
  {
    forall j | 1 <= j <= |s|
      ensures !StartsWith(s[j..], sub)
    {
      assert s[j..] == s[1..][j - 1..];
    }
  }

  /** The first occurrence in the tail of `s`, one further on, is the first in `s` when there is none at its start. */
  lemma {:induction false} FirstInTail(s: string, sub: string, i: nat)
    requires s != [] && !StartsWith(s, sub)
    requires i + |sub| <= |s[1..]| && s[1..][i..i + |sub|] == sub
    requires forall j :: 0 <= j < i ==> !StartsWith(s[1..][j..], sub)
    ensures i + 1 + |sub| <= |s| && s[i + 1..i + 1 + |sub|] == sub
    ensures forall j :: 0 <= j < i + 1 ==> !StartsWith(s[j..], sub)
  {
    assert s[i + 1..i + 1 + |sub|] == s[1..][i..i + |sub|];
    forall j | 1 <= j < i + 1
      ensures !StartsWith(s[j..], sub)
    {
      assert s[j..] == s[1..][j - 1..];
    }
  }

  /** The first index of `c` in `s`, or none. */
  function IndexOfChar(s: string, c: char): (r: Option<nat>)
    ensures r.Some? ==> r.value < |s| && s[r.value] == c && forall j :: 0 <= j < r.value ==> s[j] != c
    ensures r.None? ==> forall j :: 0 <= j < |s| ==> s[j] != c
  {
    if s == [] then None
    else if s[0] == c then Some(0)
    else match IndexOfChar(s[1..], c)
      case None => None
      case Some(i) => Some(i + 1)
  }

  /** Python's `sub in s` for strings. */
  predicate Contains(s: string, sub: string) {
    IndexOf(s, sub).Some?
  }

  /** `sub in s` holds at the start of `s` or further on. */
  lemma {:induction false} ContainsStep(s: string, sub: string)
    ensures Contains(s, sub) <==> StartsWith(s, sub) || (s != [] && Contains(s[1..], sub))
  {
  }

  /** An occurrence of `sub` anywhere in `s` makes `sub in s` true. */
  lemma {:induction false} ContainsAt(s: string, sub: string, i: nat)
    requires i + |sub| <= |s| && s[i..i + |sub|] == sub
    ensures Contains(s, sub)
  {
    assert StartsWith(s[i..], sub) by {
      assert s[i..][..|sub|] == s[i..i + |sub|];
    }
  }

  /** An occurrence of `sub` in a part of a string is an occurrence in the whole. */
  lemma {:induction false} ContainsInAppend(a: string, b: string, sub: string)
    ensures Contains(a, sub) ==> Contains(a + b, sub)
    ensures Contains(b, sub) ==> Contains(a + b, sub)
  {
    if Contains(a, sub) {
      ContainsInLeft(a, b, sub);
    }
    if Contains(b, sub) {
      ContainsInRight(a, b, sub);
    }
  }

  lemma {:induction false} ContainsInLeft(a: string, b: string, sub: string)
    requires Contains(a, sub)
    ensures Contains(a + b, sub)
  {
    var i := IndexOf(a, sub).value;
    assert (a + b)[i..i + |sub|] == a[i..i + |sub|];
    ContainsAt(a + b, sub, i);
  }

  lemma {:induction false} ContainsInRight(a: string, b: string, sub: string)
    requires Contains(b, sub)
    ensures Contains(a + b, sub)
  {
    var i := IndexOf(b, sub).value;
    assert (a + b)[|a| + i..|a| + i + |sub|] == b[i..i + |sub|];
    ContainsAt(a + b, sub, |a| + i);
  }

  /** `any(d in s for d in subs)`. */
  predicate ContainsAny(s: string, subs: seq<string>) {
    exists k :: 0 <= k < |subs| && Contains(s, subs[k])
  }

  /** Position of the last occurrence of `c` in `s` (`s.rfind(c)`). */
  function LastIndexOfChar(s: string, c: char): (r: Option<nat>)
    ensures r.Some? ==> r.value < |s| && s[r.value] == c && forall j :: r.value < j < |s| ==> s[j] != c
    ensures r.None? ==> forall j :: 0 <= j < |s| ==> s[j] != c
  {
    if s == [] then None
    else if s[|s| - 1] == c then Some(|s| - 1)
    else LastIndexOfChar(s[..|s| - 1], c)
  }

  // ---------------------------------------------------------------------------------------------
  // Characters

  predicate IsAsciiUpper(c: char) { 'A' <= c <= 'Z' }
  predicate IsAsciiLower(c: char) { 'a' <= c <= 'z' }
  predicate IsDigitChar(c: char) { '0' <= c <= '9' }
  predicate IsAsciiAlpha(c: char) { IsAsciiUpper(c) || IsAsciiLower(c) }
  /** The regex class `[a-zA-Z0-9]`. */
  predicate IsAsciiAlnum(c: char) { IsAsciiAlpha(c) || IsDigitChar(c) }

  function LowerChar(c: char): (r: char)
    ensures IsAsciiUpper(c) ==> IsAsciiLower(r)
    ensures !IsAsciiUpper(c) ==> r == c
  {
    if IsAsciiUpper(c) then (c as int - 'A' as int + 'a' as int) as char else c
  }

  /** `s.lower()`, restricted to the ASCII letters. */
  function Lower(s: string): (r: string)
    ensures |r| == |s|
    ensures forall i :: 0 <= i < |s| ==> r[i] == LowerChar(s[i])
  {
    if s == [] then [] else [LowerChar(s[0])] + Lower(s[1..])
  }

  lemma {:induction false} LowerIdempotent(s: string)
    ensures Lower(Lower(s)) == Lower(s)
  {
  }

  lemma {:induction false} LowerAppend(a: string, b: string)
    ensures Lower(a + b) == Lower(a) + Lower(b)
  {
  }

  /** The characters for which Python's `str.isspace` holds. */
  predicate IsSpace(c: char) {
    c == ' ' || c == '\t' || c == '\n' || c == '\r' || c == '\U{000B}' || c == '\U{000C}'
    || ('\U{001C}' <= c <= '\U{001F}') || c == '\U{0085}' || c == '\U{00A0}' || c == '\U{1680}'
    || ('\U{2000}' <= c <= '\U{200A}') || c == '\U{2028}' || c == '\U{2029}' || c == '\U{202F}'
    || c == '\U{205F}' || c == '\U{3000}'
  }

  /** `s.lstrip()`: the leading white space removed, and nothing else. */
  function TrimLeft(s: string): (r: string)
    ensures |r| <= |s| && r == s[|s| - |r|..]
    ensures forall j :: 0 <= j < |s| - |r| ==> IsSpace(s[j])
    ensures r == [] || !IsSpace(r[0])
  {
    if s != [] && IsSpace(s[0]) then TrimLeft(s[1..]) else s
  }

  /** `s.rstrip()`: the trailing white space removed, and nothing else. */
  function TrimRight(s: string): (r: string)
    ensures |r| <= |s| && r == s[..|r|]
    ensures forall j :: |r| <= j < |s| ==> IsSpace(s[j])
    ensures r == [] || !IsSpace(r[|r| - 1])
  {
    if s != [] && IsSpace(s[|s| - 1]) then TrimRight(s[..|s| - 1]) else s
  }

  /** A string with no white space at either end is its own `strip()`. */
  lemma {:induction false} StripUnspaced(s: string)
    requires s != [] && !IsSpace(s[0]) && !IsSpace(s[|s| - 1])
    ensures Strip(s) == s
  {
    assert TrimLeft(s) == s;
    assert TrimRight(s) == s;
  }

  /**
   * `s.strip()`: `s` is white space, then `r`, then white space, and `r` has no white space at
   * either end.
   */
  function Strip(s: string): (r: string)
    ensures |r| <= |s|
    ensures exists i :: 0 <= i <= |s| - |r| && s[i..i + |r|] == r && StrippedAt(s, i, |r|)
    ensures r == [] || (!IsSpace(r[0]) && !IsSpace(r[|r| - 1]))
  {
    var t := TrimLeft(s);
    var r := TrimRight(t);
    StripAt(s, t, r);
    r
  }

  /** `r`, the right-trimmed left trim `t` of `s`, sits in `s` at `|s| - |t|` with only white space around it. */
  lemma {:induction false} StripAt(s: string, t: string, r: string)
    requires t == TrimLeft(s) && r == TrimRight(t)
    ensures |s| - |t| + |r| <= |s| && s[|s| - |t|..|s| - |t| + |r|] == r && StrippedAt(s, |s| - |t|, |r|)
  {
    var i := |s| - |t|;
    assert s[i..i + |r|] == t[..|r|];
    assert forall j :: i + |r| <= j < |s| ==> s[j] == t[j - i];
  }

  /** Everything of `s` before position `i` and from `i + n` on is white space. */
  predicate StrippedAt(s: string, i: nat, n: nat)
    requires i + n <= |s|
  {
    (forall j :: 0 <= j < i ==> IsSpace(s[j])) && (forall j :: i + n <= j < |s| ==> IsSpace(s[j]))
  }

  // ---------------------------------------------------------------------------------------------
  // Decimal numbers

  /** `s.isdigit()` for ASCII digits: non-empty and digits only. */
  predicate AllDigits(s: string) {
    s != [] && forall i :: 0 <= i < |s| ==> IsDigitChar(s[i])
  }

  /** `int(s)` for a string of decimal digits. */
  function DecimalValue(s: string): nat
    requires forall i :: 0 <= i < |s| ==> IsDigitChar(s[i])
  {
    if s == [] then 0
    else
      assert IsDigitChar(s[|s| - 1]);
      DecimalValue(s[..|s| - 1]) * 10 + (s[|s| - 1] as int - '0' as int)
  }

  function DigitChar(d: nat): (c: char)
    requires d < 10
    ensures IsDigitChar(c) && c as int - '0' as int == d
  {
    ('0' as int + d) as char
  }

  /** `str(n)` for a natural number. */
  function NatToString(n: nat): (r: string)
    ensures AllDigits(r)
  {
    if n < 10 then [DigitChar(n)] else NatToString(n / 10) + [DigitChar(n % 10)]
  }

  /** `int(str(n)) == n`. */
  lemma {:induction false} DecimalValueOfNatToString(n: nat)
    ensures DecimalValue(NatToString(n)) == n
  {
    if n >= 10 {
      var s := NatToString(n);
      assert s[..|s| - 1] == NatToString(n / 10);
      DecimalValueOfNatToString(n / 10);
    }
  }

  // ---------------------------------------------------------------------------------------------
  // Splitting, replacing

  /** `s.split(sep)` for a one-character separator: the pieces between the separators. */
  function Split(s: string, sep: char): (r: seq<string>)
    ensures |r| >= 1
    ensures forall k, i :: 0 <= k < |r| && 0 <= i < |r[k]| ==> r[k][i] != sep
  {
    if s == [] then [""]
    else
      var rest := Split(s[1..], sep);
      if s[0] == sep then [""] + rest else [[s[0]] + rest[0]] + rest[1..]
  }

  /** Splitting at a separator concatenates the pieces on either side. */
  lemma {:induction false} SplitAtSeparator(a: string, sep: char, b: string)
    requires forall i :: 0 <= i < |a| ==> a[i] != sep
    ensures Split(a + [sep] + b, sep) == [a] + Split(b, sep)
  {
    if a != [] {
      assert (a + [sep] + b)[1..] == a[1..] + [sep] + b;
      SplitAtSeparator(a[1..], sep, b);
      assert [a[0]] + a[1..] == a;
    }
  }

  /** The first piece of a split ends at the first separator. */
  lemma {:induction false} SplitOfSeparatorFree(a: string, sep: char)
    requires forall i :: 0 <= i < |a| ==> a[i] != sep
    ensures Split(a, sep) == [a]
  {
    if a != [] {
      SplitOfSeparatorFree(a[1..], sep);
      assert [a[0]] + a[1..] == a;
    }
  }

  /** Every character of `s` in `bad` replaced by `repl`, all others kept. */
  function ReplaceEach(s: string, bad: set<char>, repl: char): (r: string)
    ensures |r| == |s|
    ensures forall i :: 0 <= i < |s| ==> r[i] == (if s[i] in bad then repl else s[i])
  {
    if s == [] then [] else [if s[0] in bad then repl else s[0]] + ReplaceEach(s[1..], bad, repl)
  }

  /** After the replacement none of the replaced characters is left, if `repl` is not one of them. */
  lemma {:induction false} ReplaceEachRemovesBad(s: string, bad: set<char>, repl: char)
    requires repl !in bad
    ensures forall i :: 0 <= i < |s| ==> ReplaceEach(s, bad, repl)[i] !in bad
  {
  }

  lemma {:induction false} ReplaceEachIdempotent(s: string, bad: set<char>, repl: char)
    requires repl !in bad
    ensures ReplaceEach(ReplaceEach(s, bad, repl), bad, repl) == ReplaceEach(s, bad, repl)
  {
  }

  lemma {:induction false} ReplaceEachAppend(a: string, b: string, bad: set<char>, repl: char)
    ensures ReplaceEach(a + b, bad, repl) == ReplaceEach(a, bad, repl) + ReplaceEach(b, bad, repl)
  {
  }

  /** A string holding none of the replaced characters is left unchanged. */
  lemma {:induction false} ReplaceEachKeepsClean(s: string, bad: set<char>, repl: char)
    requires forall i :: 0 <= i < |s| ==> s[i] !in bad
    ensures ReplaceEach(s, bad, repl) == s
  {
  }

  /** `s.replace(pat, rep)`: every non-overlapping occurrence, from the left. */
  function Replace(s: string, pat: string, rep: string): string
    decreases |s|
  {
    if pat == [] || s == [] then s
    else if StartsWith(s, pat) then rep + Replace(s[|pat|..], pat, rep)
    else [s[0]] + Replace(s[1..], pat, rep)
  }
}
