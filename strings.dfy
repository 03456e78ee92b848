/** The JavaScript string operations the widget relies on, over `seq<char>`:
    `replace(/\D/g, '')`, `toLowerCase`, `includes`/`indexOf`, `replace` with a
    string pattern, and the leading-digit run a `\d+` pattern matches. */
module Strings {

  /** `\d` in a JavaScript regular expression: the ASCII digits only. */
  predicate IsDigit(c: char) {
    '0' <= c <= '9'
  }

  /** The separators the typing handler inserts. */
  predicate IsSeparator(c: char) {
    c == '-' || c == ' '
  }

  predicate NotSeparator(c: char) {
    !IsSeparator(c)
  }

  predicate AllDigits(s: string) {
    forall i :: 0 <= i < |s| ==> IsDigit(s[i])
  }

  /** The characters of `s` that satisfy `p`, in order. */
  function Keep(s: string, p: char -> bool): (r: string)
    ensures |r| <= |s|
    ensures forall i :: 0 <= i < |r| ==> p(r[i])
    ensures (forall i :: 0 <= i < |s| ==> p(s[i])) ==> r == s
  {
    if s == [] then [] else (if p(s[0]) then [s[0]] else []) + Keep(s[1..], p)
  }

  lemma {:induction false} KeepConcat(a: string, b: string, p: char -> bool)
    ensures Keep(a + b, p) == Keep(a, p) + Keep(b, p)
  {
    if a == [] {
      assert a + b == b;
    } else {
      assert (a + b)[1..] == a[1..] + b;
      KeepConcat(a[1..], b, p);
    }
  }

  /** `s.replace(/\D/g, '')`. */
  function DigitsOnly(s: string): (r: string)
    ensures AllDigits(r) && |r| <= |s|
    ensures AllDigits(s) ==> r == s
  {
    Keep(s, IsDigit)
  }

  /** Stripping works character by character: the digits of a concatenation
      are the digits of each part, in order ... */
  lemma DigitsOnlyConcat(a: string, b: string)
    ensures DigitsOnly(a + b) == DigitsOnly(a) + DigitsOnly(b)
  {
    KeepConcat(a, b, IsDigit);
  }

  /** ... and one character is kept exactly when it is a digit. */
  lemma DigitsOnlyChar(c: char)
    ensures DigitsOnly([c]) == if IsDigit(c) then [c] else []
  {
  }

  /** Every `-` and ` ` removed. */
  function StripSeparators(s: string): (r: string)
    ensures forall i :: 0 <= i < |r| ==> !IsSeparator(r[i])
  {
    Keep(s, NotSeparator)
  }

  lemma StripDigits(d: string)
    requires AllDigits(d)
    ensures StripSeparators(d) == d
  {
  }

  /** `toLowerCase` on one character: the ASCII capitals and the Latin-1
      capitals U+00C0 to U+00DE (except the multiplication sign U+00D7). */
  function LowerChar(c: char): (r: char)
    ensures r == c || ('A' <= c <= 'Z' || '\U{C0}' <= c <= '\U{DE}')
    ensures 'A' <= c <= 'Z' ==> r == (c as int + 32) as char
    ensures IsDigit(c) || c == '+' ==> r == c
    ensures IsDigit(r) || r == '+' ==> r == c
  {
    if 'A' <= c <= 'Z' || ('\U{C0}' <= c <= '\U{DE}' && c != '\U{D7}') then
      (c as int + 32) as char
    else
      c
  }

  function ToLower(s: string): (r: string)
    ensures |r| == |s|
  {
    seq(|s|, i requires 0 <= i < |s| => LowerChar(s[i]))
  }

  /** No ASCII capital survives lower-casing, and digits and `+` are kept. */
  lemma ToLowerChars(s: string)
    ensures forall i :: 0 <= i < |s| ==> !('A' <= ToLower(s)[i] <= 'Z')
    ensures forall i :: 0 <= i < |s| && (IsDigit(s[i]) || s[i] == '+') ==> ToLower(s)[i] == s[i]
  {
  }

  lemma ToLowerIdempotent(s: string)
    ensures ToLower(ToLower(s)) == ToLower(s)
  {
  }

  /** A `slice` bound resolved against the length: a negative bound counts
      from the end, and both ends are clamped to `0..|s|`. */
  function SliceBound(len: nat, x: int): (b: nat)
    ensures b <= len
  {
    if x < 0 then (if len + x < 0 then 0 else len + x)
    else if x < len then x else len
  }

  /** `s.slice(start, end)`; an end before the start gives the empty string. */
  function Slice(s: string, start: int, end: int): (r: string)
    ensures 0 <= start <= end <= |s| ==> r == s[start..end]
    ensures 0 <= start <= |s| <= end ==> r == s[start..]
    ensures 0 <= end <= start ==> r == ""
    ensures |r| <= |s|
  {
    var e := SliceBound(|s|, end);
    var b := SliceBound(|s|, start);
    if b < e then s[b..e] else ""
  }

  /** `s.slice(start)`. */
  function SliceFrom(s: string, start: int): (r: string)
    ensures 0 <= start <= |s| ==> r == s[start..]
    ensures start > |s| ==> r == ""
  {
    Slice(s, start, |s|)
  }

  /** `t` occurs in `s` starting at position `i`. */
  predicate OccursAt(s: string, t: string, i: nat) {
    i + |t| <= |s| && s[i..i + |t|] == t
  }

  /** The first occurrence of `t` in `s` at or after `k`, or -1. */
  function IndexOfFrom(s: string, t: string, k: nat): (r: int)
    ensures r == -1 || (k <= r && OccursAt(s, t, r))
    ensures forall j: nat :: k <= j && (r == -1 || j < r) ==> !OccursAt(s, t, j)
    decreases |s| - k
  {
    if k + |t| > |s| then -1
    else if s[k..k + |t|] == t then k
    else IndexOfFrom(s, t, k + 1)
  }

  /** `s.indexOf(t)`. */
  function IndexOf(s: string, t: string): (r: int)
    ensures r == -1 <==> forall j: nat :: !OccursAt(s, t, j)
    ensures r != -1 ==> 0 <= r && OccursAt(s, t, r)
    ensures forall j: nat :: j < r ==> !OccursAt(s, t, j)
  {
    IndexOfFrom(s, t, 0)
  }

  /** `s.includes(t)`. */
  function Includes(s: string, t: string): (b: bool)
    ensures b <==> exists j: nat :: OccursAt(s, t, j)
  {
    IndexOf(s, t) != -1
  }

  lemma IncludesEmpty(s: string)
    ensures Includes(s, "")
  {
    assert OccursAt(s, "", 0);
  }

  /** `s.replace(pattern, replacement)` with a string pattern: only the first
      occurrence is replaced.  (The `$` patterns of the replacement string are
      not modelled; no replacement used here contains `$`.) */
  function ReplaceFirst(s: string, pattern: string, replacement: string): (r: string)
    ensures !Includes(s, pattern) ==> r == s
    ensures Includes(s, pattern) ==>
      exists i: nat :: OccursAt(s, pattern, i) && (forall j: nat :: j < i ==> !OccursAt(s, pattern, j))
        && r == s[..i] + replacement + s[i + |pattern|..]
  {
    var i := IndexOf(s, pattern);
    if i == -1 then s else s[..i] + replacement + s[i + |pattern|..]
  }

  /** Replacing the first occurrence of a prefix removes exactly that prefix. */
  lemma ReplacePrefix(p: string, rest: string, replacement: string)
    ensures ReplaceFirst(p + rest, p, replacement) == replacement + rest
  {
    assert OccursAt(p + rest, p, 0);
    assert (p + rest)[|p|..] == rest;
  }

  /** Length of the longest run of digits at the start of `s`: what `\d+`
      matches, greedily, at that position. */
  function LeadingDigits(s: string): (n: nat)
    ensures n <= |s|
    ensures forall i :: 0 <= i < n ==> IsDigit(s[i])
    ensures n == |s| || !IsDigit(s[n])
  {
    if s != [] && IsDigit(s[0]) then 1 + LeadingDigits(s[1..]) else 0
  }

  lemma {:induction false} LeadingDigitsConcat(a: string, b: string)
    requires AllDigits(a)
    ensures LeadingDigits(a + b) == |a| + LeadingDigits(b)
  {
    if a != [] {
      assert (a + b)[1..] == a[1..] + b;
      LeadingDigitsConcat(a[1..], b);
    } else {
      assert a + b == b;
    }
  }
}
