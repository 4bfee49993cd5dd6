/**
 * The few Python string operations the agent relies on: `str.strip`, the `in` test,
 * `str.split(sep)[0]` / `[1]`, `str.lower` / `str.upper`, slicing `s[:n]` and the
 * decimal rendering of an integer inside an f-string.
 */
module Text {
  import opened Wrappers

  /** `c.isspace()` in Python 3: the characters `str.strip()` removes. */
  predicate IsSpace(c: char) {
    || c == ' '
    || ('\t' <= c <= '\r')
    || ('\U{1C}' <= c <= '\U{1F}')
    || c == '\U{85}' || c == '\U{A0}' || c == '\U{1680}'
    || ('\U{2000}' <= c <= '\U{200A}')
    || c == '\U{2028}' || c == '\U{2029}' || c == '\U{202F}' || c == '\U{205F}' || c == '\U{3000}'
  }

  /** `s.lstrip()`: drops the leading whitespace and nothing else. */
  function TrimStart(s: string): (r: string)
    ensures |r| <= |s| && r == s[|s| - |r|..]
    ensures forall i :: 0 <= i < |s| - |r| ==> IsSpace(s[i])
    ensures r == [] || !IsSpace(r[0])
  {
    if s != [] && IsSpace(s[0]) then TrimStart(s[1..]) else s
  }

  /** `s.rstrip()`: drops the trailing whitespace and nothing else. */
  function TrimEnd(s: string): (r: string)
    ensures |r| <= |s| && r == s[..|r|]
    ensures forall i :: |r| <= i < |s| ==> IsSpace(s[i])
    ensures r == [] || !IsSpace(r[|r| - 1])
  {
    if s != [] && IsSpace(s[|s| - 1]) then TrimEnd(s[..|s| - 1]) else s
  }

  /** `s.strip()`: no whitespace left at either end, and nothing left of an all-whitespace string. */
  function Strip(s: string): (r: string)
    ensures |r| <= |s|
    ensures r == [] || (!IsSpace(r[0]) && !IsSpace(r[|r| - 1]))
    ensures r == [] <==> forall i :: 0 <= i < |s| ==> IsSpace(s[i])
  {
    TrimEnd(TrimStart(s))
  }

  /** A word with no whitespace at either end is its own strip. */
  lemma StripClean(w: string)
    requires w != [] && !IsSpace(w[0]) && !IsSpace(w[|w| - 1])
    ensures Strip(w) == w
  {
  }

  /** One whitespace character on each side of such a word is stripped away. */
  lemma StripPadded(w: string, a: char, b: char)
    requires w != [] && !IsSpace(w[0]) && !IsSpace(w[|w| - 1])
    requires IsSpace(a) && IsSpace(b)
    ensures Strip([a] + w + [b]) == w
  {
    var s := [a] + w + [b];
    assert s[1..] == w + [b];
    assert TrimStart(s) == w + [b];
    assert (w + [b])[..|w|] == w;
  }

  /** `sub` occurs in `s` starting at index `i`. */
  predicate OccursAt(s: string, sub: string, i: nat) {
    i + |sub| <= |s| && s[i..i + |sub|] == sub
  }

  /** The first occurrence of `sub` in `s` at or after index `i`. */
  function FindFrom(s: string, sub: string, i: nat): (r: Option<nat>)
    requires i <= |s|
    decreases |s| - i
    ensures r.Some? ==> i <= r.value && OccursAt(s, sub, r.value)
    ensures r.Some? ==> forall j :: i <= j < r.value ==> !OccursAt(s, sub, j)
    ensures r.None? ==> forall j :: i <= j ==> !OccursAt(s, sub, j)
  {
    if OccursAt(s, sub, i) then Some(i)
    else if i == |s| then None
    else FindFrom(s, sub, i + 1)
  }

  /** `s.find(sub)`, with `None` for -1. */
  function Find(s: string, sub: string): Option<nat> {
    FindFrom(s, sub, 0)
  }

  /** Python's `sub in s`. */
  predicate Contains(s: string, sub: string) {
    Find(s, sub).Some?
  }

  /** The first occurrence is the one with no occurrence before it. */
  lemma FindIsFirst(s: string, sub: string, k: nat)
    requires OccursAt(s, sub, k)
    requires forall j :: 0 <= j < k ==> !OccursAt(s, sub, j)
    ensures Find(s, sub) == Some(k)
  {
  }

  /** An occurrence starts with the first character of what occurs. */
  lemma OccursAtHead(s: string, sub: string, i: nat)
    requires sub != [] && OccursAt(s, sub, i)
    ensures i < |s| && s[i] == sub[0]
  {
    assert s[i..i + |sub|][0] == s[i];
  }

  /** `s` holds no backtick. */
  predicate NoBackticks(s: string) {
    forall i :: 0 <= i < |s| ==> s[i] != '`'
  }

  /** `s.split(sep)[0]`: everything before the first `sep`, or all of `s`. */
  function SegmentBefore(s: string, sep: string): string
    requires sep != []
  {
    match Find(s, sep)
    case None => s
    case Some(i) => s[..i]
  }

  /** `s.split(sep)[1]`: the text between the first and the second `sep` (or the end). */
  function SegmentAfter(s: string, sep: string): string
    requires sep != [] && Contains(s, sep)
  {
    var i := Find(s, sep).value;
    SegmentBefore(s[i + |sep|..], sep)
  }

  /** `s[:n]` for a non-negative `n`. */
  function Take(s: string, n: nat): (r: string)
    ensures |r| <= n && r <= s
    ensures |s| <= n ==> r == s
  {
    if |s| <= n then s else s[..n]
  }

  function LowerChar(c: char): char {
    if 'A' <= c <= 'Z' then (c as int + 32) as char else c
  }

  function UpperChar(c: char): char {
    if 'a' <= c <= 'z' then (c as int - 32) as char else c
  }

  /** `s.lower()` on ASCII letters. */
  function Lower(s: string): string {
    seq(|s|, i requires 0 <= i < |s| => LowerChar(s[i]))
  }

  /** `s.upper()` on ASCII letters. */
  function Upper(s: string): string {
    seq(|s|, i requires 0 <= i < |s| => UpperChar(s[i]))
  }

  function NatToDecimal(n: nat): string
    decreases n
  {
    var d := ['0', '1', '2', '3', '4', '5', '6', '7', '8', '9'][n % 10];
    if n < 10 then [d] else NatToDecimal(n / 10) + [d]
  }

  /** `str(i)` / `f"{i}"` for an integer. */
  function IntToDecimal(i: int): string {
    if i < 0 then "-" + NatToDecimal(-i) else NatToDecimal(i)
  }
}
