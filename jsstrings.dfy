/** The JavaScript string operations the monitor relies on: `trim`, the
    slash-stripping regular expression of the server, `includes`,
    `replace` with a string pattern (first occurrence only), ASCII case
    mapping and the decimal rendering of a non-negative integer. */
module JsStrings {
  import opened JsValues

  /** The characters `String.prototype.trim` removes: the ECMAScript
      WhiteSpace and LineTerminator productions. */
  predicate IsJsSpace(c: char) {
    || c == '\t' || c == '\n' || c == '\U{000B}' || c == '\U{000C}' || c == '\r'
    || c == ' ' || c == '\U{00A0}' || c == '\U{1680}'
    || ('\U{2000}' <= c <= '\U{200A}')
    || c == '\U{2028}' || c == '\U{2029}' || c == '\U{202F}' || c == '\U{205F}'
    || c == '\U{3000}' || c == '\U{FEFF}'
  }

  predicate IsSlash(c: char) {
    c == '/'
  }

  /** The first position at or after `i` whose character fails `p`, or
      the length of `s`. */
  function LeadEnd(s: string, p: char -> bool, i: nat): (n: nat)
    requires i <= |s|
    ensures i <= n <= |s|
    ensures forall k :: i <= k < n ==> p(s[k])
    ensures n < |s| ==> !p(s[n])
    decreases |s| - i
  {
    if i < |s| && p(s[i]) then LeadEnd(s, p, i + 1) else i
  }

  /** The position just after the last character before `j` (and at or
      after `lo`) that fails `p`, or `lo`. */
  function TrailStart(s: string, p: char -> bool, lo: nat, j: nat): (m: nat)
    requires lo <= j <= |s|
    ensures lo <= m <= j
    ensures forall k :: m <= k < j ==> p(s[k])
    ensures m > lo ==> !p(s[m - 1])
    decreases j
  {
    if j > lo && p(s[j - 1]) then TrailStart(s, p, lo, j - 1) else j
  }

  /** The run of `p`-characters from `i` ends where the first failing one
      stands. */
  lemma {:induction false} LeadEndIs(s: string, p: char -> bool, i: nat, n: nat)
    requires i <= n <= |s|
    requires forall k :: i <= k < n ==> p(s[k])
    requires n < |s| ==> !p(s[n])
    ensures LeadEnd(s, p, i) == n
    decreases n - i
  {
    if i < n {
      LeadEndIs(s, p, i + 1, n);
    }
  }

  /** The run of `p`-characters before `j` starts just after the last
      failing one. */
  lemma {:induction false} TrailStartIs(s: string, p: char -> bool, lo: nat, j: nat, m: nat)
    requires lo <= m <= j <= |s|
    requires forall k :: m <= k < j ==> p(s[k])
    requires m > lo ==> !p(s[m - 1])
    ensures TrailStart(s, p, lo, j) == m
    decreases j
  {
    if m < j {
      TrailStartIs(s, p, lo, j - 1, m);
    }
  }

  /** Removes the run of `p`-characters at each end and nothing else: the
      result is the slice of `s` between the two runs. */
  function Strip(s: string, p: char -> bool): (r: string)
    ensures var a := LeadEnd(s, p, 0);
      var b := TrailStart(s, p, a, |s|);
      && r == s[a..b]
      && (forall i :: 0 <= i < a ==> p(s[i]))
      && (forall i :: b <= i < |s| ==> p(s[i]))
    ensures r != [] ==> !p(r[0]) && !p(r[|r| - 1])
  {
    var a := LeadEnd(s, p, 0);
    s[a..TrailStart(s, p, a, |s|)]
  }

  /** A string with no `p`-character at either end is its own strip. */
  lemma StripUnchanged(s: string, p: char -> bool)
    requires s != [] ==> !p(s[0]) && !p(s[|s| - 1])
    ensures Strip(s, p) == s
  {
    LeadEndIs(s, p, 0, 0);
    TrailStartIs(s, p, 0, |s|, |s|);
  }

  lemma StripIdempotent(s: string, p: char -> bool)
    ensures Strip(Strip(s, p), p) == Strip(s, p)
  {
    StripUnchanged(Strip(s, p), p);
  }

  /** `s.trim()` */
  function Trim(s: string): (r: string)
    ensures var a := LeadEnd(s, IsJsSpace, 0);
      var b := TrailStart(s, IsJsSpace, a, |s|);
      && r == s[a..b]
      && (forall i :: 0 <= i < a ==> IsJsSpace(s[i]))
      && (forall i :: b <= i < |s| ==> IsJsSpace(s[i]))
    ensures r != [] ==> !IsJsSpace(r[0]) && !IsJsSpace(r[|r| - 1])
  {
    Strip(s, IsJsSpace)
  }

  lemma TrimIdempotent(s: string)
    ensures Trim(Trim(s)) == Trim(s)
  {
    StripIdempotent(s, IsJsSpace);
  }

  /** A string without surrounding white space is its own trim. */
  lemma TrimOfTrimmed(s: string)
    requires s == [] || (!IsJsSpace(s[0]) && !IsJsSpace(s[|s| - 1]))
    ensures Trim(s) == s
  {
    StripUnchanged(s, IsJsSpace);
  }

  predicate OccursAt(s: string, pat: string, j: nat) {
    j + |pat| <= |s| && s[j..j + |pat|] == pat
  }

  /** The first position at or after `from` where `pat` occurs. */
  function IndexOfFrom(s: string, pat: string, from: nat): (r: Option<nat>)
    requires from <= |s|
    ensures r.Some? ==> from <= r.value && OccursAt(s, pat, r.value)
    ensures forall j: nat :: from <= j && (r.None? || j < r.value) ==> !OccursAt(s, pat, j)
    decreases |s| - from
  {
    if from + |pat| > |s| then None
    else if s[from..from + |pat|] == pat then Some(from)
    else IndexOfFrom(s, pat, from + 1)
  }

  /** `s.indexOf(pat)`, as an option */
  function IndexOf(s: string, pat: string): Option<nat> {
    IndexOfFrom(s, pat, 0)
  }

  /** `s.includes(pat)` */
  predicate Includes(s: string, pat: string) {
    IndexOf(s, pat).Some?
  }

  lemma IncludesIff(s: string, pat: string)
    ensures Includes(s, pat) <==> exists j: nat :: OccursAt(s, pat, j)
  {
  }

  /** `s.replace(pat, rep)` with a string pattern: only the first occurrence
      is replaced, and a string without one comes back unchanged. */
  function ReplaceFirst(s: string, pat: string, rep: string): (r: string)
    ensures !Includes(s, pat) ==> r == s
    ensures Includes(s, pat) ==>
      var i := IndexOf(s, pat).value;
      r == s[..i] + rep + s[i + |pat|..]
  {
    match IndexOf(s, pat)
    case None => s
    case Some(i) => s[..i] + rep + s[i + |pat|..]
  }

  /** If `pat` is a suffix of `s` and occurs nowhere earlier, removing the
      first occurrence removes exactly that suffix. */
  lemma ReplaceFirstSuffix(stem: string, pat: string)
    requires !Includes(stem, pat)
    requires forall j: nat :: j < |stem| ==> !OccursAt(stem + pat, pat, j)
    ensures ReplaceFirst(stem + pat, pat, "") == stem
  {
    var s := stem + pat;
    assert OccursAt(s, pat, |stem|);
    var i := IndexOf(s, pat).value;
    assert i == |stem|;
  }

  function LowerChar(c: char): char {
    if 'A' <= c <= 'Z' then (c as int + 32) as char else c
  }

  function UpperChar(c: char): char {
    if 'a' <= c <= 'z' then (c as int - 32) as char else c
  }

  /** `s.toLowerCase()` on the ASCII letters. */
  function ToLowerAscii(s: string): (r: string)
    ensures |r| == |s|
    ensures forall i :: 0 <= i < |s| ==> r[i] == LowerChar(s[i])
  {
    seq(|s|, i requires 0 <= i < |s| => LowerChar(s[i]))
  }

  /** `s.toUpperCase()` on the ASCII letters. */
  function ToUpperAscii(s: string): (r: string)
    ensures |r| == |s|
    ensures forall i :: 0 <= i < |s| ==> r[i] == UpperChar(s[i])
  {
    seq(|s|, i requires 0 <= i < |s| => UpperChar(s[i]))
  }

  lemma LowerIdempotent(s: string)
    ensures ToLowerAscii(ToLowerAscii(s)) == ToLowerAscii(s)
  {
  }

  /** A string free of upper-case ASCII letters is its own lower case. */
  lemma LowerOfLower(s: string)
    requires forall i :: 0 <= i < |s| ==> !('A' <= s[i] <= 'Z')
    ensures ToLowerAscii(s) == s
  {
  }

  function Digit(d: nat): (c: char)
    requires d < 10
    ensures '0' <= c <= '9'
  {
    ('0' as int + d) as char
  }

  /** `String(n)` for a non-negative integer: its decimal digits, most
      significant first, without leading zeros. */
  function NatToString(n: nat): (r: string)
    ensures |r| >= 1
    ensures forall i :: 0 <= i < |r| ==> '0' <= r[i] <= '9'
    ensures r[0] == '0' ==> n == 0
  {
    if n < 10 then [Digit(n)] else NatToString(n / 10) + [Digit(n % 10)]
  }

  function DigitsValue(s: string): int
    requires forall i :: 0 <= i < |s| ==> '0' <= s[i] <= '9'
  {
    if s == [] then 0 else DigitsValue(s[..|s| - 1]) * 10 + (s[|s| - 1] as int - '0' as int)
  }

  /** Reading the digits back gives the number: the rendering is lossless. */
  lemma {:induction false} NatToStringValue(n: nat)
    ensures DigitsValue(NatToString(n)) == n
  {
    if n >= 10 {
      NatToStringValue(n / 10);
      var r := NatToString(n);
      assert r[..|r| - 1] == NatToString(n / 10);
    }
  }
}
