/** The string operations the scripts use: case conversion, substring search,
    `startsWith`, `trim`, `split`/`join`, first-occurrence `replace` and
    decimal rendering of a number. Case conversion covers ASCII letters only. */
module Strings {

  function LowerChar(c: char): char {
    if 'A' <= c <= 'Z' then (c as int + 32) as char else c
  }

  function UpperChar(c: char): char {
    if 'a' <= c <= 'z' then (c as int - 32) as char else c
  }

  /** No ASCII upper-case letter occurs in `s`. */
  predicate IsLower(s: string) {
    forall i :: 0 <= i < |s| ==> !('A' <= s[i] <= 'Z')
  }

  /** `s.toLowerCase()` */
  function Lower(s: string): (r: string)
    ensures |r| == |s| && IsLower(r)
    ensures forall i :: 0 <= i < |s| ==> r[i] == LowerChar(s[i])
  {
    seq(|s|, i requires 0 <= i < |s| => LowerChar(s[i]))
  }

  lemma LowerOfLower(s: string)
    requires IsLower(s)
    ensures Lower(s) == s
  {
  }

  /** `s.charAt(0).toUpperCase() + s.slice(1)` */
  function Capitalize(s: string): (r: string)
    ensures |r| == |s|
    ensures s != [] ==> r[0] == UpperChar(s[0]) && r[1..] == s[1..]
  {
    if s == [] then [] else [UpperChar(s[0])] + s[1..]
  }

  predicate OccursAt(t: string, k: string, i: int) {
    0 <= i && i + |k| <= |t| && t[i..i + |k|] == k
  }

  function ContainsFrom(t: string, k: string, i: nat): (b: bool)
    ensures b <==> exists j :: i <= j && OccursAt(t, k, j)
    decreases |t| - i
  {
    if i + |k| > |t| then false
    else if t[i..i + |k|] == k then assert OccursAt(t, k, i); true
    else ContainsFrom(t, k, i + 1)
  }

  /** `t.includes(k)` */
  function Contains(t: string, k: string): (b: bool)
    ensures b <==> exists j :: OccursAt(t, k, j)
  {
    ContainsFrom(t, k, 0)
  }

  /** A string occurs inside any text built around it. */
  lemma ContainsMiddle(a: string, x: string, b: string)
    ensures Contains(a + x + b, x)
  {
    assert (a + x + b)[|a|..|a| + |x|] == x;
    assert OccursAt(a + x + b, x, |a|);
  }

  /** `s.startsWith(p)` */
  predicate StartsWith(s: string, p: string) {
    |p| <= |s| && s[..|p|] == p
  }

  /** The characters `String.prototype.trim` removes: what ECMA-262 calls
      white space (tab, vertical tab, form feed, the byte-order mark and
      every Unicode space separator) and line terminators (line feed,
      carriage return, line and paragraph separators). */
  predicate IsSpace(c: char) {
    c == '\t' || c == '\U{000B}' || c == '\U{000C}' || c == '\U{FEFF}' ||
    c == ' ' || c == '\U{00A0}' || c == '\U{1680}' || ('\U{2000}' <= c <= '\U{200A}') ||
    c == '\U{202F}' || c == '\U{205F}' || c == '\U{3000}' ||
    c == '\n' || c == '\r' || c == '\U{2028}' || c == '\U{2029}'
  }

  function TrimStart(s: string): (r: string)
    ensures |r| <= |s| && r == s[|s| - |r|..]
    ensures forall i :: 0 <= i < |s| - |r| ==> IsSpace(s[i])
    ensures r != [] ==> !IsSpace(r[0])
  {
    if s != [] && IsSpace(s[0]) then TrimStart(s[1..]) else s
  }

  function TrimEnd(s: string): (r: string)
    ensures |r| <= |s| && r == s[..|r|]
    ensures forall i :: |r| <= i < |s| ==> IsSpace(s[i])
    ensures r != [] ==> !IsSpace(r[|r| - 1])
  {
    if s != [] && IsSpace(s[|s| - 1]) then TrimEnd(s[..|s| - 1]) else s
  }

  /** `s.trim()` */
  function Trim(s: string): string {
    TrimEnd(TrimStart(s))
  }

  /** `xs.join(sep)` */
  function Join(xs: seq<string>, sep: string): string {
    if xs == [] then ""
    else if |xs| == 1 then xs[0]
    else xs[0] + sep + Join(xs[1..], sep)
  }

  lemma JoinEmptyIff(xs: seq<string>, sep: string)
    requires sep != ""
    ensures Join(xs, sep) == "" <==> xs == [] || xs == [""]
  {
    if |xs| > 1 {
      assert |Join(xs, sep)| >= |sep|;
    }
  }

  /** The first position of `c` in `s`. */
  function IndexOfChar(s: string, c: char): (i: nat)
    requires c in s
    ensures i < |s| && s[i] == c && c !in s[..i]
  {
    if s[0] == c then 0 else 1 + IndexOfChar(s[1..], c)
  }

  /** `s.split(c)` for a one-character separator: always at least one piece. */
  function Split(s: string, c: char): (r: seq<string>)
    ensures |r| >= 1
    ensures forall i :: 0 <= i < |r| ==> c !in r[i]
    ensures Join(r, [c]) == s
    decreases |s|
  {
    if c !in s then [s]
    else
      var i := IndexOfChar(s, c);
      var rest := Split(s[i + 1..], c);
      assert s == s[..i] + [c] + s[i + 1..];
      [s[..i]] + rest
  }

  /** Splitting undoes joining when no piece contains the separator. */
  lemma {:induction false} SplitJoin(xs: seq<string>, c: char)
    requires |xs| >= 1
    requires forall i :: 0 <= i < |xs| ==> c !in xs[i]
    ensures Split(Join(xs, [c]), c) == xs
  {
    if |xs| > 1 {
      var s := Join(xs, [c]);
      var tail := Join(xs[1..], [c]);
      assert s == xs[0] + [c] + tail;
      assert c in s by { assert s[|xs[0]|] == c; }
      var i := IndexOfChar(s, c);
      assert s[..|xs[0]|] == xs[0];
      assert i == |xs[0]|;
      assert s[..i] == xs[0];
      assert s[i + 1..] == tail;
      SplitJoin(xs[1..], c);
    }
  }

  /** `s.replace(p, r)` with a string pattern: only the first occurrence. */
  function ReplaceFirst(s: string, p: string, r: string): string
    requires |p| > 0
  {
    if |p| <= |s| && s[..|p|] == p then r + s[|p|..]
    else if s == [] then []
    else [s[0]] + ReplaceFirst(s[1..], p, r)
  }

  /** No occurrence can start inside a prefix that lacks the pattern's first character. */
  lemma {:induction false} ReplaceFirstSkips(a: string, b: string, p: string, r: string)
    requires |p| > 0 && p[0] !in a
    ensures ReplaceFirst(a + b, p, r) == a + ReplaceFirst(b, p, r)
  {
    if a != [] {
      assert |p| <= |a + b| ==> (a + b)[..|p|][0] == a[0];
      assert (a + b)[1..] == a[1..] + b;
      ReplaceFirstSkips(a[1..], b, p, r);
    } else {
      assert a + b == b;
    }
  }

  function DigitChar(d: nat): char
    requires d < 10
  {
    ('0' as int + d) as char
  }

  /** The decimal rendering of a natural number, as a template literal gives it. */
  function NatToString(n: nat): (r: string)
    ensures |r| >= 1
    ensures forall i :: 0 <= i < |r| ==> '0' <= r[i] <= '9'
  {
    if n < 10 then [DigitChar(n)] else NatToString(n / 10) + [DigitChar(n % 10)]
  }

  /** The number a string of decimal digits denotes. */
  function DecimalValue(s: string): nat
    requires forall i :: 0 <= i < |s| ==> '0' <= s[i] <= '9'
  {
    if s == [] then 0
    else DecimalValue(s[..|s| - 1]) * 10 + (s[|s| - 1] as int - '0' as int)
  }

  /** Rendering a number in decimal loses nothing. */
  lemma {:induction false} DecimalRoundTrip(n: nat)
    ensures DecimalValue(NatToString(n)) == n
  {
    if n >= 10 {
      var s := NatToString(n);
      assert s[..|s| - 1] == NatToString(n / 10);
      DecimalRoundTrip(n / 10);
    }
  }
}
