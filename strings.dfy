/**
 * Character classes and string helpers with the meaning JavaScript gives them:
 * the regular-expression classes `\s`, `\d`, `\w`, `String.prototype.trim`,
 * `Number(...)` on a digit string, `String(n)` on a natural number,
 * `replace` with a string pattern, `replaceAll` of one character, and the
 * POSIX `path.basename`.
 */
module Strings {
  import opened Wrappers

  /** `\s` in a JavaScript regular expression: WhiteSpace and LineTerminator.
      `String.prototype.trim` removes exactly this set from both ends. */
  predicate IsSpace(c: char) {
    c == ' ' || ('\t' <= c <= '\r') || ('\U{00A0}' <= c && IsWideSpace(c))
  }

  /** The whitespace characters above the Latin-1 control range. */
  predicate IsWideSpace(c: char) {
    c == '\U{00A0}' || c == '\U{1680}' || ('\U{2000}' <= c <= '\U{200A}')
    || c == '\U{2028}' || c == '\U{2029}' || c == '\U{202F}' || c == '\U{205F}'
    || c == '\U{3000}' || c == '\U{FEFF}'
  }

  /** The characters `.` does not match in a JavaScript regular expression. */
  predicate IsLineTerminator(c: char) {
    c == '\n' || c == '\r' || c == '\U{2028}' || c == '\U{2029}'
  }

  /** `\d` */
  predicate IsDigit(c: char) { '0' <= c <= '9' }

  predicate IsLetter(c: char) { 'a' <= c <= 'z' || 'A' <= c <= 'Z' }

  /** `\w` */
  predicate IsWordChar(c: char) { IsLetter(c) || IsDigit(c) || c == '_' }

  /** The class `[\w$.]` of identifier characters. */
  predicate IsNameChar(c: char) { IsWordChar(c) || c == '$' || c == '.' }

  /** The character classes the grammar is written with. */
  datatype CharClass =
    | Space        // \s
    | Digit        // \d
    | Letter       // [a-zA-Z]
    | WordChar     // \w
    | NameChar     // [\w$.]
    | AToz         // [A-z], the ASCII range from `A` to `z`
    | NonTerminator // what `.` matches
    | NonSlash     // anything but `/`

  predicate In(c: char, k: CharClass) {
    match k
    case Space => IsSpace(c)
    case Digit => IsDigit(c)
    case Letter => IsLetter(c)
    case WordChar => IsWordChar(c)
    case NameChar => IsNameChar(c)
    case AToz => 'A' <= c <= 'z'
    case NonTerminator => !IsLineTerminator(c)
    case NonSlash => c != '/'
  }

  predicate All(s: string, k: CharClass) {
    forall i :: 0 <= i < |s| ==> In(s[i], k)
  }

  /** A non-empty run of digits, the language of `\d+`. */
  predicate Digits1(s: string) { |s| > 0 && All(s, Digit) }

  /** A non-empty run of whitespace, the language of `\s+`. */
  predicate Spaces1(s: string) { |s| > 0 && All(s, Space) }

  /** Length of the longest prefix of `s` whose characters all satisfy `p`. */
  function Span(s: string, k: CharClass): (n: nat)
    ensures n <= |s|
    ensures forall i :: 0 <= i < n ==> In(s[i], k)
    ensures n < |s| ==> !In(s[n], k)
  {
    if s == [] || !In(s[0], k) then 0 else 1 + Span(s[1..], k)
  }

  /** Length of the longest suffix of `s` whose characters all satisfy `p`. */
  function SpanBack(s: string, k: CharClass): (n: nat)
    ensures n <= |s|
    ensures forall i :: |s| - n <= i < |s| ==> In(s[i], k)
    ensures n < |s| ==> !In(s[|s| - n - 1], k)
  {
    if s == [] || !In(s[|s| - 1], k) then 0 else 1 + SpanBack(s[..|s| - 1], k)
  }

  /** The span of a run followed by a character outside the class is that run. */
  lemma SpanOf(a: string, b: string, k: CharClass)
    requires All(a, k)
    requires b == [] || !In(b[0], k)
    ensures Span(a + b, k) == |a|
  {
    assert forall i :: 0 <= i < |a| ==> (a + b)[i] == a[i];
    assert b != [] ==> (a + b)[|a|] == b[0];
  }

  /** The backward span of a run preceded by a character outside the class is that run. */
  lemma SpanBackOf(a: string, b: string, k: CharClass)
    requires All(b, k)
    requires a == [] || !In(a[|a| - 1], k)
    ensures SpanBack(a + b, k) == |b|
  {
    assert forall i :: 0 <= i < |b| ==> (a + b)[|a| + i] == b[i];
    assert a != [] ==> (a + b)[|a| - 1] == a[|a| - 1];
  }

  /** What follows the prefix `p` in `s`, when `s` starts with `p`. */
  function AfterPrefix(s: string, p: string): (r: Option<string>)
    ensures r.Some? <==> p <= s
    ensures r.Some? ==> s == p + r.value
  {
    if p <= s then
      assert s == p + s[|p|..];
      Some(s[|p|..])
    else None
  }

  lemma AfterPrefixOf(p: string, rest: string)
    ensures AfterPrefix(p + rest, p) == Some(rest)
  {
    assert p <= p + rest;
    assert (p + rest)[|p|..] == rest;
  }

  /** The greedy `k+` at the start of `s`: the longest non-empty run of class `k` and what
      follows it, or None when `s` does not start with a character of class `k`. */
  function Run1(s: string, k: CharClass): (r: Option<(string, string)>)
    ensures r.Some? <==> s != [] && In(s[0], k)
    ensures r.Some? ==> s == r.value.0 + r.value.1 && |r.value.0| > 0 && All(r.value.0, k)
    ensures r.Some? ==> r.value.1 == [] || !In(r.value.1[0], k)
  {
    var n := Span(s, k);
    if n == 0 then None
    else
      assert s == s[..n] + s[n..];
      Some((s[..n], s[n..]))
  }

  /** A maximal run is what `Run1` finds. */
  lemma Run1Of(run: string, rest: string, k: CharClass)
    requires |run| > 0 && All(run, k)
    requires rest == [] || !In(rest[0], k)
    ensures Run1(run + rest, k) == Some((run, rest))
  {
    SpanOf(run, rest, k);
    assert (run + rest)[..|run|] == run;
    assert (run + rest)[|run|..] == rest;
  }

  /** `String.prototype.trim`: drop leading and trailing whitespace. */
  function Trim(s: string): (r: string)
    ensures r == [] || (!IsSpace(r[0]) && !IsSpace(r[|r| - 1]))
    ensures exists i, j :: 0 <= i <= j <= |s| && r == s[i..j] && All(s[..i], Space) && All(s[j..], Space)
  {
    var i := Span(s, Space);
    var k := SpanBack(s[i..], Space);
    var r := s[i..|s| - k];
    assert s[i..][..|s[i..]| - k] == r;
    assert All(s[|s| - k..], Space) by {
      forall j | |s| - k <= j < |s| ensures IsSpace(s[j]) {
        assert s[j] == s[i..][j - i];
      }
    }
    assert r != [] ==> r[0] == s[i] && r[|r| - 1] == s[i..][|s[i..]| - k - 1];
    r
  }

  /** Decimal digit of a value below ten. */
  function DigitChar(d: nat): (c: char)
    requires d < 10
    ensures IsDigit(c) && (c as int) - ('0' as int) == d
  {
    (('0' as int) + d) as char
  }

  /** `Number(s)` for a string of decimal digits (leading zeros allowed). */
  function DigitsValue(s: string): nat
    requires All(s, Digit)
  {
    if s == [] then 0
    else 10 * DigitsValue(s[..|s| - 1]) + ((s[|s| - 1] as int) - ('0' as int))
  }

  /** `String(n)`: the decimal numeral of `n`, without leading zeros. */
  function NatToString(n: nat): (r: string)
    ensures Digits1(r)
    ensures r[0] == '0' ==> r == "0"
    ensures DigitsValue(r) == n
  {
    if n < 10 then [DigitChar(n)]
    else
      var p := NatToString(n / 10);
      var r := p + [DigitChar(n % 10)];
      assert r[..|r| - 1] == p;
      r
  }

  /** Distinct numbers have distinct numerals. */
  lemma NatToStringInjective(m: nat, n: nat)
    requires NatToString(m) == NatToString(n)
    ensures m == n
  {
  }

  /** `pat` occurs in `s` starting at position `k`. */
  predicate OccursAt(s: string, pat: string, k: nat) {
    k + |pat| <= |s| && s[k..k + |pat|] == pat
  }

  /** First position where `pat` occurs in `s`, as `String.prototype.indexOf` finds it. */
  function IndexOf(s: string, pat: string): (r: Option<nat>)
    ensures r.Some? ==> OccursAt(s, pat, r.value)
    ensures r.Some? ==> forall k :: 0 <= k < r.value ==> !OccursAt(s, pat, k)
    ensures r.None? ==> forall k :: 0 <= k ==> !OccursAt(s, pat, k)
  {
    if |s| < |pat| then None
    else if s[..|pat|] == pat then Some(0)
    else
      var rest := IndexOf(s[1..], pat);
      assert !OccursAt(s, pat, 0);
      assert forall k: nat :: 1 <= k ==> (OccursAt(s, pat, k) <==> OccursAt(s[1..], pat, k - 1)) by {
        forall k: nat | 1 <= k ensures OccursAt(s, pat, k) <==> OccursAt(s[1..], pat, k - 1) {
          if k + |pat| <= |s| {
            SliceOfTail(s, k, k + |pat|);
          }
        }
      }
      match rest
      case None => None
      case Some(k) => Some(k + 1)
  }

  lemma SliceOfTail(s: string, a: nat, b: nat)
    requires 1 <= a <= b <= |s|
    ensures s[a..b] == s[1..][a - 1..b - 1]
  {
    assert forall i :: 0 <= i < b - a ==> s[a..b][i] == s[a + i] == s[1..][a - 1..b - 1][i];
  }

  /** `s.replace(pat, rep)` with a string pattern: only the first occurrence is replaced. */
  function ReplaceFirst(s: string, pat: string, rep: string): (r: string)
    ensures IndexOf(s, pat).None? ==> r == s
    ensures IndexOf(s, pat).Some? ==>
      var k := IndexOf(s, pat).value; k + |pat| <= |s| && r == s[..k] + rep + s[k + |pat|..]
  {
    match IndexOf(s, pat)
    case None => s
    case Some(k) => s[..k] + rep + s[k + |pat|..]
  }

  /** `s.replaceAll(from, to)` for one-character strings. */
  function ReplaceChar(s: string, from: char, to: char): (r: string)
    ensures |r| == |s|
    ensures forall i :: 0 <= i < |s| ==> r[i] == if s[i] == from then to else s[i]
  {
    if s == [] then [] else [if s[0] == from then to else s[0]] + ReplaceChar(s[1..], from, to)
  }

  /** POSIX `path.basename` of a path that does not end in `/`: what follows the last `/`. */
  function Basename(path: string): (r: string)
    ensures forall i :: 0 <= i < |r| ==> r[i] != '/'
    ensures |r| <= |path| && r == path[|path| - |r|..]
    ensures |r| < |path| ==> path[|path| - |r| - 1] == '/'
  {
    var n := SpanBack(path, NonSlash);
    path[|path| - n..]
  }
}
