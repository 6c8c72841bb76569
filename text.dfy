/**
 * The JavaScript string operations the core relies on: `trim` and the regular-expression
 * class `\s` (which share one definition of white space), `startsWith`, `includes`,
 * `split`, ASCII `toLowerCase` and the decimal rendering of naturals.
 */
module Text {

  /** ECMAScript WhiteSpace and LineTerminator: what `trim` removes and what `\s` matches. */
  predicate IsSpace(c: char) {
    c == '\t' || c == '\n' || c == '\U{000B}' || c == '\U{000C}' || c == '\r' || c == ' '
    || c == '\U{00A0}' || c == '\U{1680}' || ('\U{2000}' <= c <= '\U{200A}')
    || c == '\U{2028}' || c == '\U{2029}' || c == '\U{202F}' || c == '\U{205F}'
    || c == '\U{3000}' || c == '\U{FEFF}'
  }

  predicate AllSpace(s: string) {
    forall i :: 0 <= i < |s| ==> IsSpace(s[i])
  }

  /** The first position at or after `i` that does not hold white space (`|s|` if there is none). */
  function SkipSpace(s: string, i: nat): (k: nat)
    requires i <= |s|
    ensures i <= k <= |s|
    ensures forall j :: i <= j < k ==> IsSpace(s[j])
    ensures k < |s| ==> !IsSpace(s[k])
    decreases |s| - i
  {
    if i < |s| && IsSpace(s[i]) then SkipSpace(s, i + 1) else i
  }

  /** The smallest `k <= i` such that `s[k..i]` is white space. */
  function SkipSpaceBack(s: string, i: nat): (k: nat)
    requires i <= |s|
    ensures k <= i
    ensures forall j :: k <= j < i ==> IsSpace(s[j])
    ensures k > 0 ==> !IsSpace(s[k - 1])
  {
    if i > 0 && IsSpace(s[i - 1]) then SkipSpaceBack(s, i - 1) else i
  }

  /** The boundary `SkipSpaceBack` finds is the only one with its two properties. */
  lemma SkipSpaceBackIs(s: string, i: nat, k: nat)
    requires k <= i <= |s|
    requires forall j :: k <= j < i ==> IsSpace(s[j])
    requires k > 0 ==> !IsSpace(s[k - 1])
    ensures SkipSpaceBack(s, i) == k
  {
  }

  /** `s.trimStart()`: what follows the leading white space. */
  function TrimStart(s: string): (r: string)
    ensures |r| <= |s|
    ensures r == [] || !IsSpace(r[0])
  {
    s[SkipSpace(s, 0)..]
  }

  /** The input is the removed white space followed by the result. */
  lemma TrimStartSplits(s: string)
    ensures var r := TrimStart(s);
      s == s[..|s| - |r|] + r && AllSpace(s[..|s| - |r|])
  {
    var k := SkipSpace(s, 0);
    assert s == s[..k] + s[k..];
  }

  /** `s.trimEnd()`: what precedes the trailing white space. */
  function TrimEnd(s: string): (r: string)
    ensures |r| <= |s| && r == s[..|r|]
    ensures AllSpace(s[|r|..])
    ensures r == [] || !IsSpace(r[|r| - 1])
  {
    s[..SkipSpaceBack(s, |s|)]
  }

  /** `s.trim()`. */
  function Trim(s: string): (r: string)
    ensures r == [] || (!IsSpace(r[0]) && !IsSpace(r[|r| - 1]))
    ensures r == [] <==> AllSpace(s)
  {
    var t := TrimStart(s);
    TrimStartSplits(s);
    TrimEndEmpty(t);
    assert t == [] ==> s[..|s|] == s;
    assert t != [] ==> t[0] == s[|s| - |t|];
    TrimEnd(t)
  }

  lemma TrimEndEmpty(s: string)
    ensures TrimEnd(s) == [] <==> AllSpace(s)
  {
    var r := TrimEnd(s);
    if r == [] {
      assert s[|r|..] == s;
    } else {
      assert r[|r| - 1] == s[|r| - 1];
    }
  }

  /** `trim` cuts the input into leading white space, the result, and trailing white space. */
  lemma TrimSplits(s: string)
    ensures var k := SkipSpace(s, 0); var t := Trim(s);
      k + |t| <= |s| && s[k..k + |t|] == t && AllSpace(s[..k]) && AllSpace(s[k + |t|..])
  {
    var k := SkipSpace(s, 0);
    var u := TrimStart(s);
    var t := TrimEnd(u);
    assert u == s[k..];
    assert s[k..k + |t|] == u[..|t|];
    assert s[k + |t|..] == u[|t|..];
  }

  /** Leading white space before a non-space character is all that `trimStart` removes. */
  lemma TrimStartConcat(a: string, b: string)
    requires AllSpace(a)
    requires b != [] && !IsSpace(b[0])
    ensures TrimStart(a + b) == b
  {
    var s := a + b;
    var k := SkipSpace(s, 0);
    assert s[|a|] == b[0];
    assert k == |a|;
    assert s[|a|..] == b;
  }

  /** Trailing white space of a suffix is what `trimEnd` removes; a prefix is kept when the suffix has content. */
  lemma TrimEndConcat(a: string, b: string)
    ensures TrimEnd(b) != [] ==> TrimEnd(a + b) == a + TrimEnd(b)
    ensures TrimEnd(b) == [] ==> TrimEnd(a + b) == TrimEnd(a)
  {
    if TrimEnd(b) != [] {
      TrimEndKeepsPrefix(a, b);
    } else {
      TrimEndEmpty(b);
      TrimEndDropsSpace(a, b);
    }
  }

  lemma TrimEndKeepsPrefix(a: string, b: string)
    requires TrimEnd(b) != []
    ensures TrimEnd(a + b) == a + TrimEnd(b)
  {
    var s := a + b;
    var kb := SkipSpaceBack(b, |b|);
    forall j | |a| + kb <= j < |s| ensures IsSpace(s[j]) {
      assert s[j] == b[j - |a|];
    }
    assert s[|a| + kb - 1] == b[kb - 1];
    SkipSpaceBackIs(s, |s|, |a| + kb);
    assert s[..|a| + kb] == a + b[..kb];
  }

  lemma TrimEndDropsSpace(a: string, b: string)
    requires AllSpace(b)
    ensures TrimEnd(a + b) == TrimEnd(a)
  {
    var s := a + b;
    var ka := SkipSpaceBack(a, |a|);
    forall j | ka <= j < |s| ensures IsSpace(s[j]) {
      if j >= |a| { assert s[j] == b[j - |a|]; }
    }
    assert ka > 0 ==> s[ka - 1] == a[ka - 1];
    SkipSpaceBackIs(s, |s|, ka);
    assert s[..ka] == a[..ka];
  }

  /** White space around a text that starts and ends with visible characters is what `trim` removes. */
  lemma TrimPadded(before: string, a: string, after: string)
    requires AllSpace(before) && AllSpace(after)
    requires a != [] && !IsSpace(a[0]) && !IsSpace(a[|a| - 1])
    ensures Trim(before + a + after) == a
  {
    var body := a + after;
    assert before + a + after == before + body;
    assert body[0] == a[0];
    TrimStartConcat(before, body);
    TrimEndEmpty(after);
    TrimEndConcat(a, after);
    TrimEndKeeps(a);
  }

  /** A string ending in a non-space character is unchanged by `trimEnd`. */
  lemma TrimEndKeeps(s: string)
    requires s != [] && !IsSpace(s[|s| - 1])
    ensures TrimEnd(s) == s
  {
  }

  predicate StartsWith(s: string, prefix: string) {
    |prefix| <= |s| && s[..|prefix|] == prefix
  }

  /** `s.includes(sub)`: some position of `s` starts a copy of `sub`; the empty string is in every string. */
  predicate Contains(s: string, sub: string)
    decreases |s|
  {
    StartsWith(s, sub) || (s != [] && Contains(s[1..], sub))
  }

  /** The index of the first `c` in `s`. */
  function IndexOf(s: string, c: char): (i: nat)
    requires c in s
    ensures i < |s| && s[i] == c
    ensures forall k :: 0 <= k < i ==> s[k] != c
  {
    if s[0] == c then 0 else IndexOf(s[1..], c) + 1
  }

  /** The index of the last `c` in `s`. */
  function LastIndexOf(s: string, c: char): (i: nat)
    requires c in s
    ensures i < |s| && s[i] == c
    ensures forall k :: i < k < |s| ==> s[k] != c
  {
    if s[|s| - 1] == c then |s| - 1 else
      assert c in s[..|s| - 1] by { assert s == s[..|s| - 1] + [s[|s| - 1]]; }
      LastIndexOf(s[..|s| - 1], c)
  }

  /** `s.split(sep)` for a one-character separator. */
  function Split(s: string, sep: char): (parts: seq<string>)
    ensures |parts| >= 1
    ensures forall k :: 0 <= k < |parts| ==> sep !in parts[k]
    decreases |s|
  {
    if sep !in s then [s]
    else
      var i := IndexOf(s, sep);
      [s[..i]] + Split(s[i + 1..], sep)
  }

  /** `parts.join(sep)`. */
  function Join(parts: seq<string>, sep: char): string
    requires |parts| >= 1
  {
    if |parts| == 1 then parts[0] else parts[0] + [sep] + Join(parts[1..], sep)
  }

  /** Splitting loses nothing: joining the pieces back gives the original text. */
  lemma {:induction false} JoinSplit(s: string, sep: char)
    ensures Join(Split(s, sep), sep) == s
    decreases |s|
  {
    if sep in s {
      var i := IndexOf(s, sep);
      var rest := Split(s[i + 1..], sep);
      JoinSplit(s[i + 1..], sep);
      assert ([s[..i]] + rest)[1..] == rest;
      assert s == s[..i] + [sep] + s[i + 1..];
    }
  }

  /** Joining pieces that do not hold the separator and splitting again gives the pieces back. */
  lemma {:induction false} SplitJoin(parts: seq<string>, sep: char)
    requires |parts| >= 1
    requires forall k :: 0 <= k < |parts| ==> sep !in parts[k]
    ensures Split(Join(parts, sep), sep) == parts
  {
    if |parts| > 1 {
      var rest := Join(parts[1..], sep);
      SplitFirst(parts[0], sep, rest);
      SplitJoin(parts[1..], sep);
      assert parts == [parts[0]] + parts[1..];
    }
  }

  /** Splitting `a + sep + rest`, where `a` has no separator, cuts `a` off first. */
  lemma SplitFirst(a: string, sep: char, rest: string)
    requires sep !in a
    ensures Split(a + [sep] + rest, sep) == [a] + Split(rest, sep)
  {
    var s := a + [sep] + rest;
    assert s[|a|] == sep;
    var i := IndexOf(s, sep);
    assert forall k :: 0 <= k < |a| ==> s[k] == a[k];
    assert i == |a|;
    assert s[..i] == a;
    assert s[i + 1..] == rest;
  }

  /** `s.replace(/\t/g, "  ")`. */
  function ReplaceTabs(s: string): (r: string)
    ensures '\t' !in r
    ensures '\t' !in s ==> r == s
  {
    if s == [] then []
    else (if s[0] == '\t' then "  " else [s[0]]) + ReplaceTabs(s[1..])
  }

  /** A tab becomes two spaces. */
  lemma ReplaceTabsTab()
    ensures ReplaceTabs("\t") == "  "
  {
  }

  /** Any other character is kept. */
  lemma ReplaceTabsOther(c: char)
    requires c != '\t'
    ensures ReplaceTabs([c]) == [c]
  {
  }

  /** The replacement works character by character: it distributes over concatenation. */
  lemma {:induction false} ReplaceTabsAppend(a: string, b: string)
    ensures ReplaceTabs(a + b) == ReplaceTabs(a) + ReplaceTabs(b)
  {
    if a != [] {
      assert (a + b)[1..] == a[1..] + b;
      ReplaceTabsAppend(a[1..], b);
      var head := if a[0] == '\t' then "  " else [a[0]];
      assert ReplaceTabs(a + b) == head + ReplaceTabs(a[1..] + b);
      assert ReplaceTabs(a) == head + ReplaceTabs(a[1..]);
    } else {
      assert a + b == b;
    }
  }

  /** Each tab adds one character: the text grows by the number of tabs. */
  lemma {:induction false} ReplaceTabsLength(s: string)
    ensures |ReplaceTabs(s)| == |s| + multiset(s)['\t']
  {
    if s != [] {
      assert s == [s[0]] + s[1..];
      ReplaceTabsLength(s[1..]);
    }
  }

  /** The longest prefix of `s` whose characters satisfy `p`. */
  function Span(s: string, p: char -> bool): (r: string)
    ensures |r| <= |s| && r == s[..|r|]
    ensures forall k :: 0 <= k < |r| ==> p(r[k])
    ensures |r| < |s| ==> !p(s[|r|])
  {
    if s != [] && p(s[0]) then
      var t := Span(s[1..], p);
      [s[0]] + t
    else []
  }

  /** ASCII `toLowerCase`. */
  function Lower(s: string): (r: string)
    ensures |r| == |s|
    ensures forall k :: 0 <= k < |s| ==> r[k] == LowerChar(s[k])
  {
    if s == [] then [] else [LowerChar(s[0])] + Lower(s[1..])
  }

  function LowerChar(c: char): char {
    if 'A' <= c <= 'Z' then (c as int + 32) as char else c
  }

  /** The decimal digits of `n` without leading zeros, as `String(n)` writes an integer. */
  function NatToString(n: nat): (s: string)
    ensures |s| >= 1
    ensures forall k :: 0 <= k < |s| ==> '0' <= s[k] <= '9'
    ensures |s| > 1 ==> s[0] != '0'
    decreases n
  {
    if n < 10 then [Digit(n)] else NatToString(n / 10) + [Digit(n % 10)]
  }

  function Digit(d: nat): (c: char)
    requires d < 10
    ensures '0' <= c <= '9'
  {
    ('0' as int + d) as char
  }

  /** The value of a string of decimal digits. */
  function DecimalValue(s: string): nat
    requires forall k :: 0 <= k < |s| ==> '0' <= s[k] <= '9'
  {
    if s == [] then 0 else DecimalValue(s[..|s| - 1]) * 10 + (s[|s| - 1] as int - '0' as int)
  }

  /** Rendering a natural in decimal and reading it back gives the number. */
  lemma {:induction false} DecimalRoundTrip(n: nat)
    ensures DecimalValue(NatToString(n)) == n
    decreases n
  {
    var s := NatToString(n);
    if n >= 10 {
      DecimalRoundTrip(n / 10);
      assert s[..|s| - 1] == NatToString(n / 10);
    }
  }
}
