/**
 * The subset of Python's `str` operations that the experiment descriptors rely on:
 * `split(sep)`, `split(sep, 1)`, `split()`, `strip()`, `startswith`, `replace(pat, "")`,
 * `str(int)`, `int(text)` and the decimal forms accepted by `float(text)`.
 */
module Strings {
  import opened Wrappers

  /** Python's ASCII whitespace: TAB, LF, VT, FF, CR, the four separators 0x1C-0x1F, and space. */
  predicate IsSpace(c: char) {
    9 <= c as int <= 13 || 28 <= c as int <= 32
  }

  predicate IsDigit(c: char) {
    '0' <= c <= '9'
  }

  predicate NoSpace(s: string) {
    forall i :: 0 <= i < |s| ==> !IsSpace(s[i])
  }

  predicate AllDigits(s: string) {
    forall i :: 0 <= i < |s| ==> IsDigit(s[i])
  }

  predicate StartsWith(s: string, prefix: string) {
    |prefix| <= |s| && s[..|prefix|] == prefix
  }

  predicate EndsWith(s: string, suffix: string) {
    |suffix| <= |s| && s[|s| - |suffix|..] == suffix
  }

  // ---------------------------------------------------------------------------
  // s.split(sep): every separator cuts, empty pieces are kept, never an empty list
  // ---------------------------------------------------------------------------

  function Split(s: string, sep: char): (parts: seq<string>)
    ensures |parts| >= 1
    ensures forall k :: 0 <= k < |parts| ==> sep !in parts[k]
    decreases |s|
  {
    if s == [] then [""]
    else if s[0] == sep then [""] + Split(s[1..], sep)
    else
      var rest := Split(s[1..], sep);
      [[s[0]] + rest[0]] + rest[1..]
  }

  /** Splitting at one separator splits the two sides independently. */
  lemma {:induction false} SplitConcat(a: string, sep: char, b: string)
    ensures Split(a + [sep] + b, sep) == Split(a, sep) + Split(b, sep)
    decreases |a|
  {
    if a == [] {
      assert a + [sep] + b == [sep] + b;
      assert ([sep] + b)[1..] == b;
    } else {
      assert (a + [sep] + b)[1..] == a[1..] + [sep] + b;
      SplitConcat(a[1..], sep, b);
    }
  }

  lemma {:induction false} SplitNoSep(a: string, sep: char)
    requires sep !in a
    ensures Split(a, sep) == [a]
    decreases |a|
  {
    if a != [] {
      assert a[0] != sep;
      SplitNoSep(a[1..], sep);
      assert [a[0]] + a[1..] == a;
    }
  }

  // ---------------------------------------------------------------------------
  // s.split(sep, 1): the text before the first separator and the rest
  // ---------------------------------------------------------------------------

  function IndexOf(s: string, c: char): (i: nat)
    requires c in s
    ensures i < |s| && s[i] == c && c !in s[..i]
    decreases |s|
  {
    if s[0] == c then 0
    else
      assert c in s[1..] by {
        var k :| 0 <= k < |s| && s[k] == c;
        assert s[1..][k - 1] == c;
      }
      var j := IndexOf(s[1..], c);
      assert s[..j + 1] == [s[0]] + s[1..][..j];
      j + 1
  }

  function SplitOnce(s: string, sep: char): (kv: (string, string))
    requires sep in s
    ensures sep !in kv.0 && s == kv.0 + [sep] + kv.1
  {
    var i := IndexOf(s, sep);
    assert s == s[..i] + [sep] + s[i + 1..];
    (s[..i], s[i + 1..])
  }

  lemma SplitOnceConcat(a: string, sep: char, b: string)
    requires sep !in a
    ensures sep in a + [sep] + b
    ensures SplitOnce(a + [sep] + b, sep) == (a, b)
  {
    var s := a + [sep] + b;
    assert s[|a|] == sep;
    var kv := SplitOnce(s, sep);
    assert kv.0 == s[..|a|] == a;
    assert kv.1 == s[|a| + 1..] == b;
  }

  // ---------------------------------------------------------------------------
  // s.split(): runs of whitespace separate tokens, no empty tokens
  // ---------------------------------------------------------------------------

  function TokenLen(s: string): (k: nat)
    ensures k <= |s| && NoSpace(s[..k])
    ensures k == |s| || IsSpace(s[k])
    decreases |s|
  {
    if s == [] || IsSpace(s[0]) then 0
    else
      var k := TokenLen(s[1..]);
      assert s[..k + 1] == [s[0]] + s[1..][..k];
      k + 1
  }

  function SplitWs(s: string): (tokens: seq<string>)
    ensures forall k :: 0 <= k < |tokens| ==> tokens[k] != [] && NoSpace(tokens[k])
    decreases |s|
  {
    if s == [] then []
    else if IsSpace(s[0]) then SplitWs(s[1..])
    else
      var k := TokenLen(s);
      [s[..k]] + SplitWs(s[k..])
  }

  lemma {:induction false} TokenLenOf(a: string, b: string)
    requires NoSpace(a)
    requires b == [] || IsSpace(b[0])
    ensures TokenLen(a + b) == |a|
    decreases |a|
  {
    if a != [] {
      assert (a + b)[1..] == a[1..] + b;
      TokenLenOf(a[1..], b);
    }
  }

  lemma SplitWsToken(a: string)
    requires a != [] && NoSpace(a)
    ensures SplitWs(a) == [a]
  {
    TokenLenOf(a, []);
    assert a + [] == a;
  }

  /** "a b".split() == ["a", "b"] for two non-empty whitespace-free words. */
  lemma SplitWsPair(a: string, b: string)
    requires a != [] && NoSpace(a)
    requires b != [] && NoSpace(b)
    ensures SplitWs(a + " " + b) == [a, b]
  {
    var s := a + " " + b;
    TokenLenOf(a, " " + b);
    assert s == a + (" " + b);
    assert s[..|a|] == a;
    assert s[|a|..] == " " + b;
    assert (" " + b)[1..] == b;
    SplitWsToken(b);
  }

  // ---------------------------------------------------------------------------
  // s.strip()
  // ---------------------------------------------------------------------------

  function StripLeft(s: string): string
    decreases |s|
  {
    if s != [] && IsSpace(s[0]) then StripLeft(s[1..]) else s
  }

  function StripRight(s: string): string
    decreases |s|
  {
    if s != [] && IsSpace(s[|s| - 1]) then StripRight(s[..|s| - 1]) else s
  }

  function Strip(s: string): string {
    StripRight(StripLeft(s))
  }

  // ---------------------------------------------------------------------------
  // str(n) and int(text)
  // ---------------------------------------------------------------------------

  function DigitChar(d: nat): (c: char)
    requires d < 10
    ensures IsDigit(c) && !IsSpace(c)
  {
    ('0' as int + d) as char
  }

  function DigitValue(c: char): nat
    requires IsDigit(c)
  {
    c as int - '0' as int
  }

  /** The decimal value of a string of digits, most significant first. */
  function DigitsValue(s: string): nat
    requires AllDigits(s)
    decreases |s|
  {
    if s == [] then 0 else DigitsValue(s[..|s| - 1]) * 10 + DigitValue(s[|s| - 1])
  }

  function NatToString(n: nat): (s: string)
    ensures |s| >= 1 && AllDigits(s)
    decreases n
  {
    if n < 10 then [DigitChar(n)] else NatToString(n / 10) + [DigitChar(n % 10)]
  }

  /** str(n) */
  function IntToString(n: int): string {
    if n < 0 then "-" + NatToString(-n) else NatToString(n)
  }

  /** int(text) for an optionally signed run of decimal digits, surrounding whitespace allowed. */
  function ParseInt(s: string): Option<int> {
    var t := Strip(s);
    if |t| >= 1 && (t[0] == '-' || t[0] == '+') then
      var ds := t[1..];
      if |ds| >= 1 && AllDigits(ds) then
        var v: int := DigitsValue(ds);
        Some(if t[0] == '-' then -v else v)
      else None
    else if |t| >= 1 && AllDigits(t) then Some(DigitsValue(t))
    else None
  }

  lemma {:induction false} NatToStringValue(n: nat)
    ensures DigitsValue(NatToString(n)) == n
    decreases n
  {
    var s := NatToString(n);
    if n >= 10 {
      NatToStringValue(n / 10);
      assert s[..|s| - 1] == NatToString(n / 10);
    }
  }

  lemma NoSpaceStrip(s: string)
    requires s != [] && !IsSpace(s[0]) && !IsSpace(s[|s| - 1])
    ensures Strip(s) == s
  {
  }

  /** int(str(n)) == n */
  lemma ParseIntToString(n: int)
    ensures ParseInt(IntToString(n)) == Some(n)
  {
    var s := IntToString(n);
    var ds := NatToString(if n < 0 then -n else n);
    NatToStringValue(if n < 0 then -n else n);
    if n < 0 {
      assert s[1..] == ds;
    }
    assert IsDigit(s[|s| - 1]);
    NoSpaceStrip(s);
  }

  lemma NatToStringNoSpace(n: nat)
    ensures NoSpace(NatToString(n))
  {
  }

  lemma IntToStringNoSpace(n: int)
    ensures IntToString(n) != [] && NoSpace(IntToString(n))
  {
    NatToStringNoSpace(if n < 0 then -n else n);
  }

  lemma IntToStringNoChar(n: int, c: char)
    requires c != '-' && !IsDigit(c)
    ensures c !in IntToString(n)
  {
  }

  // ---------------------------------------------------------------------------
  // float(text), restricted to plain decimals: [sign] digits [. digits]
  // ---------------------------------------------------------------------------

  function Pow10(k: nat): (p: nat)
    ensures p >= 1
  {
    if k == 0 then 1 else 10 * Pow10(k - 1)
  }

  function ParseDecimal(s: string): Option<real> {
    var t := Strip(s);
    var signed := |t| >= 1 && (t[0] == '-' || t[0] == '+');
    var body := if signed then t[1..] else t;
    var magnitude :=
      var parts := Split(body, '.');
      if |parts| == 1 && |body| >= 1 && AllDigits(body) then
        Some(DigitsValue(body) as real)
      else if |parts| == 2 && AllDigits(parts[0]) && AllDigits(parts[1]) && |parts[0]| + |parts[1]| >= 1 then
        Some(DigitsValue(parts[0]) as real + DigitsValue(parts[1]) as real / Pow10(|parts[1]|) as real)
      else None;
    match magnitude
    case None => None
    case Some(m) => Some(if signed && t[0] == '-' then -m else m)
  }

  // ---------------------------------------------------------------------------
  // s.replace(pat, ""): left-to-right, non-overlapping removal
  // ---------------------------------------------------------------------------

  function RemoveAll(s: string, pat: string): (r: string)
    requires |pat| > 0
    ensures |r| <= |s|
    ensures forall i :: 0 <= i < |r| ==> r[i] in s
    decreases |s|
  {
    if |s| < |pat| then s
    else if s[..|pat|] == pat then RemoveAll(s[|pat|..], pat)
    else [s[0]] + RemoveAll(s[1..], pat)
  }

  /** A prefix that never holds the pattern's first character passes through untouched. */
  lemma {:induction false} RemoveAllPrefix(a: string, b: string, pat: string)
    requires |pat| > 0 && pat[0] !in a
    ensures RemoveAll(a + b, pat) == a + RemoveAll(b, pat)
    decreases |a|
  {
    var s := a + b;
    if a != [] {
      if |s| < |pat| {
        assert |b| < |pat|;
      } else {
        assert s[..|pat|][0] == a[0] != pat[0];
        assert s[1..] == a[1..] + b;
        RemoveAllPrefix(a[1..], b, pat);
      }
    } else {
      assert s == b;
    }
  }

  lemma RemoveAllSelf(pat: string)
    requires |pat| > 0
    ensures RemoveAll(pat, pat) == ""
  {
    assert pat[..|pat|] == pat;
    assert pat[|pat|..] == "";
  }

  // ---------------------------------------------------------------------------
  // os.path.join(directory, name)
  // ---------------------------------------------------------------------------

  /** An absolute name replaces the directory; otherwise one '/' separates the two. */
  function PathJoin(directory: string, name: string): (p: string)
    ensures !StartsWith(name, "/") && directory != [] && directory[|directory| - 1] == '/' ==>
              p == directory + name
  {
    if StartsWith(name, "/") then name
    else if directory == [] || directory[|directory| - 1] == '/' then directory + name
    else directory + "/" + name
  }
}
