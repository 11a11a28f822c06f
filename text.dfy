/** The string primitives the dashboard relies on: `toLowerCase` and
    `includes` over ASCII text, `trim`, decimal `toString` of a
    non-negative integer, and `join`. */
module Text {

  predicate IsUpper(c: char) {
    'A' <= c <= 'Z'
  }

  /** `toLowerCase` of one character, restricted to ASCII letters. */
  function LowerChar(c: char): (r: char)
    ensures !IsUpper(r)
    ensures IsUpper(c) || r == c
    ensures IsUpper(c) ==> r as int - c as int == 32
  {
    if IsUpper(c) then (c as int + 32) as char else c
  }

  /** `s.toLowerCase()`. */
  function ToLower(s: string): (r: string)
    ensures |r| == |s|
    ensures forall k :: 0 <= k < |s| ==> r[k] == LowerChar(s[k])
  {
    seq(|s|, k requires 0 <= k < |s| => LowerChar(s[k]))
  }

  /** Lower-casing twice is lower-casing once. */
  lemma ToLowerIdempotent(s: string)
    ensures ToLower(ToLower(s)) == ToLower(s)
  {
    var once := ToLower(s);
    var twice := ToLower(once);
    assert forall k :: 0 <= k < |s| ==> twice[k] == once[k] by {
      forall k | 0 <= k < |s| ensures twice[k] == once[k] {
        assert !IsUpper(once[k]);
      }
    }
  }

  /** `s.includes(sub)`: `sub` occurs in `s` at some offset. */
  predicate Contains(s: string, sub: string) {
    exists i :: 0 <= i <= |s| - |sub| && sub <= s[i..]
  }

  /** A witness offset makes `Contains` true. */
  lemma ContainsAt(s: string, sub: string, i: nat)
    requires i + |sub| <= |s| && s[i..i + |sub|] == sub
    ensures Contains(s, sub)
  {
    assert sub <= s[i..];
  }

  /** A string occurs in any string built around it. */
  lemma ContainsMiddle(pre: string, sub: string, post: string)
    ensures Contains(pre + sub + post, sub)
  {
    var s := pre + sub + post;
    assert s[|pre|..|pre| + |sub|] == sub;
    ContainsAt(s, sub, |pre|);
  }

  /** A string occurs at the end of any string it closes. */
  lemma ContainsEnd(a: string, sub: string)
    ensures Contains(a + sub, sub)
  {
    assert (a + sub)[|a|..|a| + |sub|] == sub;
    ContainsAt(a + sub, sub, |a|);
  }

  /** An occurrence survives text added on either side. */
  lemma ContainsExtended(a: string, sub: string, b: string)
    requires Contains(a, sub)
    ensures Contains(a + b, sub) && Contains(b + a, sub)
  {
    var i :| 0 <= i <= |a| - |sub| && sub <= a[i..];
    assert a[i..i + |sub|] == sub;
    assert (a + b)[i..i + |sub|] == a[i..i + |sub|];
    ContainsAt(a + b, sub, i);
    assert (b + a)[|b| + i..|b| + i + |sub|] == a[i..i + |sub|];
    ContainsAt(b + a, sub, |b| + i);
  }

  /** A slice of a slice is a slice of the whole. */
  lemma SliceOfSlice(s: string, i: nat, j: nat, a: nat, b: nat)
    requires i <= j <= |s| && a <= b <= j - i
    ensures s[i..j][a..b] == s[i + a..i + b]
  {
    assert forall m :: 0 <= m < b - a ==> s[i..j][a..b][m] == s[i + a + m];
  }

  /** An occurrence inside a factor of `s` is an occurrence in `s`. */
  lemma ContainsInFactor(s: string, i: nat, j: nat, sub: string)
    requires i <= j <= |s| && Contains(s[i..j], sub)
    ensures Contains(s, sub)
  {
    var t := s[i..j];
    var k :| 0 <= k <= |t| - |sub| && sub <= t[k..];
    assert sub == t[k..k + |sub|];
    SliceOfSlice(s, i, j, k, k + |sub|);
    ContainsAt(s, sub, i + k);
  }

  /** Characters `String.prototype.trim` removes: the ECMAScript
      WhiteSpace and LineTerminator code points. */
  predicate IsWhitespace(c: char) {
    var n := c as int;
    n == 0x09 || n == 0x0A || n == 0x0B || n == 0x0C || n == 0x0D || n == 0x20 ||
    n == 0xA0 || n == 0x1680 || (0x2000 <= n <= 0x200A) || n == 0x2028 || n == 0x2029 ||
    n == 0x202F || n == 0x205F || n == 0x3000 || n == 0xFEFF
  }

  function TrimStart(s: string): (r: string)
    ensures |r| <= |s| && r == s[|s| - |r|..]
    ensures forall k :: 0 <= k < |s| - |r| ==> IsWhitespace(s[k])
    ensures r != [] ==> !IsWhitespace(r[0])
  {
    if s != [] && IsWhitespace(s[0]) then TrimStart(s[1..]) else s
  }

  function TrimEnd(s: string): (r: string)
    ensures |r| <= |s| && r == s[..|r|]
    ensures forall k :: |r| <= k < |s| ==> IsWhitespace(s[k])
    ensures r != [] ==> !IsWhitespace(r[|r| - 1])
  {
    if s != [] && IsWhitespace(s[|s| - 1]) then TrimEnd(s[..|s| - 1]) else s
  }

  /** `r` is the factor of `s` at offset `i`, with only whitespace before
      and after it. */
  predicate TrimmedAt(s: string, r: string, i: int) {
    && 0 <= i <= |s| - |r| && r == s[i..i + |r|]
    && (forall k :: 0 <= k < i ==> IsWhitespace(s[k]))
    && (forall k :: i + |r| <= k < |s| ==> IsWhitespace(s[k]))
  }

  /** A factor with whitespace around it occurs in the text. */
  lemma TrimmedAtContains(s: string, r: string, i: int)
    requires TrimmedAt(s, r, i)
    ensures Contains(s, r)
  {
    ContainsAt(s, r, i);
  }

  /** A prefix `r` of a suffix `t` of `s`, with whitespace before `t` in
      `s` and after `r` in `t`, is a factor of `s` with only whitespace
      around it. */
  lemma TrimmedAtOf(s: string, t: string, r: string)
    requires |t| <= |s| && t == s[|s| - |t|..]
    requires forall k :: 0 <= k < |s| - |t| ==> IsWhitespace(s[k])
    requires |r| <= |t| && r == t[..|r|]
    requires forall k :: |r| <= k < |t| ==> IsWhitespace(t[k])
    ensures TrimmedAt(s, r, |s| - |t|)
  {
    var off := |s| - |t|;
    SliceOfSlice(s, off, |s|, 0, |r|);
    assert r == s[off..off + |r|];
    forall k | off + |r| <= k < |s| ensures IsWhitespace(s[k]) {
      assert s[k] == t[k - off];
    }
  }

  /** What is left after trimming both ends is the factor of `s` at the
      offset where the leading whitespace ends. */
  lemma TrimmedIsFactor(s: string)
    ensures TrimmedAt(s, TrimEnd(TrimStart(s)), |s| - |TrimStart(s)|)
  {
    var t := TrimStart(s);
    var r := TrimEnd(t);
    assert |t| <= |s| && t == s[|s| - |t|..];
    assert forall k :: 0 <= k < |s| - |t| ==> IsWhitespace(s[k]);
    assert |r| <= |t| && r == t[..|r|];
    assert forall k :: |r| <= k < |t| ==> IsWhitespace(t[k]);
    TrimmedAtOf(s, t, r);
  }

  /** Trimming the end keeps a clean start. */
  lemma TrimEndKeepsStart(t: string)
    requires t != [] ==> !IsWhitespace(t[0])
    ensures var r := TrimEnd(t); r != [] ==> r[0] == t[0]
  {
  }

  /** `s.trim()`: the factor of `s` left after dropping whitespace at both
      ends; it neither starts nor ends with whitespace. */
  function Trim(s: string): (r: string)
    ensures |r| <= |s|
    ensures exists i :: TrimmedAt(s, r, i)
    ensures Contains(s, r)
    ensures r != [] ==> !IsWhitespace(r[0]) && !IsWhitespace(r[|r| - 1])
  {
    TrimmedIsFactor(s);
    TrimmedAtContains(s, TrimEnd(TrimStart(s)), |s| - |TrimStart(s)|);
    TrimEndKeepsStart(TrimStart(s));
    TrimEnd(TrimStart(s))
  }

  /** `!s.trim()`: the string is empty or all whitespace. */
  predicate IsBlank(s: string) {
    Trim(s) == []
  }

  lemma {:induction false} TrimStartBlank(s: string)
    ensures TrimStart(s) == [] <==> forall k :: 0 <= k < |s| ==> IsWhitespace(s[k])
  {
    if s != [] && IsWhitespace(s[0]) {
      TrimStartBlank(s[1..]);
      assert forall k :: 1 <= k < |s| ==> s[k] == s[1..][k - 1];
    }
  }

  /** A string trims to nothing exactly when every character is whitespace. */
  lemma BlankIffAllWhitespace(s: string)
    ensures IsBlank(s) <==> forall k :: 0 <= k < |s| ==> IsWhitespace(s[k])
  {
    TrimStartBlank(s);
    var t := TrimStart(s);
    if t != [] {
      assert !IsWhitespace(t[0]);
    }
  }

  predicate IsDigit(c: char) {
    '0' <= c <= '9'
  }

  function DigitChar(d: nat): (c: char)
    requires d < 10
    ensures IsDigit(c) && c as int - '0' as int == d
  {
    ('0' as int + d) as char
  }

  /** `n.toString()` for a non-negative integer: its decimal digits. */
  function NatToString(n: nat): (r: string)
    ensures |r| >= 1
    ensures forall k :: 0 <= k < |r| ==> IsDigit(r[k])
  {
    if n < 10 then [DigitChar(n)] else NatToString(n / 10) + [DigitChar(n % 10)]
  }

  /** The value of a string of decimal digits. */
  function DigitsValue(s: string): nat
    requires forall k :: 0 <= k < |s| ==> IsDigit(s[k])
  {
    if s == [] then 0
    else
      assert IsDigit(s[|s| - 1]);
      DigitsValue(s[..|s| - 1]) * 10 + (s[|s| - 1] as int - '0' as int)
  }

  /** Reading back the decimal digits of `n` gives `n`. */
  lemma {:induction false} NatToStringRoundTrip(n: nat)
    ensures DigitsValue(NatToString(n)) == n
  {
    var r := NatToString(n);
    if n >= 10 {
      NatToStringRoundTrip(n / 10);
      assert r[..|r| - 1] == NatToString(n / 10);
    }
  }

  /** Distinct numbers have distinct decimal strings. */
  lemma NatToStringInjective(a: nat, b: nat)
    requires NatToString(a) == NatToString(b)
    ensures a == b
  {
    NatToStringRoundTrip(a);
    NatToStringRoundTrip(b);
  }

  /** `parts.join(sep)`. */
  function Join(parts: seq<string>, sep: string): string {
    if parts == [] then []
    else if |parts| == 1 then parts[0]
    else Join(parts[..|parts| - 1], sep) + sep + parts[|parts| - 1]
  }

  /** Joining one more part extends the joined string by the separator and
      that part. */
  lemma JoinSnoc(parts: seq<string>, sep: string, last: string)
    requires parts != []
    ensures Join(parts + [last], sep) == Join(parts, sep) + sep + last
  {
    assert (parts + [last])[..|parts|] == parts;
  }

  /** Texts occurring in `j` still occur once `sep` and `last` follow it,
      and so does `last`. */
  lemma ContainsAllExtended(j: string, sep: string, last: string, parts: seq<string>)
    requires forall k :: 0 <= k < |parts| ==> Contains(j, parts[k])
    ensures forall k :: 0 <= k < |parts| + 1 ==> Contains(j + sep + last, (parts + [last])[k])
  {
    forall k | 0 <= k < |parts| + 1 ensures Contains(j + sep + last, (parts + [last])[k]) {
      if k < |parts| {
        ContainsExtended(j, parts[k], sep + last);
        assert j + (sep + last) == j + sep + last;
      } else {
        ContainsEnd(j + sep, last);
      }
    }
  }

  /** Every part occurs in the joined string. */
  lemma {:induction false} JoinContainsEach(parts: seq<string>, sep: string)
    ensures forall k :: 0 <= k < |parts| ==> Contains(Join(parts, sep), parts[k])
  {
    if |parts| == 1 {
      assert Join(parts, sep) == [] + parts[0];
      ContainsEnd([], parts[0]);
    } else if |parts| > 1 {
      var n := |parts| - 1;
      var init := parts[..n];
      JoinContainsEach(init, sep);
      assert parts == init + [parts[n]];
      ContainsAllExtended(Join(init, sep), sep, parts[n], init);
    }
  }

  /** The joined string opens with the first part and closes with the
      last. */
  lemma {:induction false} JoinEnds(parts: seq<string>, sep: string)
    requires parts != []
    ensures parts[0] <= Join(parts, sep)
    ensures var j := Join(parts, sep); var last := parts[|parts| - 1];
            |last| <= |j| && j[|j| - |last|..] == last
  {
    if |parts| > 1 {
      var n := |parts| - 1;
      var init := parts[..n];
      JoinEnds(init, sep);
      assert init[0] == parts[0];
      var j := Join(parts, sep);
      assert j == Join(init, sep) + (sep + parts[n]);
      assert j[|j| - |parts[n]|..] == parts[n];
    }
  }
}
