/** The string operations the RTSP code uses, over ASCII text. */
module Text {
  import opened Common

  // ---- searching --------------------------------------------------------

  predicate MatchAt(s: string, pat: string, j: nat) { j + |pat| <= |s| && s[j..j + |pat|] == pat }

  /** The first match of `pat` at or after `i`. */
  function Find(s: string, pat: string, i: nat): Option<nat>
    decreases |s| - i
  {
    if i + |pat| > |s| then None
    else if s[i..i + |pat|] == pat then Some(i)
    else if i == |s| then None
    else Find(s, pat, i + 1)
  }

  lemma {:induction false} FindIs(s: string, pat: string, i: nat)
    ensures var r := Find(s, pat, i);
      && (r.None? ==> forall j :: i <= j ==> !MatchAt(s, pat, j))
      && (r.Some? ==> i <= r.value && MatchAt(s, pat, r.value) && forall j :: i <= j < r.value ==> !MatchAt(s, pat, j))
    decreases |s| - i
  {
    if i + |pat| <= |s| && s[i..i + |pat|] != pat && i < |s| { FindIs(s, pat, i + 1); }
  }

  lemma FindUnique(s: string, pat: string, i: nat, j: nat)
    requires i <= j && MatchAt(s, pat, j) && forall k :: i <= k < j ==> !MatchAt(s, pat, k)
    ensures Find(s, pat, i) == Some(j)
  {
    FindIs(s, pat, i);
  }

  /** A first match stays first when text is appended. */
  lemma FindStable(s: string, pat: string, more: string)
    requires Find(s, pat, 0).Some?
    ensures Find(s + more, pat, 0) == Find(s, pat, 0)
  {
    FindIs(s, pat, 0);
    var j := Find(s, pat, 0).value;
    forall k | 0 <= k <= j ensures MatchAt(s + more, pat, k) == MatchAt(s, pat, k) {
      if k + |pat| <= |s| { assert (s + more)[k..k + |pat|] == s[k..k + |pat|]; }
    }
    FindUnique(s + more, pat, 0, j);
  }

  lemma MatchPrefix(s: string, pat: string, n: nat, k: nat)
    requires k + |pat| <= n <= |s|
    ensures MatchAt(s[..n], pat, k) == MatchAt(s, pat, k)
  {
    assert s[..n][k..k + |pat|] == s[k..k + |pat|];
  }

  /** In a prefix, the first match is there once all of it is. */
  lemma FindPrefix(s: string, pat: string, n: nat)
    requires Find(s, pat, 0).Some? && n <= |s|
    ensures Find(s[..n], pat, 0) == if Find(s, pat, 0).value + |pat| <= n then Find(s, pat, 0) else None
  {
    FindIs(s, pat, 0);
    FindIs(s[..n], pat, 0);
    var e := Find(s, pat, 0).value;
    forall k | 0 <= k && k + |pat| <= n ensures MatchAt(s[..n], pat, k) == MatchAt(s, pat, k) {
      MatchPrefix(s, pat, n, k);
    }
    if e + |pat| <= n { FindUnique(s[..n], pat, 0, e); }
  }

  function IndexOf(s: string, c: char): Option<nat> {
    if s == "" then None
    else if s[0] == c then Some(0)
    else var r := IndexOf(s[1..], c); if r.Some? then Some(r.value + 1) else None
  }

  lemma {:induction false} IndexOfIs(s: string, c: char)
    ensures var r := IndexOf(s, c);
      && (r.None? ==> c !in s)
      && (r.Some? ==> r.value < |s| && s[r.value] == c && c !in s[..r.value])
  {
    if s != "" && s[0] != c {
      IndexOfIs(s[1..], c);
      assert s == [s[0]] + s[1..];
      var r := IndexOf(s[1..], c);
      if r.Some? { assert s[..r.value + 1] == [s[0]] + s[1..][..r.value]; }
    }
  }

  lemma {:induction false} IndexOfFirst(before: string, c: char, after: string)
    requires c !in before
    ensures IndexOf(before + [c] + after, c) == Some(|before|)
  {
    var s := before + [c] + after;
    if before != "" {
      assert s[0] == before[0] && before[0] in before;
      assert s[1..] == before[1..] + [c] + after;
      IndexOfFirst(before[1..], c, after);
    }
  }

  /** `split_once` on a character. */
  function SplitOnce(s: string, c: char): Option<(string, string)> {
    var r := IndexOf(s, c);
    if r.None? then None
    else IndexOfIs(s, c); Some((s[..r.value], s[r.value + 1..]))
  }

  lemma SplitOnceAt(before: string, c: char, after: string)
    requires c !in before
    ensures SplitOnce(before + [c] + after, c) == Some((before, after))
  {
    IndexOfFirst(before, c, after);
    IndexOfIs(before + [c] + after, c);
    assert (before + [c] + after)[..|before|] == before;
    assert (before + [c] + after)[|before| + 1..] == after;
  }

  /** `split` on a character: one more piece than separators. */
  function SplitOn(s: string, c: char): (r: seq<string>)
    ensures r != []
    decreases |s|
  {
    match SplitOnce(s, c)
    case None => [s]
    case Some((a, b)) => IndexOfIs(s, c); [a] + SplitOn(b, c)
  }

  lemma SplitOnAt(before: string, c: char, after: string)
    requires c !in before
    ensures SplitOn(before + [c] + after, c) == [before] + SplitOn(after, c)
    ensures SplitOn(before, c) == [before]
  {
    SplitOnceAt(before, c, after);
    IndexOfIs(before, c);
  }

  // ---- trimming ---------------------------------------------------------

  predicate IsSpace(c: char) { c == ' ' || c == '\t' || c == '\n' || c == '\r' || c as int == 11 || c as int == 12 }

  function TrimStart(s: string): string { if s != "" && IsSpace(s[0]) then TrimStart(s[1..]) else s }
  function TrimEnd(s: string): string { if s != "" && IsSpace(s[|s| - 1]) then TrimEnd(s[..|s| - 1]) else s }
  function Trim(s: string): string { TrimEnd(TrimStart(s)) }

  /** Nothing to trim. */
  predicate Trimmed(s: string) { s == "" || (!IsSpace(s[0]) && !IsSpace(s[|s| - 1])) }

  lemma TrimTrimmed(s: string)
    requires Trimmed(s)
    ensures Trim(s) == s && Trim([' '] + s) == s
  {
    assert ([' '] + s)[1..] == s;
    if s == "" { assert TrimStart([' '] + s) == TrimStart(s); }
  }

  // ---- words ------------------------------------------------------------

  function FirstWord(s: string): (w: string)
    ensures |w| <= |s|
  {
    if s == "" || IsSpace(s[0]) then "" else [s[0]] + FirstWord(s[1..])
  }

  /** `split_whitespace`. */
  function Words(s: string): seq<string>
    decreases |s|
  {
    if s == "" then []
    else if IsSpace(s[0]) then Words(s[1..])
    else [FirstWord(s)] + Words(s[|FirstWord(s)|..])
  }

  // ---- numbers ----------------------------------------------------------

  predicate IsDigit(c: char) { '0' <= c <= '9' }

  function DigitChar(d: nat): (c: char)
    requires d < 10
    ensures IsDigit(c) && DigitValue(c) == d
  {
    ('0' as int + d) as char
  }

  function Decimal(n: nat): (s: string)
    ensures s != "" && forall i :: 0 <= i < |s| ==> IsDigit(s[i])
  {
    if n < 10 then [DigitChar(n)] else Decimal(n / 10) + [DigitChar(n % 10)]
  }

  function DigitValue(c: char): (d: nat)
    requires IsDigit(c)
    ensures d < 10
  {
    c as int - '0' as int
  }

  function DigitsValue(s: string): nat
    requires forall i :: 0 <= i < |s| ==> IsDigit(s[i])
  {
    if s == "" then 0 else 10 * DigitsValue(s[..|s| - 1]) + DigitValue(s[|s| - 1])
  }

  /** Plain decimal digits, below `limit`. */
  function ParseDecimal(s: string, limit: nat): Option<nat> {
    if s == "" || (exists i :: 0 <= i < |s| && !IsDigit(s[i])) then None
    else if DigitsValue(s) < limit then Some(DigitsValue(s)) else None
  }

  lemma {:induction false} DecimalValue(n: nat)
    ensures DigitsValue(Decimal(n)) == n
  {
    if n >= 10 {
      DecimalValue(n / 10);
      assert Decimal(n)[..|Decimal(n)| - 1] == Decimal(n / 10);
    } else {
      assert Decimal(n)[..0] == "";
    }
  }

  lemma ParseDecimalOf(n: nat, limit: nat)
    requires n < limit
    ensures ParseDecimal(Decimal(n), limit) == Some(n)
    ensures Trimmed(Decimal(n)) && forall c :: c in Decimal(n) ==> IsDigit(c)
  {
    DecimalValue(n);
  }

  /** Different numbers print differently. */
  lemma DecimalInjective(a: nat, b: nat)
    requires Decimal(a) == Decimal(b)
    ensures a == b
  {
    DecimalValue(a);
    DecimalValue(b);
  }

  predicate IsHexDigit(c: char) { IsDigit(c) || 'a' <= c <= 'f' || 'A' <= c <= 'F' }

  function HexDigitValue(c: char): (d: nat)
    requires IsHexDigit(c)
    ensures d < 16
  {
    if IsDigit(c) then DigitValue(c) else if c <= 'F' then c as int - 'A' as int + 10 else c as int - 'a' as int + 10
  }

  function HexValue(s: string): nat
    requires forall i :: 0 <= i < |s| ==> IsHexDigit(s[i])
  {
    if s == "" then 0 else 16 * HexValue(s[..|s| - 1]) + HexDigitValue(s[|s| - 1])
  }

  /** Plain hexadecimal digits, below `limit`. */
  function ParseHex(s: string, limit: nat): Option<nat> {
    if s == "" || (exists i :: 0 <= i < |s| && !IsHexDigit(s[i])) then None
    else if HexValue(s) < limit then Some(HexValue(s)) else None
  }

  // ---- case -------------------------------------------------------------

  function Lower(c: char): char { if 'A' <= c <= 'Z' then (c as int + 32) as char else c }

  predicate SameIgnoringCase(a: string, b: string) {
    |a| == |b| && forall i :: 0 <= i < |a| ==> Lower(a[i]) == Lower(b[i])
  }
}
