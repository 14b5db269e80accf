/** The few Python string operations the tracer relies on: `str.startswith`,
    `str.partition`, `os.path.basename` and `str(int)`. */
module Strings {
  import opened Wrappers

  /** `s.startswith(p)` */
  predicate StartsWith(s: string, p: string) {
    |p| <= |s| && s[..|p|] == p
  }

  /** `sep` occurs in `s` starting at index `i`. */
  predicate OccursAt(s: string, sep: string, i: nat) {
    i + |sep| <= |s| && s[i..i + |sep|] == sep
  }

  /** The first index at or after `from` where `sep` occurs, as `str.find` computes it. */
  function FindFrom(s: string, sep: string, from: nat): (r: Option<nat>)
    requires from <= |s|
    ensures r.Some? ==> from <= r.value && OccursAt(s, sep, r.value)
    ensures r.Some? ==> forall j :: from <= j < r.value ==> !OccursAt(s, sep, j)
    ensures r.None? ==> forall j :: from <= j <= |s| ==> !OccursAt(s, sep, j)
    decreases |s| - from
  {
    if OccursAt(s, sep, from) then Some(from)
    else if from == |s| then None
    else FindFrom(s, sep, from + 1)
  }

  /** A match found by scanning from `from` is the first one from there. */
  lemma {:induction false} FindFromAt(s: string, sep: string, from: nat, i: nat)
    requires from <= i <= |s| && OccursAt(s, sep, i)
    requires forall j :: from <= j < i ==> !OccursAt(s, sep, j)
    ensures FindFrom(s, sep, from) == Some(i)
    decreases i - from
  {
    if from < i {
      FindFromAt(s, sep, from + 1, i);
    }
  }

  /** `s.partition(sep)[2]`: the text after the first occurrence of `sep`,
      or the empty string when `sep` does not occur (Python refuses an empty `sep`). */
  function PartitionTail(s: string, sep: string): string
    requires sep != ""
  {
    match FindFrom(s, sep, 0)
    case Some(i) => s[i + |sep|..]
    case None => ""
  }

  /** An occurrence inside `x` is an occurrence inside `x + y` at the same place. */
  lemma OccursInPrefix(x: string, y: string, sep: string, j: nat)
    requires j + |sep| <= |x|
    ensures OccursAt(x + y, sep, j) <==> OccursAt(x, sep, j)
  {
    assert (x + y)[j..j + |sep|] == x[j..j + |sep|];
  }

  /** When `sep` occurs in `x`, partitioning `x + y` cuts at the same place. */
  lemma PartitionTailOfPrefix(x: string, y: string, sep: string, i: nat)
    requires sep != "" && FindFrom(x, sep, 0) == Some(i)
    ensures PartitionTail(x + y, sep) == x[i + |sep|..] + y
  {
    OccursInPrefix(x, y, sep, i);
    forall j | 0 <= j < i
      ensures !OccursAt(x + y, sep, j)
    {
      OccursInPrefix(x, y, sep, j);
    }
    FindFromAt(x + y, sep, 0, i);
    assert (x + y)[i + |sep|..] == x[i + |sep|..] + y;
  }

  /** When `sep` does not occur in `x` and its last character does not occur in `y`,
      it does not occur in `x + y` either, and the partition tail is empty. */
  lemma PartitionTailMissing(x: string, y: string, sep: string)
    requires sep != "" && FindFrom(x, sep, 0).None?
    requires sep[|sep| - 1] !in y
    ensures PartitionTail(x + y, sep) == ""
  {
    var t := x + y;
    forall j | 0 <= j <= |t|
      ensures !OccursAt(t, sep, j)
    {
      if j + |sep| <= |x| {
        OccursInPrefix(x, y, sep, j);
      } else if j + |sep| <= |t| {
        var last := j + |sep| - 1;
        assert t[last] == y[last - |x|];
        assert t[j..j + |sep|][|sep| - 1] == t[last];
      }
    }
  }

  /** The index of the last '/' before `end`, or -1: `p.rfind('/', 0, end)`. */
  function RFindSlash(p: string, end: nat): (r: int)
    requires end <= |p|
    ensures -1 <= r < end
    ensures r >= 0 ==> p[r] == '/'
    ensures forall j :: r < j < end ==> p[j] != '/'
  {
    if end == 0 then -1
    else if p[end - 1] == '/' then end - 1
    else RFindSlash(p, end - 1)
  }

  /** `os.path.basename(p)` on POSIX: everything after the last '/'. */
  function Basename(p: string): (r: string)
    ensures '/' !in r
    ensures |r| <= |p| && r == p[|p| - |r|..]
    ensures |r| < |p| ==> p[|p| - |r| - 1] == '/'
  {
    var i := RFindSlash(p, |p|);
    p[i + 1..]
  }

  predicate IsDigit(c: char) {
    '0' <= c <= '9'
  }

  function DigitChar(d: nat): (c: char)
    requires d < 10
    ensures IsDigit(c)
  {
    ('0' as int + d) as char
  }

  /** `str(n)` for a non-negative integer: its decimal digits without leading zeros. */
  function DecimalString(n: nat): (r: string)
    ensures r != []
    ensures forall i :: 0 <= i < |r| ==> IsDigit(r[i])
    ensures |r| > 1 ==> r[0] != '0'
  {
    if n < 10 then [DigitChar(n)]
    else DecimalString(n / 10) + [DigitChar(n % 10)]
  }

  /** The number a string of decimal digits denotes (the inverse of `DecimalString`). */
  function DecimalValue(s: string): nat
    requires forall i :: 0 <= i < |s| ==> IsDigit(s[i])
  {
    if s == [] then 0
    else
      assert IsDigit(s[|s| - 1]);
      DecimalValue(s[..|s| - 1]) * 10 + (s[|s| - 1] as int - '0' as int)
  }

  lemma {:induction false} DecimalRoundTrip(n: nat)
    ensures DecimalValue(DecimalString(n)) == n
  {
    if n >= 10 {
      var s := DecimalString(n);
      var prefix := DecimalString(n / 10);
      assert s[..|s| - 1] == prefix;
      DecimalRoundTrip(n / 10);
    }
  }

  /** Distinct numbers have distinct decimal strings. */
  lemma DecimalInjective(m: nat, n: nat)
    requires DecimalString(m) == DecimalString(n)
    ensures m == n
  {
    DecimalRoundTrip(m);
    DecimalRoundTrip(n);
  }
}
