/**
 * The `java.lang.String` operations the core relies on: prefix tests,
 * `contains`, `trim`, `toUpperCase`, decimal printing of an `int`, and the
 * separator-joined lists the prompt builder writes.
 */
module Text {

  predicate StartsWith(s: string, prefix: string) {
    |prefix| <= |s| && s[..|prefix|] == prefix
  }

  /** `sub` occurs in `s` starting at index `i`. */
  predicate OccursAt(s: string, sub: string, i: int) {
    0 <= i <= |s| - |sub| && s[i..i + |sub|] == sub
  }

  /** Java's `s.contains(sub)`. */
  predicate Contains(s: string, sub: string) {
    exists i | 0 <= i <= |s| - |sub| :: OccursAt(s, sub, i)
  }

  /** A string contains every piece it is built around. */
  lemma ContainsMiddle(x: string, sub: string, y: string)
    ensures Contains(x + sub + y, sub)
  {
    assert (x + sub + y)[|x|..|x| + |sub|] == sub;
    assert OccursAt(x + sub + y, sub, |x|);
  }

  /** Every character of a contained string occurs in the containing one. */
  lemma ContainsChars(s: string, sub: string, c: char)
    requires Contains(s, sub)
    requires c in sub
    ensures c in s
  {
    var i :| 0 <= i <= |s| - |sub| && OccursAt(s, sub, i);
    var j :| 0 <= j < |sub| && sub[j] == c;
    assert s[i + j] == sub[j];
  }

  /** The first occurrence of `sep` in `s` at or after `from`, or -1 when there is none. */
  function IndexFrom(s: string, sep: string, from: nat): (r: int)
    requires |sep| > 0
    ensures r == -1 || from <= r <= |s| - |sep|
    ensures r >= 0 ==> OccursAt(s, sep, r)
    ensures r >= 0 ==> forall j :: from <= j < r ==> !OccursAt(s, sep, j)
    ensures r < 0 ==> forall j :: from <= j ==> !OccursAt(s, sep, j)
    decreases |s| - from
  {
    if from + |sep| > |s| then -1
    else if s[from..from + |sep|] == sep then from
    else IndexFrom(s, sep, from + 1)
  }

  /** Java's `s.indexOf(sep)`. */
  function IndexOf(s: string, sep: string): int
    requires |sep| > 0
  {
    IndexFrom(s, sep, 0)
  }

  /** An occurrence of `sep` cannot start inside a stretch free of its first character. */
  lemma IndexOfAfterFree(x: string, sep: string, y: string)
    requires |sep| > 0
    requires sep[0] !in x
    ensures IndexOf(x + sep + y, sep) == |x|
  {
    var s := x + sep + y;
    assert OccursAt(s, sep, |x|) by {
      assert s[|x|..|x| + |sep|] == sep;
    }
    forall j | 0 <= j < |x|
      ensures !OccursAt(s, sep, j)
    {
      assert s[j] == x[j];
    }
  }

  lemma IndexOfFree(x: string, sep: string)
    requires |sep| > 0
    requires sep[0] !in x
    ensures IndexOf(x, sep) == -1
  {
    forall j | 0 <= j
      ensures !OccursAt(x, sep, j)
    {
      if j <= |x| - |sep| {
        assert x[j..j + |sep|][0] == x[j];
      }
    }
  }

  /** Java's `s.trim()`: strips leading and trailing characters up to U+0020. */
  function TrimStart(s: string): (r: string)
    ensures |r| <= |s| && r == s[|s| - |r|..]
    ensures forall i :: 0 <= i < |s| - |r| ==> s[i] <= ' '
    ensures r == [] || r[0] > ' '
  {
    if |s| > 0 && s[0] <= ' ' then TrimStart(s[1..]) else s
  }

  function TrimEnd(s: string): (r: string)
    ensures |r| <= |s| && r == s[..|r|]
    ensures forall i :: |r| <= i < |s| ==> s[i] <= ' '
    ensures r == [] || r[|r| - 1] > ' '
  {
    if |s| > 0 && s[|s| - 1] <= ' ' then TrimEnd(s[..|s| - 1]) else s
  }

  function Trim(s: string): string {
    TrimEnd(TrimStart(s))
  }

  /** `s.trim().isEmpty()` holds exactly when every character of `s` is at most U+0020. */
  lemma TrimEmptyIffBlank(s: string)
    ensures Trim(s) == [] <==> forall i :: 0 <= i < |s| ==> s[i] <= ' '
  {
    var t := TrimStart(s);
    if t != [] {
      assert TrimEnd(t) != [] by {
        assert t[0] > ' ';
      }
      assert s[|s| - |t|] == t[0];
    }
  }

  /** Java's `toUpperCase()` on the ASCII letters. */
  function ToUpper(s: string): (r: string)
    ensures |r| == |s|
    ensures forall i :: 0 <= i < |s| ==> !('a' <= r[i] <= 'z')
    ensures forall i :: 0 <= i < |s| && !('a' <= s[i] <= 'z') ==> r[i] == s[i]
  {
    if s == [] then []
    else
      var c := s[0];
      [if 'a' <= c <= 'z' then (c as int - 32) as char else c] + ToUpper(s[1..])
  }

  /** Upper-casing twice is upper-casing once. */
  lemma ToUpperIdempotent(s: string)
    ensures ToUpper(ToUpper(s)) == ToUpper(s)
  {
  }

  predicate IsDigit(c: char) {
    '0' <= c <= '9'
  }

  function DigitChar(d: int): (c: char)
    requires 0 <= d < 10
    ensures IsDigit(c)
  {
    ('0' as int + d) as char
  }

  /** Decimal digits of a natural number, most significant first, without leading zeros. */
  function NatToString(n: nat): (r: string)
    ensures |r| > 0
    ensures forall i :: 0 <= i < |r| ==> IsDigit(r[i])
    ensures |r| > 1 ==> r[0] != '0'
  {
    if n < 10 then [DigitChar(n)] else NatToString(n / 10) + [DigitChar(n % 10)]
  }

  /** Java's `Integer.toString(n)`: a minus sign exactly for negative numbers, then digits. */
  function IntToString(n: int): (r: string)
    ensures |r| > 0
    ensures r[0] == '-' <==> n < 0
    ensures forall i :: 0 <= i < |r| ==> IsDigit(r[i]) || (i == 0 && r[i] == '-')
  {
    if n < 0 then "-" + NatToString(-n) else NatToString(n)
  }

  function DigitValue(c: char): int
    requires IsDigit(c)
  {
    c as int - '0' as int
  }

  /** Reads a string of decimal digits back into the number it denotes. */
  function ParseDigits(s: string): nat
    requires forall i :: 0 <= i < |s| ==> IsDigit(s[i])
  {
    if s == [] then 0 else ParseDigits(s[..|s| - 1]) * 10 + DigitValue(s[|s| - 1])
  }

  function ParseInt(s: string): int
    requires |s| > 0
    requires forall i :: 0 <= i < |s| ==> IsDigit(s[i]) || (i == 0 && s[i] == '-')
  {
    if s[0] == '-' then 0 - ParseDigits(s[1..]) else ParseDigits(s)
  }

  lemma {:induction false} ParseNatToString(n: nat)
    ensures ParseDigits(NatToString(n)) == n
  {
    if n >= 10 {
      var s := NatToString(n);
      assert s[..|s| - 1] == NatToString(n / 10);
      ParseNatToString(n / 10);
    }
  }

  /** The decimal rendering of an integer is read back as that integer. */
  lemma IntToStringRoundTrip(n: int)
    ensures ParseInt(IntToString(n)) == n
  {
    if n < 0 {
      assert IntToString(n)[1..] == NatToString(-n);
      ParseNatToString(-n);
    } else {
      ParseNatToString(n);
    }
  }

  /** Items separated by `sep`, with nothing after the last one. */
  function Join(xs: seq<string>, sep: string): string {
    if |xs| == 0 then ""
    else if |xs| == 1 then xs[0]
    else xs[0] + sep + Join(xs[1..], sep)
  }

  /** Every item followed by `sep`: what a `forEach` appending `item + sep` builds. */
  function Terminated(xs: seq<string>, sep: string): (r: string)
    ensures |xs| > 0 ==> |r| >= |sep| && r[|r| - |sep|..] == sep
  {
    if |xs| == 0 then "" else xs[0] + sep + Terminated(xs[1..], sep)
  }

  /** Cutting the last separator off a terminated list gives the joined list. */
  lemma {:induction false} TerminatedIsJoinPlusSep(xs: seq<string>, sep: string)
    requires |xs| > 0
    ensures Terminated(xs, sep) == Join(xs, sep) + sep
  {
    if |xs| > 1 {
      TerminatedIsJoinPlusSep(xs[1..], sep);
    }
  }

  /** The pieces of `s` between occurrences of `sep`. */
  function SplitOn(s: string, sep: string): seq<string>
    requires |sep| > 0
    decreases |s|
  {
    var i := IndexOf(s, sep);
    if i < 0 then [s] else [s[..i]] + SplitOn(s[i + |sep|..], sep)
  }

  /** Joining items free of the separator's first character, then splitting, gives the items back. */
  lemma {:induction false} SplitJoin(xs: seq<string>, sep: string)
    requires |sep| > 0 && |xs| > 0
    requires forall i :: 0 <= i < |xs| ==> sep[0] !in xs[i]
    ensures SplitOn(Join(xs, sep), sep) == xs
  {
    if |xs| == 1 {
      IndexOfFree(xs[0], sep);
    } else {
      var rest := Join(xs[1..], sep);
      var s := xs[0] + sep + rest;
      IndexOfAfterFree(xs[0], sep, rest);
      assert s[..|xs[0]|] == xs[0];
      assert s[|xs[0]| + |sep|..] == rest;
      SplitJoin(xs[1..], sep);
      assert [xs[0]] + xs[1..] == xs;
    }
  }

  /** A joined list ends with its last item, so it never ends with a dangling separator. */
  lemma {:induction false} JoinEndsWithLast(xs: seq<string>, sep: string)
    requires |xs| > 0
    ensures |xs[|xs| - 1]| <= |Join(xs, sep)|
    ensures Join(xs, sep)[|Join(xs, sep)| - |xs[|xs| - 1]|..] == xs[|xs| - 1]
  {
    if |xs| > 1 {
      JoinEndsWithLast(xs[1..], sep);
      var j := Join(xs[1..], sep);
      var w := xs[0] + sep + j;
      assert w[|w| - |j|..] == j;
    }
  }
}
