/** The string operations the core takes from Go's `strings` and `fmt`
    packages: `strings.TrimSpace`, `strings.ToUpper` (on the ASCII names it is
    applied to), `%d` formatting of an integer, and the splitting functions
    used to state that the formatted strings can be taken apart again. */
module Text {

  /** Go's `unicode.IsSpace`: the ASCII white space `\t \n \v \f \r` and
      space, U+0085, U+00A0, and the other characters with Unicode's
      White_Space property. */
  predicate IsSpace(c: char)
  {
    || c == ' '
    || ('\t' <= c <= '\r')
    || c == '\U{0085}' || c == '\U{00A0}' || c == '\U{1680}'
    || ('\U{2000}' <= c <= '\U{200A}')
    || c == '\U{2028}' || c == '\U{2029}' || c == '\U{202F}'
    || c == '\U{205F}' || c == '\U{3000}'
  }

  /** `s` without its leading white space. */
  function TrimLeft(s: string): (r: string)
    ensures |r| <= |s| && r == s[|s| - |r|..]
    ensures forall i :: 0 <= i < |s| - |r| ==> IsSpace(s[i])
    ensures |r| > 0 ==> !IsSpace(r[0])
  {
    if |s| > 0 && IsSpace(s[0]) then TrimLeft(s[1..]) else s
  }

  /** `s` without its trailing white space. */
  function TrimRight(s: string): (r: string)
    ensures |r| <= |s| && r == s[..|r|]
    ensures forall i :: |r| <= i < |s| ==> IsSpace(s[i])
    ensures |r| > 0 ==> !IsSpace(r[|r| - 1])
  {
    if |s| > 0 && IsSpace(s[|s| - 1]) then TrimRight(s[..|s| - 1]) else s
  }

  /** Go's `strings.TrimSpace`. */
  function TrimSpace(s: string): string
  {
    TrimRight(TrimLeft(s))
  }

  /** What is left after trimming is exactly the stretch `s[lo..hi]` from
      the first to the last non-space character: everything cut off is white
      space, and what remains starts and ends with a non-space. */
  lemma TrimSpaceIsInnerSlice(s: string) returns (lo: nat, hi: nat)
    ensures lo <= hi <= |s| && TrimSpace(s) == s[lo..hi]
    ensures forall i :: 0 <= i < lo ==> IsSpace(s[i])
    ensures forall i :: hi <= i < |s| ==> IsSpace(s[i])
    ensures lo < hi ==> !IsSpace(s[lo]) && !IsSpace(s[hi - 1])
  {
    var l := TrimLeft(s);
    var r := TrimRight(l);
    lo, hi := InnerSlice(s, l, r);
  }

  /** A part `r` kept from the front of a suffix `l` of `s`, with white
      space cut off around both, is a slice of `s` with white space around it. */
  lemma InnerSlice(s: string, l: string, r: string) returns (lo: nat, hi: nat)
    requires |l| <= |s| && l == s[|s| - |l|..]
    requires forall i :: 0 <= i < |s| - |l| ==> IsSpace(s[i])
    requires |l| > 0 ==> !IsSpace(l[0])
    requires |r| <= |l| && r == l[..|r|]
    requires forall i :: |r| <= i < |l| ==> IsSpace(l[i])
    requires |r| > 0 ==> !IsSpace(r[|r| - 1])
    ensures lo == |s| - |l| && hi == lo + |r| && hi <= |s| && r == s[lo..hi]
    ensures forall i :: 0 <= i < lo ==> IsSpace(s[i])
    ensures forall i :: hi <= i < |s| ==> IsSpace(s[i])
    ensures lo < hi ==> !IsSpace(s[lo]) && !IsSpace(s[hi - 1])
  {
    lo := |s| - |l|;
    hi := lo + |r|;
    forall i | hi <= i < |s| ensures IsSpace(s[i]) {
      assert s[i] == l[i - lo];
    }
    if lo < hi {
      assert r[0] == l[0] && l[0] == s[lo];
      assert r[|r| - 1] == s[hi - 1];
    }
  }

  /** A string is blank when it is white space only. The source tests this
      as `len(strings.TrimSpace(s)) == 0`, and its `isNotEmpty` is the
      negation; `TrimSpaceEmptyIff` shows the two forms agree. */
  predicate Blank(s: string)
  {
    forall i :: 0 <= i < |s| ==> IsSpace(s[i])
  }

  /** A string trims to nothing exactly when it is blank. */
  lemma {:induction false} TrimSpaceEmptyIff(s: string)
    ensures |TrimSpace(s)| == 0 <==> Blank(s)
  {
    var l := TrimLeft(s);
    if |l| > 0 {
      assert !IsSpace(l[0]) && l[0] == s[|s| - |l|];
      assert l == l[..|TrimRight(l)|] + l[|TrimRight(l)|..];
      assert |TrimRight(l)| > 0;
    }
  }

  function UpperChar(c: char): char
  {
    if 'a' <= c <= 'z' then (c as int - 'a' as int + 'A' as int) as char else c
  }

  /** Go's `strings.ToUpper`, for the ASCII letters. */
  function ToUpper(s: string): string
  {
    seq(|s|, i requires 0 <= i < |s| => UpperChar(s[i]))
  }

  /** The index of the first `c` in `s`, or `|s|` when there is none. */
  function IndexOf(s: string, c: char): (k: nat)
    ensures k <= |s|
    ensures forall j :: 0 <= j < k ==> s[j] != c
    ensures k < |s| ==> s[k] == c
  {
    if s == [] then 0 else if s[0] == c then 0 else 1 + IndexOf(s[1..], c)
  }

  /** The index of the last `c` in `s`, or `|s|` when there is none. */
  function LastIndexOf(s: string, c: char): (k: nat)
    ensures k <= |s|
    ensures k < |s| ==> s[k] == c && forall j :: k < j < |s| ==> s[j] != c
    ensures k == |s| ==> forall j :: 0 <= j < |s| ==> s[j] != c
  {
    if s == [] then 0
    else if s[|s| - 1] == c then |s| - 1
    else
      var k := LastIndexOf(s[..|s| - 1], c);
      if k == |s| - 1 then |s| else k
  }

  /** A separator placed after a prefix that does not contain it is found. */
  lemma IndexOfAfter(a: string, c: char, b: string)
    requires c !in a
    ensures IndexOf(a + [c] + b, c) == |a|
    ensures (a + [c] + b)[..|a|] == a && (a + [c] + b)[|a| + 1..] == b
  {
    var s := a + [c] + b;
    assert s[|a|] == c;
    assert s[..|a|] == a;
    assert s[|a| + 1..] == b;
  }

  /** A separator placed before a suffix that does not contain it is found
      from the end. */
  lemma {:induction false} LastIndexOfBefore(a: string, c: char, b: string)
    requires c !in b
    ensures LastIndexOf(a + [c] + b, c) == |a|
    ensures (a + [c] + b)[..|a|] == a && (a + [c] + b)[|a| + 1..] == b
    decreases |b|
  {
    var s := a + [c] + b;
    if b == [] {
      assert s[|s| - 1] == c;
    } else {
      var b' := b[..|b| - 1];
      assert s[..|s| - 1] == a + [c] + b';
      assert s[|s| - 1] == b[|b| - 1];
      LastIndexOfBefore(a, c, b');
    }
    assert s[..|a|] == a;
    assert s[|a| + 1..] == b;
  }

  /** The digit character for `d`. */
  function Digit(d: nat): char
    requires d < 10
  {
    ('0' as int + d) as char
  }

  /** The decimal digits of `n`, most significant first, without leading zeros. */
  function NatToDecimal(n: nat): (r: string)
    ensures |r| > 0
    ensures forall i :: 0 <= i < |r| ==> '0' <= r[i] <= '9'
    ensures r[0] == '0' ==> n == 0
  {
    if n < 10 then [Digit(n)] else NatToDecimal(n / 10) + [Digit(n % 10)]
  }

  /** Go's `%d` verb. */
  function IntToDecimal(i: int): string
  {
    if i < 0 then "-" + NatToDecimal(-i) else NatToDecimal(i)
  }

  /** The value of a string of decimal digits. */
  function ParseDecimal(s: string): nat
    requires forall i :: 0 <= i < |s| ==> '0' <= s[i] <= '9'
  {
    if s == [] then 0
    else ParseDecimal(s[..|s| - 1]) * 10 + (s[|s| - 1] as int - '0' as int)
  }

  /** Decimal formatting loses nothing: the digits read back as the number. */
  lemma {:induction false} NatToDecimalRoundTrip(n: nat)
    ensures ParseDecimal(NatToDecimal(n)) == n
  {
    var s := NatToDecimal(n);
    if n >= 10 {
      NatToDecimalRoundTrip(n / 10);
      assert s[..|s| - 1] == NatToDecimal(n / 10);
    }
  }

  /** `%d` starts with a minus sign exactly for the negative integers. */
  lemma IntToDecimalSign(i: int)
    ensures |IntToDecimal(i)| > 0 && (IntToDecimal(i)[0] == '-' <==> i < 0)
  {
    if i >= 0 {
      assert '0' <= NatToDecimal(i)[0] <= '9';
    }
  }

  /** Distinct naturals have distinct decimal forms. */
  lemma NatToDecimalInjective(m: nat, n: nat)
    requires NatToDecimal(m) == NatToDecimal(n)
    ensures m == n
  {
    NatToDecimalRoundTrip(m);
    NatToDecimalRoundTrip(n);
  }

  /** `%d` of distinct integers gives distinct strings. */
  lemma IntToDecimalInjective(i: int, j: int)
    requires IntToDecimal(i) == IntToDecimal(j)
    ensures i == j
  {
    var s := IntToDecimal(i);
    IntToDecimalSign(i);
    IntToDecimalSign(j);
    if i < 0 && j < 0 {
      assert NatToDecimal(-i) == s[1..] == NatToDecimal(-j);
      NatToDecimalInjective(-i, -j);
    } else if i >= 0 && j >= 0 {
      NatToDecimalInjective(i, j);
    }
  }
}
