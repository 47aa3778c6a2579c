/** String helpers the client needs: PHP's default `trim` and the decimal
    rendering PHP uses when an integer is concatenated into a message. */
module Text {

  /** The characters PHP's `trim` strips by default: space, tab, line feed,
      carriage return, NUL and vertical tab. */
  predicate IsTrimSpace(c: char) {
    c == ' ' || c == '\t' || c == '\n' || c == '\r' || c == '\0' || c == '\U{000B}'
  }

  predicate AllTrimSpace(s: string) {
    forall i :: 0 <= i < |s| ==> IsTrimSpace(s[i])
  }

  /** Drops leading trim characters: the result is the longest suffix of `s`
      that does not start with one. */
  function TrimLeft(s: string): (r: string)
    ensures |r| <= |s| && r == s[|s| - |r|..]
    ensures r == [] || !IsTrimSpace(r[0])
    ensures AllTrimSpace(s[..|s| - |r|])
  {
    if s != [] && IsTrimSpace(s[0]) then
      var r := TrimLeft(s[1..]);
      var k := |s| - |r|;
      assert s[1..][..k - 1] == s[1..k];
      assert s[k..] == s[1..][k - 1..];
      assert forall i :: 1 <= i < k ==> s[..k][i] == s[1..k][i - 1];
      r
    else s
  }

  /** Drops trailing trim characters: the result is the longest prefix of `s`
      that does not end with one. */
  function TrimRight(s: string): (r: string)
    ensures |r| <= |s| && r == s[..|r|]
    ensures r == [] || !IsTrimSpace(r[|r| - 1])
    ensures AllTrimSpace(s[|r|..])
  {
    if s != [] && IsTrimSpace(s[|s| - 1]) then
      var r := TrimRight(s[..|s| - 1]);
      assert s[..|s| - 1][..|r|] == s[..|r|];
      assert s[|r|..] == s[..|s| - 1][|r|..] + [s[|s| - 1]];
      r
    else s
  }

  /** PHP `trim($s)` with the default character list. */
  function Trim(s: string): (r: string)
    ensures r == [] || (!IsTrimSpace(r[0]) && !IsTrimSpace(r[|r| - 1]))
  {
    TrimRight(TrimLeft(s))
  }

  /** Trimming leaves nothing exactly when every character is a trim character. */
  lemma TrimEmptyIff(s: string)
    ensures Trim(s) == [] <==> AllTrimSpace(s)
  {
    var l := TrimLeft(s);
    var k := |s| - |l|;
    assert l == s[k..];
    assert l != [] ==> l[0] == s[k];
    assert AllTrimSpace(s) ==> l == [];
    if Trim(s) == [] {
      assert AllTrimSpace(l) by { assert l[0..] == l; }
      assert l == [];
      assert s[..k] == s;
    }
  }

  /** The character for one decimal digit. */
  function DigitChar(d: nat): (c: char)
    requires d < 10
    ensures '0' <= c <= '9' && c as int - '0' as int == d
  {
    ('0' as int + d) as char
  }

  predicate IsDigits(s: string) {
    forall i :: 0 <= i < |s| ==> '0' <= s[i] <= '9'
  }

  /** The decimal digits of `n`, most significant first, without leading zeros. */
  function NatToDecimal(n: nat): (r: string)
    ensures |r| >= 1 && IsDigits(r)
    ensures |r| > 1 ==> r[0] != '0'
    decreases n
  {
    if n < 10 then [DigitChar(n)] else NatToDecimal(n / 10) + [DigitChar(n % 10)]
  }

  /** How PHP renders an integer inside a string concatenation. */
  function IntToDecimal(i: int): (r: string)
    ensures |r| >= 1
    ensures (r[0] == '-') <==> i < 0
  {
    if i < 0 then "-" + NatToDecimal(-i) else NatToDecimal(i)
  }

  /** A rendered integer holds only digits and a leading minus sign. */
  lemma IntToDecimalChars(i: int)
    ensures forall k :: 0 <= k < |IntToDecimal(i)| ==> IntToDecimal(i)[k] == '-' || '0' <= IntToDecimal(i)[k] <= '9'
  {
    if i < 0 {
      var d := NatToDecimal(-i);
      assert forall k :: 1 <= k < |IntToDecimal(i)| ==> IntToDecimal(i)[k] == d[k - 1];
    }
  }

  /** A string `p + x + s` determines its middle `x` once `p` and `s` are
      fixed. */
  lemma MiddleDetermined(p: string, x: string, y: string, s: string)
    ensures p + x + s == p + y + s ==> x == y
  {
    if p + x + s == p + y + s {
      assert x == (p + x + s)[|p|..|p| + |x|];
      assert y == (p + y + s)[|p|..|p| + |y|];
    }
  }

  /** Splitting at the first occurrence of a delimiter: when `x` and `y` do not
      contain `c` and both tails start with it, `x + t == y + u` splits the
      same way on both sides. */
  lemma SplitAtDelimiter(x: string, t: string, y: string, u: string, c: char)
    requires forall k :: 0 <= k < |x| ==> x[k] != c
    requires forall k :: 0 <= k < |y| ==> y[k] != c
    requires |t| > 0 && t[0] == c && |u| > 0 && u[0] == c
    ensures x + t == y + u ==> x == y && t == u
  {
    if x + t == y + u {
      var w := x + t;
      assert w[|x|] == c && w[|y|] == c;
      assert forall k :: 0 <= k < |x| ==> w[k] == x[k];
      assert forall k :: 0 <= k < |y| ==> w[k] == y[k];
      assert |x| == |y|;
      assert x == w[..|x|] && y == w[..|y|];
      assert t == w[|x|..] && u == w[|y|..];
    }
  }

  /** The value of a string of decimal digits (the reading direction of
      `NatToDecimal`). */
  function ParseDigits(s: string): nat
    requires IsDigits(s)
  {
    if s == [] then 0 else ParseDigits(s[..|s| - 1]) * 10 + (s[|s| - 1] as int - '0' as int)
  }

  function ParseDecimal(s: string): int
    requires |s| >= 1 && IsDigits(s[1..]) && (s[0] == '-' || '0' <= s[0] <= '9')
  {
    if s[0] == '-' then -(ParseDigits(s[1..]) as int) else (assert s == [s[0]] + s[1..]; ParseDigits(s))
  }

  lemma {:induction false} NatToDecimalRoundTrip(n: nat)
    ensures ParseDigits(NatToDecimal(n)) == n
    decreases n
  {
    if n >= 10 {
      var s := NatToDecimal(n);
      assert s[..|s| - 1] == NatToDecimal(n / 10);
      NatToDecimalRoundTrip(n / 10);
    }
  }

  /** Reading back the rendered integer gives the integer, so distinct integers
      give distinct messages. */
  lemma IntToDecimalRoundTrip(i: int)
    ensures var s := IntToDecimal(i);
      IsDigits(s[1..]) && (s[0] == '-' || '0' <= s[0] <= '9') && ParseDecimal(s) == i
  {
    var s := IntToDecimal(i);
    if i < 0 {
      assert s[1..] == NatToDecimal(-i);
      NatToDecimalRoundTrip(-i);
    } else {
      NatToDecimalRoundTrip(i);
    }
  }

  lemma IntToDecimalInjective(a: int, b: int)
    ensures IntToDecimal(a) == IntToDecimal(b) ==> a == b
  {
    IntToDecimalRoundTrip(a);
    IntToDecimalRoundTrip(b);
  }
}
