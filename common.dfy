/** Small shared vocabulary: an optional value, decimal rendering of integers
    (what Python f-strings and JavaScript template literals print for an
    integer) and substring search (Python's `in` on strings). */
module Common {

  datatype Option<T> = None | Some(value: T)

  /** The character of one decimal digit. */
  function DigitChar(d: nat): (c: char)
    requires d < 10
    ensures '0' <= c <= '9'
    ensures (c as int) - ('0' as int) == d
  {
    ['0', '1', '2', '3', '4', '5', '6', '7', '8', '9'][d]
  }

  predicate IsDigits(s: string)
  {
    forall i :: 0 <= i < |s| ==> '0' <= s[i] <= '9'
  }

  /** Shortest decimal rendering of a natural number, most significant digit first. */
  function NatToDecimal(n: nat): (s: string)
    ensures |s| >= 1 && IsDigits(s)
    ensures n < 10 <==> |s| == 1
    decreases n
  {
    if n < 10 then [DigitChar(n)] else NatToDecimal(n / 10) + [DigitChar(n % 10)]
  }

  /** Decimal rendering of an integer, with a leading '-' when negative. */
  function IntToDecimal(i: int): (s: string)
    ensures |s| >= 1
    ensures i >= 0 <==> IsDigits(s)
    ensures i < 0 <==> s[0] == '-'
    ensures ',' !in s && '_' !in s
  {
    if i < 0 then
      var s := "-" + NatToDecimal(-i);
      assert s[0] == '-';
      s
    else NatToDecimal(i)
  }

  /** Reading the digits back gives the number: the rendering loses nothing. */
  function DecimalValue(s: string): (n: nat)
    requires IsDigits(s)
  {
    if s == [] then 0
    else 10 * DecimalValue(s[..|s| - 1]) + ((s[|s| - 1] as int) - ('0' as int))
  }

  lemma {:induction false} NatToDecimalRoundTrip(n: nat)
    ensures DecimalValue(NatToDecimal(n)) == n
    decreases n
  {
    if n >= 10 {
      var s := NatToDecimal(n);
      assert s[..|s| - 1] == NatToDecimal(n / 10);
      NatToDecimalRoundTrip(n / 10);
    }
  }

  lemma NatToDecimalInjective(n: nat, m: nat)
    requires NatToDecimal(n) == NatToDecimal(m)
    ensures n == m
  {
    NatToDecimalRoundTrip(n);
    NatToDecimalRoundTrip(m);
  }

  lemma IntToDecimalInjective(i: int, j: int)
    requires IntToDecimal(i) == IntToDecimal(j)
    ensures i == j
  {
    var s := IntToDecimal(i);
    if i < 0 && j < 0 {
      assert NatToDecimal(-i) == s[1..] == NatToDecimal(-j);
      NatToDecimalInjective(-i, -j);
    } else if i >= 0 && j >= 0 {
      NatToDecimalInjective(i, j);
    } else {
      assert false;
    }
  }

  /** Position of the first occurrence of `c` in `s`, or |s| when there is none. */
  function FirstIndexOf(s: string, c: char): (k: nat)
    ensures k <= |s|
  {
    if s == [] || s[0] == c then 0 else 1 + FirstIndexOf(s[1..], c)
  }

  lemma {:induction false} FirstIndexOfJoin(a: string, b: string, sep: char)
    requires sep !in a
    ensures FirstIndexOf(a + [sep] + b, sep) == |a|
    decreases |a|
  {
    if a != [] {
      assert (a + [sep] + b)[1..] == a[1..] + [sep] + b;
      FirstIndexOfJoin(a[1..], b, sep);
    }
  }

  /** When a separator occurs in neither left part, a joined string splits back
      into its parts in exactly one way. */
  lemma SplitAtSeparator(a: string, b: string, c: string, d: string, sep: char)
    requires sep !in a && sep !in c
    requires a + [sep] + b == c + [sep] + d
    ensures a == c && b == d
  {
    var l := a + [sep] + b;
    FirstIndexOfJoin(a, b, sep);
    FirstIndexOfJoin(c, d, sep);
    assert a == l[..|a|] == c;
    assert b == l[|a| + 1..] == d;
  }

  /** Python's `sub in s` for strings. */
  predicate Contains(s: string, sub: string)
    decreases |s|
  {
    |sub| <= |s| && (s[..|sub|] == sub || Contains(s[1..], sub))
  }

  /** A string lacking some character of `sub` does not contain `sub`. */
  lemma {:induction false} NotContainsWithoutChar(s: string, sub: string, i: nat)
    requires i < |sub| && sub[i] !in s
    ensures !Contains(s, sub)
    decreases |s|
  {
    if |sub| <= |s| {
      assert s[..|sub|][i] == s[i];
      NotContainsWithoutChar(s[1..], sub, i);
    }
  }
}
