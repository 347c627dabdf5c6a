/** The few Python string operations the scripts apply, and `str()` of the
    numbers that end up in the summary sheet. */
module Text {

  function Digit(n: nat): (c: char)
    requires n < 10
    ensures '0' <= c <= '9'
  {
    "0123456789"[n]
  }

  function DigitValue(c: char): nat {
    if '0' <= c <= '9' then (c - '0') as nat else 0
  }

  /** `str(n)` for a non-negative integer: its decimal digits, no leading zero. */
  function NatText(n: nat): (s: string)
    ensures |s| >= 1
    ensures forall i :: 0 <= i < |s| ==> '0' <= s[i] <= '9'
    ensures s[0] == '0' ==> n == 0
    ensures n < 10 ==> s == [Digit(n)]
    decreases n
  {
    if n < 10 then [Digit(n)] else NatText(n / 10) + [Digit(n % 10)]
  }

  /** `int(s)` for a string of decimal digits. */
  function ParseNat(s: string): nat
    decreases |s|
  {
    if |s| == 0 then 0 else ParseNat(s[..|s| - 1]) * 10 + DigitValue(s[|s| - 1])
  }

  /** `int(str(n)) == n`: the rendering loses nothing. */
  lemma {:induction false} ParseNatText(n: nat)
    ensures ParseNat(NatText(n)) == n
    decreases n
  {
    if n < 10 {
      assert DigitValue(Digit(n)) == n;
    } else {
      var head := NatText(n / 10);
      var s := head + [Digit(n % 10)];
      assert NatText(n) == s;
      ParseNatText(n / 10);
      assert s[..|s| - 1] == head;
      assert DigitValue(Digit(n % 10)) == n % 10;
    }
  }

  /** `s[-n:]` for `n > 0`: the last `n` characters, or all of `s` when shorter. */
  function Suffix(s: string, n: nat): (r: string)
    requires n > 0
    ensures |r| <= n && |r| <= |s|
    ensures |r| == n || r == s
    ensures r == s[|s| - |r|..]
  {
    if |s| <= n then s else s[|s| - n..]
  }

  /** `s[:n]` */
  function Take(s: string, n: nat): (r: string)
    ensures |r| <= n
    ensures r <= s
    ensures |s| <= n ==> r == s
    ensures |s| > n ==> |r| == n
  {
    if |s| <= n then s else s[..n]
  }

  /** `s.replace(c, '')` for a one-character `c`. */
  function RemoveAll(s: string, c: char): (r: string)
    ensures c !in r
    ensures forall x :: x in r <==> x in s && x != c
    ensures |r| <= |s|
    ensures c !in s ==> r == s
    ensures multiset(r) == multiset(s)[c := 0]
    decreases |s|
  {
    if |s| == 0 then ""
    else
      var rest := RemoveAll(s[1..], c);
      assert s == [s[0]] + s[1..];
      assert forall x :: x in s <==> x == s[0] || x in s[1..];
      if s[0] == c then rest else [s[0]] + rest
  }

  /** Removal works character by character: on a concatenation it is the
      concatenation of the removals, so the kept characters stay in order. */
  lemma {:induction false} RemoveAllAppend(a: string, b: string, c: char)
    ensures RemoveAll(a + b, c) == RemoveAll(a, c) + RemoveAll(b, c)
    decreases |a|
  {
    if |a| == 0 {
      assert a + b == b;
    } else {
      assert (a + b)[1..] == a[1..] + b;
      RemoveAllAppend(a[1..], b, c);
    }
  }

  /** On one character: dropped when it is `c`, kept otherwise. */
  lemma RemoveAllOne(x: char, c: char)
    ensures RemoveAll([x], c) == if x == c then "" else [x]
  {
  }

  /** `str(k / 100)` for the float Python obtains from `round(x, 2)`, given
      `k` = 100 times that value: the integer part, a point, then one or two
      decimals with a trailing zero dropped (`1.0`, `1.5`, `1.05`). */
  function CentsText(k: nat): (s: string)
    ensures |s| >= 3
    ensures '.' in s
    ensures |s| == |NatText(k / 100)| + 1 + (if k % 10 == 0 then 1 else 2)
    ensures s[..|NatText(k / 100)|] == NatText(k / 100) && s[|NatText(k / 100)|] == '.'
    ensures forall i :: |NatText(k / 100)| < i < |s| ==> '0' <= s[i] <= '9'
  {
    var f := k % 100;
    var frac := if f % 10 == 0 then [Digit(f / 10)] else [Digit(f / 10), Digit(f % 10)];
    NatText(k / 100) + "." + frac
  }

  /** `round(float(s) * 100)` for the text `CentsText` produces: the digits
      before the point count hundreds, one decimal counts tens. */
  function ParseCents(s: string): nat {
    if |s| < 3 then 0
    else if s[|s| - 2] == '.' then ParseNat(s[..|s| - 2]) * 100 + DigitValue(s[|s| - 1]) * 10
    else ParseNat(s[..|s| - 3]) * 100 + DigitValue(s[|s| - 2]) * 10 + DigitValue(s[|s| - 1])
  }

  /** The printed capacity loses nothing of the rounded value. */
  lemma CentsRoundTrip(k: nat)
    ensures ParseCents(CentsText(k)) == k
  {
    var f := k % 100;
    ParseNatText(k / 100);
    assert DigitValue(Digit(f / 10)) == f / 10;
    if f % 10 == 0 {
      CentsOneDecimal(k);
    } else {
      assert DigitValue(Digit(f % 10)) == f % 10;
      CentsTwoDecimals(k);
    }
  }

  lemma CentsOneDecimal(k: nat)
    requires k % 100 % 10 == 0
    ensures ParseCents(CentsText(k)) == ParseNat(NatText(k / 100)) * 100 + DigitValue(Digit(k % 100 / 10)) * 10
  {
  }

  lemma CentsTwoDecimals(k: nat)
    requires k % 100 % 10 != 0
    ensures ParseCents(CentsText(k)) ==
      ParseNat(NatText(k / 100)) * 100 + DigitValue(Digit(k % 100 / 10)) * 10 + DigitValue(Digit(k % 100 % 10))
  {
  }
}
