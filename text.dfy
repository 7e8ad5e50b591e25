/** Character- and string-level helpers standing for the Python `str` operations the core uses. */
module Text {

  /** `s.replace(a, b)` for one-character `a` and `b`. */
  function ReplaceChar(s: string, a: char, b: char): (r: string)
    ensures |r| == |s|
    ensures forall i :: 0 <= i < |s| ==> r[i] == (if s[i] == a then b else s[i])
  {
    seq(|s|, i requires 0 <= i < |s| => if s[i] == a then b else s[i])
  }

  /** Replacing in a concatenation replaces in each part. */
  lemma ReplaceConcat(s: string, t: string, a: char, b: char)
    ensures ReplaceChar(s + t, a, b) == ReplaceChar(s, a, b) + ReplaceChar(t, a, b)
  {
    var l, r := ReplaceChar(s + t, a, b), ReplaceChar(s, a, b) + ReplaceChar(t, a, b);
    forall i | 0 <= i < |l| ensures l[i] == r[i] {
      if i < |s| {
        assert (s + t)[i] == s[i] && r[i] == ReplaceChar(s, a, b)[i];
      } else {
        assert (s + t)[i] == t[i - |s|] && r[i] == ReplaceChar(t, a, b)[i - |s|];
      }
    }
  }

  /** Number of occurrences of `a` in `s`. */
  function Count(s: string, a: char): (n: nat)
    ensures n <= |s|
  {
    if s == [] then 0 else (if s[0] == a then 1 else 0) + Count(s[1..], a)
  }

  /** Counting in a prefix of `s` that holds its first character counts that character, then the rest. */
  lemma CountPrefixes(s: string, a: char)
    requires s != []
    ensures forall i :: 0 < i <= |s| ==> Count(s[..i], a) == (if s[0] == a then 1 else 0) + Count(s[1..][..i - 1], a)
  {
    forall i | 0 < i <= |s|
      ensures Count(s[..i], a) == (if s[0] == a then 1 else 0) + Count(s[1..][..i - 1], a)
    {
      assert s[..i][0] == s[0];
      assert s[..i][1..] == s[1..][..i - 1];
    }
  }

  /**
   * `s.replace(a, "")` for a one-character `a`: every other character is
   * kept, in order, moved left by the number of `a`s before it.
   */
  function RemoveChar(s: string, a: char): (r: string)
    ensures |r| == |s| - Count(s, a)
    ensures forall c :: c in r <==> c in s && c != a
    ensures forall i :: 0 <= i < |s| && s[i] != a ==>
              0 <= i - Count(s[..i], a) < |r| && r[i - Count(s[..i], a)] == s[i]
  {
    if s == [] then []
    else
      var rest := RemoveChar(s[1..], a);
      CountPrefixes(s, a);
      assert s[..0] == [];
      if s[0] == a then rest
      else [s[0]] + rest
  }

  /** `sep.join(parts)`. */
  function Join(sep: string, parts: seq<string>): string
  {
    if |parts| == 0 then ""
    else if |parts| == 1 then parts[0]
    else parts[0] + sep + Join(sep, parts[1..])
  }

  /** `"".join(parts)`: what a loop of `s += part` accumulates. */
  function Concat(parts: seq<string>): string
  {
    if |parts| == 0 then "" else Concat(parts[..|parts| - 1]) + parts[|parts| - 1]
  }

  predicate IsDigit(c: char) { '0' <= c <= '9' }

  function DigitChar(d: nat): (c: char)
    requires d < 10
    ensures IsDigit(c) && c as int - '0' as int == d
  {
    ['0', '1', '2', '3', '4', '5', '6', '7', '8', '9'][d]
  }

  /** Decimal digits of `n`, as Python's `str(n)` for a non-negative int. */
  function NatToString(n: nat): (r: string)
    ensures |r| >= 1
    ensures forall i :: 0 <= i < |r| ==> IsDigit(r[i])
    ensures |r| > 1 ==> r[0] != '0'
    decreases n
  {
    if n < 10 then [DigitChar(n)] else NatToString(n / 10) + [DigitChar(n % 10)]
  }

  /** Python's `str(i)` for an int. */
  function IntToString(i: int): (r: string)
    ensures |r| >= 1
  {
    if i < 0 then "-" + NatToString(-i) else NatToString(i)
  }

  /** Reads back a string of decimal digits. */
  function DigitsValue(s: string): nat
    requires forall i :: 0 <= i < |s| ==> IsDigit(s[i])
  {
    if s == [] then 0
    else
      assert IsDigit(s[|s| - 1]);
      DigitsValue(s[..|s| - 1]) * 10 + (s[|s| - 1] as int - '0' as int)
  }

  lemma {:induction false} NatToStringRoundTrip(n: nat)
    ensures DigitsValue(NatToString(n)) == n
    decreases n
  {
    if n >= 10 {
      var s := NatToString(n);
      assert s[..|s| - 1] == NatToString(n / 10);
      NatToStringRoundTrip(n / 10);
    }
  }

  lemma NatToStringInjective(m: nat, n: nat)
    requires NatToString(m) == NatToString(n)
    ensures m == n
  {
    NatToStringRoundTrip(m);
    NatToStringRoundTrip(n);
  }

  /** Distinct integers print differently, so `n_<id>` variable names never clash. */
  lemma IntToStringInjective(i: int, j: int)
    requires IntToString(i) == IntToString(j)
    ensures i == j
  {
    var si, sj := IntToString(i), IntToString(j);
    if i < 0 {
      assert si[0] == '-';
      assert si[1..] == NatToString(-i) && sj[1..] == NatToString(-j);
      NatToStringInjective(-i, -j);
    } else {
      NatToStringInjective(i, j);
    }
  }

  /** `"%0<width>d" % n`: decimal digits padded on the left with zeros. */
  function ZeroPad(n: nat, width: nat): (r: string)
    ensures |r| == if |NatToString(n)| >= width then |NatToString(n)| else width
    ensures forall i :: 0 <= i < |r| ==> IsDigit(r[i])
  {
    var digits := NatToString(n);
    if |digits| >= width then digits else seq(width - |digits|, _ => '0') + digits
  }

  function Pow10(w: nat): (p: nat)
    ensures p >= 1
  {
    if w == 0 then 1 else 10 * Pow10(w - 1)
  }

  /** A number below `10^w` has at most `w` digits. */
  lemma {:induction false} NatToStringWidth(n: nat, w: nat)
    requires w >= 1 && n < Pow10(w)
    ensures |NatToString(n)| <= w
    decreases n
  {
    if n >= 10 {
      NatToStringWidth(n / 10, w - 1);
    }
  }

  /** Leading zeros do not change the value of a digit string. */
  lemma {:induction false} DigitsValueLeadingZeros(k: nat, s: string)
    requires forall i :: 0 <= i < |s| ==> IsDigit(s[i])
    ensures var z := seq(k, _ => '0') + s;
            (forall i :: 0 <= i < |z| ==> IsDigit(z[i])) && DigitsValue(z) == DigitsValue(s)
    decreases |s| + k
  {
    var z := seq(k, _ => '0') + s;
    if s != [] {
      var init := s[..|s| - 1];
      DigitsValueLeadingZeros(k, init);
      assert z[..|z| - 1] == seq(k, _ => '0') + init;
    } else if k > 0 {
      DigitsValueLeadingZeros(k - 1, s);
      assert z[..|z| - 1] == seq(k - 1, _ => '0') + s;
    }
  }

  /** The padded digits read back as the number. */
  lemma ZeroPadRoundTrip(n: nat, width: nat)
    ensures DigitsValue(ZeroPad(n, width)) == n
  {
    var digits := NatToString(n);
    NatToStringRoundTrip(n);
    if |digits| < width {
      DigitsValueLeadingZeros(width - |digits|, digits);
    }
  }

  /** Within its width, `ZeroPad` is exactly `width` characters long and tells numbers apart. */
  lemma ZeroPadFixedWidth(m: nat, n: nat, width: nat)
    requires width >= 1 && m < Pow10(width) && n < Pow10(width)
    ensures |ZeroPad(m, width)| == width
    ensures ZeroPad(m, width) == ZeroPad(n, width) ==> m == n
  {
    NatToStringWidth(m, width);
    NatToStringWidth(n, width);
    ZeroPadRoundTrip(m, width);
    ZeroPadRoundTrip(n, width);
  }
}
