/** String helpers shared by the backend models: Python's `", ".join`,
    character counting and decimal rendering of integers. */
module Text {

  /** Total length of the parts. */
  function TotalLength(parts: seq<string>): nat {
    if |parts| == 0 then 0 else |parts[0]| + TotalLength(parts[1..])
  }

  /** `sep.join(parts)`: the parts in order with one separator between
      neighbours, so it starts with the first part and has one separator
      fewer than there are parts. */
  function Join(sep: string, parts: seq<string>): (r: string)
    ensures |parts| > 0 ==> |parts[0]| <= |r| && r[..|parts[0]|] == parts[0]
    ensures |r| == TotalLength(parts) + (if |parts| == 0 then 0 else (|parts| - 1) * |sep|)
    decreases |parts|
  {
    if |parts| == 0 then ""
    else if |parts| == 1 then parts[0]
    else parts[0] + sep + Join(sep, parts[1..])
  }

  /** `[x] * n` */
  function Repeat(x: string, n: nat): (r: seq<string>)
    ensures |r| == n
    ensures forall i :: 0 <= i < n ==> r[i] == x
  {
    if n == 0 then [] else [x] + Repeat(x, n - 1)
  }

  /** Number of occurrences of `c` in `s`. */
  function CountChar(c: char, s: string): (n: nat)
    ensures n <= |s|
  {
    if |s| == 0 then 0 else (if s[0] == c then 1 else 0) + CountChar(c, s[1..])
  }

  lemma {:induction false} CountCharAppend(c: char, a: string, b: string)
    ensures CountChar(c, a + b) == CountChar(c, a) + CountChar(c, b)
    decreases |a|
  {
    if |a| == 0 {
      assert a + b == b;
    } else {
      assert (a + b)[1..] == a[1..] + b;
      CountCharAppend(c, a[1..], b);
    }
  }

  /** Joining parts that each hold `c` once, with a separator free of `c`,
      gives one `c` per part. */
  lemma {:induction false} CountCharJoin(c: char, sep: string, parts: seq<string>)
    requires CountChar(c, sep) == 0
    requires forall i :: 0 <= i < |parts| ==> CountChar(c, parts[i]) == 1
    ensures CountChar(c, Join(sep, parts)) == |parts|
    decreases |parts|
  {
    if |parts| > 1 {
      CountCharJoin(c, sep, parts[1..]);
      CountCharAppend(c, parts[0], sep);
      CountCharAppend(c, parts[0] + sep, Join(sep, parts[1..]));
    }
  }

  /** A string without `c` counts no `c`. */
  lemma {:induction false} CountCharAbsent(c: char, s: string)
    requires forall i :: 0 <= i < |s| ==> s[i] != c
    ensures CountChar(c, s) == 0
    decreases |s|
  {
    if |s| > 0 {
      CountCharAbsent(c, s[1..]);
    }
  }

  /** Joining parts free of `c` with a separator free of `c` gives a string free of `c`. */
  lemma {:induction false} CountCharJoinNone(c: char, sep: string, parts: seq<string>)
    requires CountChar(c, sep) == 0
    requires forall i :: 0 <= i < |parts| ==> CountChar(c, parts[i]) == 0
    ensures CountChar(c, Join(sep, parts)) == 0
    decreases |parts|
  {
    if |parts| > 1 {
      CountCharJoinNone(c, sep, parts[1..]);
      CountCharAppend(c, parts[0], sep);
      CountCharAppend(c, parts[0] + sep, Join(sep, parts[1..]));
    }
  }

  function DigitChar(d: nat): (c: char)
    requires d < 10
    ensures '0' <= c <= '9'
  {
    ('0' as int + d) as char
  }

  predicate IsDigits(s: string) {
    forall i :: 0 <= i < |s| ==> '0' <= s[i] <= '9'
  }

  /** The number a string of decimal digits denotes (0 for the empty string). */
  function DigitsValue(s: string): nat
    requires IsDigits(s)
    decreases |s|
  {
    if |s| == 0 then 0 else DigitsValue(s[..|s| - 1]) * 10 + (s[|s| - 1] as int - '0' as int)
  }

  /** Decimal digits of `n`, without leading zeros (`str(n)` for n >= 0). */
  function NatToString(n: nat): (s: string)
    ensures |s| >= 1
    ensures IsDigits(s)
    ensures n < 100 ==> |s| <= 2
    ensures n < 10000 ==> |s| <= 4
    decreases n
  {
    if n < 10 then [DigitChar(n)] else NatToString(n / 10) + [DigitChar(n % 10)]
  }

  /** The digits denote `n`, and only 0 is written with a leading zero. */
  lemma {:induction false} NatToStringValue(n: nat)
    ensures DigitsValue(NatToString(n)) == n
    ensures n > 0 ==> NatToString(n)[0] != '0'
    decreases n
  {
    var s := NatToString(n);
    if n >= 10 {
      NatToStringValue(n / 10);
      var prefix := NatToString(n / 10);
      assert s[..|s| - 1] == prefix;
      assert s[0] == prefix[0];
    }
  }

  /** `str(i)` for a Python or JavaScript integer. */
  function IntToString(i: int): (s: string)
    ensures |s| >= 1
  {
    if i < 0 then "-" + NatToString(-i) else NatToString(i)
  }

  /** A minus sign comes first exactly for negative numbers, followed by the
      digits of the magnitude. */
  lemma IntToStringValue(i: int)
    ensures var s := IntToString(i);
      && (s[0] == '-' <==> i < 0)
      && var digits := if i < 0 then s[1..] else s;
      IsDigits(digits) && DigitsValue(digits) == (if i < 0 then -i else i)
  {
    var s := IntToString(i);
    if i < 0 {
      NatToStringValue(-i);
      assert s[1..] == NatToString(-i);
    } else {
      NatToStringValue(i);
    }
  }

  /** `'%0*d' % (width, n)`: left-padded with zeros to at least `width` digits. */
  function ZeroPad(n: nat, width: nat): (s: string)
    ensures |s| >= width
    ensures |NatToString(n)| <= width ==> |s| == width
    ensures IsDigits(s)
  {
    var digits := NatToString(n);
    if |digits| >= width then digits else seq(width - |digits|, _ => '0') + digits
  }

  /** A string of zeros denotes 0. */
  lemma {:induction false} ZerosValue(z: string)
    requires forall i :: 0 <= i < |z| ==> z[i] == '0'
    ensures DigitsValue(z) == 0
    decreases |z|
  {
    if |z| > 0 {
      ZerosValue(z[..|z| - 1]);
    }
  }

  /** Leading zeros do not change the value. */
  lemma {:induction false} LeadingZerosValue(z: string, s: string)
    requires forall i :: 0 <= i < |z| ==> z[i] == '0'
    requires IsDigits(s)
    ensures IsDigits(z + s) && DigitsValue(z + s) == DigitsValue(s)
    decreases |s|
  {
    if |s| == 0 {
      assert z + s == z;
      ZerosValue(z);
    } else {
      LeadingZerosValue(z, s[..|s| - 1]);
      assert (z + s)[..|z + s| - 1] == z + s[..|s| - 1];
    }
  }

  /** The padding denotes the same number. */
  lemma ZeroPadValue(n: nat, width: nat)
    ensures DigitsValue(ZeroPad(n, width)) == n
  {
    NatToStringValue(n);
    var digits := NatToString(n);
    if |digits| < width {
      LeadingZerosValue(seq(width - |digits|, _ => '0'), digits);
    }
  }
}
