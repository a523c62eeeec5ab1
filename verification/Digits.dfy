/** Decimal digits of naturals, as str() and the `d` format write them. */
module Digits {

  predicate IsDigit(c: char) { '0' <= c <= '9' }

  predicate AllDigits(s: string) { forall c :: c in s ==> IsDigit(c) }

  function DigitChar(d: nat): (c: char)
    requires d < 10
    ensures IsDigit(c) && DigitValue(c) == d
  {
    (d + '0' as int) as char
  }

  function DigitValue(c: char): nat
    requires IsDigit(c)
  {
    c as int - '0' as int
  }

  /** str(n) */
  function NatToString(n: nat): (s: string)
    ensures s != [] && AllDigits(s)
  {
    (if n < 10 then [] else NatToString(n / 10)) + [DigitChar(n % 10)]
  }

  /** int(s) for a string of digits; the empty string reads as 0. */
  function StringToNat(s: string): nat
    requires AllDigits(s)
  {
    if s == [] then 0 else 10 * StringToNat(s[..|s| - 1]) + DigitValue(s[|s| - 1])
  }

  lemma {:induction false} ReadsBack(n: nat)
    ensures StringToNat(NatToString(n)) == n
  {
    var s := NatToString(n);
    assert s[..|s| - 1] == if n < 10 then [] else NatToString(n / 10);
    if n >= 10 {
      ReadsBack(n / 10);
    }
  }

  lemma DistinctNumerals(m: nat, n: nat)
    requires NatToString(m) == NatToString(n)
    ensures m == n
  {
    ReadsBack(m);
    ReadsBack(n);
  }

  /** A larger number never has fewer digits. */
  lemma {:induction false} LengthMonotone(m: nat, n: nat)
    requires m <= n
    ensures |NatToString(m)| <= |NatToString(n)|
    decreases n
  {
    if m >= 10 {
      LengthMonotone(m / 10, n / 10);
    }
  }

  function Zeros(k: nat): (s: string)
    ensures |s| == k && AllDigits(s) && forall c :: c in s ==> c == '0'
  {
    if k == 0 then "" else "0" + Zeros(k - 1)
  }

  /** f"{n:0{width}d}" */
  function Padded(n: nat, width: nat): (s: string)
    ensures AllDigits(s) && |s| >= width
  {
    var s := NatToString(n);
    if |s| < width then Zeros(width - |s|) + s else s
  }

  function Pow10(n: nat): (p: nat)
    ensures p >= 1
  {
    if n == 0 then 1 else 10 * Pow10(n - 1)
  }

  lemma {:induction false} ReadConcat(a: string, b: string)
    requires AllDigits(a) && AllDigits(b)
    ensures AllDigits(a + b) && StringToNat(a + b) == StringToNat(a) * Pow10(|b|) + StringToNat(b)
  {
    if b == [] {
      assert a + b == a;
    } else {
      var n := |b| - 1;
      assert b == b[..n] + [b[n]] && b[n] in b;
      assert AllDigits(b[..n]) by {
        forall c | c in b[..n]
          ensures IsDigit(c)
        {
          assert c in b;
        }
      }
      ReadConcat(a, b[..n]);
      assert (a + b)[..|a + b| - 1] == a + b[..n];
      TimesTen(StringToNat(a), Pow10(n), StringToNat(b[..n]));
    }
  }

  lemma TimesTen(x: nat, p: nat, y: nat)
    ensures 10 * (x * p + y) == x * (10 * p) + 10 * y
  {
  }

  lemma {:induction false} ReadZeros(k: nat)
    ensures StringToNat(Zeros(k)) == 0
  {
    if k > 0 {
      ReadZeros(k - 1);
      ReadConcat("0", Zeros(k - 1));
      assert "0"[..0] == [];
    }
  }

  lemma ReadPadded(n: nat, width: nat)
    ensures StringToNat(Padded(n, width)) == n
  {
    hide NatToString, StringToNat, Zeros;
    var s := NatToString(n);
    ReadsBack(n);
    if |s| < width {
      ReadZeros(width - |s|);
      ReadConcat(Zeros(width - |s|), s);
    }
  }

  /** A number below 10 ** width needs no more than width digits. */
  lemma {:induction false} DigitsFit(n: nat, width: nat)
    requires n < Pow10(width) && width >= 1
    ensures |NatToString(n)| <= width
  {
    if n >= 10 {
      DigitsFit(n / 10, width - 1);
    }
  }

  lemma PaddedLength(n: nat, width: nat)
    requires |NatToString(n)| <= width
    ensures |Padded(n, width)| == width
  {
  }

  lemma {:induction false} ReadBelow(s: string)
    requires AllDigits(s)
    ensures StringToNat(s) < Pow10(|s|)
  {
    if s != [] {
      var n := |s| - 1;
      assert s[n] in s && forall c :: c in s[..n] ==> c in s;
      ReadBelow(s[..n]);
    }
  }

  lemma ReadFirst(s: string)
    requires AllDigits(s) && s != []
    ensures IsDigit(s[0]) && AllDigits(s[1..])
    ensures StringToNat(s) == DigitValue(s[0]) * Pow10(|s| - 1) + StringToNat(s[1..])
  {
    hide StringToNat, Pow10;
    assert s[0] in s && forall c :: c in s[1..] ==> c in s;
    assert s == [s[0]] + s[1..];
    ReadConcat([s[0]], s[1..]);
    ReadOne(s[0]);
  }

  lemma ReadOne(c: char)
    requires IsDigit(c)
    ensures StringToNat([c]) == DigitValue(c)
  {
    assert [c][..0] == [];
  }
}
