/** The money and quantity printers and the decimal parser that reads them back. */
module Printing {
  import opened Digits
  import opened Results
  import opened Text

  /** A Decimal: sign, coefficient and exponent; zero may be negative. */
  datatype Decimal = Decimal(neg: bool, coef: nat, exponent: int)

  /** A Decimal in fixed-point form, with its number of decimal places. */
  datatype Dec = Dec(neg: bool, coef: nat, places: nat)

  /** The same number with no positive exponent, which is how both printers write it. */
  function FixedPoint(x: Decimal): Dec {
    if x.exponent <= 0 then Dec(x.neg, x.coef, -x.exponent) else Dec(x.neg, x.coef * Pow10(x.exponent), 0)
  }

  function Quotient(n: nat, d: nat): nat
    requires d > 0
  {
    n / d
  }

  function Remainder(n: nat, d: nat): nat
    requires d > 0
  {
    n % d
  }

  function RoundHalfEven(n: nat, d: nat): nat
    requires d > 0
  {
    var q, r := Quotient(n, d), Remainder(n, d);
    if 2 * r < d || (2 * r == d && q % 2 == 0) then q else q + 1
  }

  /** quantize to p places with the default rounding. */
  function Quantize(x: Dec, p: nat): Dec {
    if x.places <= p then Dec(x.neg, x.coef * Pow10(p - x.places), p)
    else Dec(x.neg, RoundHalfEven(x.coef, Pow10(x.places - p)), p)
  }

  // ----- printers ----------------------------------------------------------------

  /** f"{n:,}": commas between groups of three digits from the right. */
  function Group(s: string): string {
    if |s| <= 3 then s else Group(s[..|s| - 3]) + "," + s[|s| - 3..]
  }

  function WithUnit(text: string, unit: string): string {
    Strip(text + " " + unit, Space)
  }

  function MoneyText(x: Dec): string {
    var q := Quantize(x, 2);
    (if q.neg && q.coef > 0 then "-" else "") + Group(NatToString(Quotient(q.coef, 100))) + "."
        + Padded(Remainder(q.coef, 100), 2)
  }

  /** `money`; an absent amount prints as nothing. */
  function Money(x: Option<Decimal>, currency: string): string {
    match x
    case None => ""
    case Some(d) => WithUnit(MoneyText(FixedPoint(d)), currency)
  }

  /** normalize(): drop trailing zeros of the fraction. */
  function Normalize(x: Dec): Dec
    decreases x.places
  {
    if x.coef == 0 then Dec(x.neg, 0, 0)
    else if x.places > 0 && x.coef % 10 == 0 then Normalize(Dec(x.neg, x.coef / 10, x.places - 1))
    else x
  }

  /** format(x, "f") */
  function Fixed(x: Dec): string {
    (if x.neg then "-" else "")
    + if x.places == 0 then NatToString(x.coef)
      else NatToString(Quotient(x.coef, Pow10(x.places))) + "." + Padded(Remainder(x.coef, Pow10(x.places)), x.places)
  }

  predicate Zero(c: char) { c == '0' }

  predicate Dot(c: char) { c == '.' }

  function Shown(x: Dec): Dec {
    var n := Normalize(x);
    if n.places > 4 then Quantize(n, 4) else n
  }

  function QtyText(x: Dec): string {
    var text := Fixed(Shown(x));
    if '.' in text then StripRight(StripRight(text, Zero), Dot) else text
  }

  /** `qty` */
  function Qty(x: Option<Decimal>, uom: string): string {
    match x
    case None => ""
    case Some(d) => WithUnit(QtyText(FixedPoint(d)), uom)
  }

  // ----- parser ------------------------------------------------------------------

  function RemoveCommas(s: string): string {
    if s == [] then [] else (if s[0] == ',' then [] else [s[0]]) + RemoveCommas(s[1..])
  }

  /** The position of the first point, or |s|. */
  function PointIn(s: string): (i: nat)
    ensures i <= |s| && (i < |s| ==> s[i] == '.') && forall j :: 0 <= j < i ==> s[j] != '.'
  {
    if s == [] || s[0] == '.' then 0 else 1 + PointIn(s[1..])
  }

  /** Digits with at most one point, and at least one digit. */
  function ParseUnsigned(s: string, neg: bool): Option<Dec> {
    var i := PointIn(s);
    var whole, fraction := s[..i], if i < |s| then s[i + 1..] else [];
    if AllDigits(whole) && AllDigits(fraction) && whole + fraction != []
    then Some(Dec(neg, StringToNat(whole + fraction), |fraction|))
    else None
  }

  function ParseNumeral(s: string): Option<Dec> {
    if s != [] && s[0] == '-' then ParseUnsigned(s[1..], true)
    else if s != [] && s[0] == '+' then ParseUnsigned(s[1..], false)
    else ParseUnsigned(s, false)
  }

  /** parse_decimal, with None as the default. */
  function ParseDecimal(value: string): Option<Dec> {
    var s := Strip(value, Space);
    if s == [] then None else ParseNumeral(RemoveCommas(s))
  }

  // ----- reading digits back -------------------------------------------------------

  lemma DivMod(n: nat, d: nat)
    requires d > 0
    ensures Quotient(n, d) * d + Remainder(n, d) == n && Remainder(n, d) < d
  {
  }

  /** A whole part and a padded fraction read back as the coefficient. */
  lemma ReadParts(whole: nat, fraction: nat, places: nat, coef: nat)
    requires places >= 1 && fraction < Pow10(places) && whole * Pow10(places) + fraction == coef
    ensures |Padded(fraction, places)| == places
    ensures StringToNat(NatToString(whole) + Padded(fraction, places)) == coef
  {
    hide NatToString, Padded, StringToNat, Pow10;
    DigitsFit(fraction, places);
    PaddedLength(fraction, places);
    ReadPadded(fraction, places);
    ReadsBack(whole);
    ReadConcat(NatToString(whole), Padded(fraction, places));
  }

  lemma ReadFixed(coef: nat, places: nat)
    requires places >= 1
    ensures |Padded(Remainder(coef, Pow10(places)), places)| == places
    ensures StringToNat(NatToString(Quotient(coef, Pow10(places))) + Padded(Remainder(coef, Pow10(places)), places))
            == coef
  {
    hide *;
    DivMod(coef, Pow10(places));
    ReadParts(Quotient(coef, Pow10(places)), Remainder(coef, Pow10(places)), places, coef);
  }

  // ----- commas --------------------------------------------------------------------

  lemma {:induction false} RemoveCommasConcat(a: string, b: string)
    ensures RemoveCommas(a + b) == RemoveCommas(a) + RemoveCommas(b)
  {
    if a == [] {
      assert a + b == b;
    } else {
      assert (a + b)[1..] == a[1..] + b;
      RemoveCommasConcat(a[1..], b);
    }
  }

  lemma {:induction false} NoCommas(s: string)
    requires ',' !in s
    ensures RemoveCommas(s) == s
  {
    if s != [] {
      NoCommas(s[1..]);
    }
  }

  lemma {:induction false} Ungroup(s: string)
    requires AllDigits(s)
    ensures RemoveCommas(Group(s)) == s
    ensures s != [] ==> Group(s) != [] && IsDigit(Group(s)[0])
  {
    hide RemoveCommas;
    if |s| <= 3 {
      NoCommas(s);
      assert s != [] ==> s[0] in s;
    } else {
      var head, tail := s[..|s| - 3], s[|s| - 3..];
      PartsAreDigits(s, |s| - 3);
      Ungroup(head);
      RemoveGroup(Group(head), tail);
      assert s == head + tail;
    }
  }

  lemma PartsAreDigits(s: string, n: nat)
    requires AllDigits(s) && n <= |s|
    ensures AllDigits(s[..n]) && AllDigits(s[n..])
  {
    assert forall c :: c in s[..n] || c in s[n..] ==> c in s;
  }

  lemma RemoveGroup(head: string, tail: string)
    requires AllDigits(tail)
    ensures RemoveCommas(head + "," + tail) == RemoveCommas(head) + tail
  {
    hide RemoveCommas;
    RemoveCommasConcat(head + ",", tail);
    RemoveCommasConcat(head, ",");
    OneComma();
    NoCommas(tail);
  }

  function FromRight(s: string, i: nat): char
    requires i < |s|
  {
    s[|s| - 1 - i]
  }

  ghost predicate Grouped(g: string) {
    forall i :: 0 <= i < |g| ==> (FromRight(g, i) == ',' <==> i % 4 == 3)
  }

  lemma AddGroup(h: string, tail: string)
    requires Grouped(h) && AllDigits(tail) && |tail| == 3
    ensures Grouped(h + "," + tail)
  {
    var g := h + "," + tail;
    forall i | 0 <= i < |g|
      ensures FromRight(g, i) == ',' <==> i % 4 == 3
    {
      if i < 3 {
        assert FromRight(g, i) == tail[2 - i];
        assert tail[2 - i] in tail;
      } else if i > 3 {
        assert FromRight(g, i) == FromRight(h, i - 4);
      }
    }
  }

  /** Every fourth character from the right is a comma, and no other. */
  lemma {:induction false} GroupPlaces(s: string)
    requires AllDigits(s) && s != []
    ensures |Group(s)| == |s| + (|s| - 1) / 3
    ensures forall i :: 0 <= i < |Group(s)| ==> (FromRight(Group(s), i) == ',' <==> i % 4 == 3)
  {
    if |s| <= 3 {
      assert forall i :: 0 <= i < |s| ==> s[i] in s;
    } else {
      var head, tail := s[..|s| - 3], s[|s| - 3..];
      PartsAreDigits(s, |s| - 3);
      GroupPlaces(head);
      AddGroup(Group(head), tail);
      assert Grouped(Group(head) + "," + tail);
    }
  }

  lemma OneComma()
    ensures RemoveCommas(",") == []
  {
  }

  // ----- round trips -----------------------------------------------------------------

  /** Reading a sign, whole digits, a point and fraction digits. */
  lemma ParseParts(neg: bool, whole: string, fraction: string)
    requires AllDigits(whole) && AllDigits(fraction) && whole != []
    ensures ParseNumeral((if neg then "-" else "") + whole + "." + fraction)
            == Some(Dec(neg, StringToNat(whole + fraction), |fraction|))
    ensures ParseNumeral((if neg then "-" else "") + whole) == Some(Dec(neg, StringToNat(whole), 0))
  {
    hide ParseUnsigned, StringToNat;
    assert whole[0] in whole;
    UnsignedParts(whole, fraction, neg);
    ParseSigned(whole + "." + fraction, neg);
    ParseSigned(whole, neg);
    assert (if neg then "-" else "") + whole + "." + fraction == (if neg then "-" else "") + (whole + "." + fraction);
  }

  lemma ParseSigned(body: string, neg: bool)
    requires body != [] && body[0] != '-' && body[0] != '+'
    ensures ParseNumeral((if neg then "-" else "") + body) == ParseUnsigned(body, neg)
  {
    hide ParseUnsigned;
    var s := (if neg then "-" else "") + body;
    if neg {
      assert s[1..] == body;
    } else {
      assert s == body;
    }
  }

  lemma UnsignedParts(whole: string, fraction: string, neg: bool)
    requires AllDigits(whole) && AllDigits(fraction) && whole != []
    ensures ParseUnsigned(whole + "." + fraction, neg) == Some(Dec(neg, StringToNat(whole + fraction), |fraction|))
    ensures ParseUnsigned(whole, neg) == Some(Dec(neg, StringToNat(whole), 0))
  {
    var s := whole + "." + fraction;
    forall j | 0 <= j < |whole|
      ensures s[j] != '.' && whole[j] != '.'
    {
      assert whole[j] in whole;
    }
    assert s[|whole|] == '.';
    assert PointIn(s) == |whole|;
    assert s[..|whole|] == whole && s[|whole| + 1..] == fraction;
    assert PointIn(whole) == |whole|;
    assert whole[..|whole|] == whole && whole + [] == whole;
  }

  /** Printing money without a currency and parsing it gives the amount rounded half-even to two places,
      through the sign and the thousands separators. */
  lemma MoneyRoundTrip(x: Decimal)
    ensures var q := Quantize(FixedPoint(x), 2);
      ParseDecimal(Money(Some(x), "")) == Some(Dec(q.neg && q.coef > 0, q.coef, 2))
  {
    var q := Quantize(FixedPoint(x), 2);
    var neg := q.neg && q.coef > 0;
    var sign := if neg then "-" else "";
    var whole, fraction := NatToString(Quotient(q.coef, 100)), Padded(Remainder(q.coef, 100), 2);
    MoneyParts(FixedPoint(x), sign, whole, fraction);
    assert Pow10(2) == 100;
    ReadFixed(q.coef, 2);
    ParseParts(neg, whole, fraction);
  }

  lemma MoneyParts(x: Dec, sign: string, whole: string, fraction: string)
    requires var q := Quantize(x, 2);
      sign == (if q.neg && q.coef > 0 then "-" else "") && whole == NatToString(Quotient(q.coef, 100))
          && fraction == Padded(Remainder(q.coef, 100), 2)
    ensures WithUnit(MoneyText(x), "") == MoneyText(x) != []
    ensures RemoveCommas(MoneyText(x)) == sign + whole + "." + fraction
    ensures Strip(MoneyText(x), Space) == MoneyText(x)
  {
    Ungroup(whole);
    var text := MoneyText(x);
    assert text == sign + Group(whole) + "." + fraction;
    assert fraction[|fraction| - 1] in fraction;
    assert text[|text| - 1] == fraction[|fraction| - 1];
    assert text[0] == if sign == "-" then '-' else Group(whole)[0];
    StripNothing(text, Space);
    NoUnit(text);
    assert ',' !in fraction;
    NoCommas(fraction);
    RemoveCommasConcat(sign + Group(whole) + ".", fraction);
    RemoveCommasConcat(sign + Group(whole), ".");
    RemoveCommasConcat(sign, Group(whole));
    NoCommas(sign);
    NoCommas(".");
  }

  lemma NoUnit(text: string)
    requires text != [] && !Space(text[0]) && !Space(text[|text| - 1])
    ensures WithUnit(text, "") == text
  {
    StripRightConcat(text, " " + "", Space);
    assert StripLeft(text + " " + "", Space) == text + " " + "";
    assert text + (" " + "") == text + " " + "";
    assert (" " + "")[..0] == [];
  }

  lemma {:induction false} CommasKeepSpaces(s: string)
    requires ' ' in s
    ensures ' ' in RemoveCommas(s)
  {
    if s[0] != ' ' {
      CommasKeepSpaces(s[1..]);
    }
  }

  lemma SpaceRefused(s: string, neg: bool)
    requires ' ' in s
    ensures ParseUnsigned(s, neg).None?
  {
    var i := PointIn(s);
    if i < |s| {
      assert s == s[..i] + "." + s[i + 1..];
      assert ' ' in s[..i] || ' ' in s[i + 1..];
    } else {
      assert s[..i] == s;
    }
  }

  /** With a currency code behind it the printed amount is not a number to the parser. */
  lemma MoneyWithCurrencyRefused(amount: Decimal, currency: string)
    requires currency != [] && !Space(currency[0]) && !Space(currency[|currency| - 1])
    ensures ParseDecimal(Money(Some(amount), currency)) == None
  {
    hide FixedPoint, Quantize, ParseUnsigned, Strip, RemoveCommas;
    var x := FixedPoint(amount);
    var q := Quantize(x, 2);
    MoneyParts(x, if q.neg && q.coef > 0 then "-" else "", NatToString(Quotient(q.coef, 100)),
               Padded(Remainder(q.coef, 100), 2));
    var text := MoneyText(x) + " " + currency;
    MoneyStart(x);
    assert text[|text| - 1] == currency[|currency| - 1] && text[0] == MoneyText(x)[0];
    StripNothing(text, Space);
    assert text[|MoneyText(x)|] == ' ';
    CommasKeepSpaces(text);
    var s := RemoveCommas(text);
    SpaceRefused(s, false);
    if s[0] == '-' || s[0] == '+' {
      assert s == [s[0]] + s[1..];
      SpaceRefused(s[1..], true);
      SpaceRefused(s[1..], false);
    }
  }

  lemma MoneyStart(x: Dec)
    ensures MoneyText(x) != [] && !Space(MoneyText(x)[0])
  {
    hide Quantize, Padded;
    var q := Quantize(x, 2);
    var whole := NatToString(Quotient(q.coef, 100));
    Ungroup(whole);
    var sign := if q.neg && q.coef > 0 then "-" else "";
    assert MoneyText(x) == sign + Group(whole) + "." + Padded(Remainder(q.coef, 100), 2);
    assert MoneyText(x)[0] == if sign == "-" then '-' else Group(whole)[0];
  }

  // ----- quantities --------------------------------------------------------------------

  /** 10 ** -n */
  function Place(n: nat): (w: real)
    ensures w > 0.0
  {
    if n == 0 then 1.0 else Place(n - 1) / 10.0
  }

  function Magnitude(x: Dec): real { x.coef as real * Place(x.places) }

  /** The number a Decimal stands for. */
  function Number(x: Dec): real { if x.neg then -Magnitude(x) else Magnitude(x) }

  lemma {:induction false} PlaceScale(places: nat, k: nat)
    ensures Pow10(k) as real * Place(places + k) == Place(places)
  {
    if k > 0 {
      PlaceScale(places, k - 1);
      var d, w := Pow10(k - 1), Place(places + k - 1);
      assert Pow10(k) as real == 10.0 * d as real;
      assert Place(places + k) == w / 10.0;
    }
  }

  lemma ScaledBy(coef: nat, d: nat, w: real)
    ensures (coef * d) as real * w == coef as real * (d as real * w)
  {
    assert (coef * d) as real == coef as real * d as real;
  }

  /** k more places and k more zeros leave the number alone. */
  lemma Rescaled(coef: nat, places: nat, k: nat)
    ensures Magnitude(Dec(false, coef * Pow10(k), places + k)) == Magnitude(Dec(false, coef, places))
  {
    hide Pow10, Place;
    PlaceScale(places, k);
    ScaledBy(coef, Pow10(k), Place(places + k));
  }

  /** One more in the exponent is ten times the number, on either side of zero. */
  lemma FixedPointScales(x: Decimal)
    ensures Number(FixedPoint(x.(exponent := x.exponent + 1))) == 10.0 * Number(FixedPoint(x))
    ensures x.exponent == 0 ==> Number(FixedPoint(x)) == if x.neg then -(x.coef as real) else x.coef as real
  {
    var c := x.coef as real;
    if x.exponent < 0 {
      var w := Place(-x.exponent - 1);
      assert Place(-x.exponent) == w / 10.0;
      assert 10.0 * (c * (w / 10.0)) == c * w;
    } else {
      Pow10Step(x.exponent + 1);
      assert x.coef * (10 * Pow10(x.exponent)) == 10 * (x.coef * Pow10(x.exponent));
    }
  }

  /** Trailing zeros are all that trimming removes. */
  lemma {:induction false} TrimmedZeros(s: string)
    requires AllDigits(s)
    ensures var t := StripRight(s, Zero);
      |t| <= |s| && s == t + Zeros(|s| - |t|) && AllDigits(t) && (t != [] ==> t[|t| - 1] != '0')
  {
    hide StripRight, Zeros;
    if s != [] && s[|s| - 1] == '0' {
      var n := |s| - 1;
      PartsAreDigits(s, n);
      assert s == s[..n] + ['0'];
      StripRightDrops(s[..n], '0', Zero);
      TrimmedZeros(s[..n]);
      ZerosSnoc(n - |StripRight(s, Zero)|);
      AppendZeros(s[..n], StripRight(s, Zero), n - |StripRight(s, Zero)|);
    } else {
      StripRightStops(s, Zero);
      assert s + Zeros(0) == s;
    }
  }

  lemma AppendZeros(s: string, t: string, k: nat)
    requires s == t + Zeros(k) && Zeros(k) + "0" == Zeros(k + 1)
    ensures s + ['0'] == t + Zeros(k + 1)
  {
    hide Zeros;
  }

  lemma {:induction false} ZerosSnoc(k: nat)
    ensures Zeros(k) + "0" == Zeros(k + 1)
  {
    if k > 0 {
      ZerosSnoc(k - 1);
      assert "0" + Zeros(k - 1) + "0" == "0" + (Zeros(k - 1) + "0");
    }
  }

  /** The trimmed text of a fixed-point number: whole part, then the fraction without trailing zeros. */
  lemma TrimFixed(sign: string, whole: string, fraction: string)
    requires AllDigits(whole) && whole != [] && AllDigits(fraction)
    ensures var t := StripRight(fraction, Zero);
      StripRight(StripRight(sign + whole + "." + fraction, Zero), Dot)
      == if t == [] then sign + whole else sign + whole + "." + t
  {
    hide StripRight;
    var t, before := StripRight(fraction, Zero), sign + whole + ".";
    StripRightConcat(before, fraction, Zero);
    TrimmedZeros(fraction);
    if t == [] {
      StripRightStops(before, Zero);
      StripRightDrops(sign + whole, '.', Dot);
      assert whole[|whole| - 1] in whole;
      assert (sign + whole)[|sign + whole| - 1] == whole[|whole| - 1];
      StripRightStops(sign + whole, Dot);
    } else {
      assert t[|t| - 1] in t;
      assert (before + t)[|before + t| - 1] == t[|t| - 1];
      StripRightStops(before + t, Dot);
    }
  }

  /** Parsing the trimmed text gives the number the untrimmed parts stand for. */
  lemma ParseTrimmed(neg: bool, whole: string, fraction: string, coef: nat)
    requires AllDigits(whole) && whole != [] && AllDigits(fraction) && StringToNat(whole + fraction) == coef
    ensures var t, sign := StripRight(fraction, Zero), if neg then "-" else "";
      var d := ParseNumeral(if t == [] then sign + whole else sign + whole + "." + t);
      d.Some? && d.value.neg == neg && Magnitude(d.value) == Magnitude(Dec(neg, coef, |fraction|))
  {
    hide StringToNat, ParseNumeral, StripRight, Magnitude;
    var t := StripRight(fraction, Zero);
    TrimmedZeros(fraction);
    var k := |fraction| - |t|;
    ParseParts(neg, whole, t);
    assert whole + fraction == whole + t + Zeros(k);
    ReadConcat(whole, t);
    ReadConcat(whole + t, Zeros(k));
    ReadZeros(k);
    Rescaled(StringToNat(whole + t), |t|, k);
    SameMagnitude(neg, StringToNat(whole + t), |t|);
    SameMagnitude(neg, coef, |fraction|);
    assert t == [] ==> whole + t == whole;
  }

  lemma SameMagnitude(neg: bool, coef: nat, places: nat)
    ensures Magnitude(Dec(neg, coef, places)) == Magnitude(Dec(false, coef, places))
  {
  }

  ghost predicate Clean(text: string) {
    text != [] && WithUnit(text, "") == text && Strip(text, Space) == text && RemoveCommas(text) == text
  }

  lemma WholeText(n: Dec)
    requires n.places == 0
    ensures Clean(Fixed(n)) && '.' !in Fixed(n) && ParseNumeral(Fixed(n)) == Some(n)
  {
    hide ParseNumeral, StringToNat, NatToString;
    var sign, whole := if n.neg then "-" else "", NatToString(n.coef);
    assert Fixed(n) == sign + whole;
    PlainText(sign, whole, "");
    ParseParts(n.neg, whole, "");
    ReadsBack(n.coef);
  }

  lemma FractionText(n: Dec)
    requires n.places > 0
    ensures '.' in Fixed(n)
    ensures var t := StripRight(StripRight(Fixed(n), Zero), Dot);
      Clean(t) && ParseNumeral(t).Some? && ParseNumeral(t).value.neg == n.neg
          && Magnitude(ParseNumeral(t).value) == Magnitude(n)
  {
    hide ParseNumeral, StringToNat, NatToString, Quotient, Remainder, Pow10, Padded, StripRight, Magnitude;
    var sign, whole := if n.neg then "-" else "", NatToString(Quotient(n.coef, Pow10(n.places)));
    var fraction := Padded(Remainder(n.coef, Pow10(n.places)), n.places);
    ReadFixed(n.coef, n.places);
    assert Fixed(n) == sign + whole + "." + fraction;
    assert Fixed(n)[|sign + whole|] == '.';
    TrimFixed(sign, whole, fraction);
    TrimmedZeros(fraction);
    PlainText(sign, whole, StripRight(fraction, Zero));
    ParseTrimmed(n.neg, whole, fraction, n.coef);
  }

  /** Parsing a printed quantity without a unit gives the number that was shown. */
  lemma QtyParses(x: Dec)
    ensures var d := ParseDecimal(WithUnit(QtyText(x), "")); d.Some? && Number(d.value) == Number(Shown(x))
  {
    hide Shown, Magnitude, ParseNumeral, Fixed, StripRight, WithUnit, Strip, RemoveCommas;
    if Shown(x).places == 0 {
      WholeText(Shown(x));
    } else {
      FractionText(Shown(x));
    }
  }

  /** A signed numeral is untouched by trimming, by an absent unit and by comma removal. */
  lemma PlainText(sign: string, whole: string, t: string)
    requires (sign == "-" || sign == "") && AllDigits(whole) && whole != [] && AllDigits(t)
    ensures var text := if t == [] then sign + whole else sign + whole + "." + t;
      Clean(text) && (t == [] ==> '.' !in text)
  {
    hide RemoveCommas, Strip, WithUnit;
    var text := if t == [] then sign + whole else sign + whole + "." + t;
    assert whole[0] in whole && whole[|whole| - 1] in whole;
    if t != [] {
      assert t[|t| - 1] in t;
      assert text[|text| - 1] == t[|t| - 1];
    } else {
      assert text[|text| - 1] == whole[|whole| - 1];
    }
    assert text[0] == if sign == "-" then '-' else whole[0];
    assert ',' !in whole && ',' !in t;
    assert ',' !in text;
    NoUnit(text);
    StripNothing(text, Space);
    NoCommas(text);
  }

  // ----- when a printed quantity is exact ------------------------------------------------

  lemma {:induction false} NormalizeKeeps(x: Dec)
    ensures Magnitude(Normalize(x)) == Magnitude(x) && Normalize(x).neg == x.neg
    ensures Normalize(x).places > 0 ==> Normalize(x).coef % 10 != 0
    decreases x.places
  {
    hide Magnitude;
    if x.coef == 0 {
      ZeroMagnitude(x);
      ZeroMagnitude(Dec(x.neg, 0, 0));
    } else if x.places > 0 && x.coef % 10 == 0 {
      var y := Dec(x.neg, x.coef / 10, x.places - 1);
      NormalizeKeeps(y);
      Rescaled(y.coef, y.places, 1);
      assert Pow10(1) == 10;
      SameMagnitude(x.neg, y.coef, y.places);
      SameMagnitude(x.neg, x.coef, x.places);
    }
  }

  lemma ZeroMagnitude(x: Dec)
    requires x.coef == 0
    ensures Magnitude(x) == 0.0
  {
  }

  /** The nearest multiple, and of two equally near the even one. */
  lemma RoundHalfEvenNear(n: nat, d: nat)
    requires d > 0
    ensures var m := RoundHalfEven(n, d);
      && 2 * (m * d - n) <= d && 2 * (n - m * d) <= d
      && (2 * (m * d - n) == d || 2 * (n - m * d) == d ==> m % 2 == 0)
  {
    hide Quotient, Remainder;
    DivMod(n, d);
    var q := Quotient(n, d);
    assert (q + 1) * d == q * d + d;
  }

  lemma ScaleNear(c: int, d: nat, w: real)
    requires w > 0.0 && 2 * c <= d && -2 * c <= d
    ensures -0.5 * (d as real * w) <= c as real * w <= 0.5 * (d as real * w)
    ensures c != 0 ==> c as real * w != 0.0
  {
    var x, y := c as real, 0.5 * d as real;
    assert -y <= x <= y;
    assert (y - x) * w >= 0.0 && (y + x) * w >= 0.0;
    assert (y - x) * w == y * w - x * w && (y + x) * w == y * w + x * w;
    assert y * w == 0.5 * (d as real * w);
  }

  lemma NotAMultiple(m: nat, k: nat, coef: nat)
    requires k > 0 && coef % 10 != 0
    ensures m * Pow10(k) != coef
  {
    hide Pow10;
    Pow10Step(k);
    var p := Pow10(k - 1);
    assert m * (10 * p) == 10 * (m * p);
    assert 10 * (m * p) % 10 == 0;
  }

  lemma Pow10Step(k: nat)
    requires k > 0
    ensures Pow10(k) == 10 * Pow10(k - 1)
  {
  }

  /** Cutting k places off a coefficient that does not end in 0 changes the number, by at most half of the last
      place. */
  lemma CutNear(coef: nat, k: nat, places: nat)
    requires k > 0 && coef % 10 != 0
    ensures var m := RoundHalfEven(coef, Pow10(k));
      var u, v := Magnitude(Dec(false, m, places)), Magnitude(Dec(false, coef, places + k));
      u != v && -0.5 * Place(places) <= u - v <= 0.5 * Place(places)
  {
    hide Pow10, RoundHalfEven, Place, Magnitude;
    var d, w := Pow10(k), Place(places + k);
    var m := RoundHalfEven(coef, d);
    RoundHalfEvenNear(coef, d);
    NotAMultiple(m, k, coef);
    Rescaled(m, places, k);
    MagnitudeIs(m * d, places + k);
    MagnitudeIs(coef, places + k);
    PlaceScale(places, k);
    DifferNear(m * d, coef, d, w, Magnitude(Dec(false, m, places)), Magnitude(Dec(false, coef, places + k)),
               Place(places));
  }

  /** Quantizing to p places keeps the sign and gives the same number if it has no more places, else the nearest
      with p places, the even one of two equally near. */
  lemma QuantizeIs(x: Dec, p: nat)
    ensures var q, half := Quantize(x, p), 0.5 * Place(p);
      && q.places == p && q.neg == x.neg
      && (x.places <= p ==> Magnitude(q) == Magnitude(x))
      && -half <= Magnitude(q) - Magnitude(x) <= half
      && (Magnitude(q) - Magnitude(x) == half || Magnitude(x) - Magnitude(q) == half ==> q.coef % 2 == 0)
  {
    hide Pow10, RoundHalfEven, Place, Magnitude;
    var q := Quantize(x, p);
    SameMagnitude(x.neg, x.coef, x.places);
    SameMagnitude(x.neg, q.coef, p);
    if x.places <= p {
      Rescaled(x.coef, x.places, p - x.places);
    } else {
      var k := x.places - p;
      var d, w := Pow10(k), Place(x.places);
      RoundHalfEvenNear(x.coef, d);
      Rescaled(q.coef, p, k);
      MagnitudeIs(q.coef * d, x.places);
      MagnitudeIs(x.coef, x.places);
      PlaceScale(p, k);
      ApartBy(q.coef * d, x.coef, d, w, Magnitude(q), Magnitude(x), Place(p));
    }
  }

  /** Integers x and y at most d / 2 apart, scaled by w. */
  lemma ApartBy(x: int, y: int, d: nat, w: real, u: real, v: real, h: real)
    requires w > 0.0 && 2 * (x - y) <= d && 2 * (y - x) <= d
    requires u == x as real * w && v == y as real * w && h == d as real * w
    ensures -0.5 * h <= u - v <= 0.5 * h
    ensures u - v == 0.5 * h ==> 2 * (x - y) == d
    ensures v - u == 0.5 * h ==> 2 * (y - x) == d
  {
    ScaleNear(x - y, d, w);
    SubtractScaled(x, y, w);
    Cancel((x - y) as real, 0.5 * d as real, w);
    Cancel(-((x - y) as real), 0.5 * d as real, w);
  }

  lemma Cancel(x: real, y: real, w: real)
    requires w > 0.0
    ensures x * w == y * w ==> x == y
  {
    assert x * w - y * w == (x - y) * w;
  }

  lemma MagnitudeIs(coef: nat, places: nat)
    ensures Magnitude(Dec(false, coef, places)) == coef as real * Place(places)
  {
    hide Place;
  }

  lemma DifferNear(x: int, y: int, d: nat, w: real, u: real, v: real, h: real)
    requires w > 0.0 && x != y && 2 * (x - y) <= d && 2 * (y - x) <= d
    requires u == x as real * w && v == y as real * w && h == d as real * w
    ensures u != v && -0.5 * h <= u - v <= 0.5 * h
  {
    ScaleNear(x - y, d, w);
    SubtractScaled(x, y, w);
  }

  lemma SubtractScaled(x: int, y: int, w: real)
    ensures (x - y) as real * w == x as real * w - y as real * w
  {
    var a, b := x as real, y as real;
    assert (a - b) * w == a * w - b * w;
  }

  /** A quantity printed without a unit parses back to the same number exactly when it has at most
      four decimals, trailing zeros aside; otherwise to within half of 0.0001. */
  lemma QtyRoundTrip(quantity: Decimal)
    ensures var x, d := FixedPoint(quantity), ParseDecimal(Qty(Some(quantity), ""));
      && d.Some?
      && (Number(d.value) == Number(x) <==> Normalize(x).places <= 4)
      && -0.00005 <= Number(d.value) - Number(x) <= 0.00005
  {
    hide Normalize, Magnitude, ParseDecimal, QtyText, RoundHalfEven, FixedPoint;
    var x := FixedPoint(quantity);
    var n := Normalize(x);
    QtyParses(x);
    NormalizeKeeps(x);
    if n.places > 4 {
      CutNear(n.coef, n.places - 4, 4);
      assert Place(4) == 0.0001;
      SameMagnitude(n.neg, n.coef, n.places);
      SameMagnitude(n.neg, Shown(x).coef, 4);
    }
  }
}
