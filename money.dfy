/** Amounts as the interface writes them: `String(x)` (what `join` and
    string concatenation produce) and `x.toFixed(2)`, for amounts held as
    whole cents, and the reading back of either text. */
module Money {
  import opened Js
  import opened Backend

  /** The fraction part of `String(x)` for a two-decimal number: empty for
      a whole number, trailing zeros dropped otherwise. */
  function FractionText(f: nat): string
    requires f < 100
  {
    if f == 0 then "" else if f % 10 == 0 then "." + [DigitChar(f / 10)] else "." + Digits(f, 2)
  }

  /** The minus sign that starts the text of a negative amount. */
  function SignText(c: Cents): (s: string)
    ensures s == [] || s == "-"
    ensures s == "-" <==> c < 0
  {
    if c < 0 then "-" else ""
  }

  /** `String(amount)` (what `join` writes) for an amount of `c` cents. */
  function AmountText(c: Cents): (s: string)
    ensures s != []
    ensures forall i :: 0 <= i < |s| ==> IsDigit(s[i]) || s[i] == '-' || s[i] == '.'
    ensures s[0] == '-' <==> c < 0
  {
    var n: nat := if c < 0 then -c else c;
    SignText(c) + (NatToString(n / 100) + FractionText(n % 100))
  }

  /** Reading a number back from its text: an optional minus sign, whole
      units, and an optional one- or two-digit fraction. */
  function AmountValue(s: string): int {
    if s != [] && s[0] == '-' then -(UnsignedValue(s[1..]) as int) else UnsignedValue(s)
  }

  function UnsignedValue(s: string): nat {
    var parts := Split(s, '.');
    100 * WholeValue(parts[0]) + (if |parts| > 1 then FractionValue(parts[1]) else 0)
  }

  function WholeValue(s: string): nat {
    if forall i :: 0 <= i < |s| ==> IsDigit(s[i]) then DecimalValue(s) else 0
  }

  function FractionValue(f: string): nat {
    if |f| == 1 && IsDigit(f[0]) then 10 * DigitValue(f[0])
    else if |f| == 2 && IsDigit(f[0]) && IsDigit(f[1]) then DecimalValue(f)
    else 0
  }

  lemma FractionOneDigit(f: nat)
    requires 0 < f < 100 && f % 10 == 0
    ensures FractionText(f) == "." + [DigitChar(f / 10)]
    ensures FractionValue([DigitChar(f / 10)]) == f
  {
  }

  lemma FractionTwoDigits(f: nat)
    requires f < 100 && f % 10 != 0
    ensures FractionText(f) == "." + Digits(f, 2)
    ensures FractionValue(Digits(f, 2)) == f
  {
    assert Pow10(2) == 100;
    DigitsValue(f, 2);
  }

  lemma FractionTextValue(f: nat)
    requires f < 100
    ensures f == 0 ==> FractionText(f) == ""
    ensures f != 0 ==> FractionText(f) == "." + FractionText(f)[1..]
    ensures f != 0 ==> '.' !in FractionText(f)[1..] && FractionValue(FractionText(f)[1..]) == f
  {
    if f != 0 {
      var x: string;
      if f % 10 == 0 {
        FractionOneDigit(f);
        x := [DigitChar(f / 10)];
      } else {
        FractionTwoDigits(f);
        x := Digits(f, 2);
      }
      assert FractionText(f) == "." + x;
      assert FractionText(f)[1..] == x;
      assert forall i :: 0 <= i < |x| ==> IsDigit(x[i]);
    }
  }

  /** Whole-number text has no point, and reads back as its number. */
  lemma WholeOfNat(q: nat)
    ensures '.' !in NatToString(q) && WholeValue(NatToString(q)) == q
  {
    NatToStringValue(q);
  }

  /** Text without a point reads as whole units only. */
  lemma ValueOfWhole(w: string)
    requires '.' !in w
    ensures UnsignedValue(w) == 100 * WholeValue(w)
  {
    SplitWithout(w, '.', "");
  }

  /** Text with one point reads as whole units before it and a fraction after. */
  lemma ValueOfParts(w: string, x: string)
    requires '.' !in w && '.' !in x
    ensures UnsignedValue(w + "." + x) == 100 * WholeValue(w) + FractionValue(x)
  {
    assert w + "." + x == w + ['.'] + x;
    SplitWithout(w, '.', x);
    SplitWithout(x, '.', "");
  }

  /** A leading minus sign negates what the rest reads as. */
  lemma SignedValue(sign: string, u: string)
    requires sign == "" || sign == "-"
    requires u != [] && u[0] != '-'
    ensures AmountValue(sign + u) == if sign == "-" then -(UnsignedValue(u) as int) else UnsignedValue(u)
  {
    if sign == "-" {
      assert (sign + u)[1..] == u;
    } else {
      assert sign + u == u;
    }
  }

  lemma UnsignedTextValue(q: nat, f: nat)
    requires f < 100
    ensures UnsignedValue(NatToString(q) + FractionText(f)) == 100 * q + f
  {
    var w := NatToString(q);
    WholeOfNat(q);
    FractionTextValue(f);
    if f == 0 {
      assert w + FractionText(f) == w;
      ValueOfWhole(w);
    } else {
      var x := FractionText(f)[1..];
      assert w + FractionText(f) == w + "." + x;
      ValueOfParts(w, x);
    }
  }

  /** The amount column loses nothing: the text reads back as the amount. */
  lemma AmountRoundTrip(c: Cents)
    ensures AmountValue(AmountText(c)) == c
  {
    var n: nat := if c < 0 then -c else c;
    var u := NatToString(n / 100) + FractionText(n % 100);
    UnsignedTextValue(n / 100, n % 100);
    SignedValue(SignText(c), u);
  }

  /** Different amounts are written differently. */
  lemma AmountTextInjective(a: Cents, b: Cents)
    ensures AmountText(a) == AmountText(b) <==> a == b
  {
    AmountRoundTrip(a);
    AmountRoundTrip(b);
  }

  /** `x.toFixed(2)`: whole units, a point, and exactly two decimals. */
  function Fixed2(c: Cents): (s: string)
    ensures |s| >= 4 && s[|s| - 3] == '.'
    ensures IsDigit(s[|s| - 2]) && IsDigit(s[|s| - 1])
    ensures s[0] == '-' <==> c < 0
  {
    var n: nat := if c < 0 then -c else c;
    SignText(c) + (NatToString(n / 100) + "." + Digits(n % 100, 2))
  }

  lemma UnsignedFixedValue(q: nat, f: nat)
    requires f < 100
    ensures UnsignedValue(NatToString(q) + "." + Digits(f, 2)) == 100 * q + f
  {
    var x := Digits(f, 2);
    WholeOfNat(q);
    ValueOfParts(NatToString(q), x);
    assert Pow10(2) == 100;
    DigitsValue(f, 2);
  }

  /** The two-decimal text reads back as the amount. */
  lemma Fixed2RoundTrip(c: Cents)
    ensures AmountValue(Fixed2(c)) == c
  {
    var n: nat := if c < 0 then -c else c;
    var u := NatToString(n / 100) + "." + Digits(n % 100, 2);
    UnsignedFixedValue(n / 100, n % 100);
    SignedValue(SignText(c), u);
  }

  // ---------------------------------------------------------------------
  // Intl.NumberFormat("en-US", { style: "currency", currency: "USD" })

  /** Whole units with a comma between groups of three digits. */
  function Grouped(q: nat): string
  {
    if q < 1000 then NatToString(q) else Grouped(q / 1000) + "," + Digits(q % 1000, 3)
  }

  /** A minus sign for a negative amount, then the dollar sign, the grouped
      whole units and exactly two decimals: `-$1,234.50`. */
  function UsdText(c: Cents): (s: string)
    ensures |s| >= 5 && s[|s| - 3] == '.'
    ensures s[0] == '-' <==> c < 0
    ensures s[0] == '$' <==> c >= 0
  {
    var n: nat := if c < 0 then -c else c;
    SignText(c) + ("$" + Grouped(n / 100) + "." + Digits(n % 100, 2))
  }

  /** The text with its dollar signs and group separators removed. */
  function Plain(s: string): string {
    if s == [] then [] else (if s[0] == '$' || s[0] == ',' then [] else [s[0]]) + Plain(s[1..])
  }

  lemma {:induction false} PlainConcat(a: string, b: string)
    ensures Plain(a + b) == Plain(a) + Plain(b)
  {
    if a == [] {
      assert a + b == b;
    } else {
      assert (a + b)[0] == a[0];
      assert (a + b)[1..] == a[1..] + b;
      PlainConcat(a[1..], b);
    }
  }

  lemma {:induction false} PlainDigits(s: string)
    requires forall i :: 0 <= i < |s| ==> IsDigit(s[i])
    ensures Plain(s) == s
  {
    if s != [] {
      PlainDigits(s[1..]);
      assert [s[0]] + s[1..] == s;
    }
  }

  /** The lowest three digits split off a digit string. */
  lemma DigitsThree(q: nat, w: nat)
    ensures Digits(q, w + 3) == Digits(q / 1000, w) + Digits(q % 1000, 3)
  {
    var m := q % 1000;
    assert q / 10 / 10 / 10 == q / 1000;
    assert q / 10 % 10 == m / 10 % 10;
    assert q / 10 / 10 % 10 == m / 10 / 10 % 10;
    assert q % 10 == m % 10;
    var c0, c1, c2 := DigitChar(q % 10), DigitChar(q / 10 % 10), DigitChar(q / 10 / 10 % 10);
    assert Digits(m / 10 / 10, 1) == [c2];
    assert Digits(m / 10, 2) == [c2] + [c1];
    assert Digits(m, 3) == [c2] + [c1] + [c0];
    assert Digits(q / 10 / 10, w + 1) == Digits(q / 1000, w) + [c2];
    assert Digits(q / 10, w + 2) == Digits(q / 1000, w) + [c2] + [c1];
    assert Digits(q, w + 3) == Digits(q / 1000, w) + [c2] + [c1] + [c0];
  }

  lemma NumDigitsThree(q: nat)
    requires q >= 1000
    ensures NumDigits(q) == NumDigits(q / 1000) + 3
  {
    assert q / 10 / 10 / 10 == q / 1000;
  }

  lemma NatToStringThree(q: nat)
    requires q >= 1000
    ensures NatToString(q) == NatToString(q / 1000) + Digits(q % 1000, 3)
  {
    NumDigitsThree(q);
    DigitsThree(q, NumDigits(q / 1000));
  }

  /** Removing the separators from the grouped text gives the plain digits. */
  lemma {:induction false} PlainGrouped(q: nat)
    ensures Plain(Grouped(q)) == NatToString(q)
  {
    if q < 1000 {
      PlainDigits(NatToString(q));
    } else {
      PlainGrouped(q / 1000);
      PlainConcat(Grouped(q / 1000) + ",", Digits(q % 1000, 3));
      PlainConcat(Grouped(q / 1000), ",");
      PlainDigits(Digits(q % 1000, 3));
      NatToStringThree(q);
    }
  }

  lemma PlainUnsigned(q: nat, f: nat)
    ensures Plain("$" + Grouped(q) + "." + Digits(f, 2)) == NatToString(q) + "." + Digits(f, 2)
  {
    var g := Grouped(q);
    var x := Digits(f, 2);
    assert "$" + g + "." + x == "$" + (g + ("." + x));
    PlainConcat("$", g + ("." + x));
    PlainConcat(g, "." + x);
    PlainConcat(".", x);
    PlainGrouped(q);
    PlainDigits(x);
    assert Plain("$") == [];
    assert Plain(".") == ".";
  }

  /** A leading minus sign survives the removal of separators. */
  lemma PlainSign(sign: string, u: string)
    requires sign == "" || sign == "-"
    ensures Plain(sign + u) == sign + Plain(u)
  {
    if sign == "-" {
      PlainConcat(sign, u);
      assert Plain("-") == "-";
    } else {
      assert sign + u == u;
    }
  }

  lemma UsdPlainFixed(c: Cents)
    ensures Plain(UsdText(c)) == Fixed2(c)
  {
    var n: nat := if c < 0 then -c else c;
    PlainUnsigned(n / 100, n % 100);
    PlainSign(SignText(c), "$" + Grouped(n / 100) + "." + Digits(n % 100, 2));
  }

  /** The currency text is the two-decimal text dressed with a dollar sign and
      group separators, so it reads back as the amount. */
  lemma UsdRoundTrip(c: Cents)
    ensures Plain(UsdText(c)) == Fixed2(c)
    ensures AmountValue(Plain(UsdText(c))) == c
  {
    UsdPlainFixed(c);
    Fixed2RoundTrip(c);
  }

  lemma UsdRoundTripAll()
    ensures forall c: Cents :: AmountValue(Plain(UsdText(c))) == c
  {
    forall c: Cents
      ensures AmountValue(Plain(UsdText(c))) == c
    {
      UsdRoundTrip(c);
    }
  }
}
