/**
 * The display and status helpers of src/lib/polar.ts: `formatCurrency`,
 * `formatPrice` and `hasActiveSubscription`. Amounts are whole cents;
 * `cents / 100` printed with `toFixed(2)` is the numeral of the whole
 * dollars, a point, and the two digits of the remaining cents.
 */
module Polar {
  import opened Wrappers

  predicate IsDigit(c: char) { '0' <= c <= '9' }

  predicate AllDigits(s: string) { forall i :: 0 <= i < |s| ==> IsDigit(s[i]) }

  function DigitChar(d: nat): (c: char)
    requires d < 10
    ensures IsDigit(c) && c as int - '0' as int == d
  {
    (d + '0' as int) as char
  }

  function DigitValue(c: char): (d: nat)
    requires IsDigit(c)
    ensures d < 10 && DigitChar(d) == c
  {
    (c as int - '0' as int) as nat
  }

  /** The decimal numeral of `n`: digits only, no leading zero. */
  function Decimal(n: nat): (s: string)
    ensures |s| >= 1 && AllDigits(s)
    ensures |s| > 1 ==> s[0] != '0'
  {
    if n < 10 then [DigitChar(n)] else Decimal(n / 10) + [DigitChar(n % 10)]
  }

  /** The number a string of decimal digits denotes. */
  function ParseDecimal(s: string): nat
    requires AllDigits(s)
  {
    if |s| == 0 then 0 else ParseDecimal(s[..|s| - 1]) * 10 + DigitValue(s[|s| - 1])
  }

  /** Reading a numeral back gives the number it was printed from. */
  lemma {:induction false} DecimalRoundTrip(n: nat)
    ensures ParseDecimal(Decimal(n)) == n
  {
    var s := Decimal(n);
    if n >= 10 {
      assert s[..|s| - 1] == Decimal(n / 10);
      DecimalRoundTrip(n / 10);
    }
  }

  /** `formatCurrency`: "Free" for zero, otherwise `$` and the amount with two decimals. */
  function FormatCurrency(cents: int): (s: string)
    ensures s == "Free" <==> cents == 0
    ensures cents != 0 ==> |s| >= 5 && s[0] == '$' && s[|s| - 3] == '.'
    ensures cents != 0 ==> AllDigits(s[|s| - 2..])
    ensures cents != 0 ==> (s[1] == '-' <==> cents < 0)
    ensures cents != 0 ==> var whole := s[if cents < 0 then 2 else 1..|s| - 3];
                           |whole| >= 1 && AllDigits(whole) && (|whole| > 1 ==> whole[0] != '0')
  {
    if cents == 0 then "Free"
    else
      var magnitude: nat := if cents < 0 then -cents else cents;
      var sign := if cents < 0 then "-" else "";
      var whole := Decimal(magnitude / 100);
      var fraction := [DigitChar(magnitude % 100 / 10), DigitChar(magnitude % 100 % 10)];
      CurrencyLayout(sign, whole, fraction);
      "$" + sign + whole + "." + fraction
  }

  /**
   * Reads a string that `FormatCurrency` could have produced back into cents:
   * "Free", or `$`, an optional minus sign, a numeral, a point and two digits.
   */
  function ParseCurrency(s: string): Option<int> {
    if s == "Free" then Some(0)
    else if |s| < 5 || s[0] != '$' || s[|s| - 3] != '.' then None
    else ParseSigned(s[1..|s| - 3], s[|s| - 2..])
  }

  /** An optional minus sign and a numeral of dollars, with the two digits of cents. */
  function ParseSigned(dollars: string, cents: string): Option<int> {
    if |dollars| > 0 && dollars[0] == '-' then
      match ParseUnsigned(dollars[1..], cents)
      case Some(m) => Some(-(m as int))
      case None => None
    else ParseUnsigned(dollars, cents)
  }

  function ParseUnsigned(dollars: string, cents: string): Option<nat> {
    if |dollars| == 0 || !AllDigits(dollars) || !AllDigits(cents) then None
    else Some(ParseDecimal(dollars) * 100 + ParseDecimal(cents))
  }

  /** Two digits read back as the number they spell. */
  lemma TwoDigitsRoundTrip(tens: nat, ones: nat)
    requires tens < 10 && ones < 10
    ensures ParseDecimal([DigitChar(tens), DigitChar(ones)]) == tens * 10 + ones
  {
    var s := [DigitChar(tens), DigitChar(ones)];
    var first := s[..1];
    assert first == [DigitChar(tens)];
    assert first[..0] == [];
    assert ParseDecimal(first) == DigitValue(DigitChar(tens)) == tens;
    assert ParseDecimal(s) == ParseDecimal(first) * 10 + DigitValue(DigitChar(ones));
  }

  /** `ParseCurrency` reads the text between `$` and the point, and the two digits after it. */
  lemma ParseCurrencySplits(s: string)
    requires |s| >= 5 && s[0] == '$' && s[|s| - 3] == '.'
    ensures ParseCurrency(s) == ParseSigned(s[1..|s| - 3], s[|s| - 2..])
  {
    assert s != "Free" by { assert "Free"[0] == 'F'; }
  }

  /** Where the parts of a formatted amount sit in the string. */
  lemma CurrencyLayout(sign: string, whole: string, fraction: string)
    requires |fraction| == 2
    ensures var s := "$" + sign + whole + "." + fraction;
            && |s| == |sign| + |whole| + 4
            && s[0] == '$' && s[|s| - 3] == '.'
            && s[1..|s| - 3] == sign + whole
            && s[|s| - 2..] == fraction
  {
  }

  /** `ParseUnsigned` reads a numeral of dollars and two digits of cents. */
  lemma ParseUnsignedDigits(whole: string, fraction: string)
    requires |whole| >= 1 && AllDigits(whole) && AllDigits(fraction)
    ensures ParseUnsigned(whole, fraction) == Some(ParseDecimal(whole) * 100 + ParseDecimal(fraction))
  {
  }

  /** How `ParseSigned` reads an amount with or without its minus sign. */
  lemma ParseSignedLayout(negative: bool, whole: string, fraction: string)
    requires |whole| >= 1 && AllDigits(whole) && AllDigits(fraction)
    ensures var magnitude := ParseDecimal(whole) * 100 + ParseDecimal(fraction);
            ParseSigned((if negative then "-" else "") + whole, fraction)
              == Some(if negative then -magnitude else magnitude)
  {
    ParseUnsignedDigits(whole, fraction);
    var dollars := (if negative then "-" else "") + whole;
    if negative {
      assert dollars[0] == '-' && dollars[1..] == whole;
    } else {
      assert dollars == whole;
      assert dollars[0] != '-' by { assert IsDigit(whole[0]); }
    }
  }

  /** The formatted amount names exactly the cents it was made from. */
  lemma CurrencyRoundTrip(cents: int)
    ensures ParseCurrency(FormatCurrency(cents)) == Some(cents)
  {
    if cents != 0 {
      var magnitude: nat := if cents < 0 then -cents else cents;
      var sign := if cents < 0 then "-" else "";
      var whole := Decimal(magnitude / 100);
      var fraction := [DigitChar(magnitude % 100 / 10), DigitChar(magnitude % 100 % 10)];
      CurrencyLayout(sign, whole, fraction);
      ParseCurrencySplits("$" + sign + whole + "." + fraction);
      ParseSignedLayout(cents < 0, whole, fraction);
      DecimalRoundTrip(magnitude / 100);
      TwoDigitsRoundTrip(magnitude % 100 / 10, magnitude % 100 % 10);
      CentsSplit(magnitude);
    }
  }

  /** Whole dollars, tens of cents and cents put back together give the amount. */
  lemma CentsSplit(m: nat)
    ensures m / 100 * 100 + (m % 100 / 10 * 10 + m % 100 % 10) == m
  {
    var c := m % 100;
    assert c / 10 * 10 + c % 10 == c;
  }

  /** Two amounts format alike only when they are equal. */
  lemma FormatCurrencyInjective(a: int, b: int)
    requires FormatCurrency(a) == FormatCurrency(b)
    ensures a == b
  {
    CurrencyRoundTrip(a);
    CurrencyRoundTrip(b);
  }

  /** The examples the helper's documentation gives. */
  lemma FormatCurrencyExamples()
    ensures FormatCurrency(0) == "Free"
    ensures FormatCurrency(1000) == "$10.00"
    ensures FormatCurrency(2999) == "$29.99"
  {
    assert Decimal(10) == "10" by { assert Decimal(1) == "1"; }
    assert Decimal(29) == "29" by { assert Decimal(2) == "2"; }
  }

  /** A price object of the Polar catalog, as far as `formatPrice` reads it. */
  datatype Price = Price(amountType: string, priceAmount: Option<int>, amountCents: Option<int>)

  /** `price.priceAmount || price.amount_cents`: a missing or zero `priceAmount` falls back. */
  function ChargedCents(price: Price): (r: Option<int>)
    ensures price.priceAmount.Some? && price.priceAmount.value != 0 ==> r == price.priceAmount
    ensures price.priceAmount in {None, Some(0)} ==> r == price.amountCents
  {
    if price.priceAmount.Some? && price.priceAmount.value != 0 then price.priceAmount
    else price.amountCents
  }

  /** `formatCurrency` applied to a possibly undefined amount: undefined is falsy, so "Free". */
  function FormatMaybeCurrency(cents: Option<int>): (s: string)
    ensures s == "Free" <==> cents in {None, Some(0)}
    ensures cents.Some? ==> ParseCurrency(s) == cents
    ensures s == FormatCurrency(cents.GetOr(0))
  {
    match cents
    case Some(c) => CurrencyRoundTrip(c); FormatCurrency(c)
    case None => "Free"
  }

  /** `formatPrice`: a missing price is "Free"; otherwise by `amountType`. */
  function FormatPrice(price: Option<Price>): (s: string)
    ensures s == "Pay what you want" <==>
              price.Some? && price.value.amountType != "fixed" && price.value.amountType != "free"
    ensures s == "Free" <==>
              || price.None?
              || price.value.amountType == "free"
              || (price.value.amountType == "fixed" && ChargedCents(price.value) in {None, Some(0)})
    ensures price.Some? && price.value.amountType == "fixed" && ChargedCents(price.value).Some? ==>
              ParseCurrency(s) == ChargedCents(price.value)
    ensures price.Some? && price.value.amountType == "fixed" ==>
              s == FormatCurrency(ChargedCents(price.value).GetOr(0))
  {
    match price
    case None => "Free"
    case Some(p) =>
      if p.amountType == "fixed" then
        CurrencyRoundTrip(ChargedCents(p).GetOr(0));
        FormatMaybeCurrency(ChargedCents(p))
      else if p.amountType == "free" then "Free"
      else "Pay what you want"
  }

  /** The subscription statuses that grant access. */
  const ActiveStatuses: set<string> := {"active", "trialing"}

  /** `hasActiveSubscription`: only an active or trialing subscription grants access. */
  function HasActiveSubscription(status: Option<string>): (r: bool)
    ensures r <==> status == Some("active") || status == Some("trialing")
  {
    status.Some? && status.value in ActiveStatuses
  }

  /** Canceled, revoked, past-due and unknown subscriptions grant no access. */
  lemma InactiveStatuses()
    ensures !HasActiveSubscription(Some("canceled"))
    ensures !HasActiveSubscription(Some("revoked"))
    ensures !HasActiveSubscription(Some("past_due"))
    ensures !HasActiveSubscription(None)
  {
  }
}
