/**
 Money amounts in minor units, and the decimal text they are read from and printed to. The
 program's numbers are exact integers up to `MAX_EXACT`; results are stated within that range.
 */
module Moneys {
  import opened Basics

  /** `CURRENCY_MINOR_UNITS`; None for an unsupported currency. */
  function MinorUnits(currency: string): (decimals: Option<nat>)
    ensures decimals.Some? ==> decimals.value == 0 || decimals.value == 2
  {
    if currency == "USD" || currency == "EUR" || currency == "GBP" || currency == "CAD" || currency == "AUD" then Some(2)
    else if currency == "JPY" then Some(0)
    else None
  }

  /** 2^53 - 1: up to here every integer and every sum and product below is represented exactly. */
  const MAX_EXACT := 9_007_199_254_740_991

  datatype Money = Money(amountMinor: int, currency: string)

  /** What the private constructor and the currency check guarantee. */
  predicate Valid(m: Money) {
    m.amountMinor >= 0 && MinorUnits(m.currency).Some?
  }

  predicate Exact(m: Money) {
    m.amountMinor <= MAX_EXACT
  }

  // ---------------------------------------------------------------- decimal numerals

  predicate IsDigit(c: char) {
    '0' <= c <= '9'
  }

  predicate Digits(s: string) {
    forall i | 0 <= i < |s| :: IsDigit(s[i])
  }

  function DigitValue(c: char): (v: nat)
    requires IsDigit(c)
    ensures v < 10
  {
    c as int - '0' as int
  }

  function DigitChar(v: nat): (c: char)
    requires v < 10
    ensures IsDigit(c) && DigitValue(c) == v
  {
    (v + '0' as int) as char
  }

  lemma DigitsExactly(c: char)
    requires IsDigit(c)
    ensures c == "0123456789"[DigitValue(c)]
  {
  }

  /** `parseInt` of a digit string; 0 for the empty one, as the code substitutes "0". */
  function Value(s: string): nat
    requires Digits(s)
  {
    if s == "" then 0 else 10 * Value(s[..|s| - 1]) + DigitValue(s[|s| - 1])
  }

  /** `String` of a natural number. */
  function Print(n: nat): (s: string)
    ensures s != "" && Digits(s)
  {
    if n < 10 then [DigitChar(n)] else Print(n / 10) + [DigitChar(n % 10)]
  }

  /** No leading zero. */
  predicate Plain(s: string) {
    Digits(s) && s != "" && (|s| > 1 ==> s[0] != '0')
  }

  function Zeros(n: nat): (s: string)
    ensures |s| == n && Digits(s) && forall i | 0 <= i < n :: s[i] == '0'
  {
    if n == 0 then "" else Zeros(n - 1) + "0"
  }

  function PadStart(s: string, n: nat): string {
    if |s| < n then Zeros(n - |s|) + s else s
  }

  function PadEnd(s: string, n: nat): string {
    if |s| < n then s + Zeros(n - |s|) else s
  }

  function Pow10(n: nat): (p: nat)
    ensures p >= 1
  {
    if n == 0 then 1 else 10 * Pow10(n - 1)
  }

  lemma {:induction false} PrintReads(n: nat)
    ensures Value(Print(n)) == n && Plain(Print(n)) && (n > 0 ==> Print(n)[0] != '0')
  {
    if n < 10 {
      assert Print(n)[..0] == "";
    } else {
      PrintReads(n / 10);
      assert Print(n)[..|Print(n)| - 1] == Print(n / 10);
    }
  }

  lemma {:induction false} ReadPrints(s: string)
    requires Plain(s)
    ensures Print(Value(s)) == s
    decreases |s|
  {
    var n := |s| - 1;
    if n == 0 {
      assert s[..0] == "" && s == [s[0]];
    } else {
      ReadPrints(s[..n]);
      FirstDigitCounts(s[..n]);
      assert s == s[..n] + [s[n]];
    }
  }

  lemma {:induction false} FirstDigitCounts(s: string)
    requires Digits(s) && s != "" && s[0] != '0'
    ensures Value(s) > 0
    decreases |s|
  {
    if |s| > 1 { FirstDigitCounts(s[..|s| - 1]); }
  }

  lemma {:induction false} ZerosCount(n: nat)
    ensures Value(Zeros(n)) == 0
  {
    if n > 0 {
      assert Zeros(n)[..n - 1] == Zeros(n - 1);
      ZerosCount(n - 1);
    }
  }

  lemma TimesTen(a: nat, b: nat)
    ensures 10 * (a * b) == a * (10 * b)
  {
  }

  lemma EmptyValue()
    ensures Value("") == 0
  {
  }

  lemma Pow10Step(n: nat)
    ensures Pow10(0) == 1 && Pow10(n + 1) == 10 * Pow10(n)
  {
  }

  lemma LastDigit(s: string)
    requires Digits(s) && s != ""
    ensures Value(s) == 10 * Value(s[..|s| - 1]) + DigitValue(s[|s| - 1])
  {
  }

  lemma {:induction false} ValueConcat(a: string, b: string)
    requires Digits(a) && Digits(b)
    ensures Value(a + b) == Value(a) * Pow10(|b|) + Value(b)
    decreases |b|
  {
    hide Pow10, Value;
    Pow10Step(if b == "" then 0 else |b| - 1);
    if b == "" {
      assert a + b == a;
      EmptyValue();
    } else {
      var n := |b| - 1;
      ValueConcat(a, b[..n]);
      LastDigit(b);
      LastDigit(a + b);
      assert (a + b)[..|a + b| - 1] == a + b[..n];
      TimesTen(Value(a), Pow10(n));
    }
  }

  lemma PrintAppends(a: nat, d: nat)
    requires d < 10
    ensures Print(10 * a + d) == if a == 0 then [DigitChar(d)] else Print(a) + [DigitChar(d)]
  {
  }

  lemma OneDigit(c: char)
    requires IsDigit(c)
    ensures Value([c]) == DigitValue(c) && Print(DigitValue(c)) == [c]
  {
    assert [c][..0] == "";
  }

  /** Printing the value of a digit string and padding it to the same length gives it back. */
  lemma {:induction false} PaddedPrint(s: string)
    requires Digits(s) && s != ""
    ensures PadStart(Print(Value(s)), |s|) == s
    decreases |s|
  {
    hide Value, Print;
    var n := |s| - 1;
    if n == 0 {
      assert s == [s[0]];
      OneDigit(s[0]);
    } else {
      PaddedPrint(s[..n]);
      LastDigit(s);
      PrintAppends(Value(s[..n]), DigitValue(s[n]));
      assert s == s[..n] + [s[n]];
      if Value(s[..n]) == 0 { PrintsZero(n); }
    }
  }

  lemma PrintsZero(n: nat)
    requires n >= 1
    ensures PadStart(Print(0), n) == Zeros(n)
  {
    assert Print(0) == "0";
  }

  // ---------------------------------------------------------------- reading an amount

  function IndexOfDot(s: string): (i: nat)
    ensures i <= |s| && (forall k | 0 <= k < i :: s[k] != '.') && (i < |s| ==> s[i] == '.')
  {
    if s == "" || s[0] == '.' then 0 else IndexOfDot(s[1..]) + 1
  }

  function Unsigned(s: string): string {
    if s != "" && s[0] == '-' then s[1..] else s
  }

  /** The parts of the text around its first dot, without the sign; no fraction when there is no dot. */
  function Whole(s: string): string {
    Unsigned(s)[..IndexOfDot(Unsigned(s))]
  }

  function Fraction(s: string): string {
    var u := Unsigned(s);
    if IndexOfDot(u) < |u| then u[IndexOfDot(u) + 1..] else ""
  }

  /** The pattern: an optional minus, digits, and optionally a dot and more digits. */
  predicate IsAmount(s: string) {
    var u := Unsigned(s);
    Digits(Whole(s)) && Whole(s) != "" && Digits(Fraction(s)) && (IndexOfDot(u) < |u| ==> Fraction(s) != "")
  }

  /** `Money.fromMajor`; None where it throws. */
  function FromMajor(amount: string, currency: string): Option<Money> {
    if MinorUnits(currency).None? then None
    else if !IsAmount(amount) then None
    else
      var decimals := MinorUnits(currency).value;
      var fraction := Fraction(amount);
      if |fraction| > decimals then None
      else
        var padded := PadEnd(fraction, decimals);
        var sign := if amount[0] == '-' then -1 else 1;
        var minor := sign * (Value(Whole(amount)) * Pow10(decimals) + Value(padded));
        if minor < 0 then None else Some(Money(minor, currency))
  }

  /** `toMajorString` */
  function ToMajorString(m: Money): string
    requires Valid(m)
  {
    var decimals := MinorUnits(m.currency).value;
    if decimals == 0 then Print(m.amountMinor)
    else Print(m.amountMinor / Pow10(decimals)) + "." + PadStart(Print(m.amountMinor % Pow10(decimals)), decimals)
  }

  /** The places each supported currency has. */
  predicate HasPlaces(currency: string, places: nat) {
    (currency in {"USD", "EUR", "GBP", "CAD", "AUD"} && places == 2) || (currency == "JPY" && places == 0)
  }

  lemma PlacesExactly(currency: string)
    ensures forall places: nat :: HasPlaces(currency, places) <==> MinorUnits(currency) == Some(places)
  {
  }

  /** A text is a sign, whole digits and perhaps a dot and more digits. */
  ghost predicate Spells(s: string, sign: string, whole: string, fraction: string) {
    && (sign == "" || sign == "-") && whole != "" && Digits(whole) && Digits(fraction)
    && s == (if fraction == "" then sign + whole else sign + whole + "." + fraction)
  }

  lemma SpelledParts(s: string, sign: string, whole: string, fraction: string)
    requires Spells(s, sign, whole, fraction)
    ensures IsAmount(s) && Whole(s) == whole && Fraction(s) == fraction
  {
    Parts(whole, fraction);
    var u := if fraction == "" then whole else whole + "." + fraction;
    assert s == sign + u && IsDigit(u[0]);
    assert Unsigned(s) == u by { if sign == "-" { assert s[1..] == u; } else { assert s == u; } }
    assert Unsigned(u) == u;
  }

  /** The pattern accepts exactly the texts so made, and the parts taken from them are theirs. */
  lemma AmountExactly(s: string, sign: string, whole: string, fraction: string)
    ensures Spells(s, sign, whole, fraction) ==> IsAmount(s) && Whole(s) == whole && Fraction(s) == fraction
    ensures IsAmount(s) ==> s != "" && Spells(s, if s[0] == '-' then "-" else "", Whole(s), Fraction(s))
  {
    if Spells(s, sign, whole, fraction) { SpelledParts(s, sign, whole, fraction); }
    if IsAmount(s) {
      var u := Unsigned(s);
      assert IndexOfDot(u) < |u| ==> u == u[..IndexOfDot(u)] + "." + u[IndexOfDot(u) + 1..];
      assert s[0] == '-' ==> s == "-" + u;
    }
  }

  // ---------------------------------------------------------------- what is accepted, and what it means

  /** The digits of an amount without the dot. */
  function AllDigits(s: string): string {
    Whole(s) + Fraction(s)
  }

  lemma PaddedValue(fraction: string, n: nat)
    requires Digits(fraction) && |fraction| <= n
    ensures Digits(PadEnd(fraction, n)) && |PadEnd(fraction, n)| == n
    ensures Value(PadEnd(fraction, n)) == Value(fraction) * Pow10(n - |fraction|)
  {
    if |fraction| < n {
      ValueConcat(fraction, Zeros(n - |fraction|));
      ZerosCount(n - |fraction|);
    }
  }

  lemma {:induction false} Pow10Splits(a: nat, b: nat)
    ensures Pow10(a + b) == Pow10(a) * Pow10(b)
  {
    if a > 0 {
      Pow10Splits(a - 1, b);
      assert Pow10(a) * Pow10(b) == 10 * (Pow10(a - 1) * Pow10(b));
    }
  }

  lemma Distributes(w: nat, f: nat, p: nat, r: nat)
    ensures (w * p + f) * r == w * (p * r) + f * r
  {
  }

  /** The minor units of an unsigned amount are its digits, scaled from the places written to the places of the currency. */
  lemma ScaledValue(s: string, decimals: nat)
    requires IsAmount(s) && |Fraction(s)| <= decimals
    ensures Value(Whole(s)) * Pow10(decimals) + Value(PadEnd(Fraction(s), decimals))
            == Value(AllDigits(s)) * Pow10(decimals - |Fraction(s)|)
  {
    var whole, fraction := Whole(s), Fraction(s);
    var rest := decimals - |fraction|;
    PaddedValue(fraction, decimals);
    ValueConcat(whole, fraction);
    Pow10Splits(|fraction|, rest);
    Distributes(Value(whole), Value(fraction), Pow10(|fraction|), Pow10(rest));
  }

  /** The text is refused whatever its size, or its digits at the currency's places are within the exact range. */
  predicate InRange(s: string, currency: string) {
    MinorUnits(currency).Some? && IsAmount(s) && |Fraction(s)| <= MinorUnits(currency).value ==>
      Value(AllDigits(s)) * Pow10(MinorUnits(currency).value - |Fraction(s)|) <= MAX_EXACT
  }

  /**
   What is accepted, for any text in range and any currency: a supported currency, the decimal pattern, no
   more places than the currency has, and a minus only before zero. The amount read is exact:
   scaled by the places written it is the number the digits spell.
   */
  lemma AcceptedExactly(s: string, currency: string)
    requires InRange(s, currency)
    ensures var r := FromMajor(s, currency);
            && (r.Some? <==> MinorUnits(currency).Some? && IsAmount(s) && |Fraction(s)| <= MinorUnits(currency).value
                             && (s[0] == '-' ==> Value(AllDigits(s)) == 0))
            && (r.Some? ==> Valid(r.value) && Exact(r.value) && r.value.currency == currency
                            && r.value.amountMinor == Value(AllDigits(s)) * Pow10(MinorUnits(currency).value - |Fraction(s)|))
  {
    hide Value, Pow10, PadEnd, Whole, Fraction;
    if MinorUnits(currency).Some? && IsAmount(s) && |Fraction(s)| <= MinorUnits(currency).value {
      ScaledValue(s, MinorUnits(currency).value);
      var d, p := Value(AllDigits(s)), Pow10(MinorUnits(currency).value - |Fraction(s)|);
      assert d * p == 0 <==> d == 0;
    }
  }

  // ---------------------------------------------------------------- the canonical form

  /** No sign, no leading zero, and exactly the places of the currency. */
  predicate Canonical(s: string, decimals: nat) {
    s != "" && s[0] != '-' && Plain(Whole(s)) && Digits(Fraction(s)) && |Fraction(s)| == decimals
    && (decimals == 0 ==> s == Whole(s))
  }

  lemma Parts(whole: string, fraction: string)
    requires Digits(whole) && whole != ""
    ensures Whole(whole) == whole && Fraction(whole) == ""
    ensures Whole(whole + "." + fraction) == whole && Fraction(whole + "." + fraction) == fraction
  {
    assert Unsigned(whole) == whole && whole[..|whole|] == whole;
    var s := whole + "." + fraction;
    assert Unsigned(s) == s && s[|whole|] == '.';
    assert IndexOfDot(s) == |whole| by {
      assert forall k | 0 <= k < |whole| :: s[k] == whole[k] && IsDigit(s[k]);
    }
    assert s[..|whole|] == whole && s[|whole| + 1..] == fraction;
  }

  lemma Hundred()
    ensures Pow10(2) == 100 && Pow10(0) == 1
  {
    assert Pow10(1) == 10;
  }

  lemma PrintedIsCanonical(m: Money)
    requires Valid(m) && Exact(m)
    ensures Canonical(ToMajorString(m), MinorUnits(m.currency).value)
    ensures IsAmount(ToMajorString(m))
    ensures Value(AllDigits(ToMajorString(m))) == m.amountMinor
  {
    hide Value, Print, Pow10, PadStart;
    var decimals := MinorUnits(m.currency).value;
    var s := ToMajorString(m);
    if decimals == 0 {
      PrintReads(m.amountMinor);
      Parts(s, "");
      assert s + "" == s;
    } else {
      Hundred();
      var high, low := m.amountMinor / 100, m.amountMinor % 100;
      PrintReads(high);
      PrintReads(low);
      var fraction := PadStart(Print(low), 2);
      TwoPlaces(low);
      Parts(Print(high), fraction);
      ValueConcat(Print(high), fraction);
    }
  }

  lemma TwoPlaces(low: nat)
    requires low < 100
    ensures var f := PadStart(Print(low), 2); |f| == 2 && Digits(f) && Value(f) == low
  {
    PrintReads(low);
    if low < 10 {
      ValueConcat(Zeros(1), Print(low));
      ZerosCount(1);
    } else {
      assert Print(low) == [DigitChar(low / 10)] + [DigitChar(low % 10)];
    }
  }

  /** Printing and reading back gives the same money, for every currency and every exact amount. */
  lemma PrintThenRead(m: Money)
    requires Valid(m) && Exact(m)
    ensures FromMajor(ToMajorString(m), m.currency) == Some(m)
  {
    hide Value, Pow10, ToMajorString, FromMajor, IsAmount, Plain, Fraction, Whole;
    Hundred();
    PrintedIsCanonical(m);
    AcceptedExactly(ToMajorString(m), m.currency);
  }

  /** Reading normalises: an accepted text is printed back as itself exactly when it is canonical. */
  lemma ReadThenPrintExactly(s: string, currency: string)
    requires FromMajor(s, currency).Some? && InRange(s, currency)
    ensures ToMajorString(FromMajor(s, currency).value) == s <==> Canonical(s, MinorUnits(currency).value)
  {
    AcceptedExactly(s, currency);
    var decimals := MinorUnits(currency).value;
    var m := FromMajor(s, currency).value;
    PrintedIsCanonical(m);
    if Canonical(s, decimals) { CanonicalPrints(s, m); }
  }

  lemma CanonicalPrints(s: string, m: Money)
    requires Valid(m) && Canonical(s, MinorUnits(m.currency).value) && IsAmount(s)
    requires m.amountMinor == Value(AllDigits(s)) * Pow10(0)
    ensures ToMajorString(m) == s
  {
    hide Value, Print, Pow10, PadStart;
    var whole, fraction := Whole(s), Fraction(s);
    Hundred();
    ValueConcat(whole, fraction);
    ReadPrints(whole);
    if MinorUnits(m.currency).value == 0 {
      assert whole + fraction == whole;
    } else {
      PaddedPrint(fraction);
      TwoDigits(fraction);
      assert s == whole + "." + fraction;
    }
  }

  lemma TwoDigits(f: string)
    requires Digits(f) && |f| == 2
    ensures Value(f) < 100
  {
    assert f[..1][..0] == "" && f[..2] == f;
    assert Value(f[..1]) == DigitValue(f[0]);
  }

  /** Two canonical texts of one currency that read as the same money are the same text. */
  lemma CanonicalIsUnique(s: string, t: string, currency: string)
    requires FromMajor(s, currency).Some? && FromMajor(s, currency) == FromMajor(t, currency)
    requires InRange(s, currency) && InRange(t, currency)
    requires Canonical(s, MinorUnits(currency).value) && Canonical(t, MinorUnits(currency).value)
    ensures s == t
  {
    ReadThenPrintExactly(s, currency);
    ReadThenPrintExactly(t, currency);
  }
}
