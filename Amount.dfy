/** The amount heuristic of the PIX checkout (api/payment.js): whatever the client sent
    as `amount` becomes an integer number of centavos, and anything below one real is
    refused before the gateway is called. */
module Amount {
  import opened Text
  import opened Js

  /** The literal fallback when neither the body nor the environment gives an amount. */
  const DefaultAmount: string := "64.73"

  /** `FIXED_AMOUNT = amount || process.env.FIXED_AMOUNT || "64.73"`. */
  function FixedAmount(amount: Json, envFixed: Json): Json {
    Or(amount, Or(envFixed, JStr(DefaultAmount)))
  }

  /** `Math.round(Number(s.replace(",", ".")) * 100)`: a decimal string read as reais,
      the first comma standing for the decimal point. */
  function ReaisToCents(s: string): Num {
    RoundTimes100(StringToNumber(ReplaceFirst(s, ',', '.')))
  }

  /** `normalizeAmountToCents(value)`, where `envFixed` is `process.env.FIXED_AMOUNT`. */
  function NormalizeAmountToCents(value: Json, envFixed: Json): (c: Num)
    ensures c.Dec? ==> c.e == 0
  {
    if value == JUndef || value == JNull || value == JStr("") then
      ReaisToCents(ToStr(FixedAmount(value, envFixed)))
    else if value.JStr? && (',' in value.s || '.' in value.s) then
      ReaisToCents(value.s)
    else
      NumberToCents(ToNumber(value))
  }

  /** The last part of `normalizeAmountToCents`, applied to `Number(value)`: a non-finite
      number is 0, a fraction is reais, a whole number up to 1000 is reais, and a larger
      whole number is already centavos. */
  function NumberToCents(numeric: Num): (c: Num)
    ensures c.Dec? ==> c.e == 0
  {
    if !numeric.Dec? then Int(0)
    else if !IsInteger(numeric) then RoundTimes100(numeric)
    else if IntValue(numeric) <= 1000 then Int(IntValue(numeric) * 100)
    else Int(IntValue(numeric))
  }

  /** `!amountCents || amountCents < 100` is false: the amount passes the handler's gate
      exactly when it is at least one real (NaN, zero and anything smaller are refused). */
  predicate AmountAccepted(c: Num)
  {
    !(!NumTruthy(c) || LessThan(c, 100))
  }

  lemma AmountAcceptedMeans(c: Num)
    ensures AmountAccepted(c) <==> c.PosInf? || (c.Dec? && Numerator(c) >= 100 * Denominator(c))
  {
  }

  /** The integer heuristic: up to 1000 is whole reais, above 1000 is already centavos. */
  lemma IntegerAmount(n: int, envFixed: Json)
    ensures NormalizeAmountToCents(JNum(n), envFixed) == if n <= 1000 then Int(100 * n) else Int(n)
  {
    assert Pow10(0) == 1;
    assert IsInteger(Int(n)) && IntValue(Int(n)) == n;
    assert NormalizeAmountToCents(JNum(n), envFixed) == NumberToCents(Int(n));
  }

  /** A numeral without separator is read like the number it writes, heuristic included. */
  lemma NumeralAmount(n: nat, envFixed: Json)
    ensures NormalizeAmountToCents(JStr(NatToString(n)), envFixed) == NormalizeAmountToCents(JNum(n), envFixed)
  {
    var s := NatToString(n);
    assert ',' !in s && '.' !in s by {
      forall i | 0 <= i < |s| ensures s[i] != ',' && s[i] != '.' {
        assert IsDigit(s[i]);
      }
    }
    NumeralToNumber(n);
    assert NormalizeAmountToCents(JStr(s), envFixed) == NumberToCents(ToNumber(JStr(s)));
    assert NormalizeAmountToCents(JNum(n), envFixed) == NumberToCents(ToNumber(JNum(n)));
  }

  /** Writing `whole sep frac` with a comma or a point before the digits of `frac`. */
  function DecimalString(whole: string, sep: char, frac: string): string {
    whole + [sep] + frac
  }

  lemma SeparatorToPoint(whole: string, sep: char, frac: string)
    requires AllDigits(whole) && AllDigits(frac) && (sep == ',' || sep == '.')
    ensures ReplaceFirst(DecimalString(whole, sep, frac), ',', '.') == whole + "." + frac
  {
    var s := DecimalString(whole, sep, frac);
    if sep == ',' {
      assert s[|whole|] == ',' && s[..|whole|] == whole;
      assert ',' !in whole by { assert forall i :: 0 <= i < |whole| ==> IsDigit(whole[i]); }
      assert IndexOf(s, ',') == |whole|;
      assert s[|whole| + 1..] == frac;
    } else {
      assert ',' !in s by {
        forall i | 0 <= i < |s| ensures s[i] != ',' {
          if i < |whole| { assert s[i] == whole[i]; }
          else if i > |whole| { assert s[i] == frac[i - |whole| - 1]; }
        }
      }
    }
  }

  /** A decimal string is the exact reais value it writes, rounded to centavos
      (`Math.round(x * 100)` with halves going up). */
  lemma DecimalAmount(whole: string, sep: char, frac: string, envFixed: Json)
    requires AllDigits(whole) && AllDigits(frac) && |whole| + |frac| > 0
    requires sep == ',' || sep == '.'
    ensures AllDigits(whole + frac)
    ensures NormalizeAmountToCents(JStr(DecimalString(whole, sep, frac)), envFixed)
         == RoundTimes100(Dec(DigitsValue(whole + frac), -|frac|))
  {
    var s := DecimalString(whole, sep, frac);
    assert s[|whole|] == sep;
    assert ',' in s || '.' in s;
    SeparatorToPoint(whole, sep, frac);
    DecimalToNumber(whole, frac);
  }

  /** With at most two fraction digits no rounding happens: reais and centavos are read exactly. */
  lemma ExactDecimalAmount(whole: string, sep: char, frac: string, envFixed: Json)
    requires AllDigits(whole) && AllDigits(frac) && |whole| + |frac| > 0 && |frac| <= 2
    requires sep == ',' || sep == '.'
    ensures NormalizeAmountToCents(JStr(DecimalString(whole, sep, frac)), envFixed)
         == Int(100 * DigitsValue(whole) + DigitsValue(frac) * Pow10(2 - |frac|))
  {
    DecimalAmount(whole, sep, frac, envFixed);
    DecimalCents(whole, frac);
  }

  /** Centavos of `whole.frac` when `frac` has at most two digits. */
  lemma DecimalCents(whole: string, frac: string)
    requires AllDigits(whole) && AllDigits(frac) && |frac| <= 2
    ensures AllDigits(whole + frac)
    ensures RoundTimes100(Dec(DigitsValue(whole + frac), -|frac|))
         == Int(100 * DigitsValue(whole) + DigitsValue(frac) * Pow10(2 - |frac|))
  {
    DigitsValueAppend(whole, frac);
    var v, w, f := DigitsValue(whole + frac), DigitsValue(whole), DigitsValue(frac);
    RoundWholeCents(v, |frac|);
    Pow10Add(|frac|, 2 - |frac|);
    ScaleToCents(v, w, f, Pow10(|frac|), Pow10(2 - |frac|));
  }

  lemma RoundWholeCents(m: int, k: nat)
    requires k <= 2
    ensures RoundTimes100(Dec(m, -(k as int))) == Int(m * Pow10(2 - k))
  {
  }

  lemma ScaleToCents(v: int, w: int, f: int, p: int, q: int)
    requires v == w * p + f && p * q == Pow10(2)
    ensures v * q == 100 * w + f * q
  {
    assert Pow10(2) == 100;
    calc {
      v * q;
      (w * p + f) * q;
      w * (p * q) + f * q;
    }
  }

  /** An absent amount falls back to the configured amount, or to the literal default. */
  lemma FixedAmountFallback(absent: Json, envFixed: Json)
    requires absent == JUndef || absent == JNull || absent == JStr("")
    ensures FixedAmount(absent, envFixed) == (if Truthy(envFixed) then envFixed else JStr(DefaultAmount))
  {
  }

  /** An absent amount is the fixed amount read as reais, never through the integer heuristic. */
  lemma FallbackAmount(absent: Json, envFixed: Json)
    requires absent == JUndef || absent == JNull || absent == JStr("")
    ensures NormalizeAmountToCents(absent, envFixed) == ReaisToCents(ToStr(FixedAmount(absent, envFixed)))
  {
  }

  /** A numeral without separator, read as reais, is a whole number of reais. */
  lemma NumeralReais(n: nat)
    ensures ReaisToCents(NatToString(n)) == Int(100 * n)
  {
    var s := NatToString(n);
    assert ',' !in s by {
      forall i | 0 <= i < |s| ensures s[i] != ',' { assert IsDigit(s[i]); }
    }
    assert ReplaceFirst(s, ',', '.') == s;
    NumeralToNumber(n);
    assert Pow10(2) == 100;
  }

  /** A configured amount is always reais, even without a separator: the integer heuristic
      applies only to amounts sent by the client. */
  lemma ConfiguredNumeralIsReais(n: nat, absent: Json)
    requires absent == JUndef || absent == JNull || absent == JStr("")
    ensures NormalizeAmountToCents(absent, JStr(NatToString(n))) == Int(100 * n)
  {
    var env := JStr(NatToString(n));
    FixedAmountFallback(absent, env);
    FallbackAmount(absent, env);
    assert ToStr(FixedAmount(absent, env)) == NatToString(n);
    NumeralReais(n);
  }

  /** Reading a decimal string as reais, with at most two fraction digits, is exact. */
  lemma ExactReais(s: string, whole: string, sep: char, frac: string)
    requires AllDigits(whole) && AllDigits(frac) && |whole| + |frac| > 0 && |frac| <= 2
    requires sep == ',' || sep == '.'
    requires s == DecimalString(whole, sep, frac)
    ensures ReaisToCents(s)
         == Int(100 * DigitsValue(whole) + DigitsValue(frac) * Pow10(2 - |frac|))
  {
    SeparatorToPoint(whole, sep, frac);
    DecimalToNumber(whole, frac);
    DecimalCents(whole, frac);
  }

  /** The literal default is 6473 centavos. */
  lemma DefaultAmountValue()
    ensures ReaisToCents(DefaultAmount) == Int(6473)
  {
    DefaultAmountSpelled();
    DigitsPair('6', '4');
    DigitsPair('7', '3');
    ExactReais(DefaultAmount, ['6', '4'], '.', ['7', '3']);
  }

  lemma DefaultAmountSpelled()
    ensures DefaultAmount == DecimalString(['6', '4'], '.', ['7', '3'])
  {
  }

  /** An absent amount with no configured amount costs the default 64.73 reais. */
  lemma DefaultAmountCents(absent: Json, envFixed: Json)
    requires absent == JUndef || absent == JNull || absent == JStr("")
    requires !Truthy(envFixed)
    ensures NormalizeAmountToCents(absent, envFixed) == Int(6473)
  {
    FixedAmountFallback(absent, envFixed);
    FallbackAmount(absent, envFixed);
    DefaultAmountValue();
  }

  /** The value of a two-digit numeral. */
  lemma DigitsPair(a: char, b: char)
    requires IsDigit(a) && IsDigit(b)
    ensures AllDigits([a, b]) && DigitsValue([a, b]) == 10 * DigitVal(a) + DigitVal(b)
  {
    assert [a, b][..1] == [a];
    assert [a][..0] == [];
    assert DigitsValue([a]) == DigitVal(a);
  }

  /** Values that are not numbers at all are 0 centavos, which the gate then refuses. */
  lemma NonNumericAmount(value: Json, envFixed: Json)
    requires value.JObj? || (value.JStr? && ',' !in value.s && '.' !in value.s
                             && Trim(value.s) != [] && NotNumberStart(Trim(value.s)[0]))
    ensures NormalizeAmountToCents(value, envFixed) == Int(0)
    ensures !AmountAccepted(NormalizeAmountToCents(value, envFixed))
  {
    if value.JObj? {
      assert ToStr(value) == "[object Object]";
      TrimUnpadded("[object Object]");
      NotANumber("[object Object]");
    } else {
      NotANumber(value.s);
    }
  }

  /** `Number("Infinity") * 100` is not finite, so a client-sent "Infinity" is 0 centavos. */
  lemma InfinityAmount(envFixed: Json)
    ensures NormalizeAmountToCents(JStr("Infinity"), envFixed) == Int(0)
  {
    var s := "Infinity";
    assert ',' !in s && '.' !in s;
    TrimUnpadded(s);
    assert StringToNumber(s) == PosInf;
    assert ToNumber(JStr(s)) == PosInf;
  }

  /** Every amount the gate lets through is at least 100 centavos or the unbounded +Infinity. */
  lemma AcceptedAmountsAreAtLeastOneReal(value: Json, envFixed: Json)
    ensures var c := NormalizeAmountToCents(value, envFixed);
      AmountAccepted(c) ==> c.PosInf? || (c.Dec? && c.e == 0 && c.m >= 100)
  {
    WholeAccepted(NormalizeAmountToCents(value, envFixed));
  }

  lemma WholeAccepted(c: Num)
    requires c.Dec? ==> c.e == 0
    ensures AmountAccepted(c) ==> c.PosInf? || (c.Dec? && c.m >= 100)
    ensures c.PosInf? || (c.Dec? && c.m >= 100) ==> AmountAccepted(c)
  {
    if c.Dec? {
      assert Pow10(0) == 1;
    }
  }
}
