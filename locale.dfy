/**
 * Conversion of balances written in the Brazilian locale ("1.234,56") to
 * numbers: every '.' (thousands separator) is deleted, ',' becomes '.',
 * and the text is parsed; text that does not parse becomes a null cell
 * instead of an error (pd.to_numeric with errors="coerce").
 * Numbers are exact reals rather than binary floats.
 */
module Locale {
  import opened Wrappers
  import opened Text
  import opened Collections

  /** n / 10^k, written as k divisions by ten. */
  function Shifted(n: nat, k: nat): (r: real)
    ensures r >= 0.0
  {
    if k == 0 then n as real else Shifted(n, k - 1) / 10.0
  }

  /** The value of a string of decimal digits, most significant first. */
  function DigitsValue(s: string): nat
    requires AllDigits(s)
  {
    if |s| == 0 then 0 else DigitsValue(s[..|s| - 1]) * 10 + DigitValue(s[|s| - 1])
  }

  lemma DigitsAppend(a: string, b: string)
    requires AllDigits(a) && AllDigits(b)
    ensures AllDigits(a + b)
  {
    assert forall i :: 0 <= i < |a + b| ==> (a + b)[i] == (if i < |a| then a[i] else b[i - |a|]);
  }

  /**
   * digits[.digits], with at least one digit in all; "d.f" is the integer
   * d followed by f, scaled down by one power of ten per digit of f.
   */
  function ParseUnsigned(s: string): (r: Option<real>)
    ensures r.Some? ==> r.value >= 0.0
    ensures AllDigits(s) && |s| > 0 ==> r == Some(DigitsValue(s) as real)
  {
    match IndexOf(s, '.')
    case None =>
      if |s| > 0 && AllDigits(s) then Some(DigitsValue(s) as real) else None
    case Some(k) =>
      var whole, frac := s[..k], s[k + 1..];
      if |whole| + |frac| > 0 && AllDigits(whole + frac)
      then Some(Shifted(DigitsValue(whole + frac), |frac|))
      else None
  }

  /**
   * pd.to_numeric on one cell, restricted to an optional sign followed by
   * digits with an optional fraction; anything else is null.
   */
  function ParseNumber(s: string): (r: Option<real>)
    ensures |s| > 0 && s[0] == '-' ==> r == (match ParseUnsigned(s[1..])
                                             case None => None
                                             case Some(v) => Some(-v))
    ensures |s| > 0 && s[0] == '+' ==> r == ParseUnsigned(s[1..])
    ensures |s| == 0 ==> r.None?
  {
    if |s| > 0 && s[0] == '-' then
      match ParseUnsigned(s[1..])
      case None => None
      case Some(v) => Some(-v)
    else if |s| > 0 && s[0] == '+' then ParseUnsigned(s[1..])
    else ParseUnsigned(s)
  }

  /** The text handed to the parser: thousands dots removed, decimal comma made a dot. */
  function Delocalize(s: string): (r: string)
    ensures ',' !in r
    ensures |r| <= |s|
  {
    ReplaceChar(DeleteChar(s, '.'), ',', '.')
  }

  /** The balance conversion applied to one VL_SALDO_FINAL cell. */
  function ToNumber(cell: Option<string>): (r: Option<real>)
    ensures cell.None? ==> r.None?
    ensures cell.Some? ==> r == ParseNumber(Delocalize(cell.value))
  {
    match cell
    case None => None
    case Some(s) => ParseNumber(Delocalize(s))
  }

  // ---------------------------------------------------------------------
  // Rendering in the Brazilian locale, used to state the round trip.

  /** Integer digits with '.' between groups of three from the right: "1234567" -> "1.234.567". */
  function Grouped(ds: string): (s: string)
    requires AllDigits(ds)
    ensures ',' !in s
    ensures |ds| > 0 ==> |s| > 0 && s[0] == ds[0]
    decreases |ds|
  {
    if |ds| <= 3 then ds
    else Grouped(ds[..|ds| - 3]) + "." + ds[|ds| - 3..]
  }

  lemma SplitJoins(s: string, k: nat)
    requires k <= |s|
    ensures s[..k] + s[k..] == s
  {
  }

  lemma DeleteDotsAfterGroup(g: string, hi: string, lo: string)
    requires DeleteChar(g, '.') == hi && '.' !in lo
    ensures DeleteChar(g + ("." + lo), '.') == hi + lo
  {
    DeleteCharAppend(g, "." + lo, '.');
    assert ("." + lo)[1..] == lo;
  }

  lemma {:induction false} DigitsHaveNoDot(ds: string)
    requires AllDigits(ds)
    ensures '.' !in ds
  {
    forall i | 0 <= i < |ds|
      ensures ds[i] != '.'
    {
      assert IsDigit(ds[i]);
    }
  }

  lemma {:induction false} GroupedWithoutDots(ds: string)
    requires AllDigits(ds)
    ensures DeleteChar(Grouped(ds), '.') == ds
    decreases |ds|
  {
    if |ds| <= 3 {
      DigitsHaveNoDot(ds);
    } else {
      var hi, lo := ds[..|ds| - 3], ds[|ds| - 3..];
      GroupedWithoutDots(hi);
      DigitsHaveNoDot(lo);
      DeleteDotsAfterGroup(Grouped(hi), hi, lo);
      assert Grouped(ds) == Grouped(hi) + ("." + lo);
      SplitJoins(ds, |ds| - 3);
    }
  }

  /**
   * An amount as the regulator's files write it: the integer digits
   * grouped by '.', a ',' and the centavos digits (a negative amount
   * carries a '-' in front, see ParseNegatedText).
   */
  function FormatBrazilian(whole: string, cents: string): string
    requires AllDigits(whole) && AllDigits(cents)
  {
    Grouped(whole) + "," + cents
  }

  lemma {:induction false} NoDotAfterComma(cents: string)
    requires AllDigits(cents)
    ensures '.' !in "," + cents
  {
    var tail := "," + cents;
    forall i | 1 <= i < |tail|
      ensures tail[i] != '.'
    {
      assert tail[i] == cents[i - 1] && IsDigit(cents[i - 1]);
    }
  }

  lemma {:induction false} DeleteDotsBefore(g: string, tail: string, digits: string)
    requires DeleteChar(g, '.') == digits && '.' !in tail
    ensures DeleteChar(g + tail, '.') == digits + tail
  {
    DeleteCharAppend(g, tail, '.');
  }

  lemma {:induction false} DeleteDotsOfDecimal(whole: string, cents: string)
    requires AllDigits(whole) && AllDigits(cents)
    ensures DeleteChar(Grouped(whole) + "," + cents, '.') == whole + "," + cents
  {
    var g, tail := Grouped(whole), "," + cents;
    assert g + "," + cents == g + tail;
    assert whole + "," + cents == whole + tail;
    GroupedWithoutDots(whole);
    NoDotAfterComma(cents);
    DeleteDotsBefore(g, tail, whole);
  }

  lemma {:induction false} CommaToPoint(whole: string, cents: string)
    requires AllDigits(whole) && AllDigits(cents)
    ensures ReplaceChar(whole + "," + cents, ',', '.') == whole + "." + cents
  {
    var s, e := whole + "," + cents, whole + "." + cents;
    var r := ReplaceChar(s, ',', '.');
    forall i | 0 <= i < |e|
      ensures r[i] == e[i]
    {
      if i < |whole| {
        assert s[i] == whole[i] && IsDigit(whole[i]);
      } else if i > |whole| {
        assert s[i] == cents[i - |whole| - 1] && IsDigit(cents[i - |whole| - 1]);
      }
    }
  }

  lemma {:induction false} DelocalizeUnsigned(whole: string, cents: string)
    requires AllDigits(whole) && AllDigits(cents)
    ensures Delocalize(Grouped(whole) + "," + cents) == whole + "." + cents
  {
    DeleteDotsOfDecimal(whole, cents);
    CommaToPoint(whole, cents);
  }

  /** The value of `whole.cents`, the number the parser is handed. */
  function DecimalValue(whole: string, cents: string): real
    requires AllDigits(whole) && AllDigits(cents)
  {
    DigitsAppend(whole, cents);
    Shifted(DigitsValue(whole + cents), |cents|)
  }

  lemma {:induction false} ParseDottedText(whole: string, cents: string)
    requires AllDigits(whole) && AllDigits(cents) && |whole| + |cents| > 0
    ensures ParseUnsigned(whole + "." + cents) == Some(DecimalValue(whole, cents))
  {
    var t := whole + "." + cents;
    assert t[..|whole|] == whole;
    assert IndexOf(t, '.') == Some(|whole|);
    assert t[|whole| + 1..] == cents;
  }

  // ---------------------------------------------------------------------
  // What the parser accepts, stated apart from how it scans the text.

  /** The sign a number may start with. */
  datatype Sign = Unsigned | Plus | Minus

  /** The text of a sign. */
  function SignText(sign: Sign): string {
    match sign
    case Unsigned => ""
    case Plus => "+"
    case Minus => "-"
  }

  /** A magnitude with a sign applied. */
  function Signed(sign: Sign, v: real): real {
    if sign == Minus then -v else v
  }

  /** The '.' and fraction digits of a number, or nothing. */
  function Point(frac: Option<string>): string {
    match frac
    case None => ""
    case Some(f) => "." + f
  }

  /** Integer digits and an optional fraction, with at least one digit in all. */
  predicate IsDecimal(whole: string, frac: Option<string>) {
    AllDigits(whole) && AllDigits(frac.GetOr("")) && |whole| + |frac.GetOr("")| > 0
  }

  lemma {:induction false} ParseUndottedText(whole: string)
    requires AllDigits(whole) && |whole| > 0
    ensures ParseUnsigned(whole) == Some(DecimalValue(whole, ""))
  {
    assert whole + "" == whole;
  }

  /** Digits with an optional fraction parse, unsigned, to their value. */
  lemma {:induction false} UnsignedComplete(whole: string, frac: Option<string>)
    requires IsDecimal(whole, frac)
    ensures ParseUnsigned(whole + Point(frac)) == Some(DecimalValue(whole, frac.GetOr("")))
  {
    match frac
    case None =>
      assert whole + Point(frac) == whole;
      ParseUndottedText(whole);
    case Some(f) =>
      assert whole + Point(frac) == whole + "." + f;
      ParseDottedText(whole, f);
  }

  lemma {:induction false} DigitsSplit(a: string, b: string)
    requires AllDigits(a + b)
    ensures AllDigits(a) && AllDigits(b)
  {
    forall i | 0 <= i < |a| ensures IsDigit(a[i]) {
      assert a[i] == (a + b)[i];
    }
    forall i | 0 <= i < |b| ensures IsDigit(b[i]) {
      assert b[i] == (a + b)[|a| + i];
    }
  }

  lemma {:induction false} DottedSound(t: string, k: nat)
    requires IndexOf(t, '.') == Some(k) && ParseUnsigned(t).Some?
    ensures AllDigits(t[..k]) && AllDigits(t[k + 1..]) && k + |t[k + 1..]| > 0
    ensures t == t[..k] + Point(Some(t[k + 1..]))
    ensures ParseUnsigned(t) == Some(DecimalValue(t[..k], t[k + 1..]))
  {
    DigitsSplit(t[..k], t[k + 1..]);
    assert t == t[..k] + ([t[k]] + t[k + 1..]);
  }

  lemma {:induction false} UndottedSound(t: string)
    requires IndexOf(t, '.') == None && ParseUnsigned(t).Some?
    ensures AllDigits(t) && |t| > 0 && t == t + Point(None)
    ensures ParseUnsigned(t) == Some(DecimalValue(t, ""))
  {
    assert t + "" == t;
  }

  /** Every text the unsigned parser accepts is digits with an optional fraction, and gets their value. */
  lemma {:induction false} UnsignedSound(t: string) returns (whole: string, frac: Option<string>)
    requires ParseUnsigned(t).Some?
    ensures IsDecimal(whole, frac) && t == whole + Point(frac)
    ensures ParseUnsigned(t) == Some(DecimalValue(whole, frac.GetOr("")))
  {
    match IndexOf(t, '.')
    case None =>
      UndottedSound(t);
      whole, frac := t, None;
    case Some(k) =>
      DottedSound(t, k);
      whole, frac := t[..k], Some(t[k + 1..]);
  }

  lemma {:induction false} ParseMinus(body: string, v: real)
    requires ParseUnsigned(body) == Some(v)
    ensures ParseNumber("-" + body) == Some(-v)
  {
    assert ("-" + body)[1..] == body;
  }

  lemma {:induction false} ParsePlus(body: string, v: real)
    requires ParseUnsigned(body) == Some(v)
    ensures ParseNumber("+" + body) == Some(v)
  {
    assert ("+" + body)[1..] == body;
  }

  /** A sign in front of a text the unsigned parser accepts negates or keeps its value. */
  lemma {:induction false} ParseSigned(sign: Sign, body: string, v: real)
    requires sign != Unsigned && ParseUnsigned(body) == Some(v)
    ensures ParseNumber(SignText(sign) + body) == Some(Signed(sign, v))
  {
    if sign == Minus {
      ParseMinus(body, v);
    } else {
      ParsePlus(body, v);
    }
  }

  /** Without a sign, the text is handed to the unsigned parser. */
  lemma {:induction false} ParseBare(body: string)
    requires |body| > 0 && body[0] != '-' && body[0] != '+'
    ensures ParseNumber(body) == ParseUnsigned(body)
  {
  }

  lemma {:induction false} BareComplete(whole: string, frac: Option<string>)
    requires IsDecimal(whole, frac)
    ensures ParseNumber(whole + Point(frac)) == Some(DecimalValue(whole, frac.GetOr("")))
  {
    var body := whole + Point(frac);
    UnsignedComplete(whole, frac);
    if |whole| > 0 {
      assert body[0] == whole[0] && IsDigit(whole[0]);
    } else {
      assert body == Point(frac) && body[0] == '.';
    }
    ParseBare(body);
  }

  /**
   * Every number parses, to its value: an optional sign, integer digits and
   * an optional fraction after a '.', with at least one digit.
   */
  lemma {:induction false} ParseNumberComplete(sign: Sign, whole: string, frac: Option<string>)
    requires IsDecimal(whole, frac)
    ensures ParseNumber(SignText(sign) + (whole + Point(frac)))
            == Some(Signed(sign, DecimalValue(whole, frac.GetOr(""))))
  {
    var body := whole + Point(frac);
    if sign == Unsigned {
      assert SignText(sign) + body == body;
      BareComplete(whole, frac);
    } else {
      UnsignedComplete(whole, frac);
      ParseSigned(sign, body, DecimalValue(whole, frac.GetOr("")));
    }
  }

  /** A text that parses is a sign followed by a text the unsigned parser accepts. */
  lemma {:induction false} SignSplit(s: string) returns (sign: Sign, t: string)
    requires ParseNumber(s).Some?
    ensures s == SignText(sign) + t && ParseUnsigned(t).Some?
    ensures ParseNumber(s) == Some(Signed(sign, ParseUnsigned(t).value))
  {
    if |s| > 0 && s[0] == '-' {
      sign, t := Minus, s[1..];
    } else if |s| > 0 && s[0] == '+' {
      sign, t := Plus, s[1..];
    } else {
      sign, t := Unsigned, s;
    }
    assert s == SignText(sign) + t;
  }

  /**
   * Every text that parses is a number (optional sign, digits, optional
   * fraction) and gets that number's value.
   */
  lemma {:induction false} ParseNumberSound(s: string)
    requires ParseNumber(s).Some?
    ensures exists sign, whole, frac :: && IsDecimal(whole, frac)
                                        && s == SignText(sign) + (whole + Point(frac))
                                        && ParseNumber(s).value == Signed(sign, DecimalValue(whole, frac.GetOr("")))
  {
    var sign, t := SignSplit(s);
    var whole, frac := UnsignedSound(t);
    assert s == SignText(sign) + (whole + Point(frac));
  }

  /**
   * The conversion of a cell with text yields a value exactly when the
   * cleaned-up text is a number, and then yields that number's value.
   */
  lemma ToNumberMeaning(s: string, v: real)
    ensures ToNumber(Some(s)) == Some(v) <==>
            exists sign, whole, frac :: && IsDecimal(whole, frac)
                                        && Delocalize(s) == SignText(sign) + (whole + Point(frac))
                                        && v == Signed(sign, DecimalValue(whole, frac.GetOr("")))
  {
    var t := Delocalize(s);
    if ToNumber(Some(s)) == Some(v) {
      ParseNumberSound(t);
    }
    if exists sign, whole, frac :: && IsDecimal(whole, frac)
                                   && t == SignText(sign) + (whole + Point(frac))
                                   && v == Signed(sign, DecimalValue(whole, frac.GetOr(""))) {
      var sign, whole, frac :| && IsDecimal(whole, frac)
                               && t == SignText(sign) + (whole + Point(frac))
                               && v == Signed(sign, DecimalValue(whole, frac.GetOr("")));
      ParseNumberComplete(sign, whole, frac);
    }
  }

  /** The locale clean-up passes a leading '-' through untouched. */
  lemma {:induction false} DelocalizeNegated(body: string)
    ensures Delocalize("-" + body) == "-" + Delocalize(body)
  {
    DeleteCharAppend("-", body, '.');
    assert DeleteChar("-", '.') == "-";
    var d := DeleteChar(body, '.');
    assert ReplaceChar("-" + d, ',', '.') == "-" + ReplaceChar(d, ',', '.');
  }

  lemma UnsignedConversion(body: string, t: string, v: real)
    requires Delocalize(body) == t && ParseUnsigned(t) == Some(v)
    requires |t| > 0 && IsDigit(t[0])
    ensures ToNumber(Some(body)) == Some(v)
  {
  }

  /**
   * A '-' in front of a digit-led number negates its value, and a text that
   * does not parse still does not. With DelocalizeNegated this gives the
   * conversion of a negative balance from that of its magnitude.
   */
  lemma {:induction false} ParseNegatedText(d: string)
    requires |d| > 0 && IsDigit(d[0])
    ensures ParseNumber("-" + d) == match ParseNumber(d)
                                    case None => None
                                    case Some(v) => Some(-v)
  {
    assert ("-" + d)[1..] == d;
  }

  /**
   * Converting what FormatBrazilian writes gives back the amount it
   * renders: the conversion inverts the Brazilian locale.
   */
  lemma {:induction false} BrazilianRoundTrip(whole: string, cents: string)
    requires AllDigits(whole) && AllDigits(cents) && |whole| > 0
    ensures ToNumber(Some(FormatBrazilian(whole, cents))) == Some(DecimalValue(whole, cents))
  {
    var t := whole + "." + cents;
    assert t[0] == whole[0] && IsDigit(whole[0]);
    DelocalizeUnsigned(whole, cents);
    ParseDottedText(whole, cents);
    UnsignedConversion(FormatBrazilian(whole, cents), t, DecimalValue(whole, cents));
  }

  lemma {:induction false} NegativeText(whole: string, cents: string)
    requires AllDigits(whole) && AllDigits(cents)
    ensures Delocalize("-" + FormatBrazilian(whole, cents)) == "-" + (whole + "." + cents)
  {
    DelocalizeNegated(FormatBrazilian(whole, cents));
    DelocalizeUnsigned(whole, cents);
  }

  lemma {:induction false} NegativeParse(whole: string, cents: string)
    requires AllDigits(whole) && AllDigits(cents) && |whole| > 0
    ensures ParseNumber("-" + (whole + "." + cents)) == Some(-DecimalValue(whole, cents))
  {
    ParseDottedText(whole, cents);
    ParseSigned(Minus, whole + "." + cents, DecimalValue(whole, cents));
  }

  lemma {:induction false} NegativeConversion(whole: string, cents: string)
    requires AllDigits(whole) && AllDigits(cents) && |whole| > 0
    ensures ToNumber(Some("-" + FormatBrazilian(whole, cents))) == Some(-DecimalValue(whole, cents))
  {
    NegativeText(whole, cents);
    NegativeParse(whole, cents);
  }

  /**
   * An amount in the Brazilian format, with or without a leading '-',
   * converts to its signed value.
   */
  lemma {:induction false} SignedConversion(neg: bool, whole: string, cents: string)
    requires AllDigits(whole) && AllDigits(cents) && |whole| > 0
    ensures ToNumber(Some((if neg then "-" else "") + FormatBrazilian(whole, cents)))
            == Some(if neg then -DecimalValue(whole, cents) else DecimalValue(whole, cents))
  {
    if neg {
      NegativeConversion(whole, cents);
    } else {
      assert "" + FormatBrazilian(whole, cents) == FormatBrazilian(whole, cents);
      BrazilianRoundTrip(whole, cents);
    }
  }

  lemma GroupedThousand()
    ensures Grouped("1234") == "1.234"
  {
    assert "1234"[..1] == "1" && "1234"[1..] == "234";
  }

  lemma ThousandsValue()
    ensures DecimalValue("1234", "56") == 1234.56
  {
    assert "1234" + "56" == "123456";
    assert "123456"[..5] == "12345" && "12345"[..4] == "1234" && "1234"[..3] == "123";
    assert "123"[..2] == "12" && "12"[..1] == "1";
    assert DigitsValue("1") == 1 && DigitsValue("12") == 12 && DigitsValue("123") == 123;
    assert DigitsValue("1234") == 1234 && DigitsValue("12345") == 12345;
    assert DigitsValue("123456") == 123456;
    assert Shifted(123456, 2) == 1234.56;
  }

  lemma ZeroValue()
    ensures DecimalValue("0", "00") == 0.0
  {
    assert "0" + "00" == "000" && "000"[..2] == "00" && "00"[..1] == "0";
    assert DigitsValue("0") == 0 && DigitsValue("00") == 0 && DigitsValue("000") == 0;
    assert Shifted(0, 2) == 0.0;
  }

  /** "1.234,56" converts to 1234.56. */
  lemma ConversionOfThousands()
    ensures ToNumber(Some("1.234,56")) == Some(1234.56)
  {
    GroupedThousand();
    ThousandsValue();
    assert FormatBrazilian("1234", "56") == "1.234,56";
    BrazilianRoundTrip("1234", "56");
  }

  /** "0,00" converts to 0. */
  lemma ConversionOfZero()
    ensures ToNumber(Some("0,00")) == Some(0.0)
  {
    ZeroValue();
    assert FormatBrazilian("0", "00") == "0,00";
    BrazilianRoundTrip("0", "00");
  }

}
