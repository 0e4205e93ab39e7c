/**
 `sec_to_min`: a duration in seconds written as "M:SS". Minutes are the
 floor quotient by 60 and are not padded; the remaining seconds are the floor
 remainder, zero-padded to two digits. Any exception inside the conversion
 makes the result `None`.
 */
module TimeFormat {
  import opened Wrappers
  import opened Decimal

  /** What a caller can pass as a duration: a whole number, or a value `//` rejects. */
  datatype Seconds = Whole(value: int) | NonNumeric

  /**
   The largest number of digits the interpreter writes for an int
   (CPython's default `sys.get_int_max_str_digits()`); converting a longer
   one raises `ValueError`.
   */
  const MaxStrDigits: nat := 4300

  /** Python's `f"{r:02}"` for a remainder below 100. */
  function Pad2(r: nat): (p: string)
    requires r < 100
    ensures |p| == 2 && AllDigits(p) && DigitsValue(p) == r
    ensures p[0] == '0' <==> r < 10
  {
    var p := [DigitChar(r / 10), DigitChar(r % 10)];
    assert p[..1] == [DigitChar(r / 10)] && [DigitChar(r / 10)][..0] == [];
    assert DigitValue(p[0]) == r / 10 && DigitValue(p[1]) == r % 10;
    assert DigitsValue(p[..1]) == DigitsValue(p[..1][..0]) * 10 + DigitValue(p[0]) == r / 10;
    p
  }

  function SecToMin(s: Seconds): (r: Option<string>)
    ensures r.Some? <==> s.Whole? && |NatToString(Abs(s.value / 60))| <= MaxStrDigits
    ensures r.Some? ==> |r.value| >= 4 && r.value[|r.value| - 3] == ':'
    ensures r.Some? ==> AllDigits(r.value[|r.value| - 2..])
    ensures r.Some? ==> DigitsValue(r.value[|r.value| - 2..]) == s.value % 60 < 60
    ensures r.Some? ==> (r.value[|r.value| - 2] == '0' <==> s.value % 60 < 10)
  {
    match s
    case NonNumeric => None
    case Whole(n) =>
      var minutes, remaining := n / 60, n % 60;
      if |NatToString(Abs(minutes))| > MaxStrDigits then None
      else
        var text := IntToString(minutes) + ":" + Pad2(remaining);
        assert text[|text| - 2..] == Pad2(remaining);
        Some(text)
  }

  /** Reads "M:SS" back into its minutes and seconds fields. */
  function ParseMinSec(t: string): Option<(int, int)> {
    if |t| < 4 || t[|t| - 3] != ':' || !AllDigits(t[|t| - 2..]) then None
    else match ParseInt(t[..|t| - 3])
      case None => None
      case Some(m) => Some((m, DigitsValue(t[|t| - 2..])))
  }

  /** A whole number of seconds converts exactly when its minutes have at most `MaxStrDigits` digits. */
  lemma SecToMinSucceeds(n: int)
    ensures SecToMin(Whole(n)).Some? <==> Abs(n / 60) < Pow10(MaxStrDigits)
  {
    NatToStringLength(Abs(n / 60), MaxStrDigits);
  }

  /** The written fields read back as floor quotient and remainder, and so recompose the input. */
  lemma SecToMinRoundTrip(n: int)
    requires SecToMin(Whole(n)).Some?
    ensures ParseMinSec(SecToMin(Whole(n)).value) == Some((n / 60, n % 60))
    ensures n == 60 * (n / 60) + n % 60 && 0 <= n % 60 < 60
  {
    var t := SecToMin(Whole(n)).value;
    assert t == IntToString(n / 60) + ":" + Pad2(n % 60);
    assert t[..|t| - 3] == IntToString(n / 60);
    assert t[|t| - 2..] == Pad2(n % 60);
    IntToStringRoundTrip(n / 60);
  }

  /** Distinct durations never share a text. */
  lemma SecToMinInjective(a: int, b: int)
    requires SecToMin(Whole(a)).Some? && SecToMin(Whole(a)) == SecToMin(Whole(b))
    ensures a == b
  {
    SecToMinRoundTrip(a);
    SecToMinRoundTrip(b);
  }

  /** Minutes are written as `str` writes them: a sign only when negative, no padding zeros. */
  lemma SecToMinMinutesUnpadded(n: int)
    requires SecToMin(Whole(n)).Some?
    ensures var t := SecToMin(Whole(n)).value;
      (t[0] == '-' <==> n < 0) && (|t| > 4 && n >= 0 ==> t[0] != '0') && (n < 0 ==> t[1] != '0')
  {
  }

  lemma SecToMinExamples()
    ensures SecToMin(Whole(125)) == Some("2:05")
    ensures SecToMin(Whole(59)) == Some("0:59")
    ensures SecToMin(Whole(3600)) == Some("60:00")
    ensures SecToMin(Whole(-1)) == Some("-1:59")
    ensures SecToMin(NonNumeric) == None
  {
    assert 125 / 60 == 2 && 125 % 60 == 5 && 3600 / 60 == 60 && 3600 % 60 == 0;
    assert -1 / 60 == -1 && -1 % 60 == 59;
    assert IntToString(2) == "2" && IntToString(0) == "0" && IntToString(-1) == "-1";
    assert IntToString(60) == NatToString(6) + "0" == "60";
    assert Pad2(5) == "05" && Pad2(59) == "59" && Pad2(0) == "00";
    assert IntToString(2) + ":" + Pad2(5) == "2:05";
    assert IntToString(0) + ":" + Pad2(59) == "0:59";
    assert IntToString(60) + ":" + Pad2(0) == "60:00";
    assert IntToString(-1) + ":" + Pad2(59) == "-1:59";
  }
}
