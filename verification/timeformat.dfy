/** The `formatTime` helper of client/src/components/BreathingExercise.tsx:
    whole minutes, a colon, and the seconds padded to two digits. */
module TimeFormat {
  import opened Wrappers

  predicate IsDigit(c: char)
  {
    '0' <= c <= '9'
  }

  predicate AllDigits(s: string)
  {
    forall i :: 0 <= i < |s| ==> IsDigit(s[i])
  }

  function DigitChar(d: nat): (c: char)
    requires d < 10
    ensures IsDigit(c)
  {
    ('0' as int + d) as char
  }

  function DigitValue(c: char): (d: nat)
    requires IsDigit(c)
    ensures d < 10
  {
    c as int - '0' as int
  }

  /** `n.toString()` for a whole number. */
  function Decimal(n: nat): (s: string)
    ensures 1 <= |s|
    ensures AllDigits(s)
    ensures |s| > 1 ==> s[0] != '0'
    ensures n < 10 <==> |s| == 1
    decreases n
  {
    if n < 10 then [DigitChar(n)] else Decimal(n / 10) + [DigitChar(n % 10)]
  }

  /** The value of a string of decimal digits. */
  function ParseDecimal(s: string): nat
    requires AllDigits(s)
    decreases |s|
  {
    if s == [] then 0 else 10 * ParseDecimal(s[..|s| - 1]) + DigitValue(s[|s| - 1])
  }

  lemma {:induction false} DecimalRoundTrip(n: nat)
    ensures ParseDecimal(Decimal(n)) == n
    decreases n
  {
    var s := Decimal(n);
    if n >= 10 {
      DecimalRoundTrip(n / 10);
      assert s[..|s| - 1] == Decimal(n / 10);
      assert DigitValue(DigitChar(n % 10)) == n % 10;
    } else {
      assert s[..0] == [];
    }
  }

  /** `s.padStart(width, "0")`: leading zeros up to `width` characters. */
  function PadStart(s: string, width: nat): (r: string)
    ensures |r| == if |s| >= width then |s| else width
    ensures r[|r| - |s|..] == s
    ensures forall i :: 0 <= i < |r| - |s| ==> r[i] == '0'
  {
    if |s| >= width then s else seq(width - |s|, _ => '0') + s
  }

  /** `formatTime(seconds)`. The colon is the only colon and stands third
      from the end; both fields are digits, the seconds field has exactly two
      of them and is below 60, minutes * 60 + seconds is the input, and the
      minutes field is not padded: it has no leading zero unless it is the
      single digit "0". */
  function FormatTime(seconds: nat): (r: string)
    ensures |r| >= 4
    ensures r[|r| - 3] == ':'
    ensures forall i :: 0 <= i < |r| && i != |r| - 3 ==> r[i] != ':'
    ensures AllDigits(r[..|r| - 3]) && AllDigits(r[|r| - 2..])
    ensures ParseDecimal(r[|r| - 2..]) < 60
    ensures 60 * ParseDecimal(r[..|r| - 3]) + ParseDecimal(r[|r| - 2..]) == seconds
    ensures |r| > 4 ==> r[0] != '0'
  {
    var minutes := seconds / 60;
    var rest := seconds % 60;
    var mm := Decimal(minutes);
    var ss := PadStart(Decimal(rest), 2);
    DecimalRoundTrip(minutes);
    DecimalRoundTrip(rest);
    PaddedValue(Decimal(rest), 2);
    TwoDigitsAtMost(rest);
    JoinFields(mm, ss);
    mm + ":" + ss
  }

  /** The minutes field is exactly `Math.floor(seconds / 60).toString()`. */
  lemma FormatTimeMinutes(seconds: nat)
    ensures var r := FormatTime(seconds);
      r[..|r| - 3] == Decimal(seconds / 60)
  {
    var r := FormatTime(seconds);
    var mm := r[..|r| - 3];
    CanonicalDecimal(mm);
    assert ParseDecimal(mm) == seconds / 60;
  }

  /** A digit string without a leading zero is the decimal of its value:
      `toString` is the only such rendering. */
  lemma {:induction false} CanonicalDecimal(s: string)
    requires 1 <= |s| && AllDigits(s)
    requires |s| > 1 ==> s[0] != '0'
    ensures s == Decimal(ParseDecimal(s))
    decreases |s|
  {
    var n := ParseDecimal(s);
    if |s| == 1 {
      assert s[..0] == [];
      assert ParseDecimal(s[..0]) == 0;
      assert n == DigitValue(s[0]);
      assert DigitChar(n) == s[0];
    } else {
      var init := s[..|s| - 1];
      assert init[0] == s[0];
      CanonicalDecimal(init);
      var k := ParseDecimal(init);
      PositiveLead(init);
      assert n == 10 * k + DigitValue(s[|s| - 1]);
      assert n / 10 == k && n % 10 == DigitValue(s[|s| - 1]);
      assert DigitChar(n % 10) == s[|s| - 1];
      assert s == init + [s[|s| - 1]];
    }
  }

  /** A digit string that starts with a non-zero digit has a positive value. */
  lemma {:induction false} PositiveLead(s: string)
    requires 1 <= |s| && AllDigits(s) && s[0] != '0'
    ensures ParseDecimal(s) > 0
    decreases |s|
  {
    if |s| == 1 {
      assert s[..0] == [];
    } else {
      var init := s[..|s| - 1];
      assert init[0] == s[0];
      PositiveLead(init);
    }
  }

  /** Numbers below 100 have at most two digits. */
  lemma TwoDigitsAtMost(n: nat)
    requires n < 100
    ensures |Decimal(n)| <= 2
  {
    if n >= 10 {
      assert |Decimal(n / 10)| == 1;
    }
  }

  /** The shape of "minutes:seconds" for digit-only fields. */
  lemma JoinFields(mm: string, ss: string)
    requires AllDigits(mm) && AllDigits(ss) && |ss| == 2
    ensures var r := mm + ":" + ss;
      && |r| == |mm| + 3
      && r[|r| - 3] == ':'
      && (forall i :: 0 <= i < |r| && i != |r| - 3 ==> r[i] != ':')
      && r[..|r| - 3] == mm
      && r[|r| - 2..] == ss
  {
    var r := mm + ":" + ss;
    forall i | 0 <= i < |r| && i != |r| - 3
      ensures r[i] != ':'
    {
      if i < |mm| {
        assert r[i] == mm[i];
      } else {
        assert r[i] == ss[i - |mm| - 1];
      }
    }
  }

  /** Leading zeros do not change a decimal value. */
  lemma {:induction false} PaddedValue(s: string, width: nat)
    requires AllDigits(s)
    ensures AllDigits(PadStart(s, width))
    ensures ParseDecimal(PadStart(s, width)) == ParseDecimal(s)
  {
    if |s| < width {
      var zeros := seq(width - |s|, _ => '0');
      LeadingZeros(zeros, s);
    }
  }

  lemma {:induction false} LeadingZeros(zeros: string, s: string)
    requires forall i :: 0 <= i < |zeros| ==> zeros[i] == '0'
    requires AllDigits(s)
    ensures AllDigits(zeros + s)
    ensures ParseDecimal(zeros + s) == ParseDecimal(s)
    decreases |s|
  {
    if s == [] {
      assert zeros + s == zeros;
      AllZeros(zeros);
    } else {
      var t := zeros + s;
      assert t[..|t| - 1] == zeros + s[..|s| - 1];
      LeadingZeros(zeros, s[..|s| - 1]);
    }
  }

  lemma {:induction false} AllZeros(zeros: string)
    requires forall i :: 0 <= i < |zeros| ==> zeros[i] == '0'
    ensures AllDigits(zeros) && ParseDecimal(zeros) == 0
    decreases |zeros|
  {
    if zeros != [] {
      AllZeros(zeros[..|zeros| - 1]);
    }
  }

  /** Reading a displayed time back: minutes, a colon, two seconds digits
      below 60. */
  function ParseTime(s: string): (r: Option<nat>)
  {
    if |s| < 4 || s[|s| - 3] != ':' then None
    else
      var mm := s[..|s| - 3];
      var ss := s[|s| - 2..];
      if AllDigits(mm) && AllDigits(ss) && ParseDecimal(ss) < 60 then
        Some(60 * ParseDecimal(mm) + ParseDecimal(ss))
      else None
  }

  /** Every displayed time reads back as the number of seconds it shows. */
  lemma FormatTimeRoundTrip(seconds: nat)
    ensures ParseTime(FormatTime(seconds)) == Some(seconds)
  {
  }

  /** Five minutes display as "5:00", fifty-nine seconds as "0:59". */
  lemma FormatTimeExamples()
    ensures FormatTime(300) == "5:00"
    ensures FormatTime(59) == "0:59"
  {
    assert Decimal(5) == "5";
    assert Decimal(0) == "0";
    assert Decimal(59) == "59";
  }
}
