/** The due-date field of the goal and bill screens. `formatearFecha` turns
    whatever was typed into a prefix of `YYYY-MM-DD`; `validarFecha` checks the
    year range, the month and the days of that month. Both screens carry the
    same two functions, character for character. The partner of both is the
    `full-date` production of section 5.6 of RFC 3339 with the day limits of
    its section 5.7 and Appendix C. */
module DateEntry {
  import opened Text
  import opened Seqs

  // ----- formatter --------------------------------------------------------

  predicate DateAlphabet(s: string) {
    forall i :: 0 <= i < |s| ==> IsDigit(s[i]) || s[i] == '-'
  }

  /** At most eight digits, a dash after the fourth when a fifth follows and after the sixth when a seventh follows. */
  function Dashed(d: string): string {
    if |d| <= 4 then d
    else if |d| <= 6 then d[..4] + "-" + d[4..]
    else d[..4] + "-" + d[4..6] + "-" + d[6..]
  }

  /** What the formatter makes of the text `texto`: at most ten characters,
      all digits or dashes. */
  function Format(texto: string): (r: string)
    ensures |r| <= 10 && DateAlphabet(r)
  {
    var d := Take(Digits(texto), 8);
    DashedAlphabet(d);
    Dashed(d)
  }

  lemma DashedAlphabet(d: string)
    requires AllDigits(d) && |d| <= 8
    ensures |Dashed(d)| <= 10 && DateAlphabet(Dashed(d))
  {
    if 4 < |d| <= 6 {
      assert Dashed(d) == d[..4] + "-" + d[4..];
    } else if |d| > 6 {
      assert Dashed(d) == d[..4] + "-" + d[4..6] + "-" + d[6..];
    }
  }

  /** `formatearFecha`, step by step as written: keep the digits, cut them to
      eight, then insert the dashes. Its second branch repeats the first one's
      condition and is never taken. */
  method FormatInput(texto: string) returns (formateado: string)
    ensures formateado == Format(texto)
  {
    var soloNumeros := Digits(texto);
    var limitado := Substring(soloNumeros, 0, 8);
    assert limitado == Take(soloNumeros, 8);
    formateado := limitado;
    if |limitado| >= 5 {
      formateado := Substring(limitado, 0, 4) + "-" + Substring(limitado, 4, 6);
      if |limitado| >= 7 {
        formateado := formateado + "-" + Substring(limitado, 6, 8);
      }
    } else if |limitado| >= 5 {
      assert false;
    }
  }

  lemma DigitsOfDashed(d: string)
    requires AllDigits(d)
    ensures Digits(Dashed(d)) == d
  {
    if |d| > 4 {
      DigitsOfDigits(d[..4]);
      DigitsAppend(d[..4], "-");
      if |d| <= 6 {
        DigitsAppend(d[..4] + "-", d[4..]);
        DigitsOfDigits(d[4..]);
        assert d[..4] + d[4..] == d;
      } else {
        DigitsAppend(d[..4] + "-", d[4..6]);
        DigitsOfDigits(d[4..6]);
        DigitsAppend(d[..4] + "-" + d[4..6], "-");
        DigitsAppend(d[..4] + "-" + d[4..6] + "-", d[6..]);
        DigitsOfDigits(d[6..]);
        assert d[..4] + d[4..6] + d[6..] == d;
      }
    } else {
      DigitsOfDigits(d);
    }
  }

  /** The output is at most ten characters of digits and dashes, and deleting
      the dashes gives exactly the first eight digits of the input (all of them
      when there are fewer). */
  lemma FormatShape(texto: string)
    ensures |Format(texto)| <= 10
    ensures DateAlphabet(Format(texto))
    ensures Digits(Format(texto)) == Take(Digits(texto), 8)
  {
    DigitsOfDashed(Take(Digits(texto), 8));
  }

  /** Where the dashes are: with four digits or fewer the digits come back
      unchanged; the dash after the fourth digit appears exactly when there are
      at least five, the one after the sixth exactly when there are at least
      seven, and there is no other. */
  lemma FormatDashes(texto: string)
    ensures var n := |Take(Digits(texto), 8)|; var r := Format(texto);
      (n <= 4 ==> r == Digits(texto))
      && ((|r| > 4 && r[4] == '-') <==> n >= 5)
      && ((|r| > 7 && r[7] == '-') <==> n >= 7)
      && (forall i :: 0 <= i < |r| && r[i] == '-' ==> i == 4 || i == 7)
      && |r| == n + (if n >= 7 then 2 else if n >= 5 then 1 else 0)
  {
    var d := Take(Digits(texto), 8);
    var r := Format(texto);
    if |d| <= 4 {
      assert d == Digits(texto);
    }
    forall i | 0 <= i < |r| && i != 4 && i != 7
      ensures IsDigit(r[i])
    {
      if |d| > 6 {
        assert r == d[..4] + "-" + d[4..6] + "-" + d[6..];
        if i < 4 { assert r[i] == d[i]; }
        else if i < 7 { assert r[i] == d[i - 1]; }
        else { assert r[i] == d[i - 2]; }
      } else if |d| > 4 {
        assert r == d[..4] + "-" + d[4..];
        if i < 4 { assert r[i] == d[i]; }
        else { assert r[i] == d[i - 1]; }
      } else {
        assert r[i] == d[i];
      }
    }
  }

  /** Formatting the formatter's own output changes nothing. */
  lemma FormatIdempotent(texto: string)
    ensures Format(Format(texto)) == Format(texto)
  {
    FormatShape(texto);
  }

  /** `YYYY-MM-DD`: ten characters, dashes at positions 4 and 7, digits elsewhere. */
  predicate DateShape(s: string) {
    |s| == 10 && s[4] == '-' && s[7] == '-'
    && forall i :: 0 <= i < 10 && i != 4 && i != 7 ==> IsDigit(s[i])
  }

  /** A complete formatter output is exactly a text of the shape `YYYY-MM-DD`. */
  lemma FixpointShape(s: string)
    ensures (Format(s) == s && |s| == 10) <==> DateShape(s)
  {
    if DateShape(s) {
      ShapeIsFixpoint(s);
    }
    if Format(s) == s && |s| == 10 {
      FixpointHasShape(s);
    }
  }

  lemma ShapeIsFixpoint(s: string)
    requires DateShape(s)
    ensures Format(s) == s
  {
    var d := s[..4] + s[5..7] + s[8..];
    DigitsOfShape(s);
    assert Take(d, 8) == d;
    assert d[..4] == s[..4] && d[4..6] == s[5..7] && d[6..] == s[8..];
  }

  lemma DigitsOfShape(s: string)
    requires DateShape(s)
    ensures Digits(s) == s[..4] + s[5..7] + s[8..]
  {
    var a, b, c := s[..4], s[5..7], s[8..];
    assert AllDigits(a) && AllDigits(b) && AllDigits(c);
    assert s == a + "-" + b + "-" + c;
    DigitsAppend(a, "-");
    DigitsAppend(a + "-", b);
    DigitsAppend(a + "-" + b, "-");
    DigitsAppend(a + "-" + b + "-", c);
    DigitsOfDash();
    DigitsOfDigits(a);
    DigitsOfDigits(b);
    DigitsOfDigits(c);
  }

  lemma FixpointHasShape(s: string)
    requires Format(s) == s && |s| == 10
    ensures DateShape(s)
  {
    var d := Take(Digits(s), 8);
    assert |d| == 8;
    assert s == d[..4] + "-" + d[4..6] + "-" + d[6..];
    forall i | 0 <= i < 10 && i != 4 && i != 7 ensures IsDigit(s[i]) {
      if i < 4 { assert s[i] == d[i]; }
      else if i < 7 { assert s[i] == d[i - 1]; }
      else { assert s[i] == d[i - 2]; }
    }
  }

  // ----- validator --------------------------------------------------------

  /** `s.split('-')` */
  function SplitDash(s: string): (r: seq<string>)
    ensures |r| >= 1
    ensures DateAlphabet(s) ==> forall i :: 0 <= i < |r| ==> AllDigits(r[i])
  {
    if s == [] then [""]
    else if s[0] == '-' then [""] + SplitDash(s[1..])
    else
      var rest := SplitDash(s[1..]);
      [[s[0]] + rest[0]] + rest[1..]
  }

  const DiasPorMes: seq<nat> := [31, 28, 31, 30, 31, 30, 31, 31, 30, 31, 30, 31]

  /** `validarFecha(s)` on the texts the formatter can produce, digits and
      dashes. `split('-').map(Number)` reads each part as a decimal number
      (the empty part as 0). With fewer than three parts the missing month or
      day is `undefined`: every range check lets it through and the final
      `dia <= maxDias` is false, so the date is refused. An accepted text has
      a year in 2025..2500, a month in 1..12 and a day within that month's
      length in RFC 3339. */
  function ValidDate(s: string): (r: bool)
    requires DateAlphabet(s)
    ensures r ==> |s| == 10 && |SplitDash(s)| >= 3
    ensures r ==> var p := SplitDash(s);
      2025 <= Value(p[0]) <= 2500 && 1 <= Value(p[1]) <= 12
      && 1 <= Value(p[2]) <= DaysInMonth(Value(p[0]), Value(p[1]))
  {
    var parts := SplitDash(s);
    assert |parts| >= 3 && 1 <= Value(parts[1]) <= 12 ==>
      (if Value(parts[1]) == 2 && ((Value(parts[0]) % 4 == 0 && Value(parts[0]) % 100 != 0) || Value(parts[0]) % 400 == 0)
       then 29 else DiasPorMes[Value(parts[1]) - 1]) == DaysInMonth(Value(parts[0]), Value(parts[1])) by {
      if |parts| >= 3 && 1 <= Value(parts[1]) <= 12 {
        DaysAgree(Value(parts[0]), Value(parts[1]));
      }
    }
    |s| == 10 && |parts| >= 3
    && var y, m, d := Value(parts[0]), Value(parts[1]), Value(parts[2]);
    2025 <= y <= 2500 && 1 <= m <= 12 && 1 <= d <= 31
    && if m == 2 && ((y % 4 == 0 && y % 100 != 0) || y % 400 == 0) then d <= 29
       else d <= DiasPorMes[m - 1]
  }

  // ----- RFC 3339 ---------------------------------------------------------

  /** Leap years as Appendix C of RFC 3339 computes them. */
  predicate IsLeapYear(year: nat) {
    year % 4 == 0 && (year % 100 != 0 || year % 400 == 0)
  }

  /** The table of section 5.7 of RFC 3339. */
  function DaysInMonth(year: nat, month: nat): nat
    requires 1 <= month <= 12
  {
    if month == 2 then (if IsLeapYear(year) then 29 else 28)
    else if month == 4 || month == 6 || month == 9 || month == 11 then 30
    else 31
  }

  function Year(s: string): nat requires DateShape(s) { Value(s[..4]) }
  function Month(s: string): nat requires DateShape(s) { Value(s[5..7]) }
  function Day(s: string): nat requires DateShape(s) { Value(s[8..]) }

  /** `full-date` of section 5.6 of RFC 3339 with the restrictions of section 5.7. */
  predicate IsFullDate(s: string) {
    DateShape(s) && 1 <= Month(s) <= 12 && 1 <= Day(s) <= DaysInMonth(Year(s), Month(s))
  }

  lemma {:induction false} SplitAfterWord(w: string, rest: string)
    requires AllDigits(w)
    ensures SplitDash(w + "-" + rest) == [w] + SplitDash(rest)
    ensures SplitDash(w) == [w]
  {
    if w == [] {
      assert w + "-" + rest == "-" + rest;
      assert ("-" + rest)[1..] == rest;
    } else {
      SplitAfterWord(w[1..], rest);
      assert (w + "-" + rest)[1..] == w[1..] + "-" + rest;
      assert [w[0]] + w[1..] == w;
    }
  }

  lemma SplitOfShape(s: string)
    requires DateShape(s)
    ensures DateAlphabet(s)
    ensures SplitDash(s) == [s[..4], s[5..7], s[8..]]
  {
    assert AllDigits(s[..4]) && AllDigits(s[5..7]) && AllDigits(s[8..]);
    assert s == s[..4] + "-" + (s[5..7] + "-" + s[8..]);
    assert s[5..] == s[5..7] + "-" + s[8..];
    SplitAfterWord(s[..4], s[5..]);
    SplitAfterWord(s[5..7], s[8..]);
    SplitAfterWord(s[8..], "");
  }

  /** The month table and leap-year test of the source agree with RFC 3339. */
  lemma DaysAgree(y: nat, m: nat)
    requires 1 <= m <= 12
    ensures (if m == 2 && ((y % 4 == 0 && y % 100 != 0) || y % 400 == 0) then 29 else DiasPorMes[m - 1])
            == DaysInMonth(y, m)
  {
    LeapAgree(y);
  }

  /** The source's leap-year test and the one of RFC 3339 agree. */
  lemma LeapAgree(y: nat)
    ensures ((y % 4 == 0 && y % 100 != 0) || y % 400 == 0) == IsLeapYear(y)
  {
    if y % 400 == 0 {
      var k := y / 400;
      assert y == 4 * (100 * k);
    }
  }

  /** On a complete formatter output the validator accepts exactly the RFC 3339
      full dates whose year lies in 2025..2500. */
  lemma ValidDateIffFullDate(s: string)
    requires DateShape(s)
    ensures DateAlphabet(s)
    ensures ValidDate(s) <==> IsFullDate(s) && 2025 <= Year(s) <= 2500
  {
    SplitOfShape(s);
    if 1 <= Month(s) <= 12 {
      DaysAgree(Year(s), Month(s));
    }
  }

  /** February has a 29th exactly in years divisible by 4 and not by 100, or by 400; otherwise 28 days. */
  lemma February(s: string)
    requires DateShape(s) && Month(s) == 2 && 2025 <= Year(s) <= 2500
    ensures DateAlphabet(s)
    ensures ValidDate(s) <==> 1 <= Day(s) <= (if (Year(s) % 4 == 0 && Year(s) % 100 != 0) || Year(s) % 400 == 0 then 29 else 28)
  {
    SplitOfShape(s);
  }

  // ----- calendar dates ---------------------------------------------------

  datatype Date = Date(year: nat, month: nat, day: nat)

  predicate IsCalendarDate(d: Date) {
    1 <= d.month <= 12 && 1 <= d.day <= DaysInMonth(d.year, d.month)
  }

  /** `d` written as `YYYY-MM-DD`, the form `toISOString().split('T')[0]` gives for years below 10000. */
  function IsoDate(d: Date): (r: string)
    requires d.year < 10000 && d.month < 100 && d.day < 100
  {
    Padded(d.year, 4) + "-" + Padded(d.month, 2) + "-" + Padded(d.day, 2)
  }

  function DateOf(s: string): Date
    requires DateShape(s)
  {
    Date(Year(s), Month(s), Day(s))
  }

  /** An ISO date has the `YYYY-MM-DD` shape, reads back as the same date, and the formatter leaves it alone. */
  lemma IsoDateRoundTrip(d: Date)
    requires d.year < 10000 && d.month < 100 && d.day < 100
    ensures DateShape(IsoDate(d)) && DateOf(IsoDate(d)) == d && Format(IsoDate(d)) == IsoDate(d)
  {
    var s := IsoDate(d);
    assert s[..4] == Padded(d.year, 4);
    assert s[5..7] == Padded(d.month, 2);
    assert s[8..] == Padded(d.day, 2);
    FixpointShape(s);
  }

  /** A calendar date, printed, passes the validator exactly when its year lies in 2025..2500. */
  lemma IsoDateValid(d: Date)
    requires d.year < 10000 && IsCalendarDate(d)
    ensures DateAlphabet(IsoDate(d))
    ensures ValidDate(IsoDate(d)) <==> 2025 <= d.year <= 2500
  {
    IsoDateRoundTrip(d);
    ValidDateIffFullDate(IsoDate(d));
  }

  /** `a` comes strictly before `b` in the calendar. */
  predicate Before(a: Date, b: Date) {
    a.year < b.year || (a.year == b.year && (a.month < b.month || (a.month == b.month && a.day < b.day)))
  }
}
