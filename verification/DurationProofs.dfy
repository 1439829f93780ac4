/** Reading undoes printing, and printing undoes reading on canonical texts. */
module DurationProofs {
  import opened Wrappers
  import opened Strings
  import opened Doubles
  import opened Durations

  // -------- one field

  lemma {:induction false} DigitsOfDigits(s: string)
    requires |s| > 0 && AllDigits(s)
    ensures DigitsOf(s) == Some(s)
  {
    if |s| > 1 {
      DigitsOfDigits(s[1..]);
      assert [s[0]] + s[1..] == s;
    }
  }

  lemma {:induction false} LeadingZero(s: string)
    requires AllDigits(s)
    ensures AllDigits("0" + s) && NatOf("0" + s) == NatOf(s)
  {
    var z := "0" + s;
    if s == "" {
      assert z[..|z| - 1] == "";
    } else {
      LeadingZero(s[..|s| - 1]);
      assert z[..|z| - 1] == "0" + s[..|s| - 1];
    }
  }

  /** The text is a sign and digits with this value, and nothing else. */
  ghost predicate Spells(text: string, n: int) {
    && |text| > 0 && (IsNegative(text) <==> n < 0) && |Unsigned(text)| > 0 && AllDigits(Unsigned(text))
    && (IsDigit(text[0]) || text[0] == '-')
    && NatOf(Unsigned(text)) == if n < 0 then -n else n
  }

  lemma TwoDigitsSpells(n: int)
    ensures Spells(TwoDigits(n), n)
  {
    if n < 0 {
      DecimalIsNumeral(-n);
      assert TwoDigits(n)[1..] == Decimal(-n);
    } else {
      DecimalIsNumeral(n);
      LeadingZero(Decimal(n));
      assert IsDigit(TwoDigits(n)[0]);
    }
  }

  lemma SpelledChars(text: string, n: int, i: nat)
    requires Spells(text, n) && i < |text|
    ensures IsDigit(text[i]) || (i == 0 && text[i] == '-')
    ensures i == |text| - 1 ==> IsDigit(text[i])
  {
  }

  lemma SpelledWithout(text: string, n: int, c: char)
    requires Spells(text, n) && !IsDigit(c) && c != '-'
    ensures Without(c, text)
  {
  }

  lemma SpelledStrips(text: string, n: int)
    requires Spells(text, n)
    ensures Strip(text) == text
  {
  }

  lemma SpelledInt(text: string, n: int)
    requires Spells(text, n) && |text| <= MAX_STR_DIGITS
    ensures ParseInt(text) == Ok(n)
  {
    SpelledStrips(text, n);
    DigitsOfDigits(Unsigned(text));
  }

  lemma SpelledMagnitude(text: string, n: int)
    requires Spells(text, n)
    ensures Magnitude(Unsigned(text)) == Some((if n < 0 then -n else n) as real)
  {
    assert Without('.', Unsigned(text));
    SplitOne(Unsigned(text), '.');
    DigitsOfDigits(Unsigned(text));
  }

  lemma SpelledField(text: string, n: int)
    requires Spells(text, n)
    ensures ReadField(text) == Some(Double(n))
  {
    SpelledStrips(text, n);
    SpelledMagnitude(text, n);
    assert ParseFloat(text) == Ok(n as real);
    RoundInteger(n);
  }

  lemma RoundInteger(n: int)
    ensures Round(n as real) == n
  {
  }

  // -------- fields side by side

  lemma ColonTexts(a: string, b: string)
    requires Without(':', a) && Without(':', b)
    ensures Split(a + ":" + b, ':') == [a, b]
  {
    SplitOne(b, ':');
    SplitField(a, b, ':');
    assert a + [':'] + b == a + ":" + b;
  }

  lemma ColonTriple(a: string, b: string, c: string)
    requires Without(':', a) && Without(':', b) && Without(':', c)
    ensures Split(a + ":" + b + ":" + c, ':') == [a, b, c]
  {
    ColonTexts(b, c);
    SplitField(a, b + ":" + c, ':');
    assert a + [':'] + (b + ":" + c) == a + ":" + b + ":" + c;
  }

  /** The text of three numbers, split and spelled. */
  lemma TripleSplits(h: int, m: int, s: int)
    ensures
      var text := TwoDigits(h) + ":" + TwoDigits(m) + ":" + TwoDigits(s);
      Split(text, ':') == [TwoDigits(h), TwoDigits(m), TwoDigits(s)] && TrimCommas(text) == text
  {
    TwoDigitsSpells(h);
    TwoDigitsSpells(m);
    TwoDigitsSpells(s);
    SpelledWithout(TwoDigits(h), h, ':');
    SpelledWithout(TwoDigits(m), m, ':');
    SpelledWithout(TwoDigits(s), s, ':');
    ColonTriple(TwoDigits(h), TwoDigits(m), TwoDigits(s));
    SpelledChars(TwoDigits(s), s, |TwoDigits(s)| - 1);
  }

  lemma PairSplits(m: int, s: int)
    ensures
      var text := TwoDigits(m) + ":" + TwoDigits(s);
      Split(text, ':') == [TwoDigits(m), TwoDigits(s)] && TrimCommas(text) == text
  {
    TwoDigitsSpells(m);
    TwoDigitsSpells(s);
    SpelledWithout(TwoDigits(m), m, ':');
    SpelledWithout(TwoDigits(s), s, ':');
    ColonTexts(TwoDigits(m), TwoDigits(s));
    SpelledChars(TwoDigits(s), s, |TwoDigits(s)| - 1);
  }

  /** Two small readings are added exactly. */
  lemma SumTwo(m: int, s: int)
    requires 0 <= m < 60 && 0 <= s < 60
    ensures FloatSum([Some(m), Some(s)]) == Some(m * 60 + s)
  {
    assert [Some(m), Some(s)][1..] == [Some(s)] && [Some(s)][1..] == [];
    assert Power(60, 0) == 1 && Power(60, 1) == 60;
    SmallIsDouble(1);
    SmallIsDouble(60);
    SmallIsDouble(s);
    SmallIsDouble(m * 60);
    SmallIsDouble(m * 60 + s);
    assert FloatSum([Some(s)]) == Some(Double(0 + Double(s * Double(1))));
  }

  /** A third reading in front is multiplied and added in floats. */
  lemma SumThree(h: int, m: int, s: int)
    requires 0 <= m < 60 && 0 <= s < 60
    ensures FloatSum([Some(h), Some(m), Some(s)]) == Some(Double(m * 60 + s + Double(h * 3600)))
  {
    assert [Some(h), Some(m), Some(s)][1..] == [Some(m), Some(s)];
    SumTwo(m, s);
    assert Power(60, 1) == 60 && Power(60, 2) == 3600;
    SmallIsDouble(3600);
  }

  lemma DigitsField(n: int)
    ensures ReadField(TwoDigits(n)) == Some(Double(n))
  {
    TwoDigitsSpells(n);
    SpelledField(TwoDigits(n), n);
  }

  lemma TripleReadings(h: int, m: int, s: int)
    requires 0 <= m < 60 && 0 <= s < 60
    ensures
      var text := TwoDigits(h) + ":" + TwoDigits(m) + ":" + TwoDigits(s);
      Readings(text) == [Some(Double(h)), Some(m), Some(s)]
  {
    TripleSplits(h, m, s);
    DigitsField(h);
    DigitsField(m);
    DigitsField(s);
    SmallIsDouble(m);
    SmallIsDouble(s);
  }

  lemma PairReadings(m: int, s: int)
    requires 0 <= m < 60 && 0 <= s < 60
    ensures Readings(TwoDigits(m) + ":" + TwoDigits(s)) == [Some(m), Some(s)]
  {
    PairSplits(m, s);
    DigitsField(m);
    DigitsField(s);
    SmallIsDouble(m);
    SmallIsDouble(s);
  }

  lemma TripleStamp(h: int, m: int, s: int)
    requires |TwoDigits(h)| <= MAX_STR_DIGITS && |TwoDigits(m)| <= MAX_STR_DIGITS && |TwoDigits(s)| <= MAX_STR_DIGITS
    ensures ReadStamp(Text(TwoDigits(h) + ":" + TwoDigits(m) + ":" + TwoDigits(s))) == h * 3600 + m * 60 + s
  {
    TripleSplits(h, m, s);
    TwoDigitsSpells(h);
    TwoDigitsSpells(m);
    TwoDigitsSpells(s);
    SpelledInt(TwoDigits(h), h);
    SpelledInt(TwoDigits(m), m);
    SpelledInt(TwoDigits(s), s);
  }

  lemma TenToTheTwelfth()
    ensures Power(10, 12) == 1_000_000_000_000
  {
  }

  lemma ShortField(n: int)
    requires -1_000_000_000_000 < n < 1_000_000_000_000
    ensures |TwoDigits(n)| <= MAX_STR_DIGITS
  {
    TenToTheTwelfth();
    DecimalLength(if n < 0 then -n else n, 12);
  }

  // -------- reading undoes printing

  /** The chapter list reads back every time it can print, negative ones included. */
  lemma ChaptersUndoFormatTime(sec: int)
    ensures FormatTime(sec).Ok? <==> FitsTimedelta(sec)
    ensures FormatTime(sec).Ok? ==> ReadStamp(Text(FormatTime(sec).value)) == sec
  {
    if FitsTimedelta(sec) {
      ShortField(sec / 60 / 60);
      ShortField(sec / 60 % 60);
      ShortField(sec % 60);
      TripleStamp(sec / 60 / 60, sec / 60 % 60, sec % 60);
    }
  }

  /** So does the ffmpeg duration reader: nothing in the range of a `timedelta` is rounded. */
  lemma HumanUndoesFormatTime(sec: int)
    requires FitsTimedelta(sec)
    ensures HumanSeconds(FormatTime(sec).value) == Ok(sec)
  {
    TimeSeconds(sec, FormatTime(sec).value);
  }

  lemma TimeSeconds(sec: int, text: string)
    requires FormatTime(sec) == Ok(text)
    ensures HumanSeconds(text) == Ok(sec)
  {
    TimeReadings(sec, text);
    TimeInRange(sec);
    ReadExactly(text, sec / 60 / 60, sec / 60 % 60, sec % 60);
  }

  lemma ReadExactly(text: string, h: int, m: int, s: int)
    requires Readings(text) == [Some(Double(h)), Some(m), Some(s)] && 0 <= m < 60 && 0 <= s < 60
    requires -EXACT <= h * 3600 && h * 3600 + m * 60 + s <= EXACT
    ensures HumanSeconds(text) == Ok(h * 3600 + m * 60 + s)
  {
    ReadTriple(text, h, m, s);
    ExactHours(h, m, s);
  }

  lemma TimeInRange(sec: int)
    requires FitsTimedelta(sec)
    ensures
      var h, m, s := sec / 60 / 60, sec / 60 % 60, sec % 60;
      sec == h * 3600 + m * 60 + s && -EXACT <= h * 3600 && sec <= EXACT && 0 <= m < 60 && 0 <= s < 60
  {
  }

  lemma TimeReadings(sec: int, text: string)
    requires FormatTime(sec) == Ok(text)
    ensures Readings(text) == [Some(Double(sec / 60 / 60)), Some(sec / 60 % 60), Some(sec % 60)]
  {
    TripleReadings(sec / 60 / 60, sec / 60 % 60, sec % 60);
  }

  lemma ReadTriple(text: string, h: int, m: int, s: int)
    requires Readings(text) == [Some(Double(h)), Some(m), Some(s)] && 0 <= m < 60 && 0 <= s < 60
    ensures HumanSeconds(text) == Ok(Double(m * 60 + s + Double(Double(h) * 3600)))
  {
    SumThree(Double(h), m, s);
  }

  lemma ExactHours(h: int, m: int, s: int)
    requires 0 <= m < 60 && 0 <= s < 60 && -EXACT <= h * 3600 && h * 3600 + m * 60 + s <= EXACT
    ensures Double(m * 60 + s + Double(Double(h) * 3600)) == h * 3600 + m * 60 + s
  {
    SmallIsDouble(h);
    SmallIsDouble(h * 3600);
    SmallIsDouble(h * 3600 + m * 60 + s);
  }

  lemma LongDuration(seconds: int)
    requires seconds >= 3600
    ensures
      var hours, minutes, secs := seconds / 3600, seconds % 3600 / 60, seconds % 60;
      && FormatDuration(seconds) == TwoDigits(hours) + ":" + TwoDigits(minutes) + ":" + TwoDigits(secs)
      && hours * 3600 + minutes * 60 + secs == seconds && minutes * 60 + secs == seconds % 3600
  {
  }

  lemma ShortDuration(seconds: int)
    requires seconds < 3600
    ensures
      var minutes, secs := seconds % 3600 / 60, seconds % 60;
      && FormatDuration(seconds) == TwoDigits(minutes) + ":" + TwoDigits(secs)
      && minutes * 60 + secs == seconds % 3600
  {
  }

  /** What the duration reader makes of a printed duration: the nearest double, up to sixteen times 2^53; below
      zero the hours are dropped from the text. */
  lemma DurationSeconds(seconds: int, text: string)
    requires text == FormatDuration(seconds) && seconds < 16 * EXACT
    ensures HumanSeconds(text) == Ok(if seconds >= 3600 then Double(seconds) else seconds % 3600)
  {
    if seconds >= 3600 {
      LongSeconds(seconds, text);
      ExactProduct(seconds / 3600);
    } else {
      ShortSeconds(seconds, text);
    }
  }

  lemma LongReadings(seconds: int, text: string)
    requires seconds >= 3600 && text == FormatDuration(seconds)
    ensures Readings(text) == [Some(Double(seconds / 3600)), Some(seconds % 3600 / 60), Some(seconds % 60)]
  {
    LongDuration(seconds);
    TripleReadings(seconds / 3600, seconds % 3600 / 60, seconds % 60);
  }

  lemma LongSeconds(seconds: int, text: string)
    requires seconds >= 3600 && text == FormatDuration(seconds)
    ensures HumanSeconds(text) == Ok(Double(seconds % 3600 + Double(Double(seconds / 3600) * 3600)))
  {
    LongReadings(seconds, text);
    LongValue(seconds, text);
  }

  lemma LongValue(seconds: int, text: string)
    requires Readings(text) == [Some(Double(seconds / 3600)), Some(seconds % 3600 / 60), Some(seconds % 60)]
    ensures HumanSeconds(text) == Ok(Double(seconds % 3600 + Double(Double(seconds / 3600) * 3600)))
  {
    var h, m, secs := seconds / 3600, seconds % 3600 / 60, seconds % 60;
    MinuteParts(seconds, m, secs);
    ReadParts(text, h, m, secs, seconds % 3600);
  }

  lemma MinuteParts(seconds: int, m: int, s: int)
    requires m == seconds % 3600 / 60 && s == seconds % 60
    ensures 0 <= m < 60 && 0 <= s < 60 && seconds % 3600 == m * 60 + s
  {
    var rest := seconds % 3600;
    assert seconds == 60 * (60 * (seconds / 3600) + m) + rest % 60;
    assert seconds / 60 == 60 * (seconds / 3600) + m;
  }

  lemma ReadParts(text: string, h: int, m: int, s: int, rest: int)
    requires Readings(text) == [Some(Double(h)), Some(m), Some(s)] && 0 <= m < 60 && 0 <= s < 60 && rest == m * 60 + s
    ensures HumanSeconds(text) == Ok(Double(rest + Double(Double(h) * 3600)))
  {
    ReadTriple(text, h, m, s);
  }

  lemma ExactProduct(hours: nat)
    requires hours * 3600 < 16 * EXACT
    ensures Double(Double(hours) * 3600) == hours * 3600
  {
    SmallIsDouble(hours);
    SixteenthIsDouble(hours * 3600);
  }

  lemma ShortReadings(seconds: int, text: string)
    requires seconds < 3600 && text == FormatDuration(seconds)
    ensures Readings(text) == [Some(seconds % 3600 / 60), Some(seconds % 60)]
  {
    ShortDuration(seconds);
    PairReadings(seconds % 3600 / 60, seconds % 60);
  }

  lemma ShortSeconds(seconds: int, text: string)
    requires seconds < 3600 && text == FormatDuration(seconds)
    ensures HumanSeconds(text) == Ok(seconds % 3600)
  {
    ShortReadings(seconds, text);
    ShortDuration(seconds);
    SumTwo(seconds % 3600 / 60, seconds % 60);
  }

  /** The duration reader undoes the duration printer, in both its forms, exactly on the numbers that are not
      negative and are doubles. */
  lemma HumanUndoesFormatDurationIff(seconds: int)
    requires seconds < 16 * EXACT
    ensures HumanSeconds(FormatDuration(seconds)) == Ok(seconds) <==> seconds >= 0 && IsDouble(seconds)
  {
    DurationReadsIff(seconds, FormatDuration(seconds));
  }

  lemma DurationReadsIff(seconds: int, text: string)
    requires text == FormatDuration(seconds) && seconds < 16 * EXACT
    ensures HumanSeconds(text) == Ok(seconds) <==> seconds >= 0 && IsDouble(seconds)
  {
    DurationSeconds(seconds, text);
    if 0 <= seconds < 3600 {
      SmallIsDouble(seconds);
    }
  }

  /** So it does for every number of seconds up to 2^53. */
  lemma HumanUndoesFormatDurationUpTo(seconds: int)
    requires 0 <= seconds <= EXACT
    ensures HumanSeconds(FormatDuration(seconds)) == Ok(seconds)
  {
    HumanUndoesFormatDurationIff(seconds);
    SmallIsDouble(seconds);
  }

  /** The first number after it is not read back. */
  lemma FirstNotReadBack()
    ensures HumanSeconds(FormatDuration(EXACT + 1)) == Ok(EXACT)
  {
    DurationSeconds(EXACT + 1, FormatDuration(EXACT + 1));
    AfterExact();
  }

  lemma AfterExact()
    ensures Double(EXACT + 1) == EXACT
  {
    assert Excess((EXACT + 1) / 2) == 0;
    assert Power(2, 1) == 2 * Power(2, 0) == 2;
  }

  /** However large the number: only what is not negative and a double can be read back. */
  lemma ReadBackIsDouble(seconds: int)
    requires HumanSeconds(FormatDuration(seconds)) == Ok(seconds)
    ensures seconds >= 0 && IsDouble(seconds)
  {
    if seconds >= 3600 {
      LongSeconds(seconds, FormatDuration(seconds));
      DoubleIsDouble(seconds % 3600 + Double(Double(seconds / 3600) * 3600));
    } else {
      ShortSeconds(seconds, FormatDuration(seconds));
      SmallIsDouble(seconds);
    }
  }

  /** Beyond sixteen times 2^53 being a double is not enough: the product of the hours is rounded, too. */
  lemma NotEveryDoubleIsReadBack(seconds: int)
    requires seconds == 241_254_999_270_142_112
    ensures IsDouble(seconds) && HumanSeconds(FormatDuration(seconds)) == Ok(seconds + 32)
  {
    SmallIsDouble(67_015_277_575_039);
    LongRead(seconds, FormatDuration(seconds), 67_015_277_575_039, 1712);
    LargeDoubles();
  }

  lemma LongRead(seconds: int, text: string, hours: int, rest: int)
    requires seconds >= 3600 && hours == seconds / 3600 && rest == seconds % 3600 && IsDouble(hours)
    requires text == FormatDuration(seconds)
    ensures HumanSeconds(text) == Ok(Double(rest + Double(hours * 3600)))
  {
    LongSeconds(seconds, text);
  }

  lemma LargeDoubles()
    ensures Double(241_254_999_270_142_112) == 241_254_999_270_142_112
    ensures Double(241_254_999_270_140_400) == 241_254_999_270_140_416
    ensures Double(241_254_999_270_142_128) == 241_254_999_270_142_144
  {
    SmallPowers();
    assert Power(2, 5) == 32;
    FifthExcess(241_254_999_270_142_112);
    FifthExcess(241_254_999_270_140_400);
    FifthExcess(241_254_999_270_142_128);
  }

  lemma FifthExcess(n: nat)
    requires 16 * EXACT <= n < 32 * EXACT
    ensures Excess(n) == 5
  {
    assert Excess(n / 2 / 2 / 2 / 2 / 2) == 0;
    assert Excess(n / 2 / 2 / 2 / 2) == 1;
    assert Excess(n / 2 / 2 / 2) == 2;
    assert Excess(n / 2 / 2) == 3;
    assert Excess(n / 2) == 4;
  }

  /** The condition of the exact reading, met by every printed duration up to 2^53. */
  lemma PrintedStaysExact(seconds: int, text: string)
    requires 0 <= seconds <= EXACT && text == FormatDuration(seconds)
    ensures StaysExact(Readings(text))
  {
    if seconds >= 3600 {
      LongStaysExact(seconds, text);
    } else {
      ShortReadings(seconds, text);
      PairStaysExact(seconds % 3600 / 60, seconds % 60);
    }
  }

  lemma LongStaysExact(seconds: int, text: string)
    requires 3600 <= seconds <= EXACT && text == FormatDuration(seconds)
    ensures StaysExact(Readings(text))
  {
    LongReadings(seconds, text);
    LongDuration(seconds);
    SmallIsDouble(seconds / 3600);
    TripleStaysExact(seconds / 3600, seconds % 3600 / 60, seconds % 60);
  }

  /** And by every printed time. */
  lemma PrintedTimeStaysExact(sec: int, text: string)
    requires FormatTime(sec) == Ok(text)
    ensures StaysExact(Readings(text))
  {
    TimeReadings(sec, text);
    SmallIsDouble(sec / 60 / 60);
    TripleStaysExact(sec / 60 / 60, sec / 60 % 60, sec % 60);
  }

  lemma PairStaysExact(m: int, s: int)
    requires 0 <= m < 60 && 0 <= s < 60
    ensures StaysExact([Some(m), Some(s)]) && Horner([Some(m), Some(s)], 0) == Some(m * 60 + s)
  {
    var last := [Some(s)];
    assert [Some(m), Some(s)][1..] == last && last[1..] == [];
    assert Power(60, 0) == 1 && Power(60, 1) == 60;
    assert Horner(last, 0) == Horner([], s) && Horner(last, m) == Horner([], 60 * m + s);
    assert s * Power(60, 0) == s && m * Power(60, 1) == m * 60;
    assert Horner(last, 0) == Some(s) && StaysExact([]);
    assert last[0] == Some(s) && |last| - 1 == 0;
    assert StaysExact(last);
  }

  lemma TripleStaysExact(h: int, m: int, s: int)
    requires 0 <= m < 60 && 0 <= s < 60 && -EXACT <= h * 3600 && h * 3600 + m * 60 + s <= EXACT
    ensures StaysExact([Some(h), Some(m), Some(s)])
  {
    var tail := [Some(m), Some(s)];
    assert [Some(h), Some(m), Some(s)][1..] == tail;
    assert Power(60, 1) == 60 && Power(60, 2) == 3600;
    PairStaysExact(m, s);
    HornerShifts(tail, h);
    assert Horner([Some(h), Some(m), Some(s)], 0) == Horner(tail, h);
  }

  /** The chapter list wants three fields: it reads a printed duration back exactly from an hour on, and zero. */
  lemma ChaptersReadFormatDurationIff(seconds: int)
    requires seconds < 3600 * 1_000_000_000_000
    ensures ReadStamp(Text(FormatDuration(seconds))) == seconds <==> seconds >= 3600 || seconds == 0
  {
    DurationStamp(seconds, FormatDuration(seconds));
  }

  lemma DurationStamp(seconds: int, text: string)
    requires text == FormatDuration(seconds) && seconds < 3600 * 1_000_000_000_000
    ensures ReadStamp(Text(text)) == if seconds >= 3600 then seconds else 0
  {
    if seconds >= 3600 {
      var hours, minutes, secs := seconds / 3600, seconds % 3600 / 60, seconds % 60;
      LongDuration(seconds);
      ShortField(hours);
      ShortField(minutes);
      ShortField(secs);
      TripleStamp(hours, minutes, secs);
    } else {
      ShortDuration(seconds);
      PairStamp(seconds % 3600 / 60, seconds % 60);
    }
  }

  lemma PairStamp(m: int, s: int)
    ensures ReadStamp(Text(TwoDigits(m) + ":" + TwoDigits(s))) == 0
  {
    PairSplits(m, s);
  }

  // -------- printing undoes reading

  /** Two digits below sixty. */
  predicate IsSixtieth(s: string) {
    |s| == 2 && AllDigits(s) && NatOf(s) < 60
  }

  /** At least two digits without a superfluous zero, or a minus sign and a positive numeral. */
  predicate IsHours(s: string) {
    && |s| <= MAX_STR_DIGITS
    && ((|s| == 2 && AllDigits(s)) || (|s| > 2 && IsNumeral(s))
        || (|s| >= 2 && s[0] == '-' && IsNumeral(s[1..]) && s[1] != '0'))
  }

  predicate IsCanonical(text: string) {
    var parts := Split(text, ':');
    |parts| == 3 && IsHours(parts[0]) && IsSixtieth(parts[1]) && IsSixtieth(parts[2])
  }

  lemma TwoDigitNumeral(s: string)
    requires |s| == 2 && AllDigits(s)
    ensures TwoDigits(NatOf(s)) == s
  {
    assert s[..1] == [s[0]] && [s[0]][..0] == "";
    assert NatOf([s[0]]) == ValueOf(s[0]);
    assert NatOf(s) == 10 * ValueOf(s[0]) + ValueOf(s[1]);
    assert s == [s[0]] + [s[1]];
    if s[0] != '0' {
      NumeralIsDecimal(s);
    }
  }

  lemma SixtiethPrints(s: string)
    requires IsSixtieth(s)
    ensures TwoDigits(NatOf(s)) == s && Spells(s, NatOf(s))
  {
    TwoDigitNumeral(s);
    TwoDigitsSpells(NatOf(s));
  }

  function HoursOf(s: string): int
    requires IsHours(s)
  {
    if s[0] == '-' then
      var n: int := NatOf(s[1..]);
      -n
    else NatOf(s)
  }

  lemma HoursPrint(s: string)
    requires IsHours(s)
    ensures TwoDigits(HoursOf(s)) == s && Spells(s, HoursOf(s))
  {
    if s[0] == '-' {
      NumeralIsDecimal(s[1..]);
      DecimalIsNumeral(NatOf(s[1..]));
      assert s == "-" + s[1..];
    } else if |s| == 2 {
      TwoDigitNumeral(s);
    } else {
      NumeralIsDecimal(s);
      assert NatOf(s) >= 10;
    }
    TwoDigitsSpells(HoursOf(s));
  }

  lemma SixtiethField(n: int)
    requires 0 <= n < 60
    ensures IsSixtieth(TwoDigits(n))
  {
    TwoDigitsSpells(n);
    if n >= 10 {
      assert Decimal(n) == Decimal(n / 10) + [DigitOf(n % 10)];
    }
  }

  lemma HoursField(n: int)
    requires -1_000_000_000_000 < n < 1_000_000_000_000
    ensures IsHours(TwoDigits(n))
  {
    ShortField(n);
    if n < 0 {
      NegativeHours(TwoDigits(n), -n);
    } else if n < 10 {
      DecimalIsNumeral(n);
    } else {
      LongHours(TwoDigits(n), n);
    }
  }

  lemma NegativeHours(text: string, n: nat)
    requires n > 0 && text == "-" + Decimal(n) && |text| <= MAX_STR_DIGITS
    ensures IsHours(text)
  {
    DecimalIsNumeral(n);
    assert text[1..] == Decimal(n);
  }

  lemma LongHours(text: string, n: nat)
    requires n >= 10 && text == Decimal(n) && |text| <= MAX_STR_DIGITS
    ensures IsHours(text)
  {
    DecimalIsNumeral(n);
    assert text == Decimal(n / 10) + [DigitOf(n % 10)];
  }

  /** What is printed is canonical. */
  lemma PrintedIsCanonical(sec: int)
    requires FitsTimedelta(sec)
    ensures IsCanonical(FormatTime(sec).value)
  {
    TripleSplits(sec / 60 / 60, sec / 60 % 60, sec % 60);
    HoursField(sec / 60 / 60);
    SixtiethField(sec / 60 % 60);
    SixtiethField(sec % 60);
  }

  lemma CanonicalReads(text: string)
    requires IsCanonical(text)
    ensures
      var parts := Split(text, ':');
      ReadStamp(Text(text)) == HoursOf(parts[0]) * 3600 + NatOf(parts[1]) * 60 + NatOf(parts[2])
  {
    var parts := Split(text, ':');
    HoursPrint(parts[0]);
    SixtiethPrints(parts[1]);
    SixtiethPrints(parts[2]);
    SpelledInt(parts[0], HoursOf(parts[0]));
    SpelledInt(parts[1], NatOf(parts[1]));
    SpelledInt(parts[2], NatOf(parts[2]));
    assert text != "";
  }

  lemma TripleJoins(text: string, a: string, b: string, c: string)
    requires Split(text, ':') == [a, b, c]
    ensures text == a + ":" + b + ":" + c
  {
    JoinAfterSplit(text, ':');
    assert [a, b, c][1..] == [b, c] && [b, c][1..] == [c];
    assert JoinWith([b, c], ':') == b + ":" + c;
  }

  lemma CanonicalPrints(text: string)
    requires IsCanonical(text) && FitsTimedelta(ReadStamp(Text(text)))
    ensures FormatTime(ReadStamp(Text(text))) == Ok(text)
  {
    var parts := Split(text, ':');
    var h, m, s := HoursOf(parts[0]), NatOf(parts[1]), NatOf(parts[2]);
    CanonicalReads(text);
    HoursPrint(parts[0]);
    SixtiethPrints(parts[1]);
    SixtiethPrints(parts[2]);
    TripleJoins(text, parts[0], parts[1], parts[2]);
    PrintsParts(ReadStamp(Text(text)), h, m, s);
  }

  lemma PrintsParts(sec: int, h: int, m: int, s: int)
    requires 0 <= m < 60 && 0 <= s < 60 && sec == h * 3600 + m * 60 + s && FitsTimedelta(sec)
    ensures FormatTime(sec) == Ok(TwoDigits(h) + ":" + TwoDigits(m) + ":" + TwoDigits(s))
  {
  }

  /** A text survives reading and printing exactly when it is canonical and names a time in range. */
  lemma PrintingUndoesReadingIff(text: string)
    ensures FormatTime(ReadStamp(Text(text))) == Ok(text) <==> IsCanonical(text) && FitsTimedelta(ReadStamp(Text(text)))
  {
    var sec := ReadStamp(Text(text));
    PrintingUndoes(text, sec);
  }

  lemma PrintingUndoes(text: string, sec: int)
    requires sec == ReadStamp(Text(text))
    ensures FormatTime(sec) == Ok(text) <==> IsCanonical(text) && FitsTimedelta(sec)
  {
    if FitsTimedelta(sec) {
      PrintedIsCanonical(sec);
      if IsCanonical(text) {
        CanonicalPrints(text);
      }
    }
  }
}
