/** The texts that extractors and media tools print, and what the readers make of them: fractions, signs, white space,
    trailing commas, and numbers in place of texts. */
module TimeTexts {
  import opened Wrappers
  import opened Strings
  import opened Doubles
  import opened Durations
  import opened DurationProofs

  // -------- white space and signs

  predicate AllSpace(s: string) {
    forall i :: 0 <= i < |s| ==> IsSpace(s[i])
  }

  /** Not empty, and with white space at neither end. */
  predicate IsTrimmed(s: string) {
    s != "" && !IsSpace(s[0]) && !IsSpace(s[|s| - 1])
  }

  lemma {:induction false} StripLeftOf(l: string, s: string)
    requires AllSpace(l) && s != "" && !IsSpace(s[0])
    ensures StripLeft(l + s) == s
  {
    if l == "" {
      assert l + s == s;
    } else {
      assert (l + s)[1..] == l[1..] + s;
      StripLeftOf(l[1..], s);
    }
  }

  lemma {:induction false} StripRightOf(s: string, r: string)
    requires AllSpace(r) && s != "" && !IsSpace(s[|s| - 1])
    ensures StripRight(s + r) == s
  {
    if r == "" {
      assert s + r == s;
    } else {
      assert (s + r)[..|s + r| - 1] == s + r[..|r| - 1];
      StripRightOf(s, r[..|r| - 1]);
    }
  }

  /** White space around a text is dropped, and nothing else. */
  lemma StripAround(l: string, s: string, r: string)
    requires AllSpace(l) && AllSpace(r) && IsTrimmed(s)
    ensures Strip(l + s + r) == s
  {
    assert l + s + r == l + (s + r);
    StripLeftOf(l, s + r);
    StripRightOf(s, r);
  }

  predicate IsSign(s: string) {
    s == "" || s == "+" || s == "-"
  }

  function Signed(sign: string, n: int): int {
    if sign == "-" then -n else n
  }

  lemma UnsignedOf(sign: string, body: string)
    requires IsSign(sign) && body != "" && body[0] != '-' && body[0] != '+'
    ensures Unsigned(sign + body) == body && (IsNegative(sign + body) <==> sign == "-")
  {
    if sign == "" {
      assert sign + body == body;
    } else {
      assert (sign + body)[1..] == body;
    }
  }

  // -------- digits

  /** The text without this character. */
  function Dropped(s: string, c: char): string {
    if s == "" then "" else (if s[0] == c then "" else [s[0]]) + Dropped(s[1..], c)
  }

  /** Digits, with single underscores between digits only. */
  predicate IsGrouped(s: string) {
    && s != "" && IsDigit(s[0]) && IsDigit(s[|s| - 1])
    && forall i :: 0 < i < |s| && !IsDigit(s[i]) ==> s[i] == '_' && IsDigit(s[i - 1])
  }

  /** Exactly such texts are read, as their digits in order. */
  lemma {:induction false} DigitsOfMeans(s: string)
    ensures DigitsOf(s).Some? <==> IsGrouped(s)
    ensures DigitsOf(s).Some? ==> DigitsOf(s).value == Dropped(s, '_')
    decreases |s|
  {
    if s != "" && IsDigit(s[0]) && |s| > 1 {
      var t := if s[1] == '_' then s[2..] else s[1..];
      DigitsOfMeans(t);
      GroupedStep(s, t);
      DroppedStep(s, t);
    }
  }

  lemma GroupedStep(s: string, t: string)
    requires |s| > 1 && IsDigit(s[0]) && t == if s[1] == '_' then s[2..] else s[1..]
    ensures IsGrouped(s) <==> IsGrouped(t)
  {
    var k := |s| - |t|;
    assert forall i :: 0 <= i < |t| ==> t[i] == s[i + k];
    if IsGrouped(t) {
      assert t[0] == s[k] && t[|t| - 1] == s[|s| - 1];
      forall i | 0 < i < |s| && !IsDigit(s[i]) ensures s[i] == '_' && IsDigit(s[i - 1]) {
        if i > k {
          assert s[i] == t[i - k] && s[i - 1] == t[i - k - 1];
        }
      }
    }
    if IsGrouped(s) {
      if k == 2 && t != "" {
        assert IsDigit(s[2]);
      }
    }
  }

  lemma DroppedStep(s: string, t: string)
    requires |s| > 1 && IsDigit(s[0]) && t == if s[1] == '_' then s[2..] else s[1..]
    ensures Dropped(s, '_') == [s[0]] + Dropped(t, '_')
  {
    if s[1] == '_' {
      assert s[1..][1..] == s[2..];
      assert Dropped(s[1..], '_') == Dropped(s[2..], '_');
    }
  }

  /** A whole number is read with its sign, whatever white space is around it, up to the longest number of digits. */
  lemma SignedInt(l: string, sign: string, digits: string, r: string)
    requires AllSpace(l) && AllSpace(r) && IsSign(sign) && digits != "" && AllDigits(digits)
    ensures ParseInt(l + (sign + digits) + r)
            == if |digits| > 4300 then Err(ValueError) else Ok(Signed(sign, NatOf(digits)))
  {
    SignedTrimmed(sign, digits);
    StripAround(l, sign + digits, r);
    UnsignedOf(sign, digits);
    DigitsOfDigits(digits);
    TrimmedInt(l + (sign + digits) + r, sign + digits, sign, digits);
  }

  lemma TrimmedInt(text: string, trimmed: string, sign: string, digits: string)
    requires Strip(text) == trimmed && Unsigned(trimmed) == digits && (IsNegative(trimmed) <==> sign == "-")
    requires AllDigits(digits) && DigitsOf(digits) == Some(digits)
    ensures ParseInt(text) == if |digits| > 4300 then Err(ValueError) else Ok(Signed(sign, NatOf(digits)))
  {
  }

  lemma SignedTrimmed(sign: string, body: string)
    requires IsSign(sign) && IsTrimmed(body)
    ensures IsTrimmed(sign + body)
  {
    assert (sign + body)[|sign + body| - 1] == body[|body| - 1];
    if sign == "" {
      assert sign + body == body;
    } else {
      assert (sign + body)[0] == sign[0];
    }
  }

  // -------- fractions

  /** `n` is `whole` and `part` units, rounded to the nearest integer, ties to even. */
  predicate Rounded(whole: int, part: int, unit: int, n: int) {
    var x := unit * (n - whole) - part;
    -unit <= 2 * x <= unit && (2 * x == unit || 2 * x == -unit ==> n % 2 == 0)
  }

  /** There is only one such integer. */
  lemma RoundedOnce(whole: int, part: int, unit: int, n: int, m: int)
    requires unit > 0 && Rounded(whole, part, unit, n) && Rounded(whole, part, unit, m)
    ensures n == m
  {
    var x, y := unit * (n - whole) - part, unit * (m - whole) - part;
    Distributes(unit, n - whole, m - whole);
    Neighbours(unit, n - m, x, y);
  }

  lemma Distributes(u: int, a: int, b: int)
    ensures u * a - u * b == u * (a - b)
  {
  }

  lemma Neighbours(unit: int, d: int, x: int, y: int)
    requires unit > 0 && x - y == unit * d && -unit <= 2 * x <= unit && -unit <= 2 * y <= unit
    ensures -1 <= d <= 1
    ensures d == 1 ==> 2 * x == unit && 2 * y == -unit
    ensures d == -1 ==> 2 * x == -unit && 2 * y == unit
  {
    if d >= 2 {
      Larger(unit, d, 2);
    } else if d <= -2 {
      Negated(unit, d);
      Larger(unit, -d, 2);
    }
  }

  lemma Negated(a: int, b: int)
    ensures a * -b == -(a * b)
  {
  }

  lemma Larger(unit: int, a: int, b: int)
    requires unit > 0 && a >= b
    ensures unit * a >= unit * b
  {
  }

  lemma {:induction false} RealProduct(a: nat, b: int)
    ensures (a * b) as real == a as real * b as real
    decreases a
  {
    if a > 0 {
      RealProduct(a - 1, b);
      assert a * b == (a - 1) * b + b;
      assert a as real == (a - 1) as real + 1.0;
    }
  }

  lemma Quotient(p: real, u: real)
    requires u > 0.0
    ensures u * (p / u) == p
  {
  }

  lemma RealDistributes(u: real, a: real, b: real)
    ensures u * (a - b) == u * a - u * b
  {
  }

  lemma Scaled(u: real, e: real)
    requires u > 0.0 && -0.5 <= e <= 0.5
    ensures -u <= 2.0 * (u * e) <= u
    ensures 2.0 * (u * e) == u ==> e == 0.5
    ensures 2.0 * (u * e) == -u ==> e == -0.5
  {
  }

  lemma ErrorScaled(whole: int, part: int, unit: nat, n: int, u: real, q: real, e: real)
    requires unit > 0 && u == unit as real && u * q == part as real && e == (n - whole) as real - q
    ensures u * e == (unit * (n - whole) - part) as real
  {
    RealDistributes(u, (n - whole) as real, q);
    RealProduct(unit, n - whole);
  }

  lemma ErrorRounded(x: int, unit: int, n: int, u: real, e: real)
    requires unit > 0 && u == unit as real && u * e == x as real && -0.5 <= e <= 0.5
    requires e == 0.5 || e == -0.5 ==> n % 2 == 0
    ensures -unit <= 2 * x <= unit && (2 * x == unit || 2 * x == -unit ==> n % 2 == 0)
  {
    Scaled(u, e);
    IntBounds(x, unit, u * e, u);
  }

  lemma IntBounds(x: int, unit: int, t: real, u: real)
    requires t == x as real && u == unit as real && -u <= 2.0 * t <= u
    ensures -unit <= 2 * x <= unit && (2 * x == unit ==> 2.0 * t == u) && (2 * x == -unit ==> 2.0 * t == -u)
  {
    assert 2.0 * t == (2 * x) as real;
  }

  /** Rounding the real number is rounding the fraction. */
  lemma RoundScaled(whole: int, part: int, unit: nat, x: real, n: int)
    requires unit > 0 && x == whole as real + part as real / unit as real && n == Round(x)
    ensures Rounded(whole, part, unit, n)
  {
    var u, q := unit as real, part as real / unit as real;
    var e := (n - whole) as real - q;
    assert e == n as real - x;
    Quotient(part as real, u);
    ErrorScaled(whole, part, unit, n, u, q, e);
    ErrorRounded(unit * (n - whole) - part, unit, n, u, e);
  }

  /** The text of a decimal fraction, one side of the point perhaps empty. */
  ghost predicate IsFraction(text: string, whole: string, part: string) {
    text == whole + "." + part && AllDigits(whole) && AllDigits(part) && (whole != "" || part != "")
  }

  lemma PointSplits(text: string, whole: string, part: string)
    requires IsFraction(text, whole, part)
    ensures Split(text, '.') == [whole, part] && text != "."
  {
    SplitOne(part, '.');
    SplitField(whole, part, '.');
    assert whole + ['.'] + part == text;
    assert |text| == |whole| + 1 + |part|;
  }

  lemma FractionMagnitude(text: string, whole: string, part: string)
    requires IsFraction(text, whole, part)
    ensures Power(10, |part|) > 0
    ensures Magnitude(text) == Some(NatOf(whole) as real + NatOf(part) as real / Power(10, |part|) as real)
  {
    PowerPositive(10, |part|);
    PointSplits(text, whole, part);
    if whole != "" {
      DigitsOfDigits(whole);
    }
    if part != "" {
      DigitsOfDigits(part);
    }
  }

  lemma FractionTrimmed(text: string, whole: string, part: string)
    requires IsFraction(text, whole, part)
    ensures IsTrimmed(text) && text[0] != '-' && text[0] != '+'
  {
    assert text[0] == if whole != "" then whole[0] else '.';
    assert text[|text| - 1] == if part != "" then part[|part| - 1] else '.';
  }

  /** A fraction is read as the nearest integer, ties to even, with its sign, whatever white space is around it, as long
      as the integer is exact in a double. */
  lemma FractionIsRounded(l: string, sign: string, text: string, whole: string, part: string, r: string)
    returns (n: int)
    requires IsFraction(text, whole, part) && IsSign(sign) && AllSpace(l) && AllSpace(r) && NatOf(whole) < EXACT
    ensures ReadField(l + (sign + text) + r) == Some(Signed(sign, n))
    ensures Rounded(NatOf(whole), NatOf(part), Power(10, |part|), n)
  {
    FractionMagnitude(text, whole, part);
    FractionTrimmed(text, whole, part);
    SignedTrimmed(sign, text);
    StripAround(l, sign + text, r);
    UnsignedOf(sign, text);
    PartBelow(part);
    n := FractionField(l + (sign + text) + r, sign + text, sign, text, NatOf(whole), NatOf(part),
        Power(10, |part|));
  }

  lemma FractionField(field: string, trimmed: string, sign: string, text: string, whole: nat, part: nat, unit: nat)
    returns (n: int)
    requires Strip(field) == trimmed && Unsigned(trimmed) == text && (IsNegative(trimmed) <==> sign == "-")
    requires part < unit && whole < EXACT && Magnitude(text) == Some(whole as real + part as real / unit as real)
    ensures ReadField(field) == Some(Signed(sign, n)) && Rounded(whole, part, unit, n)
  {
    var x := whole as real + part as real / unit as real;
    n := Round(x);
    RoundScaled(whole, part, unit, x, n);
    RoundedNear(whole, part, unit, n);
    RoundSigned(x);
    SmallIsDouble(Signed(sign, n));
    TrimmedField(field, trimmed, sign, text, x);
  }

  lemma TrimmedField(field: string, trimmed: string, sign: string, text: string, x: real)
    requires Strip(field) == trimmed && Unsigned(trimmed) == text && (IsNegative(trimmed) <==> sign == "-")
    requires Magnitude(text) == Some(x) && Round(-x) == -Round(x) && IsDouble(Signed(sign, Round(x)))
    ensures ReadField(field) == Some(Signed(sign, Round(x)))
  {
  }

  lemma RoundSigned(x: real)
    ensures Round(-x) == -Round(x)
  {
  }

  lemma {:induction false} PartBelow(part: string)
    requires AllDigits(part)
    ensures NatOf(part) < Power(10, |part|)
  {
    if part != "" {
      PartBelow(part[..|part| - 1]);
    }
  }

  lemma RoundedNear(whole: int, part: int, unit: int, n: int)
    requires 0 <= part < unit && Rounded(whole, part, unit, n)
    ensures whole <= n <= whole + 1
  {
    var d := n - whole;
    if d >= 2 {
      Larger(unit, d, 2);
    } else if d <= -1 {
      Negated(unit, d);
      Larger(unit, -d, 1);
    }
  }

  // -------- the duration line

  lemma WholeField(digits: string)
    requires digits != "" && AllDigits(digits) && NatOf(digits) <= EXACT
    ensures ReadField(digits) == Some(NatOf(digits))
  {
    SpelledField(digits, NatOf(digits));
    SmallIsDouble(NatOf(digits));
  }

  lemma {:induction false} CommasTrim(s: string, commas: string)
    requires s != "" && s[|s| - 1] != ',' && AllCommas(commas)
    ensures TrimCommas(s + commas) == s
  {
    if commas == "" {
      assert s + commas == s;
    } else {
      assert (s + commas)[..|s + commas| - 1] == s + commas[..|commas| - 1];
      CommasTrim(s, commas[..|commas| - 1]);
    }
  }

  predicate AllCommas(s: string) {
    forall i :: 0 <= i < |s| ==> s[i] == ','
  }

  /** Hours and minutes in digits, and seconds, between colons, and commas after them. */
  ghost predicate IsClock(line: string, h: string, m: string, sec: string, commas: string) {
    && h != "" && AllDigits(h) && m != "" && AllDigits(m) && AllCommas(commas)
    && line == h + ":" + m + ":" + sec + commas
  }

  lemma ThreeReadings(line: string, h: string, m: string, sec: string, commas: string)
    requires IsClock(line, h, m, sec, commas) && Without(':', sec) && sec != "" && sec[|sec| - 1] != ','
    ensures Readings(line) == [ReadField(h), ReadField(m), ReadField(sec)]
  {
    var text := h + ":" + m + ":" + sec;
    assert text[|text| - 1] == sec[|sec| - 1];
    CommasTrim(text, commas);
    ColonTriple(h, m, sec);
  }

  lemma ThreeStayExact(h: int, m: int, n: int)
    requires 0 <= h && 0 <= m && 0 <= n && 3600 * h + 60 * m + n <= EXACT
    ensures StaysExact([Some(h), Some(m), Some(n)])
    ensures Horner([Some(h), Some(m), Some(n)], 0) == Some(3600 * h + 60 * m + n)
  {
    var all, two, last := [Some(h), Some(m), Some(n)], [Some(m), Some(n)], [Some(n)];
    assert all[1..] == two && two[1..] == last && last[1..] == [];
    assert Power(60, 0) == 1 && Power(60, 1) == 60 && Power(60, 2) == 3600;
    assert Horner(last, 0) == Horner([], n) == Some(n);
    assert StaysExact([]) && StaysExact(last);
    assert Horner(two, 0) == Horner(last, m) == Horner([], 60 * m + n) == Some(60 * m + n);
    assert StaysExact(two);
    assert Horner(all, 0) == Horner(two, h) == Horner(last, 60 * h + m) == Horner([], 60 * (60 * h + m) + n);
  }

  lemma ThreeValue(line: string, h: int, m: int, n: int)
    requires Readings(line) == [Some(h), Some(m), Some(n)]
    requires 0 <= h && 0 <= m && 0 <= n && 3600 * h + 60 * m + n <= EXACT
    ensures HumanSeconds(line) == Ok(3600 * h + 60 * m + n)
  {
    ThreeStayExact(h, m, n);
    ExactSum([Some(h), Some(m), Some(n)]);
  }

  lemma FractionWithout(text: string, whole: string, part: string)
    requires IsFraction(text, whole, part)
    ensures Without(':', text) && text != "" && text[|text| - 1] != ','
  {
    FractionTrimmed(text, whole, part);
  }

  /** A duration as media tools print it, hours, minutes and seconds with a fraction, and any number of commas after it,
      is read as its number of seconds, rounded to the nearest integer, ties to even. */
  lemma ClockIsRead(line: string, h: string, m: string, sec: string, whole: string, part: string, commas: string)
    returns (n: int)
    requires IsClock(line, h, m, sec, commas) && IsFraction(sec, whole, part)
    requires 3600 * NatOf(h) + 60 * NatOf(m) + NatOf(whole) < EXACT
    ensures Rounded(NatOf(whole), NatOf(part), Power(10, |part|), n)
    ensures HumanSeconds(line) == Ok(3600 * NatOf(h) + 60 * NatOf(m) + n)
  {
    n := FractionSeconds(sec, whole, part, NatOf(whole), NatOf(part), Power(10, |part|));
    var x, y, w := NatOf(h), NatOf(m), NatOf(whole);
    assert 3600 * x + 60 * y + n <= EXACT by {
      assert 3600 * x + 60 * y + w < EXACT && n <= w + 1;
    }
    ClockFields(line, h, m, sec, commas, x, y, n);
  }

  lemma FractionSeconds(sec: string, whole: string, part: string, w: nat, p: nat, unit: nat) returns (n: int)
    requires IsFraction(sec, whole, part) && w < EXACT
    requires NatOf(whole) == w && NatOf(part) == p && Power(10, |part|) == unit
    ensures ReadField(sec) == Some(n) && Rounded(w, p, unit, n)
    ensures w <= n <= w + 1 && Without(':', sec) && sec != "" && sec[|sec| - 1] != ','
  {
    FractionWithout(sec, whole, part);
    FractionMagnitude(sec, whole, part);
    FractionTrimmed(sec, whole, part);
    StripAround("", sec, "");
    assert "" + sec + "" == sec;
    UnsignedOf("", sec);
    PartBelow(part);
    n := FractionField(sec, sec, "", sec, w, p, unit);
    RoundedNear(w, p, unit, n);
  }

  lemma ClockFields(line: string, h: string, m: string, sec: string, commas: string, x: nat, y: nat, n: nat)
    requires IsClock(line, h, m, sec, commas) && NatOf(h) == x && NatOf(m) == y
    requires Without(':', sec) && sec != "" && sec[|sec| - 1] != ',' && ReadField(sec) == Some(n)
    requires 3600 * x + 60 * y + n <= EXACT
    ensures HumanSeconds(line) == Ok(3600 * x + 60 * y + n)
  {
    WholeField(h);
    WholeField(m);
    ThreeReadings(line, h, m, sec, commas);
    ThreeValue(line, x, y, n);
  }

  /** As in the examples that come with the reader. */
  lemma ClockExamples()
    ensures HumanSeconds("00:01:16.75") == Ok(77) && HumanSeconds("01:01:20.232443,") == Ok(3680)
  {
    FirstExample();
    SecondExample();
  }

  lemma SecondsExample(sec: string, whole: string, part: string, w: nat, p: nat, unit: nat, n: int)
    requires IsFraction(sec, whole, part) && w < EXACT && unit > 0 && Rounded(w, p, unit, n)
    requires NatOf(whole) == w && NatOf(part) == p && Power(10, |part|) == unit
    ensures ReadField(sec) == Some(n) && w <= n <= w + 1 && Without(':', sec) && sec != "" && sec[|sec| - 1] != ','
  {
    var k := FractionSeconds(sec, whole, part, w, p, unit);
    RoundedOnce(w, p, unit, n, k);
  }

  lemma FirstExample()
    ensures HumanSeconds("00:01:16.75") == Ok(77)
  {
    SmallNumbers();
    assert IsFraction("16.75", "16", "75");
    assert IsClock("00:01:16.75", "00", "01", "16.75", "");
    SecondsExample("16.75", "16", "75", 16, 75, 100, 17);
    ClockFields("00:01:16.75", "00", "01", "16.75", "", 0, 1, 17);
  }

  lemma SecondExample()
    ensures HumanSeconds("01:01:20.232443,") == Ok(3680)
  {
    SmallNumbers();
    assert IsFraction("20.232443", "20", "232443");
    assert IsClock("01:01:20.232443,", "01", "01", "20.232443", ",");
    SecondsExample("20.232443", "20", "232443", 20, 232443, 1_000_000, 20);
    ClockFields("01:01:20.232443,", "01", "01", "20.232443", ",", 1, 1, 20);
  }

  lemma SmallNumbers()
    ensures NatOf("00") == 0 && NatOf("01") == 1 && NatOf("16") == 16 && NatOf("75") == 75 && NatOf("20") == 20
    ensures NatOf("232443") == 232443 && Power(10, 2) == 100 && Power(10, 6) == 1_000_000
  {
    assert "16"[..1] == "1" && "75"[..1] == "7" && "20"[..1] == "2" && "01"[..1] == "0" && "00"[..1] == "0";
    assert "232443"[..5] == "23244" && "23244"[..4] == "2324" && "2324"[..3] == "232" && "232"[..2] == "23";
    assert "23"[..1] == "2" && "2"[..0] == "" && NatOf("2") == 2 && NatOf("23") == 23;
    assert NatOf("232") == 232 && NatOf("2324") == 2324 && NatOf("23244") == 23244;
    assert Power(10, 4) == 10_000;
  }

  // -------- chapter stamps and printed durations

  /** A number is cut towards zero; a text that is not three whole numbers counts as zero, and so does nothing. */
  lemma StampsAreCut(x: real)
    ensures
      var n := ReadStamp(Number(x));
      && (x >= 0.0 ==> 0.0 <= n as real <= x < n as real + 1.0)
          && (x <= 0.0 ==> n as real - 1.0 < x <= n as real <= 0.0)
    ensures ReadStamp(Missing) == 0 && ReadStamp(Text("")) == 0
  {
  }

  /** Three whole numbers between colons, with signs and white space, are read as hours, minutes and seconds, whatever
      their size. */
  lemma StampIsRead(h: string, m: string, s: string, x: int, y: int, z: int)
    requires Without(':', h) && Without(':', m) && Without(':', s)
    requires ParseInt(h) == Ok(x) && ParseInt(m) == Ok(y) && ParseInt(s) == Ok(z)
    ensures ReadStamp(Text(h + ":" + m + ":" + s)) == 3600 * x + 60 * y + z
  {
    ColonTriple(h, m, s);
  }

  /** Everything else is zero. */
  lemma StampIsZero(text: string)
    requires |Split(text, ':')| != 3 || exists k :: 0 <= k < 3 && ParseInt(Split(text, ':')[k]).Err?
    ensures ReadStamp(Text(text)) == 0
  {
  }

  /** A duration is printed like a time, without the hours when there are none. */
  lemma DurationLikeTime(seconds: int)
    requires 0 <= seconds && FitsTimedelta(seconds)
    ensures FormatTime(seconds).Ok?
    ensures FormatTime(seconds).value == if seconds >= 3600 then FormatDuration(seconds)
        else "00:" + FormatDuration(seconds)
  {
    MinuteParts(seconds, seconds % 3600 / 60, seconds % 60);
    HoursOf(seconds);
    if seconds < 3600 {
      assert TwoDigits(0) == "00";
    }
  }

  lemma HoursOf(seconds: int)
    requires 0 <= seconds
    ensures seconds / 60 / 60 == seconds / 3600 && seconds / 60 % 60 == seconds % 3600 / 60
    ensures seconds / 3600 > 0 <==> seconds >= 3600
  {
  }

  /** Times are printed from minus 999,999,999 days up to one second less than 1,000,000,000 days. */
  lemma TimeRange(sec: int)
    ensures FormatTime(sec).Ok? <==> -999_999_999 * 86400 <= sec < 1_000_000_000 * 86400
  {
  }
}
