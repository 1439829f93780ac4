/** The three texts for a number of seconds, the two readers of such texts, and which undo which. */
module Durations {
  import opened Wrappers
  import opened Strings
  import opened Doubles

  datatype TimeError = ValueError | OverflowError

  // -------- Python's number literals, ASCII only

  /** The digits of a literal part, where single underscores may separate digits. */
  function DigitsOf(s: string): (r: Option<string>)
    ensures r.Some? ==> |r.value| > 0 && AllDigits(r.value)
  {
    if s == "" || !IsDigit(s[0]) then None
    else if |s| == 1 then Some(s)
    else
      var rest := DigitsOf(if s[1] == '_' then s[2..] else s[1..]);
      if rest.Some? then Some([s[0]] + rest.value) else None
  }

  function Unsigned(s: string): string {
    if s != "" && (s[0] == '-' || s[0] == '+') then s[1..] else s
  }

  predicate IsNegative(s: string) {
    s != "" && s[0] == '-'
  }

  const MAX_STR_DIGITS := 4300

  /** `int(s)`. */
  function ParseInt(s: string): Result<int, TimeError> {
    var text := Strip(s);
    var digits := DigitsOf(Unsigned(text));
    if digits.None? || |digits.value| > MAX_STR_DIGITS then Err(ValueError)
    else
      var n: int := NatOf(digits.value);
      Ok(if IsNegative(text) then -n else n)
  }

  /** The magnitude of a decimal literal with an optional point; one side of the point may be empty. */
  function Magnitude(s: string): Option<real> {
    var parts := Split(s, '.');
    if |parts| == 1 then
      var whole := DigitsOf(s);
      if whole.None? then None else Some(NatOf(whole.value) as real)
    else if |parts| == 2 && s != "." then
      var whole := if parts[0] == "" then Some("") else DigitsOf(parts[0]);
      var fraction := if parts[1] == "" then Some("") else DigitsOf(parts[1]);
      if whole.None? || fraction.None? then None
      else
        PowerPositive(10, |fraction.value|);
        Some(NatOf(whole.value) as real + NatOf(fraction.value) as real / Power(10, |fraction.value|) as real)
    else None
  }

  /** `float(s)`, without exponents and infinities, before it is rounded to binary. */
  function ParseFloat(s: string): Result<real, TimeError> {
    var text := Strip(s);
    match Magnitude(Unsigned(text))
    case None => Err(ValueError)
    case Some(x) => Ok(if IsNegative(text) then -x else x)
  }

  /** `round(x, 0)`: to the nearest integer, ties to even. */
  function Round(x: real): (n: int)
    ensures -0.5 <= n as real - x <= 0.5
    ensures n as real - x == 0.5 || n as real - x == -0.5 ==> n % 2 == 0
  {
    var down := x.Floor;
    var rest := x - down as real;
    if rest < 0.5 || (rest == 0.5 && down % 2 == 0) then down else down + 1
  }

  // -------- the printers

  /** `f"{n:02d}"`. */
  function TwoDigits(n: int): string {
    if n < 0 then "-" + Decimal(-n) else if n < 10 then "0" + Decimal(n) else Decimal(n)
  }

  const SECONDS_PER_DAY := 86400
  const MAX_DAYS := 999_999_999

  /** The seconds a `timedelta` can hold. */
  predicate FitsTimedelta(sec: int) {
    -MAX_DAYS <= sec / SECONDS_PER_DAY <= MAX_DAYS
  }

  /** `_ftime`; Python's `divmod` floors, as Dafny's `/` does for a positive divisor. */
  function FormatTime(sec: int): Result<string, TimeError> {
    if !FitsTimedelta(sec) then Err(OverflowError)
    else Ok(TwoDigits(sec / 60 / 60) + ":" + TwoDigits(sec / 60 % 60) + ":" + TwoDigits(sec % 60))
  }

  /** `format_duration`. */
  function FormatDuration(seconds: int): string {
    var hours, minutes, secs := seconds / 3600, seconds % 3600 / 60, seconds % 60;
    if hours > 0 then TwoDigits(hours) + ":" + TwoDigits(minutes) + ":" + TwoDigits(secs)
    else TwoDigits(minutes) + ":" + TwoDigits(secs)
  }

  // -------- the readers

  /** A chapter boundary as stored: absent or empty, a number, or a text. */
  datatype Stamp = Missing | Number(value: real) | Text(text: string)

  function Truncate(x: real): int {
    if x >= 0.0 then x.Floor else -((-x).Floor)
  }

  function ThreeFields(text: string): Option<int> {
    var parts := Split(text, ':');
    if |parts| != 3 then None
    else
      var h, m, s := ParseInt(parts[0]), ParseInt(parts[1]), ParseInt(parts[2]);
      if h.Err? || m.Err? || s.Err? then None else Some(h.value * 3600 + m.value * 60 + s.value)
  }

  /** `_ts` of `list_chapters`. */
  function ReadStamp(t: Stamp): int {
    match t
    case Missing => 0
    case Number(x) => Truncate(x)
    case Text(text) => if text == "" then 0 else ThreeFields(text).GetOr(0)
  }

  function TrimCommas(s: string): string {
    if s != "" && s[|s| - 1] == ',' then TrimCommas(s[..|s| - 1]) else s
  }

  /** `round(float(field), 0)`. A whole number beyond 2^53 is read as the nearest double. */
  function ReadField(field: string): Option<int> {
    match ParseFloat(field)
    case Err(_) => None
    case Ok(x) => Some(Double(Round(x)))
  }

  function ReadAll(fields: seq<string>, read: string -> Option<int>): seq<Option<int>> {
    seq(|fields|, k requires 0 <= k < |fields| => read(fields[k]))
  }

  function Readings(text: string): seq<Option<int>> {
    ReadAll(Split(TrimCommas(text), ':'), ReadField)
  }

  /** One turn of the loop: the power becomes a float, then the product, then the sum. */
  function Added(sum: int, x: int, index: nat): int {
    Double(sum + Double(x * Double(Power(60, index))))
  }

  /** The sum as the program builds it, in floats, from the last reading on; None if one is bad. */
  function FloatSum(readings: seq<Option<int>>): Option<int> {
    if readings == [] then Some(0)
    else
      match (FloatSum(readings[1..]), readings[0])
      case (Some(sum), Some(x)) => Some(Added(sum, x, |readings| - 1))
      case _ => None
  }

  function HumanSeconds(text: string): Result<int, TimeError> {
    match FloatSum(Readings(text))
    case None => Err(ValueError)
    case Some(n) => Ok(n)
  }

  // -------- when the float sum is exact

  /** The value of a list of base-60 digits, most significant first, after `high`; None if one is bad. */
  function Horner(readings: seq<Option<int>>, high: int): Option<int> {
    if readings == [] then Some(high)
    else match readings[0]
      case None => None
      case Some(x) => Horner(readings[1..], 60 * high + x)
  }

  predicate IsExact(n: int) {
    -EXACT <= n <= EXACT
  }

  /** No reading is bad, and no term and no partial sum exceeds 2^53 in magnitude. */
  predicate StaysExact(readings: seq<Option<int>>) {
    readings == [] ||
    (StaysExact(readings[1..]) && readings[0].Some?
     && IsExact(readings[0].value * Power(60, |readings| - 1))
     && Horner(readings, 0).Some? && IsExact(Horner(readings, 0).value))
  }

  /** The leading value counts sixty times for every reading behind it. */
  lemma {:induction false} HornerShifts(readings: seq<Option<int>>, high: int)
    ensures Horner(readings, high).Some? <==> Horner(readings, 0).Some?
    ensures Horner(readings, 0).Some? ==>
              Horner(readings, high).value == high * Power(60, |readings|) + Horner(readings, 0).value
    decreases |readings|
  {
    if readings != [] && readings[0].Some? {
      var x := readings[0].value;
      HornerShifts(readings[1..], 60 * high + x);
      HornerShifts(readings[1..], x);
      PlaceShift(high, x, Power(60, |readings| - 1));
    }
  }

  lemma PlaceShift(n: int, x: int, p: int)
    ensures (60 * n + x) * p == n * (60 * p) + x * p
  {
  }

  lemma ExactTerm(x: int, p: nat)
    requires p > 0 && IsExact(x * p)
    ensures Double(x * Double(p)) == x * p
  {
    if x == 0 {
      SmallIsDouble(0);
    } else {
      assert p <= EXACT by {
        if x > 0 {
          assert (x - 1) * p >= 0;
        } else {
          assert (-x - 1) * p >= 0;
        }
      }
      SmallIsDouble(p);
      SmallIsDouble(x * p);
    }
  }

  lemma LeadingTerm(readings: seq<Option<int>>)
    requires readings != [] && readings[0].Some? && Horner(readings, 0).Some?
    ensures Horner(readings[1..], 0).Some?
    ensures Horner(readings, 0).value
            == readings[0].value * Power(60, |readings| - 1) + Horner(readings[1..], 0).value
  {
    HornerShifts(readings[1..], readings[0].value);
  }

  lemma ExactAdd(x: int, index: nat, rest: int)
    requires IsExact(x * Power(60, index)) && IsExact(x * Power(60, index) + rest)
    ensures Added(rest, x, index) == x * Power(60, index) + rest
  {
    PowerPositive(60, index);
    ExactTerm(x, Power(60, index));
    SmallIsDouble(x * Power(60, index) + rest);
  }

  /** The float sum is the value of the readings as long as nothing on the way exceeds 2^53. */
  lemma {:induction false} ExactSum(readings: seq<Option<int>>)
    requires StaysExact(readings)
    ensures FloatSum(readings) == Horner(readings, 0)
    decreases |readings|
  {
    if readings != [] {
      ExactSum(readings[1..]);
      LeadingTerm(readings);
      ExactAdd(readings[0].value, |readings| - 1, Horner(readings[1..], 0).value);
    }
  }

  lemma {:induction false} SumFails(readings: seq<Option<int>>, k: nat)
    requires k < |readings| && readings[k].None?
    ensures FloatSum(readings).None?
    decreases k
  {
    if k > 0 {
      SumFails(readings[1..], k - 1);
    }
  }

  lemma SumStep(readings: seq<Option<int>>, k: nat, sum: int, x: int)
    requires k < |readings| && readings[k] == Some(x) && FloatSum(readings[k + 1..]) == Some(sum)
    ensures FloatSum(readings[k..]) == Some(Added(sum, x, |readings| - 1 - k))
  {
    assert readings[k..] == [Some(x)] + readings[k + 1..];
  }

  /** `_human_time_to_sec`: the fields are read from the last one on, each times a growing power of sixty and
      added up in floats; it fails at the first bad one. The result is the value of the text in base sixty as
      long as nothing on the way exceeds 2^53. */
  method HumanTimeToSec(text: string) returns (r: Result<int, TimeError>)
    ensures r == HumanSeconds(text)
    ensures StaysExact(Readings(text)) ==> r.Ok? && Some(r.value) == Horner(Readings(text), 0)
  {
    var items := Split(TrimCommas(text), ':');
    var total := SumFields(items, ReadField);
    if StaysExact(Readings(text)) {
      ExactSum(Readings(text));
    }
    return if total.None? then Err(ValueError) else Ok(total.value);
  }

  /** Its loop. */
  method SumFields(items: seq<string>, read: string -> Option<int>) returns (r: Option<int>)
    ensures r == FloatSum(ReadAll(items, read))
  {
    var result := 0;
    var index := 0;
    ghost var readings := ReadAll(items, read);
    while index < |items|
      invariant 0 <= index <= |items|
      invariant FloatSum(readings[|items| - index..]) == Some(result)
    {
      var k := |items| - 1 - index;
      var x := read(items[k]);
      assert x == readings[k];
      if x.None? {
        SumFails(readings, k);
        return None;
      }
      SumStep(readings, k, result, x.value);
      result := Added(result, x.value, index);
      index := index + 1;
    }
    return Some(result);
  }
}
