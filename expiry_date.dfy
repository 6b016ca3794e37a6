/**
 * The JSON form of a peer's expiry date: a quoted `YYYY-MM-DD` string
 * (the Go layout `"2006-01-02"` including its quotes), `null` for no date.
 * Times are calendar dates with a time of day and no zone.
 */
module ExpiryDateJson {
  import opened Wrappers

  datatype TimeValue = TimeValue(year: nat, month: nat, day: nat, nanos: nat)

  function DaysIn(month: nat, year: nat): nat {
    if month == 2 then (if year % 4 == 0 && (year % 100 != 0 || year % 400 == 0) then 29 else 28)
    else if month == 4 || month == 6 || month == 9 || month == 11 then 30
    else 31
  }

  const NanosPerDay: nat := 86_400_000_000_000

  predicate IsCalendarTime(t: TimeValue) {
    1 <= t.month <= 12 && 1 <= t.day <= DaysIn(t.month, t.year) && t.nanos < NanosPerDay
  }

  /** A `time.Time` in UTC: a valid calendar day and a time of day. */
  type Time = t: TimeValue | IsCalendarTime(t) witness TimeValue(1, 1, 1, 0)

  /** The zero `time.Time`: January 1 of year 1, midnight. */
  predicate IsZero(t: Time) {
    t == TimeValue(1, 1, 1, 0)
  }

  /** A time at midnight, the only kind the date layout can express. */
  predicate IsDateOnly(t: Time) {
    t.nanos == 0
  }

  predicate IsDigit(c: char) {
    '0' <= c <= '9'
  }

  function DigitValue(c: char): (d: nat)
    requires IsDigit(c)
    ensures d < 10
  {
    c as int - '0' as int
  }

  function DigitChar(d: nat): (c: char)
    requires d < 10
    ensures IsDigit(c) && DigitValue(c) == d
  {
    ('0' as int + d) as char
  }

  /** Shortest decimal text of `n`. */
  function Decimal(n: nat): (s: string)
    ensures |s| >= 1
    ensures n >= 10 ==> |s| >= 2
    decreases n
  {
    if n < 10 then [DigitChar(n)] else Decimal(n / 10) + [DigitChar(n % 10)]
  }

  function TwoDigits(n: nat): string
    requires n < 100
  {
    [DigitChar(n / 10), DigitChar(n % 10)]
  }

  /** The year as Go's layout writes it: at least four digits, zero-padded. */
  function YearText(y: nat): (s: string)
    ensures y < 10000 ==> |s| == 4
    ensures y >= 10000 ==> |s| > 4
  {
    if y < 10000 then
      [DigitChar(y / 10 / 10 / 10), DigitChar(y / 10 / 10 % 10), DigitChar(y / 10 % 10), DigitChar(y % 10)]
    else
      DecimalAtLeastFive(y);
      Decimal(y)
  }

  lemma {:induction false} DecimalAtLeastFive(n: nat)
    requires n >= 10000
    ensures |Decimal(n)| >= 5
  {
    DecimalLength(n / 10);
  }

  lemma {:induction false} DecimalLength(n: nat)
    requires n >= 1000
    ensures |Decimal(n)| >= 4
  {
    assert n / 10 >= 100;
    assert n / 100 >= 10;
    assert Decimal(n) == Decimal(n / 10) + [DigitChar(n % 10)];
    assert Decimal(n / 10) == Decimal(n / 100) + [DigitChar(n / 10 % 10)];
  }

  /** `d.Format("\"2006-01-02\"")`. */
  function FormatExpiryDate(t: Time): (s: string)
    ensures t.year < 10000 ==> |s| == 12 && s[0] == '"' && s[5] == '-' && s[8] == '-' && s[11] == '"'
    ensures t.year >= 10000 ==> |s| > 12
  {
    "\"" + YearText(t.year) + "-" + TwoDigits(t.month) + "-" + TwoDigits(t.day) + "\""
  }

  /**
   * `time.Parse("\"2006-01-02\"", text)`: exactly a quote, four year
   * digits, a dash, two month digits, a dash, two day digits and a quote,
   * with the month in 1..12 and the day within the month; None otherwise.
   */
  function ParseExpiryDate(text: string): (r: Option<Time>)
    ensures r.Some? ==> |text| == 12 && IsDateOnly(r.value)
  {
    if |text| != 12 || text[0] != '"' || text[5] != '-' || text[8] != '-' || text[11] != '"' then None
    else if !(IsDigit(text[1]) && IsDigit(text[2]) && IsDigit(text[3]) && IsDigit(text[4])
              && IsDigit(text[6]) && IsDigit(text[7]) && IsDigit(text[9]) && IsDigit(text[10])) then None
    else
      var year := 1000 * DigitValue(text[1]) + 100 * DigitValue(text[2]) + 10 * DigitValue(text[3]) + DigitValue(text[4]);
      var month := 10 * DigitValue(text[6]) + DigitValue(text[7]);
      var day := 10 * DigitValue(text[9]) + DigitValue(text[10]);
      if month < 1 || month > 12 then None
      else if day < 1 || day > DaysIn(month, year) then None
      else Some(TimeValue(year, month, day, 0))
  }

  lemma FourDigitValue(y: nat)
    requires y < 10000
    ensures y / 10 / 10 / 10 < 10
    ensures 1000 * (y / 10 / 10 / 10) + 100 * (y / 10 / 10 % 10) + 10 * (y / 10 % 10) + y % 10 == y
  {
    var r1 := y / 10;
    var r2 := r1 / 10;
    assert y == 10 * r1 + y % 10;
    assert r1 == 10 * r2 + r1 % 10;
    assert r2 == 10 * (r2 / 10) + r2 % 10;
  }

  /** Parsing the formatted text of a date gives the date back. */
  lemma ParseFormat(t: Time)
    requires IsDateOnly(t) && t.year < 10000
    ensures ParseExpiryDate(FormatExpiryDate(t)) == Some(t)
  {
    var s := FormatExpiryDate(t);
    FourDigitValue(t.year);
    assert s[1..5] == YearText(t.year);
  }

  /** Accepted text is exactly the formatted text of the date it stands for. */
  lemma FormatParse(text: string)
    requires ParseExpiryDate(text).Some?
    ensures FormatExpiryDate(ParseExpiryDate(text).value) == text
  {
    var t := ParseExpiryDate(text).value;
    YearTextOfDigits(text[1], text[2], text[3], text[4]);
    TwoDigitsOfDigits(text[6], text[7]);
    TwoDigitsOfDigits(text[9], text[10]);
    assert text == "\"" + text[1..5] + "-" + text[6..8] + "-" + text[9..11] + "\"";
  }

  lemma DigitCharValue(c: char)
    requires IsDigit(c)
    ensures DigitChar(DigitValue(c)) == c
  {
  }

  lemma YearTextOfDigits(c0: char, c1: char, c2: char, c3: char)
    requires IsDigit(c0) && IsDigit(c1) && IsDigit(c2) && IsDigit(c3)
    ensures YearText(1000 * DigitValue(c0) + 100 * DigitValue(c1) + 10 * DigitValue(c2) + DigitValue(c3))
      == [c0, c1, c2, c3]
  {
    var d, c, b, a := DigitValue(c0), DigitValue(c1), DigitValue(c2), DigitValue(c3);
    var y := 1000 * d + 100 * c + 10 * b + a;
    SplitDigits(d, c, b, a);
    DigitCharValue(c0);
    DigitCharValue(c1);
    DigitCharValue(c2);
    DigitCharValue(c3);
  }

  lemma SplitDigits(d: nat, c: nat, b: nat, a: nat)
    requires d < 10 && c < 10 && b < 10 && a < 10
    ensures var y := 1000 * d + 100 * c + 10 * b + a;
      y / 10 / 10 / 10 == d && y / 10 / 10 % 10 == c && y / 10 % 10 == b && y % 10 == a
  {
    var y := 1000 * d + 100 * c + 10 * b + a;
    assert y == 10 * (100 * d + 10 * c + b) + a;
    assert y / 10 == 100 * d + 10 * c + b;
    assert y / 10 == 10 * (10 * d + c) + b;
    assert y / 10 / 10 == 10 * d + c;
    assert y / 10 / 10 / 10 == d;
  }

  lemma TwoDigitsOfDigits(c0: char, c1: char)
    requires IsDigit(c0) && IsDigit(c1)
    ensures TwoDigits(10 * DigitValue(c0) + DigitValue(c1)) == [c0, c1]
  {
    DigitCharValue(c0);
    DigitCharValue(c1);
  }

  /** `ExpiryDate` wraps an optional `time.Time`. */
  class ExpiryDate {
    var Time: Option<Time>

    constructor (t: Option<Time>)
      ensures Time == t
    {
      Time := t;
    }

    /**
     * `UnmarshalJSON`: blank input keeps the current time, text outside the
     * layout is an error that keeps it too, and the zero time is accepted
     * without being stored.
     */
    method UnmarshalJSON(b: string) returns (err: Option<JsonError>)
      modifies this
      ensures IsBlankJson(b) ==> err == None && Time == old(Time)
      ensures !IsBlankJson(b) && ParseExpiryDate(b).None? ==> err == Some(DateParseError(b)) && Time == old(Time)
      ensures !IsBlankJson(b) && ParseExpiryDate(b).Some? ==>
        && err == None
        && Time == if IsZero(ParseExpiryDate(b).value) then old(Time) else ParseExpiryDate(b)
    {
      if IsBlankJson(b) {
        return None;
      }
      var parsed := ParseExpiryDate(b);
      if parsed.None? {
        return Some(DateParseError(b));
      }
      if !IsZero(parsed.value) {
        Time := parsed;
      }
      return None;
    }
  }

  datatype JsonError = DateParseError(input: string)

  /** Empty input, `null` and `""` carry no date. */
  predicate IsBlankJson(b: string) {
    |b| == 0 || b == "null" || b == "\"\""
  }

  /** `MarshalJSON`, which also accepts a nil receiver. */
  method MarshalJSON(d: ExpiryDate?) returns (b: string)
    ensures d == null || d.Time.None? ==> b == "null"
    ensures d != null && d.Time.Some? ==> b == FormatExpiryDate(d.Time.value)
  {
    if d == null || d.Time.None? {
      return "null";
    }
    b := FormatExpiryDate(d.Time.value);
  }

  /**
   * Marshalling an expiry date and unmarshalling the bytes into a fresh
   * value gives the same date back: no date stays no date, and a non-zero
   * date of a four-digit year is restored.
   */
  method MarshalRoundTrip(t: Option<Time>) returns (restored: Option<Time>, err: Option<JsonError>)
    requires t.Some? ==> IsDateOnly(t.value) && !IsZero(t.value) && t.value.year < 10000
    ensures err == None && restored == t
  {
    var source := new ExpiryDate(t);
    var text := MarshalJSON(source);
    if t.Some? {
      ParseFormat(t.value);
    }
    var target := new ExpiryDate(None);
    err := target.UnmarshalJSON(text);
    restored := target.Time;
  }

  /** A year past 9999 is written with more digits than the layout reads back. */
  lemma LongYearDoesNotRoundTrip(t: Time)
    requires t.year >= 10000
    ensures ParseExpiryDate(FormatExpiryDate(t)).None?
  {
  }
}
