/**
 * The wire formats for dates and timestamps (fresh/time.go).
 *
 * A Date is written as "YYYY-MM-DD" (the full-date form of section 5.6 of
 * RFC 3339) and a Time as "YYYY-MM-DDThh:mm:ssZ" (the date-time form, always
 * rendered in UTC). Parsing accepts a numeric offset ("+08:00") as well as
 * "Z" and, for times, falls back to the date-only form. Values are integer
 * calendar fields; the instant a time denotes is given by `Instant`, and the
 * lemmas show that rendering in UTC keeps it.
 */
module FreshTime {
  import opened Wrappers
  import opened Text

  datatype Date = Date(year: int, month: int, day: int)

  /** A wall-clock reading together with its offset east of UTC, in seconds. */
  datatype Time = Time(date: Date, hour: int, minute: int, second: int, offset: int)

  datatype TimeError =
    | InvalidFormat(text: string)   // the text matches none of the accepted layouts
    | NotQuoted(json: string)       // a JSON value that is not a quoted string

  /** A parse result: Go returns the zero value together with the error. */
  datatype Parsed<T> = Parsed(value: T, err: Option<TimeError>)

  /** Go's zero time.Time: January 1 of year 1, midnight UTC. */
  const ZeroDate := Date(1, 1, 1)
  const ZeroTime := Time(ZeroDate, 0, 0, 0, 0)

  // ---------------------------------------------------------------------
  // Calendar

  predicate IsLeap(y: int) {
    y % 4 == 0 && (y % 100 != 0 || y % 400 == 0)
  }

  function DaysIn(y: int, m: int): (n: int)
    requires 1 <= m <= 12
    ensures 28 <= n <= 31
  {
    if m == 2 then (if IsLeap(y) then 29 else 28)
    else if m == 4 || m == 6 || m == 9 || m == 11 then 30
    else 31
  }

  predicate ValidDate(d: Date) {
    1 <= d.month <= 12 && 1 <= d.day <= DaysIn(d.year, d.month)
  }

  predicate ValidClock(t: Time) {
    ValidDate(t.date) && 0 <= t.hour < 24 && 0 <= t.minute < 60 && 0 <= t.second < 60
  }

  /** Days from 0001-01-01 to January 1 of year y, in the proleptic Gregorian calendar. */
  function DaysBeforeYear(y: int): int {
    var p := y - 1;
    365 * p + p / 4 - p / 100 + p / 400
  }

  function DaysBeforeMonth(y: int, m: int): int
    requires 1 <= m <= 12
  {
    [0, 31, 59, 90, 120, 151, 181, 212, 243, 273, 304, 334][m - 1]
      + (if m > 2 && IsLeap(y) then 1 else 0)
  }

  /** Days since 0001-01-01. */
  function DayNumber(d: Date): int
    requires 1 <= d.month <= 12
  {
    DaysBeforeYear(d.year) + DaysBeforeMonth(d.year, d.month) + d.day - 1
  }

  /** Seconds since 0001-01-01T00:00:00Z. */
  function Instant(t: Time): int
    requires 1 <= t.date.month <= 12
  {
    DayNumber(t.date) * 86400 + t.hour * 3600 + t.minute * 60 + t.second - t.offset
  }

  lemma YearLength(y: int)
    ensures DaysBeforeYear(y + 1) - DaysBeforeYear(y) == DaysBeforeMonth(y, 12) + 31
  {
    var p := y - 1;
    assert (p + 1) / 4 - p / 4 == if y % 4 == 0 then 1 else 0;
    assert (p + 1) / 100 - p / 100 == if y % 100 == 0 then 1 else 0;
    assert (p + 1) / 400 - p / 400 == if y % 400 == 0 then 1 else 0;
  }

  function NextDay(d: Date): Date
    requires ValidDate(d)
  {
    if d.day < DaysIn(d.year, d.month) then Date(d.year, d.month, d.day + 1)
    else if d.month < 12 then Date(d.year, d.month + 1, 1)
    else Date(d.year + 1, 1, 1)
  }

  function PrevDay(d: Date): Date
    requires ValidDate(d)
  {
    if d.day > 1 then Date(d.year, d.month, d.day - 1)
    else if d.month > 1 then Date(d.year, d.month - 1, DaysIn(d.year, d.month - 1))
    else Date(d.year - 1, 12, 31)
  }

  lemma NextDayNumber(d: Date)
    requires ValidDate(d)
    ensures ValidDate(NextDay(d))
    ensures DayNumber(NextDay(d)) == DayNumber(d) + 1
  {
    if d.day == DaysIn(d.year, d.month) && d.month == 12 {
      YearLength(d.year);
    }
  }

  lemma PrevDayNumber(d: Date)
    requires ValidDate(d)
    ensures ValidDate(PrevDay(d))
    ensures DayNumber(PrevDay(d)) == DayNumber(d) - 1
  {
    if d.day == 1 && d.month == 1 {
      YearLength(d.year - 1);
    }
  }

  /** The date k days after d (before it, for negative k). */
  function AddDays(d: Date, k: int): Date
    requires ValidDate(d)
    decreases if k < 0 then -k else k
  {
    if k == 0 then d
    else if k > 0 then (NextDayNumber(d); AddDays(NextDay(d), k - 1))
    else (PrevDayNumber(d); AddDays(PrevDay(d), k + 1))
  }

  lemma {:induction false} AddDaysNumber(d: Date, k: int)
    requires ValidDate(d)
    ensures ValidDate(AddDays(d, k))
    ensures DayNumber(AddDays(d, k)) == DayNumber(d) + k
    decreases if k < 0 then -k else k
  {
    if k > 0 {
      NextDayNumber(d);
      AddDaysNumber(NextDay(d), k - 1);
    } else if k < 0 {
      PrevDayNumber(d);
      AddDaysNumber(PrevDay(d), k + 1);
    }
  }

  lemma ClockSplit(s: int)
    requires 0 <= s < 86400
    ensures 0 <= s / 3600 < 24
    ensures (s / 3600) * 3600 + (s / 60 % 60) * 60 + s % 60 == s
  {
    var m := s / 60;
    assert s == 60 * m + s % 60;
    assert m == 60 * (m / 60) + m % 60;
    assert m / 60 == s / 3600;
  }

  /**
   * time.Time.UTC: the same instant read on a clock with offset zero. The
   * day shifts by however many whole days the offset crosses.
   */
  function ToUTC(t: Time): (u: Time)
    requires ValidClock(t)
    ensures ValidClock(u) && u.offset == 0
    ensures Instant(u) == Instant(t)
  {
    var total := t.hour * 3600 + t.minute * 60 + t.second - t.offset;
    var k, s := total / 86400, total % 86400;
    AddDaysNumber(t.date, k);
    ClockSplit(s);
    Time(AddDays(t.date, k), s / 3600, s / 60 % 60, s % 60, 0)
  }

  /** A time already in UTC is its own UTC form. */
  lemma ToUTCIdentity(t: Time)
    requires ValidClock(t) && t.offset == 0
    ensures ToUTC(t) == t
  {
    var s := t.hour * 3600 + t.minute * 60 + t.second;
    assert s / 86400 == 0 && s % 86400 == s;
    assert s / 3600 == t.hour;
    assert s / 60 == t.hour * 60 + t.minute;
  }

  // ---------------------------------------------------------------------
  // Rendering: Date.String and Time.String

  /** Go's four-digit year field: a sign for negative years, then at least four digits. */
  function YearText(y: int): string {
    if y < 0 then "-" + PadDecimal(-y, 4) else PadDecimal(y, 4)
  }

  function Pad2(n: nat): string {
    PadDecimal(n, 2)
  }

  /** Date.String: the "2006-01-02" layout. */
  function DateString(d: Date): (s: string)
    requires ValidDate(d)
    ensures 0 <= d.year < 10000 ==> |s| == 10 && s[4] == '-' && s[7] == '-'
  {
    YearText(d.year) + "-" + Pad2(d.month) + "-" + Pad2(d.day)
  }

  /** The "15:04:05" part of the layout. */
  function ClockString(t: Time): (s: string)
    requires ValidClock(t)
    ensures |s| == 8 && s[2] == ':' && s[5] == ':'
  {
    Pad2(t.hour) + ":" + Pad2(t.minute) + ":" + Pad2(t.second)
  }

  /** Time.String: the RFC 3339 layout applied to the UTC form, so it always ends in "Z". */
  function TimeString(t: Time): (s: string)
    requires ValidClock(t)
    ensures |s| >= 1 && s[|s| - 1] == 'Z'
  {
    var u := ToUTC(t);
    DateString(u.date) + "T" + ClockString(u) + "Z"
  }

  // ---------------------------------------------------------------------
  // Parsing: ParseDate and ParseTime

  /** A non-empty run of decimal digits. */
  function Num(t: string): Option<nat> {
    if |t| >= 1 && AllDigits(t) then Some(DigitsValue(t)) else None
  }

  /** The "2006-01-02" layout: four-digit year, two-digit month and day, a day that exists. */
  function DateFields(s: string): (r: Option<Date>)
    ensures r.Some? ==> ValidDate(r.value) && r.value.year >= 0
  {
    if |s| != 10 || s[4] != '-' || s[7] != '-' then None
    else
      var y, m, d := Num(s[..4]), Num(s[5..7]), Num(s[8..]);
      if y.None? || m.None? || d.None? then None
      else if !(1 <= m.value <= 12) || !(1 <= d.value <= DaysIn(y.value, m.value)) then None
      else Some(Date(y.value, m.value, d.value))
  }

  /** The zone part of RFC 3339: "Z", or a sign and hh:mm with hh <= 24 and mm <= 60 as Go accepts. */
  function OffsetField(z: string): Option<int> {
    if z == "Z" then Some(0)
    else if |z| != 6 || (z[0] != '+' && z[0] != '-') || z[3] != ':' then None
    else
      var h, m := Num(z[1..3]), Num(z[4..]);
      if h.None? || m.None? || h.value > 24 || m.value > 60 then None
      else if z[0] == '+' then Some(h.value * 3600 + m.value * 60)
      else Some(-(h.value * 3600 + m.value * 60))
  }

  /** The "2006-01-02T15:04:05Z07:00" layout. */
  function TimeFields(s: string): (r: Option<Time>)
    ensures r.Some? ==> ValidClock(r.value) && r.value.date.year >= 0
  {
    if |s| < 20 || s[10] != 'T' || s[13] != ':' || s[16] != ':' then None
    else
      var d := DateFields(s[..10]);
      var h, m, sec := Num(s[11..13]), Num(s[14..16]), Num(s[17..19]);
      var z := OffsetField(s[19..]);
      if d.None? || h.None? || m.None? || sec.None? || z.None? then None
      else if h.value >= 24 || m.value >= 60 || sec.value >= 60 then None
      else Some(Time(d.value, h.value, m.value, sec.value, z.value))
  }

  /** ParseDate: the date layout, or the zero Date with an error. */
  function ParseDate(s: string): (r: Parsed<Date>)
    ensures r.err.None? <==> DateFields(s).Some?
    ensures r.err.None? ==> r.value == DateFields(s).value
    ensures r.err.Some? ==> r.value == ZeroDate && r.err == Some(InvalidFormat(s))
  {
    match DateFields(s)
    case Some(d) => Parsed(d, None)
    case None => Parsed(ZeroDate, Some(InvalidFormat(s)))
  }

  /** ParseTime: the RFC 3339 layout first, then the date layout at midnight UTC. */
  function ParseTime(s: string): (r: Parsed<Time>)
    ensures r.err.None? <==> TimeFields(s).Some? || DateFields(s).Some?
    ensures TimeFields(s).Some? ==> r.value == TimeFields(s).value
    ensures TimeFields(s).None? && DateFields(s).Some? ==> r.value == Time(DateFields(s).value, 0, 0, 0, 0)
    ensures r.err.Some? ==> r.value == ZeroTime && r.err == Some(InvalidFormat(s))
    ensures ValidClock(r.value)
  {
    match TimeFields(s)
    case Some(t) => Parsed(t, None)
    case None =>
      match DateFields(s)
      case Some(d) => Parsed(Time(d, 0, 0, 0, 0), None)
      case None => Parsed(ZeroTime, Some(InvalidFormat(s)))
  }

  // ---------------------------------------------------------------------
  // Round trips between the parsers and the renderers

  lemma YearTextNat(t: string)
    requires |t| == 4 && AllDigits(t)
    ensures YearText(DigitsValue(t)) == t
  {
    FixedWidthRoundTrip(t);
  }

  lemma Pad2RoundTrip(t: string)
    requires |t| == 2 && AllDigits(t)
    ensures Pad2(DigitsValue(t)) == t
  {
    FixedWidthRoundTrip(t);
  }

  /** Every text ParseDate accepts is rendered back unchanged by Date.String. */
  lemma DateParseFormat(s: string)
    requires DateFields(s).Some?
    ensures DateString(DateFields(s).value) == s
  {
    var d := DateFields(s).value;
    YearTextNat(s[..4]);
    Pad2RoundTrip(s[5..7]);
    Pad2RoundTrip(s[8..]);
    assert s == s[..4] + "-" + s[5..7] + "-" + s[8..];
  }

  lemma Pad2Fields(n: nat)
    requires n < 100
    ensures |Pad2(n)| == 2 && AllDigits(Pad2(n)) && Num(Pad2(n)) == Some(n)
  {
    assert Pow10(2) == 100;
  }

  /** Every date whose year has at most four digits is read back by ParseDate from its text. */
  lemma DateFormatParse(d: Date)
    requires ValidDate(d) && 0 <= d.year <= 9999
    ensures DateFields(DateString(d)) == Some(d)
  {
    assert Pow10(4) == 10000 by {
      assert Pow10(2) == 100;
    }
    var y := YearText(d.year);
    assert |y| == 4;
    Pad2Fields(d.month);
    Pad2Fields(d.day);
    var s := DateString(d);
    assert s[..4] == y;
    assert s[5..7] == Pad2(d.month);
    assert s[8..] == Pad2(d.day);
  }

  lemma ClockParseFormat(s: string)
    requires TimeFields(s).Some?
    ensures ClockString(TimeFields(s).value) == s[11..19]
  {
    Pad2RoundTrip(s[11..13]);
    Pad2RoundTrip(s[14..16]);
    Pad2RoundTrip(s[17..19]);
    assert s[11..19] == s[11..13] + ":" + s[14..16] + ":" + s[17..19];
  }

  /** A timestamp written in UTC ("...Z") is rendered back unchanged by Time.String. */
  lemma TimeParseFormatUTC(s: string)
    requires TimeFields(s).Some? && s[|s| - 1] == 'Z'
    ensures TimeString(ParseTime(s).value) == s
  {
    var t := TimeFields(s).value;
    assert s[19..] == "Z";
    assert t.offset == 0;
    ToUTCIdentity(t);
    DateParseFormat(s[..10]);
    ClockParseFormat(s);
    assert |s| == 20 && s[10] == 'T' && s[19] == 'Z';
    assert s == s[..10] + "T" + s[11..19] + "Z";
  }

  lemma ClockFields(u: Time)
    requires ValidClock(u)
    ensures |ClockString(u)| == 8
    ensures ClockString(u)[2] == ':' && ClockString(u)[5] == ':'
    ensures Num(ClockString(u)[..2]) == Some(u.hour)
    ensures Num(ClockString(u)[3..5]) == Some(u.minute)
    ensures Num(ClockString(u)[6..]) == Some(u.second)
  {
    Pad2Fields(u.hour);
    Pad2Fields(u.minute);
    Pad2Fields(u.second);
    var c := ClockString(u);
    assert c[..2] == Pad2(u.hour);
    assert c[3..5] == Pad2(u.minute);
    assert c[6..] == Pad2(u.second);
  }

  /** The zone part Go writes for a numeric offset: a sign, then hh:mm. */
  function OffsetText(east: bool, h: nat, m: nat): string {
    [if east then '+' else '-'] + Pad2(h) + ":" + Pad2(m)
  }

  lemma OffsetFormatParse(east: bool, h: nat, m: nat)
    requires h <= 24 && m <= 60
    ensures OffsetField(OffsetText(east, h, m)) == Some(if east then h * 3600 + m * 60 else -(h * 3600 + m * 60))
  {
    Pad2Fields(h);
    Pad2Fields(m);
    var z := OffsetText(east, h, m);
    assert z[1..3] == Pad2(h) && z[4..] == Pad2(m);
  }

  /** Where the parts of a timestamp text sit, once the date takes ten characters and the clock eight. */
  lemma TimeTextParts(ds: string, cs: string, z: string)
    requires |ds| == 10 && |cs| == 8
    ensures var s := ds + "T" + cs + z;
      && |s| == 19 + |z| && s[..10] == ds && s[10] == 'T' && s[19..] == z
      && s[11..13] == cs[..2] && s[13] == cs[2] && s[14..16] == cs[3..5] && s[16] == cs[5] && s[17..19] == cs[6..]
  {
    var s := ds + "T" + cs + z;
    assert s == ds + ("T" + (cs + z));
  }

  /**
   * Any timestamp text assembled from valid fields and a zone that OffsetField
   * reads as the time's offset is parsed back to exactly those fields.
   */
  lemma FormatParse(t: Time, z: string)
    requires ValidClock(t) && 0 <= t.date.year <= 9999
    requires OffsetField(z) == Some(t.offset)
    ensures TimeFields(DateString(t.date) + "T" + ClockString(t) + z) == Some(t)
  {
    DateFormatParse(t.date);
    ClockFields(t);
    var ds, cs := DateString(t.date), ClockString(t);
    assert |ds| == 10 by {
      assert DateFields(ds).Some?;
    }
    TimeTextParts(ds, cs, z);
    assert |z| >= 1;
  }

  /**
   * Time.String reads back to the UTC form of the time it rendered, hence
   * to the same instant, whenever the UTC year has at most four digits.
   */
  lemma TimeFormatParse(t: Time)
    requires ValidClock(t) && 0 <= ToUTC(t).date.year <= 9999
    ensures ParseTime(TimeString(t)) == Parsed(ToUTC(t), None)
    ensures Instant(ParseTime(TimeString(t)).value) == Instant(t)
  {
    FormatParse(ToUTC(t), "Z");
  }

  // ---------------------------------------------------------------------
  // JSON: MarshalJSON and UnmarshalJSON

  /** Date.MarshalJSON: the date text in double quotes. */
  function MarshalDate(d: Date): (js: string)
    requires ValidDate(d)
    ensures |js| >= 2 && js[0] == '"' && js[|js| - 1] == '"' && js[1..|js| - 1] == DateString(d)
  {
    "\"" + DateString(d) + "\""
  }

  /** Time.MarshalJSON: the UTC timestamp text in double quotes. */
  function MarshalTime(t: Time): (js: string)
    requires ValidClock(t)
    ensures |js| >= 2 && js[0] == '"' && js[|js| - 1] == '"' && js[1..|js| - 1] == TimeString(t)
  {
    "\"" + TimeString(t) + "\""
  }

  /** What an UnmarshalJSON call does to its receiver. */
  datatype Decoded<T> =
    | Ignored                                   // returns nil, the receiver keeps its value
    | Rejected(error: TimeError)                // returns an error, the receiver keeps its value
    | Assigned(value: T, err: Option<TimeError>) // the receiver is overwritten, err is returned
    | Panicked                                  // the slice expression panics

  predicate Quoted(js: string) {
    |js| >= 1 && js[0] == '"' && js[|js| - 1] == '"'
  }

  /** Date.UnmarshalJSON as written: the one-byte text `"` passes both quote checks and panics. */
  function UnmarshalDateAsWritten(js: string): (r: Decoded<Date>)
    ensures r.Panicked? <==> js == "\""
  {
    if js == "" || js == "null" then Ignored
    else if !Quoted(js) then Rejected(NotQuoted(js))
    else if |js| < 2 then Panicked
    else var p := ParseDate(js[1..|js| - 1]); Assigned(p.value, p.err)
  }

  /** Time.UnmarshalJSON as written: only "null" is ignored, and `"` panics. */
  function UnmarshalTimeAsWritten(js: string): (r: Decoded<Time>)
    ensures r.Panicked? <==> js == "\""
  {
    if js == "null" then Ignored
    else if !Quoted(js) then Rejected(NotQuoted(js))
    else if |js| < 2 then Panicked
    else var p := ParseTime(js[1..|js| - 1]); Assigned(p.value, p.err)
  }

  /** Date.UnmarshalJSON with the lone quote rejected like any other unquoted text. */
  function UnmarshalDate(js: string): (r: Decoded<Date>)
    ensures !r.Panicked?
    ensures r.Ignored? <==> js == "" || js == "null"
    ensures r.Rejected? <==> js != "" && js != "null" && (!Quoted(js) || |js| < 2)
    ensures r.Assigned? ==> ValidDate(r.value) && (r.err.Some? ==> r.value == ZeroDate)
    ensures js != "\"" ==> r == UnmarshalDateAsWritten(js)
  {
    if js == "" || js == "null" then Ignored
    else if !Quoted(js) || |js| < 2 then Rejected(NotQuoted(js))
    else var p := ParseDate(js[1..|js| - 1]); Assigned(p.value, p.err)
  }

  /** Time.UnmarshalJSON with the lone quote rejected; empty input is an error, unlike Date. */
  function UnmarshalTime(js: string): (r: Decoded<Time>)
    ensures !r.Panicked?
    ensures r.Ignored? <==> js == "null"
    ensures r.Rejected? <==> js != "null" && (!Quoted(js) || |js| < 2)
    ensures r.Assigned? ==> ValidClock(r.value) && (r.err.Some? ==> r.value == ZeroTime)
    ensures js != "\"" ==> r == UnmarshalTimeAsWritten(js)
  {
    if js == "null" then Ignored
    else if !Quoted(js) || |js| < 2 then Rejected(NotQuoted(js))
    else var p := ParseTime(js[1..|js| - 1]); Assigned(p.value, p.err)
  }

  lemma LoneQuoteFinding()
    ensures UnmarshalDateAsWritten("\"") == Panicked
    ensures UnmarshalTimeAsWritten("\"") == Panicked
    ensures UnmarshalDate("\"") == Rejected(NotQuoted("\""))
    ensures UnmarshalTime("\"") == Rejected(NotQuoted("\""))
  {
  }

  /** Unmarshalling what MarshalJSON wrote assigns the same date, without error. */
  lemma DateJsonRoundTrip(d: Date)
    requires ValidDate(d) && 0 <= d.year <= 9999
    ensures UnmarshalDate(MarshalDate(d)) == Assigned(d, None)
  {
    var js := MarshalDate(d);
    assert js[1..|js| - 1] == DateString(d);
    DateFormatParse(d);
  }

  /** Unmarshalling what MarshalJSON wrote assigns the UTC form of the time: the same instant. */
  lemma TimeJsonRoundTrip(t: Time)
    requires ValidClock(t) && 0 <= ToUTC(t).date.year <= 9999
    ensures UnmarshalTime(MarshalTime(t)) == Assigned(ToUTC(t), None)
  {
    var js := MarshalTime(t);
    assert js[1..|js| - 1] == TimeString(t);
    TimeFormatParse(t);
  }

  /** The receiver of Date.UnmarshalJSON: a Date whose field the call overwrites in place. */
  class JsonDate {
    var value: Date

    constructor (d: Date)
      ensures value == d
    {
      value := d;
    }

    method UnmarshalJSON(js: string) returns (err: Option<TimeError>)
      modifies this
      ensures match UnmarshalDate(js)
        case Ignored => value == old(value) && err.None?
        case Rejected(e) => value == old(value) && err == Some(e)
        case Assigned(v, e) => value == v && err == e
        case Panicked => false
    {
      var r := UnmarshalDate(js);
      match r {
        case Ignored =>
          err := None;
        case Rejected(e) =>
          err := Some(e);
        case Assigned(v, e) =>
          value := v;
          err := e;
      }
    }
  }

  /** The receiver of Time.UnmarshalJSON. */
  class JsonTime {
    var value: Time

    constructor (t: Time)
      ensures value == t
    {
      value := t;
    }

    method UnmarshalJSON(js: string) returns (err: Option<TimeError>)
      modifies this
      ensures match UnmarshalTime(js)
        case Ignored => value == old(value) && err.None?
        case Rejected(e) => value == old(value) && err == Some(e)
        case Assigned(v, e) => value == v && err == e
        case Panicked => false
    {
      var r := UnmarshalTime(js);
      match r {
        case Ignored =>
          err := None;
        case Rejected(e) =>
          err := Some(e);
        case Assigned(v, e) =>
          value := v;
          err := e;
      }
    }
  }

  // ---------------------------------------------------------------------
  // ParseTimeSpent: "hh:mm" or a plain number of minutes

  /** Minutes from "h:m" (hours and minutes) or from a plain count of minutes. */
  function ParseTimeSpent(s: string): (r: Result<int, TimeError>)
    ensures r.Ok? ==> r.value >= 0
  {
    if ':' in s then
      var i := IndexOf(s, ':');
      var h, m := Num(s[..i]), Num(s[i + 1..]);
      if h.None? || m.None? then Err(InvalidFormat(s)) else Ok(h.value * 60 + m.value)
    else
      match Num(s)
      case None => Err(InvalidFormat(s))
      case Some(n) => Ok(n)
  }

  lemma TimeSpentMinutes(n: nat)
    ensures ParseTimeSpent(Decimal(n)) == Ok(n)
  {
  }

  lemma TimeSpentClock(h: nat, m: nat)
    requires h < 100 && m < 100
    ensures ParseTimeSpent(Pad2(h) + ":" + Pad2(m)) == Ok(h * 60 + m)
  {
    Pad2Fields(h);
    Pad2Fields(m);
    var s := Pad2(h) + ":" + Pad2(m);
    assert s[2] == ':';
    assert ':' !in s[..2];
    assert s[..2] == Pad2(h) && s[3..] == Pad2(m);
  }

  lemma DateExample()
    ensures ParseDate("2023-03-02") == Parsed(Date(2023, 3, 2), None)
    ensures DateString(ParseDate("2023-03-02").value) == "2023-03-02"
  {
    var d := Date(2023, 3, 2);
    DateFormatParse(d);
    assert DateString(d) == "2023-03-02" by {
      assert Decimal(202) == "202";
      assert YearText(2023) == "2023";
    }
  }

  lemma ExampleFields()
    ensures YearText(2020) == "2020" && Pad2(1) == "01" && Pad2(2) == "02"
  {
    FixedWidthRoundTrip("2020");
    FixedWidthRoundTrip("01");
    FixedWidthRoundTrip("02");
  }

  lemma ExampleDates()
    ensures DateString(Date(2020, 1, 2)) == "2020-01-02"
    ensures DateString(Date(2020, 1, 1)) == "2020-01-01"
  {
    ExampleFields();
  }

  lemma Pad2Digits(n: nat)
    requires n < 100
    ensures Pad2(n) == [DigitChar(n / 10), DigitChar(n % 10)]
  {
    if n < 10 {
      assert Decimal(n) == [DigitChar(n)];
      assert Zeros(1) == [DigitChar(0)];
    } else {
      assert Decimal(n / 10) == [DigitChar(n / 10)];
    }
  }

  lemma ExampleClocks()
    ensures ClockString(Time(Date(2020, 1, 2), 3, 4, 5, 28800)) == "03:04:05"
    ensures ClockString(Time(Date(2020, 1, 1), 19, 4, 5, 0)) == "19:04:05"
    ensures OffsetText(true, 8, 0) == "+08:00"
  {
    Pad2Digits(3);
    Pad2Digits(4);
    Pad2Digits(5);
    Pad2Digits(19);
    Pad2Digits(8);
    Pad2Digits(0);
  }

  lemma ExampleTexts()
    ensures DateString(Date(2020, 1, 2)) + "T" + ClockString(Time(Date(2020, 1, 2), 3, 4, 5, 28800))
              + OffsetText(true, 8, 0) == "2020-01-02T03:04:05+08:00"
    ensures DateString(Date(2020, 1, 1)) + "T" + ClockString(Time(Date(2020, 1, 1), 19, 4, 5, 0))
              + "Z" == "2020-01-01T19:04:05Z"
  {
    ExampleDates();
    ExampleClocks();
  }

  lemma ExampleUTC()
    ensures ToUTC(Time(Date(2020, 1, 2), 3, 4, 5, 28800)) == Time(Date(2020, 1, 1), 19, 4, 5, 0)
  {
    assert AddDays(Date(2020, 1, 2), -1) == Date(2020, 1, 1);
  }

  /** A timestamp at +08:00 is rendered as the same instant in UTC, on the previous day. */
  lemma TimeExample()
    ensures ParseTime("2020-01-02T03:04:05+08:00") == Parsed(Time(Date(2020, 1, 2), 3, 4, 5, 28800), None)
    ensures TimeString(ParseTime("2020-01-02T03:04:05+08:00").value) == "2020-01-01T19:04:05Z"
  {
    var t := Time(Date(2020, 1, 2), 3, 4, 5, 28800);
    OffsetFormatParse(true, 8, 0);
    FormatParse(t, OffsetText(true, 8, 0));
    ExampleTexts();
    ExampleUTC();
  }

  lemma TimeSpentExamples()
    ensures ParseTimeSpent("09:00") == Ok(540)
    ensures ParseTimeSpent("08:00") == Ok(480)
    ensures ParseTimeSpent("360") == Ok(360)
  {
    TimeSpentClock(9, 0);
    TimeSpentClock(8, 0);
    TimeSpentMinutes(360);
    assert Pad2(9) + ":" + Pad2(0) == "09:00";
    assert Pad2(8) + ":" + Pad2(0) == "08:00";
    assert Decimal(360) == "360" by {
      assert Decimal(36) == "36";
    }
  }
}
