/**
 * Instants are milliseconds since the Unix epoch (UTC), the number
 * `Date.prototype.getTime` gives. `IsoText` is `Date.prototype.toISOString`:
 * the text the console stores in `timestamp`, `createdAt` and `lastModifiedAt`.
 */
module Instants {
  import Text

  const MS_PER_DAY := 86400000

  /**
   * Year, month and day of a day count from 1970-01-01 in the proleptic
   * Gregorian calendar (H. Hinnant's civil-from-days algorithm; Dafny's `/`
   * and `%` already round toward negative infinity for a positive divisor).
   */
  function CivilFromDays(days: int): (int, int, int)
  {
    var z := days + 719468;
    var era := z / 146097;
    var doe := z % 146097;
    var yoe := (doe - doe / 1460 + doe / 36524 - doe / 146096) / 365;
    var doy := doe - (365 * yoe + yoe / 4 - yoe / 100);
    var mp := (5 * doy + 2) / 153;
    var d := doy - (153 * mp + 2) / 5 + 1;
    var m := if mp < 10 then mp + 3 else mp - 9;
    (yoe + era * 400 + (if m <= 2 then 1 else 0), m, d)
  }

  /**
   * A calendar field padded with zeros. The fields of `CivilFromDays` are never
   * negative; the guard only keeps this helper total on `int`.
   */
  function Field(n: int, width: nat): string
  {
    if n < 0 then Text.Pad(0, width) else Text.Pad(n, width)
  }

  /** Four-digit years for 0..9999, otherwise a sign and six digits, as ECMAScript prescribes. */
  function YearText(y: int): string
  {
    if 0 <= y <= 9999 then Text.Pad(y, 4)
    else if y < 0 then "-" + Text.Pad(-y, 6)
    else "+" + Text.Pad(y, 6)
  }

  /** `YYYY-MM-DD` of a calendar date. */
  function DateText(date: (int, int, int)): string
  {
    YearText(date.0) + "-" + Field(date.1, 2) + "-" + Field(date.2, 2)
  }

  /** `HH:mm:ss.sss` of a time of day given in milliseconds. */
  function TimeText(t: nat): string
  {
    Text.Pad(t / 3600000, 2) + ":" + Text.Pad(t / 60000 % 60, 2)
    + ":" + Text.Pad(t / 1000 % 60, 2) + "." + Text.Pad(t % 1000, 3)
  }

  /** `new Date(ms).toISOString()`: `YYYY-MM-DDTHH:mm:ss.sssZ`. */
  function IsoText(ms: int): string
  {
    DateText(CivilFromDays(ms / MS_PER_DAY)) + "T" + TimeText(ms % MS_PER_DAY) + "Z"
  }

  lemma MidnightTime(t: nat)
    requires t < 1000
    ensures TimeText(t) == "00:00:00." + Text.Pad(t, 3)
  {
    assert t / 3600000 == 0 && t / 60000 % 60 == 0 && t / 1000 % 60 == 0 && t % 1000 == t;
    TwoZeros();
    MidnightJoin(Text.Pad(t, 3));
  }

  lemma TwoZeros()
    ensures Text.Pad(0, 2) == "00"
  {
    assert Text.Decimal(0) == "0";
  }

  lemma MidnightJoin(millis: string)
    ensures "00" + ":" + "00" + ":" + "00" + "." + millis == "00:00:00." + millis
  {
  }

  lemma EpochDay()
    ensures CivilFromDays(0) == (1970, 1, 1)
  {
    assert 719468 / 146097 == 4 && 719468 % 146097 == 135080;
    assert 135080 / 1460 == 92 && 135080 / 36524 == 3 && 135080 / 146096 == 0;
    assert 134991 / 365 == 369;
    assert 135080 - (365 * 369 + 369 / 4 - 369 / 100) == 306;
    assert (5 * 306 + 2) / 153 == 10 && (153 * 10 + 2) / 5 == 306;
  }

  lemma EpochDate()
    ensures DateText((1970, 1, 1)) == "1970-01-01"
  {
    assert Text.Decimal(1) == "1";
    assert Text.Decimal(19) == "19";
    assert Text.Decimal(197) == "197";
    assert Text.Decimal(1970) == "1970";
  }

  /** The epoch is rendered as ECMAScript renders it. */
  lemma {:induction false} EpochText()
    ensures IsoText(0) == "1970-01-01T00:00:00.000Z"
  {
    EpochDay();
    EpochDate();
    EpochTime();
    IsoOfParts(0, "1970-01-01", "00:00:00.000");
    EpochJoin();
  }

  lemma EpochTime()
    ensures TimeText(0) == "00:00:00.000"
  {
    MidnightTime(0);
    assert Text.Pad(0, 3) == "000" by {
      assert Text.Decimal(0) == "0";
    }
  }

  lemma EpochJoin()
    ensures "1970-01-01" + "T" + "00:00:00.000" + "Z" == "1970-01-01T00:00:00.000Z"
  {
  }

  lemma LeapDay()
    ensures CivilFromDays(11016) == (2000, 2, 29)
  {
    assert 730484 / 146097 == 4 && 730484 % 146097 == 146096;
    assert 146096 / 1460 == 100 && 146096 / 36524 == 4 && 146096 / 146096 == 1;
    assert 145999 / 365 == 399;
    assert 146096 - (365 * 399 + 399 / 4 - 399 / 100) == 365;
    assert (5 * 365 + 2) / 153 == 11 && (153 * 11 + 2) / 5 == 337;
  }

  lemma LeapDayDate()
    ensures DateText((2000, 2, 29)) == "2000-02-29"
  {
    assert Text.Decimal(2) == "2";
    assert Text.Decimal(20) == "20";
    assert Text.Decimal(200) == "200";
    assert Text.Decimal(2000) == "2000";
  }

  /** A leap day: 2000 is divisible by 400, so its February has 29 days. */
  lemma {:induction false} LeapDayText(ms: int)
    requires ms == 951782400123
    ensures IsoText(ms) == "2000-02-29T00:00:00.123Z"
  {
    LeapDayParts(ms);
    LeapDay();
    LeapDayDate();
    LeapDayTime();
    IsoOfParts(ms, "2000-02-29", "00:00:00.123");
    LeapDayJoin();
  }

  lemma LeapDayJoin()
    ensures "2000-02-29" + "T" + "00:00:00.123" + "Z" == "2000-02-29T00:00:00.123Z"
  {
  }

  lemma LeapDayParts(ms: int)
    requires ms == 951782400123
    ensures ms / MS_PER_DAY == 11016 && ms % MS_PER_DAY == 123
  {
    assert 11016 * MS_PER_DAY + 123 == 951782400123;
  }

  lemma LeapDayTime()
    ensures TimeText(123) == "00:00:00.123"
  {
    MidnightTime(123);
    ThreeDigits();
    MillisJoin();
  }

  lemma MillisJoin()
    ensures "00:00:00." + "123" == "00:00:00.123"
  {
  }

  /** The ISO text is the date text and the time text joined by `T` and closed by `Z`. */
  lemma IsoOfParts(ms: int, date: string, time: string)
    requires DateText(CivilFromDays(ms / MS_PER_DAY)) == date && TimeText(ms % MS_PER_DAY) == time
    ensures IsoText(ms) == date + "T" + time + "Z"
  {
  }

  lemma ThreeDigits()
    ensures Text.Pad(123, 3) == "123"
  {
    assert Text.Decimal(1) == "1";
    assert Text.Decimal(12) == "12";
  }

  /** Hours, minutes and seconds take two digits, milliseconds three. */
  lemma ShortDecimal(n: nat)
    ensures n < 100 ==> |Text.Decimal(n)| <= 2
    ensures n < 1000 ==> |Text.Decimal(n)| <= 3
  {
    if 10 <= n < 1000 {
      assert Text.Decimal(n) == Text.Decimal(n / 10) + [Text.DigitChar(n % 10)];
      if n >= 100 {
        assert Text.Decimal(n / 10) == Text.Decimal(n / 100) + [Text.DigitChar(n / 10 % 10)];
      }
    }
  }

  /** A field that fits its width is padded to exactly that width and reads back as itself. */
  lemma PadFits(n: nat, width: nat)
    requires |Text.Decimal(n)| <= width
    ensures |Text.Pad(n, width)| == width
    ensures Text.AllDigits(Text.Pad(n, width)) && Text.DigitsValue(Text.Pad(n, width)) == n
  {
    Text.PadValue(n, width);
  }

  /** The number an `HH:mm:ss.sss` text stands for, in milliseconds. */
  function TimeValue(s: string): int
    requires |s| == 12
    requires Text.AllDigits(s[0..2]) && Text.AllDigits(s[3..5]) && Text.AllDigits(s[6..8]) && Text.AllDigits(s[9..12])
  {
    Text.DigitsValue(s[0..2]) * 3600000 + Text.DigitsValue(s[3..5]) * 60000
    + Text.DigitsValue(s[6..8]) * 1000 + Text.DigitsValue(s[9..12])
  }

  /** The clock fields of a time of day. */
  lemma ClockFields(t: nat)
    requires t < MS_PER_DAY
    ensures t / 3600000 < 24 && t / 60000 % 60 < 60 && t / 1000 % 60 < 60 && t % 1000 < 1000
    ensures (t / 3600000) * 3600000 + (t / 60000 % 60) * 60000 + (t / 1000 % 60) * 1000 + t % 1000 == t
  {
    var minutes, seconds := t / 60000, t / 1000;
    assert seconds == minutes * 60 + seconds % 60;
    assert t == seconds * 1000 + t % 1000;
    assert minutes == t / 3600000 * 60 + minutes % 60;
  }

  /** Where the separators and fields of `HH:mm:ss.sss` sit. */
  lemma TimeLayout(hh: string, mm: string, ss: string, sss: string)
    requires |hh| == 2 && |mm| == 2 && |ss| == 2 && |sss| == 3
    ensures var s := hh + ":" + mm + ":" + ss + "." + sss;
      && |s| == 12 && s[2] == ':' && s[5] == ':' && s[8] == '.'
      && s[0..2] == hh && s[3..5] == mm && s[6..8] == ss && s[9..12] == sss
  {
  }

  /**
   * `HH:mm:ss.sss` of a time of day is twelve characters with its separators
   * in place, and its fields read back as that time.
   */
  lemma TimeTextReadsBack(t: nat)
    requires t < MS_PER_DAY
    ensures var s := TimeText(t);
      && |s| == 12 && s[2] == ':' && s[5] == ':' && s[8] == '.'
      && Text.AllDigits(s[0..2]) && Text.AllDigits(s[3..5]) && Text.AllDigits(s[6..8]) && Text.AllDigits(s[9..12])
      && TimeValue(s) == t
  {
    ClockFields(t);
    var hh, mm, ss, sss := t / 3600000, t / 60000 % 60, t / 1000 % 60, t % 1000;
    ShortDecimal(hh); ShortDecimal(mm); ShortDecimal(ss); ShortDecimal(sss);
    PadFits(hh, 2); PadFits(mm, 2); PadFits(ss, 2); PadFits(sss, 3);
    TimeLayout(Text.Pad(hh, 2), Text.Pad(mm, 2), Text.Pad(ss, 2), Text.Pad(sss, 3));
  }

  /**
   * Every ISO text ends in `T`, the time of day and `Z`, and the time fields
   * read back as the instant's milliseconds within its day.
   */
  lemma IsoTimeReadsBack(ms: int)
    ensures var s := IsoText(ms);
      && |s| >= 14 && s[|s| - 14] == 'T' && s[|s| - 1] == 'Z'
      && s[|s| - 13..|s| - 1] == TimeText(ms % MS_PER_DAY)
  {
    var date, time := DateText(CivilFromDays(ms / MS_PER_DAY)), TimeText(ms % MS_PER_DAY);
    TimeTextReadsBack(ms % MS_PER_DAY);
    IsoOfParts(ms, date, time);
    var s := date + "T" + time + "Z";
    assert s[|s| - 13..|s| - 1] == time;
  }
}
