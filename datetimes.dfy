/**
 * The parts of System.DateTime the gateway relies on: its range, the Gregorian calendar, and
 * DateTime.ParseExact with the format "yyyy-MM-dd HH:mm:ss" under the invariant culture.
 */
module DateTimes {
  import opened Wrappers
  import opened Text

  /** DateTime.MinValue and DateTime.MaxValue, in whole unix seconds. */
  const MinValue: int := -62135596800
  const MaxValue: int := 253402300799

  /** The fields of a DateTime read back by Year, Month, Day, Hour, Minute and Second. */
  datatype Parts = Parts(year: int, month: int, day: int, hour: int, minute: int, second: int)

  predicate IsLeapYear(year: int) {
    year % 4 == 0 && (year % 100 != 0 || year % 400 == 0)
  }

  function DaysInMonth(year: int, month: int): int
    requires 1 <= month <= 12
  {
    if month == 2 then (if IsLeapYear(year) then 29 else 28)
    else if month == 4 || month == 6 || month == 9 || month == 11 then 30
    else 31
  }

  /** A date and time DateTime can hold. */
  predicate Valid(p: Parts) {
    && 1 <= p.year <= 9999 && 1 <= p.month <= 12 && 1 <= p.day <= DaysInMonth(p.year, p.month)
    && 0 <= p.hour <= 23 && 0 <= p.minute <= 59 && 0 <= p.second <= 59
  }

  /** The number in the digits s[i..j], when they are all digits. */
  function Number(s: string, i: nat, j: nat): Option<nat>
    requires i <= j <= |s|
  {
    if forall k :: i <= k < j ==> IsDigit(s[k]) then Some(DigitsValue(s[i..j])) else None
  }

  /**
   * DateTime.ParseExact(s, "yyyy-MM-dd HH:mm:ss"): exactly four, two, two, two, two and two
   * digits with those separators and nothing around them, naming a date and time that
   * exists; anything else is a FormatException.
   */
  function ParseExact(s: string): (r: Result<Parts>)
    ensures r.Ok? ==> Valid(r.value) && |s| == 19
    ensures r.Err? ==> r.error == Format
  {
    if |s| != 19 || s[4] != '-' || s[7] != '-' || s[10] != ' ' || s[13] != ':' || s[16] != ':' then Err(Format)
    else
      var year := Number(s, 0, 4);
      var month := Number(s, 5, 7);
      var day := Number(s, 8, 10);
      var hour := Number(s, 11, 13);
      var minute := Number(s, 14, 16);
      var second := Number(s, 17, 19);
      if year.None? || month.None? || day.None? || hour.None? || minute.None? || second.None? then Err(Format)
      else
        var p := Parts(year.value, month.value, day.value, hour.value, minute.value, second.value);
        if Valid(p) then Ok(p) else Err(Format)
  }

  /** `n` in exactly `width` digits, with leading zeros. */
  function Padded(n: nat, width: nat): (r: string)
    ensures |r| == width && forall k :: 0 <= k < |r| ==> IsDigit(r[k])
  {
    if width == 0 then [] else Padded(n / 10, width - 1) + [DigitChar(n % 10)]
  }

  function Pow10(k: nat): nat {
    if k == 0 then 1 else 10 * Pow10(k - 1)
  }

  lemma {:induction false} PaddedValue(n: nat, width: nat)
    requires n < Pow10(width)
    ensures DigitsValue(Padded(n, width)) == n
  {
    if width > 0 {
      PaddedValue(n / 10, width - 1);
      var ds := Padded(n, width);
      assert ds[..|ds| - 1] == Padded(n / 10, width - 1);
    }
  }

  /** DateTime.ToString("yyyy-MM-dd HH:mm:ss"). */
  function Formatted(p: Parts): string
    requires Valid(p)
  {
    Padded(p.year, 4) + "-" + Padded(p.month, 2) + "-" + Padded(p.day, 2) + " "
      + Padded(p.hour, 2) + ":" + Padded(p.minute, 2) + ":" + Padded(p.second, 2)
  }

  /** A field written with Padded reads back as its number. */
  lemma NumberOf(s: string, i: nat, n: nat, width: nat)
    requires i + width <= |s| && n < Pow10(width) && s[i..i + width] == Padded(n, width)
    ensures Number(s, i, i + width) == Some(n)
  {
    PaddedValue(n, width);
    forall k | i <= k < i + width
      ensures IsDigit(s[k])
    {
      assert s[k] == s[i..i + width][k - i];
    }
  }

  /** Where each field and separator of the format stands. */
  lemma Layout(y: string, mo: string, d: string, h: string, mi: string, se: string)
    requires |y| == 4 && |mo| == 2 && |d| == 2 && |h| == 2 && |mi| == 2 && |se| == 2
    ensures var s := y + "-" + mo + "-" + d + " " + h + ":" + mi + ":" + se;
      && |s| == 19 && s[4] == '-' && s[7] == '-' && s[10] == ' ' && s[13] == ':' && s[16] == ':'
      && s[0..4] == y && s[5..7] == mo && s[8..10] == d && s[11..13] == h && s[14..16] == mi && s[17..19] == se
  {
    var s := y + "-" + mo + "-" + d + " " + h + ":" + mi + ":" + se;
    assert s[5..7] == mo by { assert forall k :: 0 <= k < 2 ==> s[5 + k] == mo[k]; }
    assert s[8..10] == d by { assert forall k :: 0 <= k < 2 ==> s[8 + k] == d[k]; }
    assert s[11..13] == h by { assert forall k :: 0 <= k < 2 ==> s[11 + k] == h[k]; }
    assert s[14..16] == mi by { assert forall k :: 0 <= k < 2 ==> s[14 + k] == mi[k]; }
    assert s[17..19] == se by { assert forall k :: 0 <= k < 2 ==> s[17 + k] == se[k]; }
  }

  /** A text with the layout and the numbers of `p` parses as `p`. */
  lemma ParseFields(s: string, p: Parts)
    requires Valid(p) && |s| == 19
    requires s[4] == '-' && s[7] == '-' && s[10] == ' ' && s[13] == ':' && s[16] == ':'
    requires Number(s, 0, 4) == Some(p.year) && Number(s, 5, 7) == Some(p.month)
    requires Number(s, 8, 10) == Some(p.day) && Number(s, 11, 13) == Some(p.hour)
    requires Number(s, 14, 16) == Some(p.minute) && Number(s, 17, 19) == Some(p.second)
    ensures ParseExact(s) == Ok(p)
  {
  }

  /** ParseExact reads back every date and time written in its format. */
  lemma ParseFormat(p: Parts)
    requires Valid(p)
    ensures ParseExact(Formatted(p)) == Ok(p)
  {
    var s := Formatted(p);
    assert Pow10(2) == 100 && Pow10(4) == 10000;
    Layout(Padded(p.year, 4), Padded(p.month, 2), Padded(p.day, 2), Padded(p.hour, 2), Padded(p.minute, 2), Padded(p.second, 2));
    NumberOf(s, 0, p.year, 4);
    NumberOf(s, 5, p.month, 2);
    NumberOf(s, 8, p.day, 2);
    NumberOf(s, 11, p.hour, 2);
    NumberOf(s, 14, p.minute, 2);
    NumberOf(s, 17, p.second, 2);
    ParseFields(s, p);
  }
}
