/** `formatDateYmd` and `normalizeDate` (assets/js/api.js). */
module Dates {
  import opened Wrappers
  import opened JsValues
  import opened Decimal
  import Text

  /**
   * `normalizeDate`: null for a non-string; a string holding 'T' as it is;
   * otherwise its first space becomes 'T', or a bare date gets "T00:00:00".
   * Every timestamp it returns holds a 'T'.
   */
  function NormalizeDate(dateValue: JsValue): (r: Option<string>)
    ensures r.Some? <==> dateValue.Str?
    ensures r.Some? ==> 'T' in r.value
  {
    match dateValue
    case Str(s) =>
      if 'T' in s then Some(s)
      else if ' ' in s then
        var t := Text.ReplaceFirst(s, ' ', 'T');
        assert t[Text.IndexOf(s, ' ')] == 'T';
        Some(t)
      else
        assert (s + "T00:00:00")[|s|] == 'T';
        Some(s + "T00:00:00")
    case _ => None
  }

  /** The three shapes of input and what each becomes. */
  lemma NormalizeDateOfString(s: string)
    ensures 'T' in s ==> NormalizeDate(Str(s)) == Some(s)
    ensures 'T' !in s && ' ' in s ==>
              var i := Text.IndexOf(s, ' ');
              NormalizeDate(Str(s)) == Some(s[..i] + "T" + s[i + 1..])
    ensures 'T' !in s && ' ' !in s ==> NormalizeDate(Str(s)) == Some(s + "T00:00:00")
  {
    if 'T' !in s && ' ' in s {
      var i := Text.IndexOf(s, ' ');
      var t := Text.ReplaceFirst(s, ' ', 'T');
      assert t == t[..i] + [t[i]] + t[i + 1..];
    }
  }

  /** A normalised timestamp is a fixed point: normalising again changes nothing. */
  lemma NormalizeDateIdempotent(dateValue: JsValue)
    requires NormalizeDate(dateValue).Some?
    ensures NormalizeDate(Str(NormalizeDate(dateValue).value)) == NormalizeDate(dateValue)
  {
  }

  lemma NormalizeDateOfBareDate()
    ensures NormalizeDate(Str("2024-05-01")) == Some("2024-05-01T00:00:00")
  {
    var bare := "2024-05-01";
    assert 'T' !in bare && ' ' !in bare by {
      assert forall i :: 0 <= i < |bare| ==> bare[i] != 'T' && bare[i] != ' ';
    }
    NormalizeDateOfString(bare);
    assert bare + "T00:00:00" == "2024-05-01T00:00:00";
  }

  /** A date and a time separated by a space are joined by 'T' instead. */
  lemma {:induction false} NormalizeDateOfSpacedTime(date: string, time: string)
    requires 'T' !in date && 'T' !in time && ' ' !in date
    ensures NormalizeDate(Str(date + " " + time)) == Some(date + "T" + time)
  {
    var s := date + " " + time;
    assert s[|date|] == ' ';
    assert 'T' !in s by {
      forall k | 0 <= k < |s| ensures s[k] != 'T' {
        if k < |date| { assert s[k] == date[k]; }
        else if k > |date| { assert s[k] == time[k - |date| - 1]; }
      }
    }
    var i := Text.IndexOf(s, ' ');
    assert i == |date|;
    NormalizeDateOfString(s);
    assert s[..i] == date && s[i + 1..] == time;
  }

  lemma NormalizeDateOfOtherValues()
    ensures NormalizeDate(Str("2024-05-01T10:00:00")) == Some("2024-05-01T10:00:00")
    ensures NormalizeDate(Num(123.0)) == None
    ensures NormalizeDate(Null) == None
  {
    assert "2024-05-01T10:00:00"[10] == 'T';
  }

  /**
   * When no space occurs among the first ten characters, normalisation
   * leaves them alone: `slice(0, 10)` of the timestamp is the source's.
   */
  lemma NormalizedDatePrefix(s: string)
    requires |s| >= 10 && ' ' !in s[..10]
    ensures Text.Prefix(NormalizeDate(Str(s)).value, 10) == s[..10]
  {
    NormalizeDateOfString(s);
    if 'T' !in s && ' ' in s {
      var i := Text.IndexOf(s, ' ');
      assert (s[..i] + "T" + s[i + 1..])[..10] == s[..10];
    } else if 'T' !in s {
      assert (s + "T00:00:00")[..10] == s[..10];
    }
  }

  /** `padStart(2, "0")` of a number's text. */
  function TwoDigits(n: int): string {
    Text.PadStart(IntToDecimal(n), 2, '0')
  }

  /**
   * `formatDateYmd`: the year as printed, a dash, the month (getMonth() + 1)
   * and the day, each padded to two digits, separated by a dash. For every
   * month index and day the `Date` getters return, reading the text back
   * gives the year, the month and the day.
   */
  function FormatDateYmd(year: int, monthIndex: int, day: int): (s: string)
    ensures 0 <= monthIndex <= 11 && 1 <= day <= 31 ==>
              ParseYmd(s) == Some((year, monthIndex + 1, day))
  {
    var s := IntToDecimal(year) + "-" + TwoDigits(monthIndex + 1) + "-" + TwoDigits(day);
    assert 0 <= monthIndex <= 11 && 1 <= day <= 31 ==> ParseYmd(s) == Some((year, monthIndex + 1, day)) by {
      if 0 <= monthIndex <= 11 && 1 <= day <= 31 {
        TwoDigitsOf(monthIndex + 1);
        TwoDigitsOf(day);
        ParseIntOfDecimal(year);
        ParseYmdOfParts(IntToDecimal(year), TwoDigits(monthIndex + 1), TwoDigits(day), year);
      }
    }
    s
  }

  /** Reads "Y-MM-DD" back into year, month and day; `None` for any other shape. */
  function ParseYmd(s: string): Option<(int, int, int)> {
    if |s| < 7 || s[|s| - 6] != '-' || s[|s| - 3] != '-' then None
    else
      var mm, dd := s[|s| - 5..|s| - 3], s[|s| - 2..];
      if AllDigits(mm) && AllDigits(dd) then
        match ParseInt(s[..|s| - 6])
        case Some(y) => Some((y, DigitsValue(mm), DigitsValue(dd)))
        case None => None
      else None
  }

  /** A month or day number prints as exactly two digits. */
  lemma {:induction false} TwoDigitsOf(n: int)
    requires 1 <= n <= 99
    ensures |TwoDigits(n)| == 2 && AllDigits(TwoDigits(n)) && DigitsValue(TwoDigits(n)) == n
  {
    var digits := NatToDecimal(n);
    DigitsValueOfDecimal(n);
    if n < 10 {
      assert TwoDigits(n) == "0" + digits;
      DigitsValueLeadingZero(digits);
    } else {
      assert |NatToDecimal(n / 10)| == 1;
    }
  }

  /** Year text, dash, two digits, dash, two digits reads back part by part. */
  lemma {:induction false} ParseYmdOfParts(y: string, mm: string, dd: string, year: int)
    requires ParseInt(y) == Some(year)
    requires |mm| == 2 && |dd| == 2 && AllDigits(mm) && AllDigits(dd)
    ensures ParseYmd(y + "-" + mm + "-" + dd) == Some((year, DigitsValue(mm), DigitsValue(dd)))
  {
    var s := y + "-" + mm + "-" + dd;
    assert |s| == |y| + 6;
    assert s[..|s| - 6] == y;
    assert s[|s| - 5..|s| - 3] == mm;
    assert s[|s| - 2..] == dd;
  }

  /** A four-digit year prints as four digits. */
  lemma {:induction false} FourDigitYear(year: int)
    requires 1000 <= year <= 9999
    ensures |IntToDecimal(year)| == 4 && AllDigits(IntToDecimal(year))
  {
    assert |NatToDecimal(year / 1000)| == 1;
    assert |NatToDecimal(year / 100)| == 2;
    assert |NatToDecimal(year / 10)| == 3;
  }

  /** Text made of digits and dashes holds neither 'T' nor a space. */
  lemma {:induction false} DigitsAndDashes(y: string, mm: string, dd: string)
    requires AllDigits(y) && AllDigits(mm) && AllDigits(dd)
    ensures 'T' !in y + "-" + mm + "-" + dd
    ensures ' ' !in y + "-" + mm + "-" + dd
  {
    var s := y + "-" + mm + "-" + dd;
    forall i | 0 <= i < |s|
      ensures s[i] == '-' || IsDigit(s[i])
    {
      if i < |y| { assert s[i] == y[i]; }
      else if |y| < i < |y| + 1 + |mm| { assert s[i] == mm[i - |y| - 1]; }
      else if |y| + 1 + |mm| < i { assert s[i] == dd[i - |y| - 2 - |mm|]; }
    }
  }

  /** For a four-digit year the text is ten characters of digits and dashes. */
  lemma {:induction false} FormattedDateShape(year: int, monthIndex: int, day: int)
    requires 1000 <= year <= 9999 && 0 <= monthIndex <= 11 && 1 <= day <= 31
    ensures |FormatDateYmd(year, monthIndex, day)| == 10
    ensures 'T' !in FormatDateYmd(year, monthIndex, day)
    ensures ' ' !in FormatDateYmd(year, monthIndex, day)
  {
    FourDigitYear(year);
    TwoDigitsOf(monthIndex + 1);
    TwoDigitsOf(day);
    DigitsAndDashes(IntToDecimal(year), TwoDigits(monthIndex + 1), TwoDigits(day));
  }

  /**
   * A "YYYY-MM-DD" date normalises by appending "T00:00:00", and the first
   * ten characters of that timestamp are the date again.
   */
  lemma {:induction false} FormattedDateNormalizes(year: int, monthIndex: int, day: int)
    requires 1000 <= year <= 9999 && 0 <= monthIndex <= 11 && 1 <= day <= 31
    ensures NormalizeDate(Str(FormatDateYmd(year, monthIndex, day)))
            == Some(FormatDateYmd(year, monthIndex, day) + "T00:00:00")
    ensures Text.Prefix(NormalizeDate(Str(FormatDateYmd(year, monthIndex, day))).value, 10)
            == FormatDateYmd(year, monthIndex, day)
  {
    var s := FormatDateYmd(year, monthIndex, day);
    FormattedDateShape(year, monthIndex, day);
    NormalizeDateOfString(s);
    assert (s + "T00:00:00")[..10] == s;
  }
}
