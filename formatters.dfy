/**
 * The display formatters: English ordinal suffixes for a year of study,
 * "N minutes/hours/days ago" from the elapsed time, and truncation with an
 * ellipsis.
 */
module Formatters {
  import opened Strings
  import opened Js

  /** The suffix table, indexed by the last digit. */
  const Suffixes: seq<string> := ["th", "st", "nd", "rd"]

  /** JavaScript's `a % b` for a positive divisor: truncates toward zero, so it takes the sign of `a`. */
  function JsRem(a: int, b: int): int
    requires b > 0
  {
    if a >= 0 then a % b else -((-a) % b)
  }

  /** `Suffixes[i]`, where an index outside the table reads `undefined`. */
  function SuffixAt(i: int): Option<string> {
    if 0 <= i < |Suffixes| then Some(Suffixes[i]) else None
  }

  /**
   * `suffixes[(v - 20) % 10] || suffixes[v] || suffixes[0]` with
   * `v = year % 100`. Every table entry is a non-empty string, so an entry is
   * truthy exactly when it is defined.
   */
  function SuffixOf(year: int): string {
    SuffixForLastTwo(JsRem(year, 100))
  }

  /** The lookup for `v = year % 100`. */
  function SuffixForLastTwo(v: int): string {
    match SuffixAt(JsRem(v - 20, 10))
    case Some(s) => s
    case None =>
      match SuffixAt(v)
      case Some(s) => s
      case None => Suffixes[0]
  }

  /** `getYearSuffix(year)`: the year's numeral followed by its suffix. */
  function GetYearSuffix(year: int): string {
    IntToString(year) + SuffixOf(year)
  }

  /**
   * The English ordinal suffix, stated independently of the table trick:
   * numbers ending in 11, 12 or 13 take "th"; otherwise a last digit of 1,
   * 2 or 3 takes "st", "nd" or "rd"; everything else, negative numbers
   * included, takes "th".
   */
  function EnglishOrdinal(year: int): (s: string)
    ensures s in {"st", "nd", "rd", "th"}
  {
    if year < 0 then "th"
    else
      var v := year % 100;
      if 11 <= v <= 13 then "th"
      else if v % 10 == 1 then "st"
      else if v % 10 == 2 then "nd"
      else if v % 10 == 3 then "rd"
      else "th"
  }

  /** The table lookup computes the English ordinal suffix for every integer year. */
  lemma GetYearSuffixIsOrdinal(year: int)
    ensures SuffixOf(year) == EnglishOrdinal(year)
    ensures GetYearSuffix(year) == IntToString(year) + EnglishOrdinal(year)
  {
    if year >= 0 {
      var v := year % 100;
      assert JsRem(year, 100) == v;
      if v < 10 {
        SingleDigit(v);
      } else if v < 20 {
        Teens(v);
      } else {
        TwentyAndUp(v);
      }
      assert EnglishOrdinal(year) == EnglishOrdinal(v);
    } else {
      NegativeYear(year);
    }
  }

  /** A negative year has non-positive last two digits, and both table reads miss or hit "th". */
  lemma NegativeYear(year: int)
    requires year < 0
    ensures SuffixOf(year) == "th"
  {
    var v := JsRem(year, 100);
    assert -99 <= v <= 0;
    var w := JsRem(v - 20, 10);
    assert -9 <= w <= 0;
  }

  lemma SingleDigit(v: int)
    requires 0 <= v < 10
    ensures SuffixForLastTwo(v) == EnglishOrdinal(v)
  {
    assert v - 20 < 0 && -(v - 20) == 20 - v;
    assert (20 - v) % 10 == (if v == 0 then 0 else 10 - v);
    assert v % 100 == v && v % 10 == v;
  }

  lemma Teens(v: int)
    requires 10 <= v < 20
    ensures SuffixForLastTwo(v) == EnglishOrdinal(v)
  {
    assert v - 20 < 0 && -(v - 20) == 20 - v;
    assert (20 - v) % 10 == (if v == 10 then 0 else 20 - v);
    assert v % 100 == v && v % 10 == v - 10;
  }

  lemma TwentyAndUp(v: int)
    requires 20 <= v < 100
    ensures SuffixForLastTwo(v) == EnglishOrdinal(v)
  {
    assert (v - 20) % 10 == v % 10;
    assert v % 100 == v;
  }

  /** The four years of study read "1st", "2nd", "3rd" and "4th". */
  lemma GetYearSuffixForYearsOfStudy()
    ensures GetYearSuffix(1) == "1st" && GetYearSuffix(2) == "2nd"
    ensures GetYearSuffix(3) == "3rd" && GetYearSuffix(4) == "4th"
  {
    assert NatToString(1) == "1" && NatToString(2) == "2";
    assert NatToString(3) == "3" && NatToString(4) == "4";
  }

  /** Two non-negative years with the same last two digits take the same suffix. */
  lemma SuffixDependsOnLastTwoDigits(a: int, b: int)
    requires a >= 0 && b >= 0 && a % 100 == b % 100
    ensures SuffixOf(a) == SuffixOf(b)
  {
    GetYearSuffixIsOrdinal(a);
    GetYearSuffixIsOrdinal(b);
  }

  const MinuteMs := 60000
  const HourMs := 3600000
  const DayMs := 86400000

  /** "N unit ago", with an "s" exactly when N is more than one. */
  function AgoText(n: int, unit: string): string {
    IntToString(n) + " " + unit + (if n > 1 then "s" else "") + " ago"
  }

  /**
   * `getRelativeTime(timestamp)`: the clock reading `now` and the locale
   * rendering of the date are parameters; `None` is an absent timestamp.
   * `Math.floor` of a quotient by a positive constant is Dafny's `/`.
   */
  function GetRelativeTime(timestamp: Option<int>, now: int, localeDate: string): string {
    match timestamp
    case None => "Recently"
    case Some(t) =>
      var diffMs := now - t;
      var diffMins := diffMs / MinuteMs;
      var diffHours := diffMs / HourMs;
      var diffDays := diffMs / DayMs;
      if diffMins < 1 then "Just now"
      else if diffMins < 60 then AgoText(diffMins, "min")
      else if diffHours < 24 then AgoText(diffHours, "hour")
      else if diffDays < 7 then AgoText(diffDays, "day")
      else localeDate
  }

  /**
   * The buckets, stated on the elapsed milliseconds: under a minute
   * (including times in the future) is "Just now"; then whole minutes below
   * an hour, whole hours below a day, whole days below a week, and the date
   * after that. The figure shown is always at least 1 and below the next
   * unit.
   */
  lemma RelativeTimeBuckets(t: int, now: int, localeDate: string)
    ensures var diff, r := now - t, GetRelativeTime(Some(t), now, localeDate);
      && (diff < MinuteMs ==> r == "Just now")
      && (MinuteMs <= diff < HourMs ==> 1 <= diff / MinuteMs < 60 && r == AgoText(diff / MinuteMs, "min"))
      && (HourMs <= diff < DayMs ==> 1 <= diff / HourMs < 24 && r == AgoText(diff / HourMs, "hour"))
      && (DayMs <= diff < 7 * DayMs ==> 1 <= diff / DayMs < 7 && r == AgoText(diff / DayMs, "day"))
      && (diff >= 7 * DayMs ==> r == localeDate)
  {
    var diff := now - t;
    if diff < MinuteMs {
      assert diff / MinuteMs < 1;
    } else if diff < HourMs {
      assert 1 <= diff / MinuteMs < 60;
    } else if diff < DayMs {
      assert diff / MinuteMs >= 60;
      assert 1 <= diff / HourMs < 24;
    } else if diff < 7 * DayMs {
      assert diff / MinuteMs >= 60 && diff / HourMs >= 24;
      assert 1 <= diff / DayMs < 7;
    } else {
      assert diff / MinuteMs >= 60 && diff / HourMs >= 24 && diff / DayMs >= 7;
    }
  }

  /** The plural "s" appears exactly when the figure is above one. */
  lemma AgoTextPlural(n: nat, unit: string)
    ensures n > 1 ==> AgoText(n, unit) == NatToString(n) + " " + unit + "s ago"
    ensures n <= 1 ==> AgoText(n, unit) == NatToString(n) + " " + unit + " ago"
  {
  }

  const DefaultMaxLength := 100

  /** `truncateText(text, maxLength)` */
  function TruncateText(text: string, maxLength: nat): string {
    if text == "" || |text| <= maxLength then text
    else Trim(text[..maxLength]) + "..."
  }

  /**
   * Short text is returned unchanged. Longer text is cut to `maxLength`
   * characters, trimmed and followed by "...": the result ends in "..." and
   * is at most three characters longer than `maxLength`.
   */
  lemma TruncateTextBounds(text: string, maxLength: nat)
    ensures |text| <= maxLength ==> TruncateText(text, maxLength) == text
    ensures |text| > maxLength ==>
      var r := TruncateText(text, maxLength);
      && |r| >= 3 && r[|r| - 3..] == "..."
      && |r| <= maxLength + 3
  {
    if |text| > maxLength {
      var body := Trim(text[..maxLength]);
      TrimFacts(text[..maxLength]);
      assert (body + "...")[|body|..] == "...";
    }
  }

  /**
   * What precedes the ellipsis of a truncated text is the kept prefix without
   * its surrounding white space: only characters of the prefix, no white
   * space at either end, and the whole prefix when it has none there.
   */
  lemma TruncatedBody(text: string, maxLength: nat)
    requires |text| > maxLength
    ensures var r := TruncateText(text, maxLength);
      var body := r[..|r| - 3];
      && body == Trim(text[..maxLength])
      && (forall c :: c in body ==> c in text[..maxLength])
      && (body == [] || (!IsSpace(body[0]) && !IsSpace(body[|body| - 1])))
      && (maxLength > 0 && !IsSpace(text[0]) && !IsSpace(text[maxLength - 1]) ==> body == text[..maxLength])
  {
    var p := text[..maxLength];
    var body := Trim(p);
    TrimFacts(p);
    assert (body + "...")[..|body|] == body;
    if maxLength > 0 && !IsSpace(text[0]) && !IsSpace(text[maxLength - 1]) {
      TrimOfTrimmed(p);
    }
  }

  /** `truncateText(text)` with the default limit of 100 characters. */
  function TruncateTextDefault(text: string): (r: string)
    ensures |text| <= DefaultMaxLength ==> r == text
    ensures |text| > DefaultMaxLength ==> |r| <= DefaultMaxLength + 3
  {
    TruncateTextBounds(text, DefaultMaxLength);
    TruncateText(text, DefaultMaxLength)
  }
}
