/**
 * components/ExperienceCard.tsx and components/ExperienceCard.jsx: the
 * duration shown when hovering a job's date range, in whole calendar months
 * between the start and end dates.  Dates are (year, month) pairs; parsing a
 * date string and reading the clock are parameters.
 */
module ExperienceCard {
  import opened Strings

  /** `getFullYear()` and `getMonth()` (0 for January) of a parsed date. */
  datatype YearMonth = YearMonth(year: int, month: int)

  /** The month number counted from year 0. */
  function Ordinal(d: YearMonth): int {
    12 * d.year + d.month
  }

  /** monthDiff = (endYear - startYear) * 12 + (endMonth - startMonth) */
  function MonthDiff(start: YearMonth, end: YearMonth): (d: int)
    ensures d == Ordinal(end) - Ordinal(start)
  {
    (end.year - start.year) * 12 + (end.month - start.month)
  }

  /** Month differences add up along consecutive spans, and a date is 0 months from itself. */
  lemma MonthDiffAdds(a: YearMonth, b: YearMonth, c: YearMonth)
    ensures MonthDiff(a, b) + MonthDiff(b, c) == MonthDiff(a, c)
    ensures MonthDiff(a, a) == 0
  {
  }

  /** How a month difference is split for display. */
  datatype Span = Months(n: int) | Years(years: int) | YearsMonths(years: int, months: int)

  /** Twelve months or more become years, with the remaining months shown only when there are some. */
  function SpanOf(monthDiff: int): (s: Span)
    ensures s.Months? <==> monthDiff < 12
    ensures s.Months? ==> s.n == monthDiff
    ensures s.Years? ==> s.years >= 1 && 12 * s.years == monthDiff
    ensures s.YearsMonths? ==> s.years >= 1 && 1 <= s.months < 12 && 12 * s.years + s.months == monthDiff
  {
    if monthDiff >= 12 then
      var years := monthDiff / 12;
      var months := monthDiff % 12;
      if months > 0 then YearsMonths(years, months) else Years(years)
    else Months(monthDiff)
  }

  /** The unit words: the year word, the month word and the plural suffix. */
  datatype Units = Units(year: string, month: string, suffix: string)

  /** `${count} ${word}${count > 1 ? suffix : ''}` */
  function Quantity(count: int, word: string, suffix: string): string {
    IntToString(count) + " " + word + (if count > 1 then suffix else "")
  }

  /** The text for a split span. */
  function SpanText(s: Span, u: Units): string {
    match s
    case Months(n) => Quantity(n, u.month, u.suffix)
    case Years(y) => Quantity(y, u.year, u.suffix)
    case YearsMonths(y, m) => Quantity(y, u.year, u.suffix) + " " + Quantity(m, u.month, u.suffix)
  }

  /** The unit words the TypeScript version asks `t` for, with its fallbacks. */
  function TranslatedUnits(t: (string, string) -> string): Units {
    Units(t("common.year", "year"), t("common.month", "month"), t("common.pluralSuffix", "s"))
  }

  const EnglishUnits: Units := Units("year", "month", "s")

  /**
   * calculateDuration(startDate, endDate, t) of ExperienceCard.tsx.  'Present'
   * and 'Günümüz' mean now.
   */
  function CalculateDuration(startDate: string, endDate: string, parse: string -> YearMonth, now: YearMonth,
                             t: (string, string) -> string): (text: string)
    ensures var end := if endDate == "Present" || endDate == "Günümüz" then now else parse(endDate);
      var d := MonthDiff(parse(startDate), end);
      var u := TranslatedUnits(t);
      && (d < 12 ==> text == Quantity(d, u.month, u.suffix))
      && (d >= 12 && d % 12 == 0 ==> text == Quantity(d / 12, u.year, u.suffix))
      && (d >= 12 && d % 12 != 0 ==> text == Quantity(d / 12, u.year, u.suffix) + " " + Quantity(d % 12, u.month, u.suffix))
  {
    var end := if endDate == "Present" || endDate == "Günümüz" then now else parse(endDate);
    SpanText(SpanOf(MonthDiff(parse(startDate), end)), TranslatedUnits(t))
  }

  /** calculateDuration(startDate, endDate) of ExperienceCard.jsx: English words, and only 'Present' means now. */
  function CalculateDurationJsx(startDate: string, endDate: string, parse: string -> YearMonth, now: YearMonth): (text: string)
    ensures var end := if endDate == "Present" then now else parse(endDate);
      var d := MonthDiff(parse(startDate), end);
      && (d < 12 ==> text == Quantity(d, "month", "s"))
      && (d >= 12 && d % 12 == 0 ==> text == Quantity(d / 12, "year", "s"))
      && (d >= 12 && d % 12 != 0 ==> text == Quantity(d / 12, "year", "s") + " " + Quantity(d % 12, "month", "s"))
  {
    var end := if endDate == "Present" then now else parse(endDate);
    SpanText(SpanOf(MonthDiff(parse(startDate), end)), EnglishUnits)
  }

  /** The plural suffix is added exactly for counts above one: 0 and 1 stay singular. */
  lemma SuffixOnlyAboveOne(count: int, word: string, suffix: string)
    ensures count <= 1 ==> Quantity(count, word, suffix) == IntToString(count) + " " + word
    ensures count > 1 ==> Quantity(count, word, suffix) == IntToString(count) + " " + word + suffix
  {
  }

  /**
   * The older version is the newer one with `t` answering its fallbacks,
   * except that it does not read 'Günümüz' as now.
   */
  lemma JsxIsTsxInEnglish(startDate: string, endDate: string, parse: string -> YearMonth, now: YearMonth)
    requires endDate != "Günümüz"
    ensures CalculateDurationJsx(startDate, endDate, parse, now)
      == CalculateDuration(startDate, endDate, parse, now, (k: string, f: string) => f)
  {
  }

  /** 'Günümüz' is read as now by the newer version and parsed as a date by the older one. */
  lemma GunumuzOnlyInTsx(startDate: string, parse: string -> YearMonth, now: YearMonth, t: (string, string) -> string)
    ensures CalculateDuration(startDate, "Günümüz", parse, now, t)
      == SpanText(SpanOf(MonthDiff(parse(startDate), now)), TranslatedUnits(t))
    ensures CalculateDurationJsx(startDate, "Günümüz", parse, now)
      == SpanText(SpanOf(MonthDiff(parse(startDate), parse("Günümüz"))), EnglishUnits)
  {
  }
}
