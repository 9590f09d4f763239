/** Due dates (src/domain/value-objects/due-date.ts): a `YYYY-MM-DD` string naming a
    real day of the proleptic Gregorian calendar, as `Date.UTC` sees it. */
module DueDates {
  import opened Wrappers
  import opened Text
  import opened Js
  import opened Validation

  /** `^(\d{4})-(\d{2})-(\d{2})$` */
  predicate IsIsoShape(s: string) {
    |s| == 10 && s[4] == '-' && s[7] == '-'
    && IsDigit(s[0]) && IsDigit(s[1]) && IsDigit(s[2]) && IsDigit(s[3])
    && IsDigit(s[5]) && IsDigit(s[6]) && IsDigit(s[8]) && IsDigit(s[9])
  }

  function DigitValue(c: char): int { c as int - '0' as int }

  function Year(s: string): int requires IsIsoShape(s) {
    1000 * DigitValue(s[0]) + 100 * DigitValue(s[1]) + 10 * DigitValue(s[2]) + DigitValue(s[3])
  }

  function Month(s: string): int requires IsIsoShape(s) {
    10 * DigitValue(s[5]) + DigitValue(s[6])
  }

  function Day(s: string): int requires IsIsoShape(s) {
    10 * DigitValue(s[8]) + DigitValue(s[9])
  }

  predicate IsLeapYear(y: int) {
    (y % 4 == 0 && y % 100 != 0) || y % 400 == 0
  }

  function DaysInMonth(y: int, m: int): (r: int)
    requires 1 <= m <= 12
    ensures 28 <= r <= 31
  {
    if m == 2 then (if IsLeapYear(y) then 29 else 28)
    else if m == 4 || m == 6 || m == 9 || m == 11 then 30
    else 31
  }

  /** The calendar fields `new Date(Date.UTC(y, m - 1, d))` reports, for a month in
      1..12 and a day in 1..31: a year in 0..99 is read as 1900 + y, and a day past
      the end of the month rolls into the next month. */
  function UtcFields(y: int, m: int, d: int): (int, int, int)
    requires 1 <= m <= 12 && 1 <= d <= 31
  {
    var year := if 0 <= y <= 99 then 1900 + y else y;
    var dim := DaysInMonth(year, m);
    if d <= dim then (year, m, d)
    else if m == 12 then (year + 1, 1, d - dim)
    else (year, m + 1, d - dim)
  }

  /** `isValidCalendarDate`: the shape, the month and day ranges, and the round trip
      through `Date.UTC`. */
  predicate IsValidCalendarDate(s: string) {
    IsIsoShape(s) && 1 <= Month(s) <= 12 && 1 <= Day(s) <= 31
    && UtcFields(Year(s), Month(s), Day(s)) == (Year(s), Month(s), Day(s))
  }

  /** What the round trip amounts to: a real day of the Gregorian calendar in a year
      from 0100 on; every date in the years 0000 to 0099 is refused. */
  lemma ValidCalendarDateMeans(s: string)
    ensures IsValidCalendarDate(s) <==>
      IsIsoShape(s) && Year(s) >= 100 && 1 <= Month(s) <= 12 && 1 <= Day(s) <= DaysInMonth(Year(s), Month(s))
  {
  }

  const EmptyMessage: string := "DueDate must not be empty"
  const FormatMessage: string := "DueDate must use YYYY-MM-DD format"
  const CalendarMessage: string := "DueDate must be a real calendar date"

  /** `DueDateSchema`: each failed check reports its own issue; the value is kept. */
  function DueDateSchema(value: string): (r: SchemaOutcome<string>)
    ensures r.Accepted? <==> IsValidCalendarDate(value)
    ensures r.Accepted? ==> r.data == value
    ensures r.Rejected? ==> r.issues != []
  {
    var issues :=
      (if |value| < 1 then [Issue([], EmptyMessage)] else [])
      + (if IsIsoShape(value) then [] else [Issue([], FormatMessage)])
      + (if IsValidCalendarDate(value) then [] else [Issue([], CalendarMessage)]);
    if issues == [] then Accepted(value) else Rejected(issues)
  }

  /** `parseDueDate`: trim, then validate; the trimmed text is the due date. */
  function ParseDueDate(value: string): (r: Result<string, ValidationError>)
    ensures r.Ok? <==> IsValidCalendarDate(Trim(value))
    ensures r.Ok? ==> r.value == Trim(value)
    ensures r.Err? ==> r.error.message == "DueDate is invalid" && r.error.issues != []
  {
    ParseWithSchema(DueDateSchema(Trim(value)), Some("DueDate"))
  }

  /** `isDueDate` */
  predicate IsDueDate(value: JsValue)
    ensures IsDueDate(value) <==> value.Str? && IsValidCalendarDate(Trim(value.s))
  {
    value.Str? && ParseDueDate(value.s).Ok?
  }

  datatype DueDateFailure = Invalid(error: ValidationError) | NotAString(message: string)

  /** `ensureDueDate`: a non-string is refused with its own message, a string is parsed. */
  function EnsureDueDate(value: JsValue): (r: Result<string, DueDateFailure>)
    ensures r.Ok? <==> IsDueDate(value)
    ensures r.Ok? ==> r.value == Trim(value.s)
    ensures !value.Str? ==> r == Err(NotAString("DueDate must be provided as a string"))
    ensures value.Str? && r.Err? ==> r.error.Invalid?
  {
    if !value.Str? then Err(NotAString("DueDate must be provided as a string"))
    else match ParseDueDate(value.s)
      case Ok(d) => Ok(d)
      case Err(e) => Err(Invalid(e))
  }

  /** `formatDueDate`: a due date is written exactly as it is stored. */
  function FormatDueDate(d: string): (r: string)
    requires IsValidCalendarDate(d)
    ensures ParseDueDate(r) == Ok(d)
    ensures r == d
  {
    assert IsTrimmed(d);
    TrimOfTrimmed(d);
    d
  }

  /** A valid date has no padding, so parsing a stored due date gives it back. */
  lemma ParseStoredDueDate(d: string)
    requires IsValidCalendarDate(d)
    ensures ParseDueDate(d) == Ok(d) && IsTrimmed(d)
  {
    assert IsTrimmed(d);
    TrimOfTrimmed(d);
  }

  /** Parsing is idempotent. */
  lemma ParseDueDateIdempotent(value: string)
    requires ParseDueDate(value).Ok?
    ensures ParseDueDate(ParseDueDate(value).value) == ParseDueDate(value)
  {
    ParseStoredDueDate(ParseDueDate(value).value);
  }

  lemma LeapDayExamples()
    ensures IsValidCalendarDate("2024-02-29")
    ensures !IsValidCalendarDate("2023-02-29")
    ensures !IsValidCalendarDate("1900-02-29")
    ensures IsValidCalendarDate("2000-02-29")
    ensures !IsValidCalendarDate("2025-13-40")
    ensures !IsValidCalendarDate("0099-01-01")
  {
  }
}
