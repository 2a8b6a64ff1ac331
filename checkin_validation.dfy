/**
 * The request validators of src/validation/checkinValidation.js: the joi
 * schemas for a check-in body, an admin check-in body, the report
 * parameters and the status and history queries, and the middlewares that
 * answer 422 or pass the request on.
 *
 * joi is run with its defaults: the first error aborts validation, the
 * declared keys are checked in declaration order, and keys the schema does
 * not declare are looked at only after all declared ones passed.
 */
module CheckinValidation {
  import opened Wrappers
  import opened TimeUtils

  /** A JSON value as far as these schemas tell values apart. */
  datatype Value = Str(s: string) | Number(n: real) | Other

  predicate DistinctKeys(b: seq<(string, Value)>)
  {
    forall i, j :: 0 <= i < j < |b| ==> b[i].0 != b[j].0
  }

  /** A parsed request body, query or parameter object: its keys in order, each once. */
  type Body = b: seq<(string, Value)> | DistinctKeys(b) witness []

  /** The value under `key`, or none when the key is absent (undefined). */
  function Lookup(b: seq<(string, Value)>, key: string): (r: Option<Value>)
    ensures r.None? <==> forall i :: 0 <= i < |b| ==> b[i].0 != key
    ensures r.Some? ==> exists i :: 0 <= i < |b| && b[i] == (key, r.value)
  {
    if b == [] then None
    else if b[0].0 == key then Some(b[0].1)
    else
      var r := Lookup(b[1..], key);
      assert forall i :: 1 <= i < |b| ==> b[i] == b[1..][i - 1];
      r
  }

  /** The first key, in body order, that the schema does not declare. */
  function FirstUnknown(b: seq<(string, Value)>, known: set<string>): (r: Option<string>)
    ensures r.None? <==> forall i :: 0 <= i < |b| ==> b[i].0 in known
    ensures r.Some? ==> r.value !in known && exists i :: 0 <= i < |b| && b[i].0 == r.value
  {
    if b == [] then None
    else if b[0].0 !in known then Some(b[0].0)
    else
      var r := FirstUnknown(b[1..], known);
      assert forall i :: 1 <= i < |b| ==> b[i] == b[1..][i - 1];
      r
  }

  // ---------------------------------------------------------------------
  // Field rules: none when the value passes, else the error message
  // ---------------------------------------------------------------------

  /**
   * `joi.string().required().valid(...)`: the `valid` list is checked before
   * the string type, so every present value outside the list, the empty
   * string and non-strings included, fails with the `any.only` message.
   */
  function EnumRule(v: Option<Value>, allowed: set<string>, required: string, invalid: string): (r: Option<string>)
    ensures r.None? <==> exists s :: s in allowed && v == Some(Str(s))
    ensures v.None? ==> r == Some(required)
    ensures v.Some? && r.Some? ==> r == Some(invalid)
  {
    match v
    case None => Some(required)
    case Some(Str(s)) => if s in allowed then None else Some(invalid)
    case Some(_) => Some(invalid)
  }

  /** `joi.string().required()`: absent or empty is "required", a non-string "must be string". */
  function StringRule(v: Option<Value>, required: string, mustBeString: string): (r: Option<string>)
    ensures r.None? <==> exists s :: s != "" && v == Some(Str(s))
    ensures r.Some? ==> r == Some(if v.None? || v == Some(Str("")) then required else mustBeString)
  {
    match v
    case None => Some(required)
    case Some(Str(s)) => if s == "" then Some(required) else None
    case Some(_) => Some(mustBeString)
  }

  /** `joi.string().required().pattern(p)`: as `StringRule`, then the pattern. */
  function PatternRule(v: Option<Value>, matches: string -> bool, required: string, mustBeString: string, invalid: string)
    : (r: Option<string>)
    ensures r.None? <==> exists s :: s != "" && matches(s) && v == Some(Str(s))
    ensures v.Some? && v.value.Str? && v.value.s != "" && !matches(v.value.s) ==> r == Some(invalid)
  {
    match StringRule(v, required, mustBeString)
    case Some(e) => Some(e)
    case None => if matches(v.value.s) then None else Some(invalid)
  }

  predicate IsDigit(c: char) { '0' <= c <= '9' }

  predicate AllDigits(s: string) { forall i :: 0 <= i < |s| ==> IsDigit(s[i]) }

  /** The number a string of decimal digits denotes. */
  function DigitsValue(s: string): (n: nat)
    requires AllDigits(s)
  {
    if s == [] then 0 else DigitsValue(s[..|s| - 1]) * 10 + (s[|s| - 1] as int - '0' as int)
  }

  /** `/^[0-9]{4}$/` (a JavaScript `$` without the `m` flag: the end of the input). */
  predicate YearPattern(s: string)
  {
    |s| == 4 && IsDigit(s[0]) && IsDigit(s[1]) && IsDigit(s[2]) && IsDigit(s[3])
  }

  /** `/^(0?[1-9]|1[0-2])$/`, alternative by alternative. */
  predicate MonthPattern(s: string)
  {
    (|s| == 1 && '1' <= s[0] <= '9') ||
    (|s| == 2 && s[0] == '0' && '1' <= s[1] <= '9') ||
    (|s| == 2 && s[0] == '1' && '0' <= s[1] <= '2')
  }

  /** The year pattern accepts exactly four ASCII digits. */
  lemma YearPatternMeans(s: string)
    ensures YearPattern(s) <==> |s| == 4 && AllDigits(s)
  {
  }

  /** The month pattern accepts exactly the numerals of 1 to 12 in one or two digits. */
  lemma MonthPatternMeans(s: string)
    ensures MonthPattern(s) <==> 1 <= |s| <= 2 && AllDigits(s) && 1 <= DigitsValue(s) <= 12
  {
    if 1 <= |s| <= 2 && AllDigits(s) {
      if |s| == 2 {
        DigitsValue2(s);
      } else {
        assert s[..0] == [];
      }
    }
  }

  /** "0", "00" and "13" are refused; "1", "01", "9", "09" and "12" are accepted. */
  lemma MonthPatternExamples()
    ensures !MonthPattern("0") && !MonthPattern("00") && !MonthPattern("13") && !MonthPattern("010")
    ensures MonthPattern("1") && MonthPattern("01") && MonthPattern("9") && MonthPattern("09") && MonthPattern("12")
  {
  }

  // ---------------------------------------------------------------------
  // Calendar dates in the strict formats 'YYYY-MM-DD' and 'YYYY-MM'
  // ---------------------------------------------------------------------

  function Digit(n: nat): (c: char)
    requires n < 10
    ensures IsDigit(c) && c as int - '0' as int == n
  {
    ('0' as int + n) as char
  }

  function Pad2(n: nat): (s: string)
    requires n < 100
    ensures |s| == 2 && AllDigits(s)
  {
    [Digit(n / 10), Digit(n % 10)]
  }

  function Pad4(n: nat): (s: string)
    requires n < 10000
    ensures |s| == 4 && AllDigits(s)
  {
    Pad2(n / 100) + Pad2(n % 100)
  }

  /** A date written 'YYYY-MM-DD'. */
  function FormatDate(d: CalendarDate): (s: string)
    requires 0 <= d.year < 10000
    ensures |s| == 10
  {
    Pad4(d.year) + "-" + Pad2(d.month) + "-" + Pad2(d.day)
  }

  /**
   * Strict parsing with the format 'YYYY-MM-DD': exactly four, two and two
   * digits with the two dashes, naming a day of the calendar.
   */
  function ParseDate(s: string): (r: Option<CalendarDate>)
    ensures r.Some? ==> 0 <= r.value.year < 10000
  {
    if |s| == 10 && s[4] == '-' && s[7] == '-' && AllDigits(s[..4]) && AllDigits(s[5..7]) && AllDigits(s[8..]) then
      var d := Date(DigitsValue(s[..4]), DigitsValue(s[5..7]), DigitsValue(s[8..]));
      DigitsBound(s[..4]);
      if IsCalendarDate(d) then Some(d) else None
    else None
  }

  /** Strict parsing with the format 'YYYY-MM': four digits, a dash and a month from 01 to 12. */
  function ParseYearMonth(s: string): (r: Option<(nat, nat)>)
    ensures r.Some? ==> 1 <= r.value.1 <= 12
  {
    if |s| == 7 && s[4] == '-' && AllDigits(s[..4]) && AllDigits(s[5..]) then
      var m := DigitsValue(s[5..]);
      if 1 <= m <= 12 then Some((DigitsValue(s[..4]), m)) else None
    else None
  }

  lemma {:induction false} DigitsBound(s: string)
    requires AllDigits(s)
    ensures DigitsValue(s) < Power10(|s|)
  {
    if s != [] {
      DigitsBound(s[..|s| - 1]);
    }
  }

  function Power10(n: nat): (p: nat)
    ensures p >= 1
  {
    if n == 0 then 1 else 10 * Power10(n - 1)
  }

  /** The value of a two-digit string. */
  lemma DigitsValue2(s: string)
    requires |s| == 2 && AllDigits(s)
    ensures DigitsValue(s) == (s[0] as int - '0' as int) * 10 + (s[1] as int - '0' as int)
  {
    var t := s[..1];
    assert t[..0] == [] && t[0] == s[0];
    assert DigitsValue(t) == s[0] as int - '0' as int;
  }

  lemma Pad2Value(n: nat)
    requires n < 100
    ensures DigitsValue(Pad2(n)) == n
  {
    DigitsValue2(Pad2(n));
  }

  lemma Pad2OfValue(s: string)
    requires |s| == 2 && AllDigits(s)
    ensures DigitsValue(s) < 100 && Pad2(DigitsValue(s)) == s
  {
    DigitsValue2(s);
    var a, b := s[0] as int - '0' as int, s[1] as int - '0' as int;
    assert (a * 10 + b) / 10 == a && (a * 10 + b) % 10 == b;
  }

  lemma Pad4Value(n: nat)
    requires n < 10000
    ensures DigitsValue(Pad4(n)) == n
  {
    var hi, lo := Pad2(n / 100), Pad2(n % 100);
    Pad2Value(n / 100);
    Pad2Value(n % 100);
    DigitsValueAppend2(hi, lo);
  }

  lemma Pad4OfValue(s: string)
    requires |s| == 4 && AllDigits(s)
    ensures DigitsValue(s) < 10000 && Pad4(DigitsValue(s)) == s
  {
    var hi, lo := s[..2], s[2..];
    assert s == hi + lo;
    DigitsValueAppend2(hi, lo);
    Pad2OfValue(hi);
    Pad2OfValue(lo);
    var n := DigitsValue(s);
    assert n == DigitsValue(hi) * 100 + DigitsValue(lo);
    assert n / 100 == DigitsValue(hi) && n % 100 == DigitsValue(lo);
  }

  lemma DigitsValueAppend2(a: string, b: string)
    requires AllDigits(a) && |b| == 2 && AllDigits(b)
    ensures AllDigits(a + b) && DigitsValue(a + b) == DigitsValue(a) * 100 + DigitsValue(b)
  {
    var s := a + b;
    var t := a + [b[0]];
    assert s[..|s| - 1] == t && s[|s| - 1] == b[1];
    assert t[..|t| - 1] == a && t[|t| - 1] == b[0];
    DigitsValue2(b);
    var x, y := b[0] as int - '0' as int, b[1] as int - '0' as int;
    assert DigitsValue(s) == (DigitsValue(a) * 10 + x) * 10 + y;
  }

  /** Writing a date and parsing it back gives the date again. */
  lemma ParseFormatDate(d: CalendarDate)
    requires 0 <= d.year < 10000
    ensures ParseDate(FormatDate(d)) == Some(d)
  {
    var s := FormatDate(d);
    assert s[..4] == Pad4(d.year) && s[5..7] == Pad2(d.month) && s[8..] == Pad2(d.day);
    Pad4Value(d.year);
    Pad2Value(d.month);
    Pad2Value(d.day);
  }

  /** A string the strict format accepts is exactly how that date is written. */
  lemma FormatParseDate(s: string)
    requires ParseDate(s).Some?
    ensures FormatDate(ParseDate(s).value) == s
  {
    Pad4OfValue(s[..4]);
    Pad2OfValue(s[5..7]);
    Pad2OfValue(s[8..]);
    assert s == s[..4] + "-" + s[5..7] + "-" + s[8..];
  }

  /** JavaScript's `new Date(n)` is a valid date for |n| up to 8.64e15 milliseconds. */
  const MAX_TIME_VALUE: real := 8_640_000_000_000_000.0

  /**
   * `joi.date().format(f)` extended by @joi/date: a string is converted by a
   * strict parse with the format, a number as a millisecond timestamp; any
   * other value fails the date type.
   */
  function DateRule(v: Value, parses: string -> bool, invalid: string, mustBeDate: string): (r: Option<string>)
    ensures v.Str? ==> (r.None? <==> parses(v.s))
    ensures v.Number? ==> (r.None? <==> -MAX_TIME_VALUE <= v.n <= MAX_TIME_VALUE)
    ensures v.Other? ==> r == Some(mustBeDate)
    ensures r.Some? ==> r == Some(if v.Str? then invalid else mustBeDate)
  {
    match v
    case Str(s) => if parses(s) then None else Some(invalid)
    case Number(n) => if -MAX_TIME_VALUE <= n <= MAX_TIME_VALUE then None else Some(mustBeDate)
    case Other => Some(mustBeDate)
  }

  /** abortEarly: the first of two rules, in schema order, that fails. */
  function OrElse(first: Option<string>, second: Option<string>): (r: Option<string>)
    ensures r.None? <==> first.None? && second.None?
    ensures r == (if first.Some? then first else second)
  {
    if first.Some? then first else second
  }

  // ---------------------------------------------------------------------
  // The schemas
  // ---------------------------------------------------------------------

  const CHECKIN_TYPES: set<string> := {"morning", "evening"}
  const REGION_TYPES: set<string> := {"province", "city", "district", "subString"}

  function TypeRule(b: Body): Option<string>
  {
    EnumRule(Lookup(b, "type"), CHECKIN_TYPES, "TYPE_REQUIRED", "TYPE_INVALID")
  }

  /** `CheckinSchema`: `type` alone, 'morning' or 'evening'. */
  function ValidateCheckin(b: Body): (r: Option<string>)
    ensures Lookup(b, "type").None? ==> r == Some("TYPE_REQUIRED")
    ensures r != Some("TYPE_MUST_BE_STRING")
  {
    match TypeRule(b)
    case Some(e) => Some(e)
    case None => if FirstUnknown(b, {"type"}).Some? then Some("UNKNOWN_FIELD_FOUND") else None
  }

  /** A check-in body passes exactly when it is `{ type: 'morning' }` or `{ type: 'evening' }`. */
  lemma ValidateCheckinAccepts(b: Body)
    ensures ValidateCheckin(b).None? <==>
      |b| == 1 && b[0].0 == "type" && (b[0].1 == Str("morning") || b[0].1 == Str("evening"))
  {
    KeysOfOneName(b, "type");
  }

  /** In a body, no two entries share a key. */
  lemma KeysOfOneName(b: Body, key: string)
    ensures (forall i :: 0 <= i < |b| ==> b[i].0 in {key}) ==> |b| <= 1
  {
    if |b| >= 2 {
      assert b[0].0 != b[1].0;
    }
  }

  /** A present `type` other than 'morning' and 'evening' fails as invalid; another key as unknown. */
  lemma ValidateCheckinErrors(b: Body)
    ensures (Lookup(b, "type").Some? && Lookup(b, "type").value !in {Str("morning"), Str("evening")}) ==>
      ValidateCheckin(b) == Some("TYPE_INVALID")
    ensures (Lookup(b, "type") in {Some(Str("morning")), Some(Str("evening"))} &&
             exists i :: 0 <= i < |b| && b[i].0 != "type") ==>
      ValidateCheckin(b) == Some("UNKNOWN_FIELD_FOUND")
  {
  }

  /** joi's own message for a key the schema does not declare. */
  function NotAllowed(key: string): string
  {
    "\"" + key + "\" is not allowed"
  }

  function UserIdRule(b: Body): Option<string>
  {
    StringRule(Lookup(b, "userId"), "USER_ID_REQUIRED", "USER_ID_MUST_BE_STRING")
  }

  function AdminDateRule(b: Body): (r: Option<string>)
    ensures r.None? <==>
      (exists d :: ParseDate(d).Some? && Lookup(b, "date") == Some(Str(d))) ||
      (exists n :: -MAX_TIME_VALUE <= n <= MAX_TIME_VALUE && Lookup(b, "date") == Some(Number(n)))
  {
    match Lookup(b, "date")
    case None => Some("DATE_REQUIRED")
    case Some(v) => DateRule(v, s => ParseDate(s).Some?, "DATE_INVALID", "\"date\" must be a valid date")
  }

  /** `adminCheckInSchema`: `type`, `userId` and a 'YYYY-MM-DD' `date`, each required. */
  function ValidateAdminCheckin(b: Body): (r: Option<string>)
    ensures Lookup(b, "type").None? ==> r == Some("TYPE_REQUIRED")
    ensures (TypeRule(b).None? && Lookup(b, "userId").None?) ==> r == Some("USER_ID_REQUIRED")
    ensures (TypeRule(b).None? && UserIdRule(b).None? && Lookup(b, "date").None?) ==> r == Some("DATE_REQUIRED")
    ensures r.None? <==>
      && Lookup(b, "type") in {Some(Str("morning")), Some(Str("evening"))}
      && (exists u :: u != "" && Lookup(b, "userId") == Some(Str(u)))
      && AdminDateRule(b).None?
      && forall i :: 0 <= i < |b| ==> b[i].0 in {"type", "userId", "date"}
  {
    match OrElse(TypeRule(b), OrElse(UserIdRule(b), AdminDateRule(b)))
    case Some(e) => Some(e)
    case None =>
      match FirstUnknown(b, {"type", "userId", "date"})
      case Some(k) => Some(NotAllowed(k))
      case None => None
  }

  /** `getCheckInReportSchema`: `regionType`, `regionId`, `year` and `month`, in that order. */
  function ValidateReport(b: Body): (r: Option<string>)
    ensures r.None? <==>
      && (exists t :: t in REGION_TYPES && Lookup(b, "regionType") == Some(Str(t)))
      && (exists i :: i != "" && Lookup(b, "regionId") == Some(Str(i)))
      && (exists y :: YearPattern(y) && Lookup(b, "year") == Some(Str(y)))
      && (exists m :: MonthPattern(m) && Lookup(b, "month") == Some(Str(m)))
      && forall i :: 0 <= i < |b| ==> b[i].0 in {"regionType", "regionId", "year", "month"}
    ensures Lookup(b, "regionType").None? ==> r == Some("REGION_TYPE_REQUIRED")
  {
    var regionType := EnumRule(Lookup(b, "regionType"), REGION_TYPES, "REGION_TYPE_REQUIRED", "REGION_TYPE_INVALID");
    var regionId := StringRule(Lookup(b, "regionId"), "REGION_ID_REQUIRED", "REGION_ID_MUST_BE_STRING");
    var year := PatternRule(Lookup(b, "year"), YearPattern, "YEAR_REQUIRED", "YEAR_MUST_BE_STRING", "YEAR_INVALID");
    var month := PatternRule(Lookup(b, "month"), MonthPattern, "MONTH_REQUIRED", "MONTH_MUST_BE_STRING", "MONTH_INVALID");
    match OrElse(regionType, OrElse(regionId, OrElse(year, month)))
    case Some(e) => Some(e)
    case None =>
      if FirstUnknown(b, {"regionType", "regionId", "year", "month"}).Some? then Some("UNKNOWN_FIELD_FOUND") else None
  }

  /** The region type is checked first, and fails unless it is one of the four names. */
  lemma ReportRegionTypeFirst(b: Body)
    ensures (forall t :: t in REGION_TYPES ==> Lookup(b, "regionType") != Some(Str(t))) ==>
      ValidateReport(b) == Some(if Lookup(b, "regionType").None? then "REGION_TYPE_REQUIRED" else "REGION_TYPE_INVALID")
  {
  }

  /** `getCheckInStatusSchema`: an optional 'YYYY-MM-DD' `date`. */
  function ValidateStatusQuery(b: Body): (r: Option<string>)
    ensures r.None? <==>
      && (|| Lookup(b, "date").None?
          || (exists d :: ParseDate(d).Some? && Lookup(b, "date") == Some(Str(d)))
          || (exists n :: -MAX_TIME_VALUE <= n <= MAX_TIME_VALUE && Lookup(b, "date") == Some(Number(n))))
      && forall i :: 0 <= i < |b| ==> b[i].0 == "date"
    ensures Lookup(b, "date") == Some(Str("")) ==> r == Some("DATE_INVALID")
  {
    var dateRule := match Lookup(b, "date")
      case None => None
      case Some(v) => DateRule(v, s => ParseDate(s).Some?, "DATE_INVALID", "DATE_MUST_BE_DATE");
    if dateRule.Some? then dateRule
    else if FirstUnknown(b, {"date"}).Some? then Some("UNKNOWN_FIELD_FOUND") else None
  }

  /** `getCheckInHistorySchema`: an optional 'YYYY-MM' `date`. */
  function ValidateHistoryQuery(b: Body): (r: Option<string>)
    ensures r.None? <==>
      && (|| Lookup(b, "date").None?
          || (exists d :: ParseYearMonth(d).Some? && Lookup(b, "date") == Some(Str(d)))
          || (exists n :: -MAX_TIME_VALUE <= n <= MAX_TIME_VALUE && Lookup(b, "date") == Some(Number(n))))
      && forall i :: 0 <= i < |b| ==> b[i].0 == "date"
    ensures Lookup(b, "date") == Some(Str("2024-13")) ==> r == Some("DATE_INVALID")
  {
    var dateRule := match Lookup(b, "date")
      case None => None
      case Some(v) => DateRule(v, s => ParseYearMonth(s).Some?, "DATE_INVALID", "DATE_MUST_BE_DATE");
    if dateRule.Some? then dateRule
    else if FirstUnknown(b, {"date"}).Some? then Some("UNKNOWN_FIELD_FOUND") else None
  }

  // ---------------------------------------------------------------------
  // The middlewares
  // ---------------------------------------------------------------------

  /** Either a 422 answer carrying the first error's message, or `next()`. */
  datatype Verdict = Reject(status: int, message: string) | Next

  function Middleware(error: Option<string>): (r: Verdict)
    ensures r.Next? <==> error.None?
    ensures r.Reject? ==> r.status == 422 && r.message == error.value
  {
    match error
    case None => Next
    case Some(e) => Reject(422, e)
  }

  /** The `checkIn` middleware passes on exactly the two well-formed bodies. */
  lemma CheckInMiddlewareMeans(b: Body)
    ensures Middleware(ValidateCheckin(b)).Next? <==>
      |b| == 1 && b[0].0 == "type" && (b[0].1 == Str("morning") || b[0].1 == Str("evening"))
    ensures Middleware(ValidateCheckin([])) == Reject(422, "TYPE_REQUIRED")
  {
    ValidateCheckinAccepts(b);
  }
}
