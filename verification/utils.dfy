/** The string helpers of utils.py.  The wall clock that `datetime.now()`
    reads becomes a `DateTime` argument; the strftime layouts the helpers use
    are written out digit by digit. */
module Utils {
  import opened Wrappers

  /** A calendar instant as `datetime.now()` returns it, to the second. */
  datatype DateTime = DateTime(year: int, month: int, day: int, hour: int, minute: int, second: int)

  predicate IsLeapYear(y: int) {
    y % 4 == 0 && (y % 100 != 0 || y % 400 == 0)
  }

  function DaysInMonth(y: int, m: int): int {
    if m == 2 then (if IsLeapYear(y) then 29 else 28)
    else if m == 4 || m == 6 || m == 9 || m == 11 then 30
    else 31
  }

  /** The field ranges a `datetime` guarantees, with four-digit years. */
  predicate ValidDateTime(t: DateTime) {
    && 1000 <= t.year <= 9999
    && 1 <= t.month <= 12
    && 1 <= t.day <= DaysInMonth(t.year, t.month)
    && 0 <= t.hour < 24
    && 0 <= t.minute < 60
    && 0 <= t.second < 60
  }

  function Pow10(n: nat): (p: nat)
    ensures p >= 1
  {
    if n == 0 then 1 else 10 * Pow10(n - 1)
  }

  predicate IsDigit(c: char) {
    '0' <= c <= '9'
  }

  /** The last `width` decimal digits of `n`, zero-padded on the left, as
      strftime's `%Y` (width 4) and `%m %d %H %M %S` (width 2) print them. */
  function Decimal(n: nat, width: nat): (s: string)
    ensures |s| == width
    ensures forall i | 0 <= i < |s| :: IsDigit(s[i])
  {
    if width == 0 then [] else Decimal(n / 10, width - 1) + [('0' as int + n % 10) as char]
  }

  /** The number a string of decimal digits denotes; None if some character
      is not a digit. */
  function ParseDecimal(s: string): Option<nat> {
    if s == [] then Some(0)
    else if !IsDigit(s[|s| - 1]) then None
    else match ParseDecimal(s[..|s| - 1])
      case None => None
      case Some(v) => Some(10 * v + (s[|s| - 1] as int - '0' as int))
  }

  /** Reading back a padded number gives the number, when it fits. */
  lemma {:induction false} ParseDecimalRoundTrip(n: nat, width: nat)
    requires n < Pow10(width)
    ensures ParseDecimal(Decimal(n, width)) == Some(n)
  {
    if width > 0 {
      var s := Decimal(n, width);
      assert s[..|s| - 1] == Decimal(n / 10, width - 1);
      ParseDecimalRoundTrip(n / 10, width - 1);
    }
  }

  /** `now.strftime("%Y%m%d_%H%M%S")`, the timestamp of generated file
      names: fifteen characters, all digits but the `_` at index 8. */
  function CompactTimestamp(t: DateTime): (s: string)
    requires ValidDateTime(t)
    ensures |s| == 15
    ensures forall i | 0 <= i < |s| :: if i == 8 then s[i] == '_' else IsDigit(s[i])
  {
    Decimal(t.year, 4) + Decimal(t.month, 2) + Decimal(t.day, 2) + "_"
    + Decimal(t.hour, 2) + Decimal(t.minute, 2) + Decimal(t.second, 2)
  }

  /** `now.strftime("%Y-%m-%d %H:%M:%S")`, the timestamp of log lines. */
  function LogTimestamp(t: DateTime): (s: string)
    requires ValidDateTime(t)
    ensures |s| == 19
  {
    Decimal(t.year, 4) + "-" + Decimal(t.month, 2) + "-" + Decimal(t.day, 2) + " "
    + Decimal(t.hour, 2) + ":" + Decimal(t.minute, 2) + ":" + Decimal(t.second, 2)
  }

  /** The instant with the given fields, when all six were read and they
      form a valid date and time. */
  function InstantOf(year: Option<nat>, month: Option<nat>, day: Option<nat>,
                     hour: Option<nat>, minute: Option<nat>, second: Option<nat>): Option<DateTime>
  {
    match (year, month, day, hour, minute, second)
    case (Some(y), Some(mo), Some(d), Some(h), Some(mi), Some(se)) =>
      var t := DateTime(y, mo, d, h, mi, se);
      if ValidDateTime(t) then Some(t) else None
    case _ => None
  }

  /** Inverse of CompactTimestamp: reads `YYYYmmdd_HHMMSS` back, and refuses
      anything of another shape or out of range. */
  function ParseCompactTimestamp(s: string): Option<DateTime> {
    if |s| != 15 || s[8] != '_' then None
    else InstantOf(ParseDecimal(s[0..4]), ParseDecimal(s[4..6]), ParseDecimal(s[6..8]),
                   ParseDecimal(s[9..11]), ParseDecimal(s[11..13]), ParseDecimal(s[13..15]))
  }

  /** Inverse of LogTimestamp: reads `YYYY-mm-dd HH:MM:SS` back, and refuses
      anything of another shape or out of range. */
  function ParseLogTimestamp(s: string): Option<DateTime> {
    if |s| != 19 || s[4] != '-' || s[7] != '-' || s[10] != ' ' || s[13] != ':' || s[16] != ':' then None
    else InstantOf(ParseDecimal(s[0..4]), ParseDecimal(s[5..7]), ParseDecimal(s[8..10]),
                   ParseDecimal(s[11..13]), ParseDecimal(s[14..16]), ParseDecimal(s[17..19]))
  }

  /** Every field of a valid instant reads back from its padded digits. */
  lemma FieldsRoundTrip(t: DateTime)
    requires ValidDateTime(t)
    ensures InstantOf(ParseDecimal(Decimal(t.year, 4)), ParseDecimal(Decimal(t.month, 2)),
                      ParseDecimal(Decimal(t.day, 2)), ParseDecimal(Decimal(t.hour, 2)),
                      ParseDecimal(Decimal(t.minute, 2)), ParseDecimal(Decimal(t.second, 2))) == Some(t)
  {
    ParseDecimalRoundTrip(t.year, 4);
    ParseDecimalRoundTrip(t.month, 2);
    ParseDecimalRoundTrip(t.day, 2);
    ParseDecimalRoundTrip(t.hour, 2);
    ParseDecimalRoundTrip(t.minute, 2);
    ParseDecimalRoundTrip(t.second, 2);
  }

  /** The file-name timestamp determines the instant it was printed from. */
  lemma CompactTimestampRoundTrip(t: DateTime)
    requires ValidDateTime(t)
    ensures ParseCompactTimestamp(CompactTimestamp(t)) == Some(t)
  {
    var s := CompactTimestamp(t);
    assert s[0..4] == Decimal(t.year, 4);
    assert s[4..6] == Decimal(t.month, 2);
    assert s[6..8] == Decimal(t.day, 2);
    assert s[9..11] == Decimal(t.hour, 2);
    assert s[11..13] == Decimal(t.minute, 2);
    assert s[13..15] == Decimal(t.second, 2);
    FieldsRoundTrip(t);
  }

  /** The log-line timestamp determines the instant it was printed from. */
  lemma LogTimestampRoundTrip(t: DateTime)
    requires ValidDateTime(t)
    ensures ParseLogTimestamp(LogTimestamp(t)) == Some(t)
  {
    var s := LogTimestamp(t);
    assert s[0..4] == Decimal(t.year, 4);
    assert s[5..7] == Decimal(t.month, 2);
    assert s[8..10] == Decimal(t.day, 2);
    assert s[11..13] == Decimal(t.hour, 2);
    assert s[14..16] == Decimal(t.minute, 2);
    assert s[17..19] == Decimal(t.second, 2);
    FieldsRoundTrip(t);
  }

  /** `generate_filename(prefix, extension)` at instant `now`:
      `prefix_YYYYmmdd_HHMMSS.extension`. */
  function GenerateFilename(prefix: string, extension: string, now: DateTime): string
    requires ValidDateTime(now)
  {
    prefix + "_" + CompactTimestamp(now) + "." + extension
  }

  /** A generated name starts with `prefix_`, ends with `.extension`, is 17
      characters longer than prefix and extension together, and cutting
      both off leaves a timestamp that reads back as the instant. */
  lemma GenerateFilenameSpec(prefix: string, extension: string, now: DateTime)
    requires ValidDateTime(now)
    ensures var name := GenerateFilename(prefix, extension, now);
      && |name| == |prefix| + |extension| + 17
      && name[..|prefix| + 1] == prefix + "_"
      && name[|name| - |extension| - 1..] == "." + extension
      && ParseCompactTimestamp(name[|prefix| + 1..|name| - |extension| - 1]) == Some(now)
  {
    CompactTimestampRoundTrip(now);
    var name := GenerateFilename(prefix, extension, now);
    assert name[|prefix| + 1..|name| - |extension| - 1] == CompactTimestamp(now);
  }

  /** Two files generated at instants that differ to the second get
      different names.  DateTime stops at seconds: `datetime.now()` also has
      microseconds, which the `%S` layout drops, so two calls within one
      second get the same name. */
  lemma FilenamesDifferAcrossSeconds(prefix: string, extension: string, t1: DateTime, t2: DateTime)
    requires ValidDateTime(t1) && ValidDateTime(t2)
    requires t1 != t2
    ensures GenerateFilename(prefix, extension, t1) != GenerateFilename(prefix, extension, t2)
  {
    GenerateFilenameSpec(prefix, extension, t1);
    GenerateFilenameSpec(prefix, extension, t2);
  }

  /** `t` occurs in `s` starting at index `i`. */
  predicate OccursAt(s: string, t: string, i: nat) {
    i + |t| <= |s| && s[i..i + |t|] == t
  }

  /** `t` occurs somewhere inside `s`, as Python's `t in s`. */
  predicate Contains(s: string, t: string) {
    exists i: nat | i <= |s| :: OccursAt(s, t, i)
  }

  /** The line `log_error` builds from a rendered timestamp `ts`:
      `[<ts>] ERROR: <error>`, followed by ` (Context: <context>)` when the
      context is non-empty (a non-empty string is truthy in Python). */
  function LogMessage(ts: string, error: string, context: string): string {
    var base := "[" + ts + "] ERROR: " + error;
    if context != "" then base + " (Context: " + context + ")" else base
  }

  /** Where the parts sit in a log line, and that the error text (and a
      non-empty context) can be found in it. */
  lemma LogMessageShape(ts: string, error: string, context: string)
    ensures var m := LogMessage(ts, error, context);
      && |m| == |ts| + 10 + |error| + (if context == "" then 0 else |context| + 12)
      && m[..|ts| + 10] == "[" + ts + "] ERROR: "
      && m[|ts| + 10..|ts| + 10 + |error|] == error
      && (context != "" ==> m[|ts| + 10 + |error|..] == " (Context: " + context + ")")
      && Contains(m, error)
      && (context != "" ==> Contains(m, context))
  {
    var m := LogMessage(ts, error, context);
    assert OccursAt(m, error, |ts| + 10);
    assert context != "" ==> OccursAt(m, context, |ts| + 10 + |error| + 11);
  }

  /** What `log_error` leaves behind: the lines printed so far and the
      message it returned. */
  datatype Logged = Logged(console: seq<string>, message: string)

  /** `log_error(error, context)` at instant `now`, where `error` is the
      already-rendered `str(error)`: the message carries the 19-character
      `YYYY-mm-dd HH:MM:SS` stamp, and is printed (appended to the console)
      and returned unchanged. */
  function LogError(console: seq<string>, error: string, context: string := "", now: DateTime): (r: Logged)
    requires ValidDateTime(now)
    ensures r.console == console + [r.message]
    ensures |r.message| == 29 + |error| + (if context == "" then 0 else |context| + 12)
    ensures r.message[..29] == "[" + LogTimestamp(now) + "] ERROR: "
    ensures ParseLogTimestamp(r.message[1..20]) == Some(now)
    ensures r.message[29..29 + |error|] == error
    ensures context != "" ==> r.message[29 + |error|..] == " (Context: " + context + ")"
    ensures Contains(r.message, error)
    ensures context != "" ==> Contains(r.message, context)
  {
    var message := LogMessage(LogTimestamp(now), error, context);
    LogMessageShape(LogTimestamp(now), error, context);
    LogTimestampRoundTrip(now);
    assert message[1..20] == message[..29][1..20] == LogTimestamp(now);
    Logged(console + [message], message)
  }

  /** The returned message is never the bare error text: the timestamp
      prefix is always there. */
  lemma LogErrorAlwaysStamped(console: seq<string>, error: string, context: string, now: DateTime)
    requires ValidDateTime(now)
    ensures LogError(console, error, context, now).message != error
    ensures |LogError(console, error, context, now).message| > |error|
  {
  }

  /** Without a context (the default), the line is exactly the stamp, the
      marker and the error text. */
  lemma LogErrorWithoutContext(console: seq<string>, error: string, now: DateTime)
    requires ValidDateTime(now)
    ensures LogError(console, error, now := now).message == "[" + LogTimestamp(now) + "] ERROR: " + error
  {
  }
}
