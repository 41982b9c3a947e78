/**
 * The countdown to a target's deadline: a `HH:MM` string read the way
 * `split(':')` and `parseInt` read it, put on today's clock, moved to tomorrow
 * when that moment has passed, and shown as whole hours and minutes.
 *
 * Time is milliseconds since local midnight; the calendar, time zones and
 * daylight-saving changes are not modelled.
 */
module Clock {
  import opened Options

  const MS_PER_SECOND := 1000
  const MS_PER_MINUTE := 60000
  const MS_PER_HOUR := 3600000
  const MS_PER_DAY := 86400000

  /** The current time of day, in milliseconds since midnight. */
  type TimeOfDay = n: int | 0 <= n < 86400000

  predicate IsDigit(c: char) {
    '0' <= c <= '9'
  }

  /** The run of decimal digits `s` starts with. */
  function DigitPrefix(s: string): (d: string)
    ensures |d| <= |s| && d == s[..|d|]
    ensures forall k :: 0 <= k < |d| ==> IsDigit(d[k])
    ensures |d| < |s| ==> !IsDigit(s[|d|])
  {
    if s != [] && IsDigit(s[0]) then [s[0]] + DigitPrefix(s[1..]) else []
  }

  /** Ten to the power `k`. */
  function Pow10(k: nat): (p: nat)
    ensures p >= 1
  {
    if k == 0 then 1 else 10 * Pow10(k - 1)
  }

  /** The number a string of decimal digits denotes: `k` digits stay below `10^k`. */
  function DigitsValue(d: string): (n: nat)
    requires forall k :: 0 <= k < |d| ==> IsDigit(d[k])
    ensures n < Pow10(|d|)
  {
    if d == [] then 0 else 10 * DigitsValue(d[..|d| - 1]) + DigitValue(d[|d| - 1])
  }

  function DigitValue(c: char): (n: nat)
    requires IsDigit(c)
    ensures n <= 9
  {
    c as int - '0' as int
  }

  /**
   * `parseInt(piece)` for a piece that begins with a digit: the value of its
   * leading digits, ignoring what follows; `None` (NaN) when there is no piece or
   * it does not begin with a digit.
   */
  function ParseInt(piece: Option<string>): (r: Option<nat>)
    ensures r.Some? <==> piece.Some? && piece.value != [] && IsDigit(piece.value[0])
  {
    if piece.Some? && piece.value != [] && IsDigit(piece.value[0])
    then Some(DigitsValue(DigitPrefix(piece.value)))
    else None
  }

  /** The text up to the first `:` (all of `s` without one): `s.split(':')[0]`. */
  function Field(s: string): (f: string)
    ensures |f| <= |s| && f == s[..|f|]
    ensures ':' !in f
    ensures |f| < |s| ==> s[|f|] == ':'
  {
    if s == [] || s[0] == ':' then [] else [s[0]] + Field(s[1..])
  }

  /** `s.split(':')[1]`: the second field, absent when `s` has no `:`. */
  function SecondField(s: string): (f: Option<string>)
    ensures f.None? <==> ':' !in s
    ensures f.Some? ==> ':' !in f.value && Field(s) + [':'] + f.value <= s
  {
    var first := Field(s);
    if |first| < |s| then Some(Field(s[|first| + 1..])) else None
  }

  /** `const [hours, minutes] = time.split(':')`, each through `parseInt`. */
  function ParseHourMinute(time: string): (r: Option<(nat, nat)>)
    ensures r.Some? ==> ':' in time
  {
    var hours := ParseInt(Some(Field(time)));
    var minutes := ParseInt(SecondField(time));
    if hours.Some? && minutes.Some? then Some((hours.value, minutes.value)) else None
  }

  /** Two-digit clock fields parse to their values. */
  lemma ParseClockFace(h1: char, h2: char, m1: char, m2: char)
    requires IsDigit(h1) && IsDigit(h2) && IsDigit(m1) && IsDigit(m2)
    ensures ParseHourMinute([h1, h2, ':', m1, m2])
      == Some((10 * DigitValue(h1) + DigitValue(h2), 10 * DigitValue(m1) + DigitValue(m2)))
  {
    var time := [h1, h2, ':', m1, m2];
    TwoDigitField(h1, h2, time[2..]);
    assert time == [h1, h2] + time[2..];
    assert time[3..] == [m1, m2] + [];
    TwoDigitField(m1, m2, []);
  }

  /** Two digits followed by nothing or by a `:` form one field worth their value. */
  lemma TwoDigitField(a: char, b: char, rest: string)
    requires IsDigit(a) && IsDigit(b) && (rest == [] || rest[0] == ':')
    ensures Field([a, b] + rest) == [a, b]
    ensures DigitPrefix([a, b]) == [a, b]
    ensures DigitsValue([a, b]) == 10 * DigitValue(a) + DigitValue(b)
  {
    var s := [a, b] + rest;
    assert s[1..] == [b] + rest;
    assert ([b] + rest)[1..] == rest;
    assert Field(rest) == [];
    assert [a, b][1..] == [b] && [b][1..] == [];
    assert [a, b][..1] == [a] && [a][..0] == [];
    assert DigitsValue([a]) == DigitValue(a);
  }

  /**
   * `deadline.setHours(hours, minutes, 0)` on a `Date` taken now: today at
   * `hours:minutes:00`, keeping the current millisecond, which `setHours` with
   * three arguments leaves alone. Hours and minutes past their range carry over.
   */
  function DeadlineToday(hours: nat, minutes: nat, now: TimeOfDay): (d: int)
    ensures d / MS_PER_MINUTE == 60 * hours + minutes
    ensures d % MS_PER_MINUTE == now % MS_PER_SECOND
  {
    hours * MS_PER_HOUR + minutes * MS_PER_MINUTE + now % MS_PER_SECOND
  }

  /**
   * `deadline - now` after `if (deadline < now) deadline.setDate(deadline.getDate() + 1)`:
   * never negative, the deadline's distance moved on by one day at most, and under a
   * day when the fields are a valid clock time; it is then the one value in
   * `0..MS_PER_DAY-1` that lands on the deadline's time of day.
   */
  function MsUntil(hours: nat, minutes: nat, now: TimeOfDay): (d: int)
    ensures d >= 0
    ensures var gap := DeadlineToday(hours, minutes, now) - now;
      d == gap || d == gap + MS_PER_DAY
    ensures DeadlineToday(hours, minutes, now) >= now ==> d == DeadlineToday(hours, minutes, now) - now
    ensures hours <= 23 && minutes <= 59 ==> d < MS_PER_DAY
  {
    var deadline := DeadlineToday(hours, minutes, now);
    if deadline < now then deadline + MS_PER_DAY - now else deadline - now
  }

  /** What the countdown display shows. */
  datatype Countdown = NoTargets | Remaining(hours: int, minutes: int) | NotANumber

  /**
   * `Math.floor(diff / 3600000)` and `Math.floor((diff % 3600000) / 60000)` for a
   * non-negative `diff`: the whole hours and the whole minutes left over.
   */
  function HoursMinutes(diff: nat): (r: Countdown)
    ensures r.Remaining? && r.hours >= 0 && 0 <= r.minutes < 60
    ensures r.hours * MS_PER_HOUR + r.minutes * MS_PER_MINUTE <= diff
      < r.hours * MS_PER_HOUR + r.minutes * MS_PER_MINUTE + MS_PER_MINUTE
    ensures diff < MS_PER_DAY ==> r.hours < 24
  {
    Remaining(diff / MS_PER_HOUR, (diff % MS_PER_HOUR) / MS_PER_MINUTE)
  }

  /**
   * The countdown to a deadline written as `time`: NaN when it does not parse,
   * otherwise hours and minutes until its next occurrence; for a valid clock time
   * at most 23 hours and 59 minutes. The range limit of a `Date` is not modelled.
   */
  function CountdownTo(time: string, now: TimeOfDay): (r: Countdown)
    ensures r.NotANumber? <==> ParseHourMinute(time).None?
    ensures r.Remaining? ==> r.hours >= 0 && 0 <= r.minutes < 60
    ensures match ParseHourMinute(time)
      case Some((h, m)) => h <= 23 && m <= 59 ==> r.Remaining? && r.hours < 24
      case None => true
  {
    match ParseHourMinute(time)
    case None => NotANumber
    case Some((h, m)) => HoursMinutes(MsUntil(h, m, now))
  }

  /** A deadline of 08:00 seen at 09:30 has passed, so 22 hours 30 minutes remain. */
  lemma PassedDeadlineRollsOver()
    ensures CountdownTo("08:00", 9 * MS_PER_HOUR + 30 * MS_PER_MINUTE) == Remaining(22, 30)
  {
    ParseClockFace('0', '8', '0', '0');
  }

  /** A deadline exactly now has not passed: nothing remains. */
  lemma DeadlineNowIsZero()
    ensures CountdownTo("09:30", 9 * MS_PER_HOUR + 30 * MS_PER_MINUTE) == Remaining(0, 0)
  {
    ParseClockFace('0', '9', '3', '0');
  }
}
