/**
 * Calendar arithmetic in place of JavaScript `Date` and date-fns: a date is a
 * day number, a time of day is a count of minutes since midnight, and an
 * instant ("now") is a count of milliseconds since the local epoch.
 */
module Clock {
  import opened Wrappers
  import Text

  /** Days since 1970-01-01 (a Thursday); negative days lie before it. */
  type Day = int

  /** Minutes since midnight: what the store's `start_time` column holds. */
  type Minute = m: nat | m < MinutesPerDay

  const MinutesPerDay: nat := 1440

  /** Milliseconds since local midnight of day 0: a point in time, such as "now". */
  type Instant = int

  const MinuteMs: nat := 60_000
  const DayMs: nat := 86_400_000

  /** `getDay()`: 0 is Sunday, 6 is Saturday. */
  function Weekday(d: Day): (w: nat)
    ensures w < 7
  {
    (d + 4) % 7
  }

  const Sunday: nat := 0

  /** The day an instant falls on (`format(now, 'yyyy-MM-dd')`). */
  function TodayOf(now: Instant): Day {
    now / DayMs
  }

  /** Local midnight at the start of day `d` (`new Date(dateStr + 'T00:00:00')`). */
  function Midnight(d: Day): Instant {
    d * DayMs
  }

  /** date-fns `isToday`. */
  predicate IsToday(d: Day, now: Instant) {
    d == TodayOf(now)
  }

  /** date-fns `isBefore`: strictly earlier. */
  predicate IsBefore(a: Instant, b: Instant) {
    a < b
  }

  lemma TodayBounds(now: Instant)
    ensures Midnight(TodayOf(now)) <= now < Midnight(TodayOf(now)) + DayMs
  {
  }

  /** date-fns `addDays`: moving `k` days keeps the weekday when `k` is a multiple of 7. */
  lemma WeekdayShift(d: Day, k: int)
    ensures Weekday(d + 7 * k) == Weekday(d)
  {
  }

  /** date-fns `startOfWeek(d, { weekStartsOn: 0 })`: the Sunday on or before `d`. */
  function WeekStart(d: Day): (s: Day)
    ensures Weekday(s) == Sunday
    ensures s <= d < s + 7
  {
    d - Weekday(d)
  }

  /** `HH:MM`, zero-padded, as the slot grids label their rows. */
  function TimeLabel(t: Minute): (s: string)
    ensures |s| == 5 && s[2] == ':'
  {
    Text.Pad2(t / 60) + ":" + Text.Pad2(t % 60)
  }

  /** `time.split(':').map(Number)` read as hours and minutes; None when either is NaN or missing. */
  function ParseTime(s: string): Option<(nat, nat)> {
    var parts := Text.Split(s, ':');
    if |parts| < 2 then None
    else
      match (Text.NumberOf(parts[0]), Text.NumberOf(parts[1]))
      case (Some(h), Some(m)) => Some((h, m))
      case _ => None
  }

  /** Converting a label back to numbers gives the hours and minutes it was built from. */
  lemma ParseTimeLabel(t: Minute)
    ensures ParseTime(TimeLabel(t)) == Some((t / 60, t % 60))
  {
    var h, m := Text.Pad2(t / 60), Text.Pad2(t % 60);
    assert ':' !in h && ':' !in m;
    Text.SplitAt(h, m, ':');
    Text.SplitNoSeparator(m, ':');
    assert TimeLabel(t) == h + [':'] + m;
    Text.NumberOfPad2(t / 60);
    Text.NumberOfPad2(t % 60);
  }

  /** Two different times never share a label, so comparing labels compares times. */
  lemma TimeLabelInjective(a: Minute, b: Minute)
    ensures TimeLabel(a) == TimeLabel(b) <==> a == b
  {
    if TimeLabel(a) == TimeLabel(b) {
      ParseTimeLabel(a);
      ParseTimeLabel(b);
    }
  }

  /** The instant `slotTime.setHours(h, m, 0, 0)` on day `d` (values past 23:59 roll over, as in `Date`). */
  function At(d: Day, h: nat, m: nat): Instant {
    Midnight(d) + (h * 60 + m) * MinuteMs
  }
}
