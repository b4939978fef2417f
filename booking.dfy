/**
 * The public booking page: the weekly date strip, the half-hour slot grid,
 * the occupancy map built from the store, and the four checks that decide
 * whether a slot may be chosen. Occupancy here is clinic-wide: the unit of a
 * reservation plays no part.
 */
module Booking {
  import opened Wrappers
  import opened Seqs
  import opened Clock
  import opened Supabase
  import opened Store

  const OpenHour: nat := 9
  const CloseHour: nat := 18
  const IntervalMinutes: nat := 30

  /** Weekdays on which the clinic is closed: Sunday only. */
  const ClosedDays: seq<nat> := [0]

  const SlotCount: nat := ((CloseHour - OpenHour) * 60) / IntervalMinutes

  /** Start of the `i`-th slot: `businessHours.start * 60 + i * businessHours.interval`. */
  function SlotMinute(i: nat): Minute
    requires i < SlotCount
  {
    OpenHour * 60 + i * IntervalMinutes
  }

  /** The slot labels the page offers, `HH:MM`. */
  function TimeSlots(): seq<string> {
    seq(SlotCount, i requires 0 <= i < SlotCount => TimeLabel(SlotMinute(i)))
  }

  /**
   * There are 18 slots, from 09:00 to 17:30, 30 minutes apart; each label reads
   * back as the hours and minutes it was built from.
   */
  lemma TimeSlotsShape()
    ensures SlotCount == 18 && |TimeSlots()| == 18
    ensures TimeSlots()[0] == "09:00" && TimeSlots()[17] == "17:30"
    ensures forall i :: 0 <= i < SlotCount ==> TimeSlots()[i] == TimeLabel(SlotMinute(i))
    ensures forall i :: 0 <= i < SlotCount - 1 ==> SlotMinute(i + 1) == SlotMinute(i) + 30
    ensures forall i, j :: 0 <= i < j < SlotCount ==> SlotMinute(i) < SlotMinute(j)
    ensures forall i :: 0 <= i < SlotCount ==>
      ParseTime(TimeSlots()[i]) == Some((SlotMinute(i) / 60, SlotMinute(i) % 60))
  {
    forall i | 0 <= i < SlotCount
      ensures ParseTime(TimeSlots()[i]) == Some((SlotMinute(i) / 60, SlotMinute(i) % 60))
    {
      ParseTimeLabel(SlotMinute(i));
    }
  }

  /** The seven dates shown for the week that starts on `weekStart`. */
  function WeekDates(weekStart: Day): (r: seq<Day>)
    ensures |r| == 7
    ensures forall i :: 0 <= i < 7 ==> r[i] == weekStart + i
  {
    seq(7, i => weekStart + i)
  }

  /** The occupancy query: rows dated within [weekStart, weekStart + 6] whose status is not `cancelled`. */
  function WeekQuery(rows: seq<Reservation>, weekStart: Day): seq<Reservation> {
    Filter(rows, LiveInWeek(weekStart))
  }

  /** `.gte('reservation_date', start).lte('reservation_date', end).neq('status', 'cancelled')`. */
  function LiveInWeek(weekStart: Day): Reservation -> bool {
    (r: Reservation) => weekStart <= r.date <= weekStart + 6 && r.status != Cancelled
  }

  /** The queried range covers exactly the dates the week strip shows. */
  lemma WeekQueryCoversWeek(weekStart: Day, d: Day)
    ensures (weekStart <= d <= weekStart + 6) <==> d in WeekDates(weekStart)
  {
    if weekStart <= d <= weekStart + 6 {
      assert WeekDates(weekStart)[d - weekStart] == d;
    }
  }

  /** The `HH:MM` start labels of the rows dated `d`, in row order. */
  function TimesOn(rows: seq<Reservation>, d: Day): seq<string> {
    if rows == [] then []
    else
      var last := rows[|rows| - 1];
      TimesOn(rows[..|rows| - 1], d) + (if last.date == d then [TimeLabel(last.startTime)] else [])
  }

  lemma {:induction false} TimesOnMem(rows: seq<Reservation>, d: Day, lbl: string)
    ensures lbl in TimesOn(rows, d) <==>
      exists k :: 0 <= k < |rows| && rows[k].date == d && TimeLabel(rows[k].startTime) == lbl
    decreases |rows|
  {
    if rows != [] {
      var init := rows[..|rows| - 1];
      TimesOnMem(init, d, lbl);
      assert forall k :: 0 <= k < |init| ==> init[k] == rows[k];
    }
  }

  /** The dates that have at least one row. */
  function DatesOf(rows: seq<Reservation>): set<Day> {
    set k | 0 <= k < |rows| :: rows[k].date
  }

  /** The occupancy map the page keeps: each date with a row maps to its start labels. */
  function ReservedMap(rows: seq<Reservation>): map<Day, seq<string>> {
    map d | d in DatesOf(rows) :: TimesOn(rows, d)
  }

  /** The `forEach` over the fetched rows that pushes each start label into its date's list. */
  method CollectReservedSlots(rows: seq<Reservation>) returns (slots: map<Day, seq<string>>)
    ensures slots.Keys == DatesOf(rows)
    ensures forall d :: d in slots ==> slots[d] == TimesOn(rows, d)
  {
    slots := map[];
    var i := 0;
    while i < |rows|
      invariant 0 <= i <= |rows|
      invariant slots.Keys == DatesOf(rows[..i])
      invariant forall d :: d in slots ==> slots[d] == TimesOn(rows[..i], d)
    {
      var r := rows[i];
      assert rows[..i + 1][..i] == rows[..i];
      assert DatesOf(rows[..i + 1]) == DatesOf(rows[..i]) + {r.date} by {
        assert forall k :: 0 <= k < i ==> rows[..i + 1][k] == rows[..i][k];
        assert rows[..i + 1][i] == r;
      }
      if r.date !in slots {
        assert TimesOn(rows[..i], r.date) == [] by {
          TimesOnEmpty(rows[..i], r.date);
        }
        slots := slots[r.date := []];
      }
      slots := slots[r.date := slots[r.date] + [TimeLabel(r.startTime)]];
      i := i + 1;
    }
    assert rows[..i] == rows;
  }

  lemma {:induction false} TimesOnEmpty(rows: seq<Reservation>, d: Day)
    requires d !in DatesOf(rows)
    ensures TimesOn(rows, d) == []
    decreases |rows|
  {
    if rows != [] {
      var init := rows[..|rows| - 1];
      assert forall k :: 0 <= k < |init| ==> init[k] == rows[k];
      assert rows[|rows| - 1].date in DatesOf(rows);
      assert DatesOf(init) <= DatesOf(rows);
      TimesOnEmpty(init, d);
    }
  }

  /** `time.split(':')` read back and placed on `date` lies strictly before now. */
  predicate PastTimeToday(now: Instant, date: Day, time: string) {
    match ParseTime(time)
    case Some((h, m)) => IsBefore(At(date, h, m), now)
    case None => false
  }

  /** `reservedSlots[dateStr] || []`. */
  function ReservedOn(reserved: map<Day, seq<string>>, date: Day): seq<string> {
    if date in reserved then reserved[date] else []
  }

  /** `isSlotAvailable`: closed weekday, past date, past time today, then occupied, in that order. */
  predicate IsSlotAvailable(now: Instant, reserved: map<Day, seq<string>>, date: Day, time: string) {
    if Weekday(date) in ClosedDays then false
    else if IsBefore(Midnight(date), now) && !IsToday(date, now) then false
    else if IsToday(date, now) && PastTimeToday(now, date, time) then false
    else if time in ReservedOn(reserved, date) then false
    else true
  }

  /** A date button is enabled when the date is neither a closed weekday nor in the past. */
  predicate DateSelectable(now: Instant, date: Day) {
    Weekday(date) !in ClosedDays && !(IsBefore(Midnight(date), now) && !IsToday(date, now))
  }

  /** A date counts as past exactly when it lies before today. */
  lemma PastDateIff(now: Instant, date: Day)
    ensures (IsBefore(Midnight(date), now) && !IsToday(date, now)) <==> date < TodayOf(now)
  {
    var today := TodayOf(now);
    TodayBounds(now);
    if date < today {
      assert Midnight(date) <= Midnight(today) - DayMs;
    } else if date > today {
      assert Midnight(date) >= Midnight(today) + DayMs;
    }
  }

  /**
   * A slot is available exactly when the date is not a Sunday, not before
   * today, the slot does not start strictly before now when the date is today,
   * and no occupying label for that date equals the slot's. A slot starting
   * exactly at now stays available.
   */
  lemma SlotAvailableIff(now: Instant, reserved: map<Day, seq<string>>, date: Day, t: Minute)
    ensures IsSlotAvailable(now, reserved, date, TimeLabel(t)) <==>
      && Weekday(date) != Sunday
      && TodayOf(now) <= date
      && !(date == TodayOf(now) && Midnight(date) + t * MinuteMs < now)
      && TimeLabel(t) !in ReservedOn(reserved, date)
  {
    PastDateIff(now, date);
    ParseTimeLabel(t);
    assert (t / 60 * 60 + t % 60) == t;
  }

  /** Every slot on a closed weekday is unavailable, whatever the reservations. */
  lemma ClosedDayUnavailable(now: Instant, reserved: map<Day, seq<string>>, date: Day, time: string)
    requires Weekday(date) == Sunday
    ensures !IsSlotAvailable(now, reserved, date, time)
  {
  }

  /** An available slot always sits on a selectable date. */
  lemma AvailableImpliesSelectable(now: Instant, reserved: map<Day, seq<string>>, date: Day, time: string)
    requires IsSlotAvailable(now, reserved, date, time)
    ensures DateSelectable(now, date)
  {
  }

  /**
   * Availability read against the store: for a date in the fetched week, a
   * slot is free exactly when the checks on the clock pass and no
   * non-cancelled reservation of the store, whatever its unit, starts at that
   * date and time.
   */
  lemma AvailableAgainstStore(now: Instant, rows: seq<Reservation>, weekStart: Day, date: Day, t: Minute)
    requires weekStart <= date <= weekStart + 6
    ensures IsSlotAvailable(now, ReservedMap(WeekQuery(rows, weekStart)), date, TimeLabel(t)) <==>
      && Weekday(date) != Sunday
      && TodayOf(now) <= date
      && !(date == TodayOf(now) && Midnight(date) + t * MinuteMs < now)
      && !(exists r :: r in rows && r.status != Cancelled && r.date == date && r.startTime == t)
  {
    var q := WeekQuery(rows, weekStart);
    var reserved := ReservedMap(q);
    SlotAvailableIff(now, reserved, date, t);
    OccupiedIff(rows, weekStart, date, t);
  }

  /** The slot's label is among the date's occupied labels exactly when a live reservation starts then. */
  lemma OccupiedIff(rows: seq<Reservation>, weekStart: Day, date: Day, t: Minute)
    requires weekStart <= date <= weekStart + 6
    ensures TimeLabel(t) in ReservedOn(ReservedMap(WeekQuery(rows, weekStart)), date) <==>
      exists r :: r in rows && r.status != Cancelled && r.date == date && r.startTime == t
  {
    var q := WeekQuery(rows, weekStart);
    TimesOnMem(q, date, TimeLabel(t));
    if date !in DatesOf(q) {
      TimesOnEmpty(q, date);
    }
    if exists r :: r in rows && r.status != Cancelled && r.date == date && r.startTime == t {
      var r :| r in rows && r.status != Cancelled && r.date == date && r.startTime == t;
      assert r in q;
      var k :| 0 <= k < |q| && q[k] == r;
      assert date in DatesOf(q);
    }
    if TimeLabel(t) in ReservedOn(ReservedMap(q), date) {
      var k :| 0 <= k < |q| && q[k].date == date && TimeLabel(q[k].startTime) == TimeLabel(t);
      TimeLabelInjective(q[k].startTime, t);
      assert q[k] in q;
    }
  }

  /** Adding a cancelled reservation never changes what the page considers occupied. */
  lemma CancelledNeverOccupies(rows: seq<Reservation>, c: Reservation, weekStart: Day)
    requires c.status == Cancelled
    ensures ReservedMap(WeekQuery(rows + [c], weekStart)) == ReservedMap(WeekQuery(rows, weekStart))
  {
    FilterAppend(rows, [c], LiveInWeek(weekStart));
    assert WeekQuery(rows + [c], weekStart) == WeekQuery(rows, weekStart);
  }

  /** The page state: the shown week, the selection, and the last fetched occupancy. */
  class BookingPage {
    var currentWeekStart: Day
    var selectedDate: Option<Day>
    var selectedTime: Option<string>
    var reservedSlots: map<Day, seq<string>>
    var loading: bool

    /** The week always starts on a Sunday, and a time is only ever chosen under a chosen date. */
    ghost predicate Valid()
      reads this
    {
      Weekday(currentWeekStart) == Sunday && (selectedTime.Some? ==> selectedDate.Some?)
    }

    constructor (now: Instant)
      ensures Valid()
      ensures currentWeekStart == WeekStart(TodayOf(now)) && currentWeekStart <= TodayOf(now) < currentWeekStart + 7
      ensures selectedDate == None && selectedTime == None && reservedSlots == map[] && loading
    {
      currentWeekStart := WeekStart(TodayOf(now));
      selectedDate, selectedTime := None, None;
      reservedSlots := map[];
      loading := true;
    }

    /** `fetchReservedSlots`: on success the map is rebuilt from the week's rows; on error it is kept. */
    method FetchReservedSlots(store: ClinicStore, fail: bool)
      requires Valid()
      modifies this
      ensures Valid() && !loading
      ensures currentWeekStart == old(currentWeekStart)
      ensures selectedDate == old(selectedDate) && selectedTime == old(selectedTime)
      ensures reservedSlots == if fail then old(reservedSlots)
                               else ReservedMap(WeekQuery(store.reservations, currentWeekStart))
    {
      loading := true;
      if !fail {
        var rows := WeekQuery(store.reservations, currentWeekStart);
        var slots := CollectReservedSlots(rows);
        reservedSlots := slots;
      }
      loading := false;
    }

    /** `handleDateSelect`: choose the date and clear the chosen time. */
    method HandleDateSelect(date: Day)
      requires Valid()
      modifies this
      ensures Valid()
      ensures selectedDate == Some(date) && selectedTime == None
      ensures currentWeekStart == old(currentWeekStart) && reservedSlots == old(reservedSlots) && loading == old(loading)
    {
      selectedDate := Some(date);
      selectedTime := None;
    }

    /** A click on a date button: disabled buttons do nothing. */
    method ClickDate(now: Instant, date: Day)
      requires Valid()
      modifies this
      ensures Valid()
      ensures currentWeekStart == old(currentWeekStart) && reservedSlots == old(reservedSlots) && loading == old(loading)
      ensures DateSelectable(now, date) ==> selectedDate == Some(date) && selectedTime == None
      ensures !DateSelectable(now, date) ==> selectedDate == old(selectedDate) && selectedTime == old(selectedTime)
    {
      if DateSelectable(now, date) {
        HandleDateSelect(date);
      }
    }

    /** A click on a time button (shown only under a chosen date): unavailable slots do nothing. */
    method ClickTime(now: Instant, time: string)
      requires Valid()
      modifies this
      ensures Valid()
      ensures currentWeekStart == old(currentWeekStart) && reservedSlots == old(reservedSlots) && loading == old(loading)
      ensures selectedDate == old(selectedDate)
      ensures selectedTime == if selectedDate.Some? && IsSlotAvailable(now, reservedSlots, selectedDate.value, time)
                              then Some(time) else old(selectedTime)
    {
      if selectedDate.Some? && IsSlotAvailable(now, reservedSlots, selectedDate.value, time) {
        selectedTime := Some(time);
      }
    }

    /**
     * `handlePrevWeek`: back exactly seven days, clearing date and time; the effect
     * on `currentWeekStart` then reloads the map for the new week.
     */
    method HandlePrevWeek(store: ClinicStore, fail: bool)
      requires Valid()
      modifies this
      ensures Valid() && !loading
      ensures currentWeekStart == old(currentWeekStart) - 7
      ensures selectedDate == None && selectedTime == None
      ensures reservedSlots == if fail then old(reservedSlots)
                               else ReservedMap(WeekQuery(store.reservations, currentWeekStart))
    {
      WeekdayShift(currentWeekStart, -1);
      currentWeekStart := currentWeekStart - 7;
      selectedDate, selectedTime := None, None;
      FetchReservedSlots(store, fail);
    }

    /**
     * `handleNextWeek`: forward exactly seven days, clearing date and time; the effect
     * on `currentWeekStart` then reloads the map for the new week.
     */
    method HandleNextWeek(store: ClinicStore, fail: bool)
      requires Valid()
      modifies this
      ensures Valid() && !loading
      ensures currentWeekStart == old(currentWeekStart) + 7
      ensures selectedDate == None && selectedTime == None
      ensures reservedSlots == if fail then old(reservedSlots)
                               else ReservedMap(WeekQuery(store.reservations, currentWeekStart))
    {
      WeekdayShift(currentWeekStart, 1);
      currentWeekStart := currentWeekStart + 7;
      selectedDate, selectedTime := None, None;
      FetchReservedSlots(store, fail);
    }

    /** The "next" link to the patient form, present only when both a date and a time are chosen. */
    function NextLink(): (link: Option<(Day, string)>)
      reads this
      ensures link.Some? <==> selectedDate.Some? && selectedTime.Some?
      ensures link.Some? ==> link.value == (selectedDate.value, selectedTime.value)
    {
      if selectedDate.Some? && selectedTime.Some? then Some((selectedDate.value, selectedTime.value)) else None
    }
  }

  /**
   * Next week followed by previous week returns to the same week, with
   * nothing selected and, when the second reload succeeds, the map of that
   * week as the unchanged store gives it.
   */
  method NextThenPrevWeek(page: BookingPage, store: ClinicStore, fail: bool)
    requires page.Valid()
    modifies page
    ensures page.Valid()
    ensures page.currentWeekStart == old(page.currentWeekStart)
    ensures page.selectedDate == None && page.selectedTime == None
    ensures page.reservedSlots == ReservedMap(WeekQuery(store.reservations, old(page.currentWeekStart)))
  {
    page.HandleNextWeek(store, fail);
    page.HandlePrevWeek(store, false);
  }
}
