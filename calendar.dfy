/**
 * The admin calendar: a day view with one column per active unit and one row
 * per half hour from 09:00 to 18:30. A cell holds the day's live reservations
 * with that unit and that start time; unlike the public booking grid the
 * occupancy is per unit, and several reservations may share a cell.
 */
module AdminCalendar {
  import opened Wrappers
  import opened Seqs
  import opened Clock
  import opened Supabase
  import opened Store
  import Units

  const StartHour: nat := 9
  const EndHour: nat := 19

  const SlotCount: nat := (EndHour - StartHour) * 2

  /** Row `i`: hour `floor(i / 2) + startHour`, minute `(i % 2) * 30`. */
  function SlotMinute(i: nat): Minute
    requires i < SlotCount
  {
    (i / 2 + StartHour) * 60 + (i % 2) * 30
  }

  function TimeSlots(): seq<string> {
    seq(SlotCount, i requires 0 <= i < SlotCount => TimeLabel(SlotMinute(i)))
  }

  /** 20 rows from 09:00 to 18:30, 30 minutes apart. */
  lemma TimeSlotsShape()
    ensures SlotCount == 20 && |TimeSlots()| == 20
    ensures forall i :: 0 <= i < SlotCount ==> SlotMinute(i) == 540 + 30 * i
    ensures TimeSlots()[0] == "09:00" && TimeSlots()[19] == "18:30"
    ensures forall i, j :: 0 <= i < j < SlotCount ==> SlotMinute(i) < SlotMinute(j)
  {
    forall i | 0 <= i < SlotCount ensures SlotMinute(i) == 540 + 30 * i {
      assert i == 2 * (i / 2) + i % 2;
    }
  }

  function StartKey(r: Reservation): int { r.startTime }

  /** The day's rows: `.eq('reservation_date', d).neq('status', 'cancelled').order('start_time')`. */
  function DayQuery(rows: seq<Reservation>, d: Day): seq<Reservation> {
    SortBy(Filter(rows, LiveOn(d)), StartKey)
  }

  function LiveOn(d: Day): Reservation -> bool {
    (r: Reservation) => r.date == d && r.status != Cancelled
  }

  /** The loaded rows are exactly the store's live rows on the date, ordered by start time. */
  lemma DayQueryExact(rows: seq<Reservation>, d: Day)
    ensures SortedBy(DayQuery(rows, d), StartKey)
    ensures multiset(DayQuery(rows, d)) == multiset(Filter(rows, LiveOn(d)))
    ensures forall r :: r in DayQuery(rows, d) <==> r in rows && r.date == d && r.status != Cancelled
  {
    SortByMem(Filter(rows, LiveOn(d)), StartKey);
  }

  /** `getReservationsForSlot`: rows with this unit whose `HH:MM` start equals the row label, in loaded order. */
  function ForSlot(loaded: seq<Reservation>, unitId: Id, time: string): seq<Reservation> {
    Filter(loaded, InCell(unitId, time))
  }

  function InCell(unitId: Id, time: string): Reservation -> bool {
    (r: Reservation) => r.unitId == Some(unitId) && TimeLabel(r.startTime) == time
  }

  /**
   * A cell shows exactly the loaded rows whose unit is the column's and whose
   * start time is the row's, each as often as it was loaded and in loaded
   * order; a row with no unit is in no column.
   */
  lemma ForSlotExact(loaded: seq<Reservation>, unitId: Id, t: Minute, r: Reservation)
    ensures r in ForSlot(loaded, unitId, TimeLabel(t)) <==> r in loaded && r.unitId == Some(unitId) && r.startTime == t
    ensures r.unitId == None ==> r !in ForSlot(loaded, unitId, TimeLabel(t))
    ensures multiset(ForSlot(loaded, unitId, TimeLabel(t)))[r] ==
      if r.unitId == Some(unitId) && r.startTime == t then multiset(loaded)[r] else 0
    ensures IsSubsequence(ForSlot(loaded, unitId, TimeLabel(t)), loaded)
  {
    TimeLabelInjective(r.startTime, t);
    FilterMultiset(loaded, InCell(unitId, TimeLabel(t)), r);
    FilterSubsequence(loaded, InCell(unitId, TimeLabel(t)));
  }

  /** Double bookings are shown, not hidden: two distinct rows in one cell both appear. */
  lemma {:induction false} DoubleBookingShown(loaded: seq<Reservation>, unitId: Id, t: Minute, i: nat, j: nat)
    requires i < j < |loaded|
    requires loaded[i].unitId == Some(unitId) && loaded[i].startTime == t
    requires loaded[j].unitId == Some(unitId) && loaded[j].startTime == t
    ensures |ForSlot(loaded, unitId, TimeLabel(t))| >= 2
    decreases |loaded|
  {
    var p := InCell(unitId, TimeLabel(t));
    if i == 0 {
      assert loaded[1..][j - 1] == loaded[j];
      assert loaded[j] in Filter(loaded[1..], p);
    } else {
      DoubleBookingShown(loaded[1..], unitId, t, i - 1, j - 1);
    }
  }

  /** Where a click on a cell leads. */
  datatype CellLink = NewReservationAt(date: Day, time: string, unitId: Id)

  /** Only an empty cell opens the new-reservation form, carrying date, time and unit. */
  function CellClick(date: Day, time: string, unitId: Id, cell: seq<Reservation>): (link: Option<CellLink>)
    ensures link.Some? <==> cell == []
    ensures link.Some? ==> link.value == NewReservationAt(date, time, unitId)
  {
    if |cell| == 0 then Some(NewReservationAt(date, time, unitId)) else None
  }

  class CalendarPage {
    var reservations: seq<Reservation>
    var units: seq<Unit>
    var loading: bool
    var currentDate: Day

    constructor (now: Instant)
      ensures reservations == [] && units == [] && loading && currentDate == TodayOf(now)
    {
      reservations, units := [], [];
      loading := true;
      currentDate := TodayOf(now);
    }

    /** `fetchUnits`: the active units by number; on error the columns are kept. */
    method FetchUnits(store: ClinicStore, fail: bool)
      modifies this
      ensures units == if fail then old(units) else Units.ActiveByNumber(store.units)
      ensures reservations == old(reservations) && currentDate == old(currentDate) && loading == old(loading)
    {
      if !fail {
        units := Units.ActiveByNumber(store.units);
      }
    }

    /** `fetchReservations`: the current date's live rows; on error the previous rows stay. */
    method FetchReservations(store: ClinicStore, fail: bool)
      modifies this
      ensures reservations == if fail then old(reservations) else DayQuery(store.reservations, currentDate)
      ensures units == old(units) && currentDate == old(currentDate) && !loading
    {
      loading := true;
      if !fail {
        reservations := DayQuery(store.reservations, currentDate);
      }
      loading := false;
    }

    /**
     * The three date buttons change `currentDate`; the effect on it then
     * reloads the day's rows, and the unit columns stay.
     */
    method HandlePrevDay(store: ClinicStore, fail: bool)
      modifies this
      ensures currentDate == old(currentDate) - 1
      ensures reservations == if fail then old(reservations) else DayQuery(store.reservations, currentDate)
      ensures units == old(units) && !loading
    {
      currentDate := currentDate - 1;
      FetchReservations(store, fail);
    }

    method HandleNextDay(store: ClinicStore, fail: bool)
      modifies this
      ensures currentDate == old(currentDate) + 1
      ensures reservations == if fail then old(reservations) else DayQuery(store.reservations, currentDate)
      ensures units == old(units) && !loading
    {
      currentDate := currentDate + 1;
      FetchReservations(store, fail);
    }

    method HandleToday(store: ClinicStore, now: Instant, fail: bool)
      modifies this
      ensures currentDate == TodayOf(now)
      ensures reservations == if fail then old(reservations) else DayQuery(store.reservations, currentDate)
      ensures units == old(units) && !loading
    {
      currentDate := TodayOf(now);
      FetchReservations(store, fail);
    }

    /** The reservations a cell of the grid shows. */
    function Cell(unitId: Id, time: string): seq<Reservation>
      reads this
    {
      ForSlot(reservations, unitId, time)
    }
  }
}
