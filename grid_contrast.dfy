/**
 * The public booking grid and the staff calendar disagree on purpose: the
 * public grid stops at 17:30 and treats a slot as taken clinic-wide, while
 * the calendar runs to 18:30 and places each reservation in its own unit's
 * column only.
 */
module GridContrast {
  import opened Wrappers
  import opened Seqs
  import opened Clock
  import opened Supabase
  import opened Store
  import Booking
  import AdminCalendar

  /** The public grid is the calendar's first 18 rows; 18:00 and 18:30 exist for staff only. */
  lemma BookingGridIsCalendarPrefix()
    ensures Booking.TimeSlots() == AdminCalendar.TimeSlots()[..18]
    ensures "18:00" !in Booking.TimeSlots() && "18:30" !in Booking.TimeSlots()
    ensures "18:00" in AdminCalendar.TimeSlots() && "18:30" in AdminCalendar.TimeSlots()
  {
    Booking.TimeSlotsShape();
    AdminCalendar.TimeSlotsShape();
    forall i | 0 <= i < 18 ensures Booking.SlotMinute(i) == AdminCalendar.SlotMinute(i) {
    }
    assert AdminCalendar.TimeSlots()[18] == TimeLabel(1080) == "18:00";
    assert AdminCalendar.TimeSlots()[19] == TimeLabel(1110) == "18:30";
    forall i | 0 <= i < 18 ensures Booking.TimeSlots()[i] != "18:00" && Booking.TimeSlots()[i] != "18:30" {
      TimeLabelInjective(Booking.SlotMinute(i), 1080);
      TimeLabelInjective(Booking.SlotMinute(i), 1110);
    }
  }

  /**
   * A lone live reservation on unit `u` closes its slot on the public page for
   * everybody, yet in the calendar it sits in `u`'s column and every other
   * unit's cell at that time is empty, so staff may book it again there.
   */
  lemma OneUnitBlocksPublicSlot(rows: seq<Reservation>, r: Reservation, u: Id, v: Id, weekStart: Day)
    requires r in rows && r.status != Cancelled && r.unitId == Some(u) && u != v
    requires weekStart <= r.date <= weekStart + 6
    requires forall x :: x in rows && x.status != Cancelled && x.date == r.date && x.startTime == r.startTime ==> x == r
    ensures TimeLabel(r.startTime) in Booking.ReservedOn(Booking.ReservedMap(Booking.WeekQuery(rows, weekStart)), r.date)
    ensures forall x :: x in AdminCalendar.ForSlot(AdminCalendar.DayQuery(rows, r.date), u, TimeLabel(r.startTime)) <==> x == r
    ensures ReservationIdsDistinct(rows) ==>
      AdminCalendar.ForSlot(AdminCalendar.DayQuery(rows, r.date), u, TimeLabel(r.startTime)) == [r]
    ensures AdminCalendar.ForSlot(AdminCalendar.DayQuery(rows, r.date), v, TimeLabel(r.startTime)) == []
  {
    Booking.OccupiedIff(rows, weekStart, r.date, r.startTime);
    AdminCalendar.DayQueryExact(rows, r.date);
    CellOfOwnUnit(AdminCalendar.DayQuery(rows, r.date), r, u);
    CellOfOtherUnit(AdminCalendar.DayQuery(rows, r.date), r, v);
    if ReservationIdsDistinct(rows) {
      var loaded := AdminCalendar.DayQuery(rows, r.date);
      var cell := AdminCalendar.ForSlot(loaded, u, TimeLabel(r.startTime));
      DistinctIdsOnce(rows, r);
      FilterMultiset(rows, AdminCalendar.LiveOn(r.date), r);
      AdminCalendar.ForSlotExact(loaded, u, r.startTime, r);
      OnlyElement(cell, r);
    }
  }

  /** With distinct ids, a row occurs once. */
  lemma {:induction false} DistinctIdsOnce(rows: seq<Reservation>, r: Reservation)
    requires ReservationIdsDistinct(rows) && r in rows
    ensures multiset(rows)[r] == 1
    decreases |rows|
  {
    assert rows == [rows[0]] + rows[1..];
    if rows[0] == r {
      assert r !in rows[1..] by {
        forall k | 0 <= k < |rows[1..]| ensures rows[1..][k] != r {
          assert rows[1..][k] == rows[k + 1];
        }
      }
    } else {
      DistinctIdsOnce(rows[1..], r);
    }
  }

  /** A sequence holding only `r`, and `r` once, is `[r]`. */
  lemma OnlyElement(s: seq<Reservation>, r: Reservation)
    requires forall x :: x in s <==> x == r
    requires multiset(s)[r] == 1
    ensures s == [r]
  {
    assert multiset(s) == multiset{r} by {
      forall x ensures multiset(s)[x] == multiset{r}[x] {
        if x != r {
          assert x !in s;
        }
      }
    }
    assert |s| == |multiset(s)| == 1;
    assert s[0] in s;
  }

  lemma CellOfOwnUnit(loaded: seq<Reservation>, r: Reservation, u: Id)
    requires r in loaded && r.unitId == Some(u)
    requires forall x :: x in loaded && x.startTime == r.startTime ==> x == r
    ensures forall x :: x in AdminCalendar.ForSlot(loaded, u, TimeLabel(r.startTime)) <==> x == r
  {
    forall x ensures x in AdminCalendar.ForSlot(loaded, u, TimeLabel(r.startTime)) <==> x == r {
      AdminCalendar.ForSlotExact(loaded, u, r.startTime, x);
    }
  }

  lemma CellOfOtherUnit(loaded: seq<Reservation>, r: Reservation, v: Id)
    requires r.unitId != Some(v)
    requires forall x :: x in loaded && x.startTime == r.startTime ==> x == r
    ensures AdminCalendar.ForSlot(loaded, v, TimeLabel(r.startTime)) == []
  {
    var cell := AdminCalendar.ForSlot(loaded, v, TimeLabel(r.startTime));
    if cell != [] {
      AdminCalendar.ForSlotExact(loaded, v, r.startTime, cell[0]);
    }
  }
}
