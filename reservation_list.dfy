/**
 * The staff reservation list: rows between two dates (both inclusive),
 * optionally of one status, ordered by date and then start time.
 */
module ReservationList {
  import opened Seqs
  import opened Clock
  import opened Supabase
  import opened Store

  /** The status drop-down: "all" or one status. */
  datatype StatusFilter = All | Only(status: Status)

  predicate Admits(f: StatusFilter, s: Status) {
    f.All? || f.status == s
  }

  /** `.order('reservation_date').order('start_time')` as one key: start times are below a day's minutes. */
  function DateTimeKey(r: Reservation): int { r.date * MinutesPerDay + r.startTime }

  function InListing(from: Day, to: Day, f: StatusFilter): Reservation -> bool {
    (r: Reservation) => from <= r.date <= to && Admits(f, r.status)
  }

  /** `fetchReservations`' query. */
  function ListQuery(rows: seq<Reservation>, from: Day, to: Day, f: StatusFilter): seq<Reservation> {
    SortBy(Filter(rows, InListing(from, to, f)), DateTimeKey)
  }

  /** The listing holds exactly the store rows in the range admitted by the filter, each as often as in the store. */
  lemma ListQueryExact(rows: seq<Reservation>, from: Day, to: Day, f: StatusFilter)
    ensures forall r :: r in ListQuery(rows, from, to, f) <==> r in rows && from <= r.date <= to && Admits(f, r.status)
    ensures forall r :: multiset(ListQuery(rows, from, to, f))[r] == if from <= r.date <= to && Admits(f, r.status) then multiset(rows)[r] else 0
  {
    SortByMem(Filter(rows, InListing(from, to, f)), DateTimeKey);
    forall r ensures multiset(ListQuery(rows, from, to, f))[r] == if from <= r.date <= to && Admits(f, r.status) then multiset(rows)[r] else 0 {
      FilterMultiset(rows, InListing(from, to, f), r);
    }
  }

  /** Sorting by the combined key is the lexicographic order on (date, start time). */
  lemma KeyIsLexicographic(a: Reservation, b: Reservation)
    ensures DateTimeKey(a) <= DateTimeKey(b) <==> a.date < b.date || (a.date == b.date && a.startTime <= b.startTime)
  {
    if a.date < b.date {
      assert a.date * MinutesPerDay + MinutesPerDay <= b.date * MinutesPerDay;
    } else if a.date > b.date {
      assert b.date * MinutesPerDay + MinutesPerDay <= a.date * MinutesPerDay;
    }
  }

  /** Earlier rows of the listing are on an earlier date, or on the same date at an earlier or equal start. */
  lemma ListQueryOrdered(rows: seq<Reservation>, from: Day, to: Day, f: StatusFilter, i: nat, j: nat)
    requires i <= j < |ListQuery(rows, from, to, f)|
    ensures var l := ListQuery(rows, from, to, f);
      l[i].date < l[j].date || (l[i].date == l[j].date && l[i].startTime <= l[j].startTime)
  {
    var l := ListQuery(rows, from, to, f);
    KeyIsLexicographic(l[i], l[j]);
  }

  /** Unlike the calendar and the dashboard, "all" keeps cancelled rows. */
  lemma AllShowsCancelled(rows: seq<Reservation>, from: Day, to: Day, r: Reservation)
    requires r in rows && r.status == Cancelled && from <= r.date <= to
    ensures r in ListQuery(rows, from, to, All)
  {
    ListQueryExact(rows, from, to, All);
  }

  /** A start date after the end date lists nothing. */
  lemma ReversedRangeEmpty(rows: seq<Reservation>, from: Day, to: Day, f: StatusFilter)
    requires to < from
    ensures ListQuery(rows, from, to, f) == []
  {
    ListQueryExact(rows, from, to, f);
  }

  /** Choosing one status never lists more rows than "all". */
  lemma OnlyWithinAll(rows: seq<Reservation>, from: Day, to: Day, s: Status)
    ensures multiset(ListQuery(rows, from, to, Only(s))) <= multiset(ListQuery(rows, from, to, All))
  {
    ListQueryExact(rows, from, to, Only(s));
    ListQueryExact(rows, from, to, All);
  }

  class ReservationListPage {
    var reservations: seq<Reservation>
    var loading: bool
    var dateFrom: Day
    var dateTo: Day
    var statusFilter: StatusFilter

    /** Both dates start at today and the status filter at "all". */
    constructor (now: Instant)
      ensures reservations == [] && loading
      ensures dateFrom == TodayOf(now) && dateTo == TodayOf(now) && statusFilter == All
    {
      reservations := [];
      loading := true;
      dateFrom, dateTo := TodayOf(now), TodayOf(now);
      statusFilter := All;
    }

    /** `fetchReservations`: on error the previous rows stay. */
    method FetchReservations(store: ClinicStore, fail: bool)
      modifies this`reservations, this`loading
      ensures reservations == if fail then old(reservations) else ListQuery(store.reservations, dateFrom, dateTo, statusFilter)
      ensures !loading
    {
      loading := true;
      if !fail {
        reservations := ListQuery(store.reservations, dateFrom, dateTo, statusFilter);
      }
      loading := false;
    }

    /** Editing either date or the status re-runs the query with the new values. */
    method ChangeFilters(store: ClinicStore, from: Day, to: Day, f: StatusFilter, fail: bool)
      modifies this
      ensures dateFrom == from && dateTo == to && statusFilter == f && !loading
      ensures reservations == if fail then old(reservations) else ListQuery(store.reservations, from, to, f)
    {
      dateFrom, dateTo, statusFilter := from, to, f;
      FetchReservations(store, fail);
    }
  }
}
