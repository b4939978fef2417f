/**
 * The staff home page: today's live reservations by start time, and four
 * counters computed from that same list.
 */
module Dashboard {
  import opened Seqs
  import opened Clock
  import opened Supabase
  import opened Store
  import AdminCalendar

  function HasStatus(st: Status): Reservation -> bool {
    (r: Reservation) => r.status == st
  }

  datatype Stats = Stats(today: nat, confirmed: nat, checkedIn: nat, completed: nat)

  const ZeroStats := Stats(0, 0, 0, 0)

  /** The four counters of `setStats`. */
  function StatsOf(data: seq<Reservation>): (st: Stats)
    ensures st.today == |data|
    ensures st.confirmed == |Filter(data, HasStatus(Confirmed))|
    ensures st.checkedIn == |Filter(data, HasStatus(CheckedIn))|
    ensures st.completed == |Filter(data, HasStatus(Completed))|
  {
    Stats(|data|, Count(data, HasStatus(Confirmed)), Count(data, HasStatus(CheckedIn)), Count(data, HasStatus(Completed)))
  }

  /** The per-status counts of any list add up to its length: every row has exactly one status. */
  lemma {:induction false} StatusPartition(s: seq<Reservation>)
    ensures Count(s, HasStatus(Tentative)) + Count(s, HasStatus(Confirmed)) + Count(s, HasStatus(CheckedIn))
          + Count(s, HasStatus(InProgress)) + Count(s, HasStatus(Completed)) + Count(s, HasStatus(Cancelled))
          + Count(s, HasStatus(NoShow)) == |s|
    decreases |s|
  {
    if s != [] {
      StatusPartition(s[1..]);
    }
  }

  lemma {:induction false} NoneMatching(s: seq<Reservation>, st: Status)
    requires forall i :: 0 <= i < |s| ==> s[i].status != st
    ensures Count(s, HasStatus(st)) == 0
    decreases |s|
  {
    if s != [] {
      NoneMatching(s[1..], st);
    }
  }

  /**
   * Today's list never holds a cancelled row, so the three shown counters
   * plus the tentative, in-progress and no-show rows make up the total.
   */
  lemma CountersAddUp(rows: seq<Reservation>, now: Instant)
    ensures var data := AdminCalendar.DayQuery(rows, TodayOf(now));
      var st := StatsOf(data);
      st.confirmed + st.checkedIn + st.completed
        + Count(data, HasStatus(Tentative)) + Count(data, HasStatus(InProgress)) + Count(data, HasStatus(NoShow))
        == st.today
    ensures var st := StatsOf(AdminCalendar.DayQuery(rows, TodayOf(now)));
      st.confirmed + st.checkedIn + st.completed <= st.today
  {
    var data := AdminCalendar.DayQuery(rows, TodayOf(now));
    AdminCalendar.DayQueryExact(rows, TodayOf(now));
    StatusPartition(data);
    assert forall i :: 0 <= i < |data| ==> data[i] in data;
    NoneMatching(data, Cancelled);
  }

  class DashboardPage {
    var todayReservations: seq<Reservation>
    var stats: Stats
    var loading: bool

    /** The counters always describe the list on screen. */
    predicate Valid()
      reads this
    {
      stats == StatsOf(todayReservations)
    }

    constructor ()
      ensures Valid()
      ensures todayReservations == [] && stats == ZeroStats && loading
    {
      todayReservations := [];
      stats := ZeroStats;
      loading := true;
    }

    /** `fetchData`: the same query as the calendar's day view; on error list and counters stay. */
    method FetchData(store: ClinicStore, now: Instant, fail: bool)
      requires Valid()
      modifies this
      ensures Valid() && !loading
      ensures todayReservations == if fail then old(todayReservations) else AdminCalendar.DayQuery(store.reservations, TodayOf(now))
    {
      loading := true;
      if !fail {
        var data := AdminCalendar.DayQuery(store.reservations, TodayOf(now));
        todayReservations := data;
        stats := StatsOf(data);
      }
      loading := false;
    }
  }
}
