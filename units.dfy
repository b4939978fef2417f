/** The unit listings shared by the calendar, the reservation form and the unit settings page. */
module Units {
  import opened Seqs
  import opened Supabase

  function UnitNumber(u: Unit): int { u.unitNumber }

  /** `from('units').select('*').order('unit_number')`. */
  function ByNumber(us: seq<Unit>): (r: seq<Unit>)
    ensures SortedBy(r, UnitNumber)
    ensures multiset(r) == multiset(us)
  {
    SortBy(us, UnitNumber)
  }

  function IsActive(u: Unit): bool { u.isActive }

  /** `.eq('is_active', true).order('unit_number')`: the active units, lowest number first. */
  function ActiveByNumber(us: seq<Unit>): (r: seq<Unit>)
    ensures SortedBy(r, UnitNumber)
    ensures forall u :: u in r <==> u in us && u.isActive
  {
    var a := Filter(us, IsActive);
    SortByMem(a, UnitNumber);
    SortBy(a, UnitNumber)
  }

  /** The first active unit by number has the smallest number of all active units. */
  lemma FirstActiveIsLowest(us: seq<Unit>)
    requires ActiveByNumber(us) != []
    ensures ActiveByNumber(us)[0].isActive && ActiveByNumber(us)[0] in us
    ensures forall u :: u in us && u.isActive ==> ActiveByNumber(us)[0].unitNumber <= u.unitNumber
  {
    var r := ActiveByNumber(us);
    assert r[0] in r;
    forall u | u in us && u.isActive ensures r[0].unitNumber <= u.unitNumber {
      assert u in r;
      var k :| 0 <= k < |r| && r[k] == u;
      if k > 0 {
        assert UnitNumber(r[0]) <= UnitNumber(r[k]);
      }
    }
  }
}
