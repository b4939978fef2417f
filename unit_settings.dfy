/**
 * The unit settings page: list every unit by number, add a unit numbered one
 * past the highest number on screen, flip a unit's active flag, and delete a
 * unit after the operator confirms.
 */
module UnitSettings {
  import opened Seqs
  import opened Text
  import opened Supabase
  import opened Store
  import Units

  function MaxNumber(us: seq<Unit>): (m: int)
    requires us != []
    ensures forall k :: 0 <= k < |us| ==> us[k].unitNumber <= m
    ensures exists k :: 0 <= k < |us| && us[k].unitNumber == m
    decreases |us|
  {
    if |us| == 1 then us[0].unitNumber
    else
      var rest := MaxNumber(us[1..]);
      assert forall k :: 1 <= k < |us| ==> us[k] == us[1..][k - 1];
      if us[0].unitNumber < rest then rest else us[0].unitNumber
  }

  /** `nextNumber`: one past the highest number on screen, or 1 for an empty list. */
  function NextNumber(us: seq<Unit>): (n: int)
    ensures us == [] ==> n == 1
    ensures forall u :: u in us ==> u.unitNumber < n
    ensures us != [] ==> exists u :: u in us && u.unitNumber == n - 1
    ensures (forall u :: u in us ==> u.unitNumber >= 0) ==> n >= 1
  {
    if |us| > 0 then MaxNumber(us) + 1 else 1
  }

  /** Enabling a unit's flag and then restoring it gives back the table. */
  lemma SetActiveTwice(us: seq<Unit>, id: Id, v: bool)
    requires forall k :: 0 <= k < |us| && us[k].id == id ==> us[k].isActive == v
    ensures SetActive(SetActive(us, id, !v), id, v) == us
  {
  }

  class UnitSettingsPage {
    var units: seq<Unit>
    var loading: bool
    var newUnitName: string
    var saving: bool

    constructor ()
      ensures units == [] && loading && newUnitName == "" && !saving
    {
      units := [];
      loading := true;
      newUnitName := "";
      saving := false;
    }

    /** `fetchUnits`: every unit, lowest number first; without data the list stays. */
    method FetchUnits(store: ClinicStore, fail: bool)
      modifies this`units, this`loading
      ensures units == if fail then old(units) else Units.ByNumber(store.units)
      ensures !loading
    {
      loading := true;
      if !fail {
        units := Units.ByNumber(store.units);
      }
      loading := false;
    }

    /**
     * `addUnit`: a blank name (after trimming) does nothing; otherwise the
     * untrimmed name is stored as an active unit numbered after the screen's
     * highest, and on success the field is cleared and the list reloaded.
     */
    method AddUnit(store: ClinicStore, insertFails: bool, fetchFails: bool)
      requires store.Valid()
      modifies this, store
      ensures store.Valid()
      ensures store.patients == old(store.patients) && store.reservations == old(store.reservations)
      ensures store.interviews == old(store.interviews)
      ensures Trim(old(newUnitName)) == "" ==> store.units == old(store.units) && units == old(units)
      ensures Trim(old(newUnitName)) == "" ==> newUnitName == old(newUnitName) && saving == old(saving) && loading == old(loading)
      ensures Trim(old(newUnitName)) != "" && insertFails ==> store.units == old(store.units) && units == old(units)
      ensures Trim(old(newUnitName)) != "" && insertFails ==> newUnitName == old(newUnitName) && !saving
      ensures Trim(old(newUnitName)) != "" && !insertFails ==>
        store.units == old(store.units) + [Unit(old(store.nextId), NextNumber(old(units)), old(newUnitName), true)]
      ensures Trim(old(newUnitName)) != "" && !insertFails ==> newUnitName == "" && !saving
      ensures Trim(old(newUnitName)) != "" && !insertFails ==>
        units == (if fetchFails then old(units) else Units.ByNumber(store.units))
    {
      if Trim(newUnitName) == "" {
        return;
      }
      saving := true;
      var n := NextNumber(units);
      var ok := store.InsertUnit(Unit(0, n, newUnitName, true), insertFails);
      if ok {
        newUnitName := "";
        FetchUnits(store, fetchFails);
      }
      saving := false;
    }

    /** `toggleUnitActive`: write the negation of the flag the screen shows for that unit, then reload. */
    method ToggleUnitActive(store: ClinicStore, u: Unit, updateFails: bool, fetchFails: bool)
      requires store.Valid()
      modifies this`units, this`loading, store
      ensures store.Valid() && store.nextId == old(store.nextId)
      ensures store.patients == old(store.patients) && store.reservations == old(store.reservations)
      ensures store.interviews == old(store.interviews)
      ensures store.units == if updateFails then old(store.units) else SetActive(old(store.units), u.id, !u.isActive)
      ensures units == if fetchFails then old(units) else Units.ByNumber(store.units)
    {
      store.UpdateUnitActive(u.id, !u.isActive, updateFails);
      FetchUnits(store, fetchFails);
    }

    /** `deleteUnit`: only after the confirmation dialog is accepted. */
    method DeleteUnit(store: ClinicStore, u: Unit, confirmed: bool, deleteFails: bool, fetchFails: bool)
      requires store.Valid()
      modifies this`units, this`loading, store
      ensures store.Valid() && store.nextId == old(store.nextId)
      ensures store.patients == old(store.patients) && store.reservations == old(store.reservations)
      ensures store.interviews == old(store.interviews)
      ensures !confirmed ==> store.units == old(store.units) && units == old(units) && loading == old(loading)
      ensures confirmed ==> store.units == (if deleteFails then old(store.units) else DeleteById(old(store.units), u.id))
      ensures confirmed ==> units == if fetchFails then old(units) else Units.ByNumber(store.units)
    {
      if !confirmed {
        return;
      }
      store.DeleteUnit(u.id, deleteFails);
      FetchUnits(store, fetchFails);
    }
  }

  /**
   * When the screen shows the store's current units, the number an added
   * unit receives is not held by any unit in the store.
   */
  lemma FreshNumberWhenListCurrent(screen: seq<Unit>, stored: seq<Unit>)
    requires screen == Units.ByNumber(stored)
    ensures forall u :: u in stored ==> u.unitNumber != NextNumber(screen)
  {
    forall u | u in stored ensures u.unitNumber != NextNumber(screen) {
      assert u in multiset(stored);
      assert u in screen;
    }
  }
}
