/**
 * The hosted store as an in-memory collection of tables. Every call may fail
 * (network or constraint errors); the caller passes in whether it does,
 * since the model cannot see the remote side. The store generates row ids
 * and patient numbers from counters, so a new row's id is never in use.
 */
module Store {
  import opened Wrappers
  import opened Supabase

  /** Every id in the tables is below `bound`. */
  predicate IdsBelow(ps: seq<Patient>, rs: seq<Reservation>, us: seq<Unit>, ivs: seq<InterviewRecord>, bound: nat) {
    && (forall i :: 0 <= i < |ps| ==> ps[i].id < bound)
    && (forall i :: 0 <= i < |rs| ==> rs[i].id < bound)
    && (forall i :: 0 <= i < |us| ==> us[i].id < bound)
    && (forall i :: 0 <= i < |ivs| ==> ivs[i].id < bound)
  }

  /** No two rows of a table share an id. */
  predicate PatientIdsDistinct(ps: seq<Patient>) {
    forall i, j :: 0 <= i < j < |ps| ==> ps[i].id != ps[j].id
  }

  predicate ReservationIdsDistinct(rs: seq<Reservation>) {
    forall i, j :: 0 <= i < j < |rs| ==> rs[i].id != rs[j].id
  }

  predicate UnitIdsDistinct(us: seq<Unit>) {
    forall i, j :: 0 <= i < j < |us| ==> us[i].id != us[j].id
  }

  predicate InterviewIdsDistinct(ivs: seq<InterviewRecord>) {
    forall i, j :: 0 <= i < j < |ivs| ==> ivs[i].id != ivs[j].id
  }

  /** `update({ interview_completed: true }).eq('id', id)` on the reservations table. */
  function MarkInterviewed(rs: seq<Reservation>, id: Id): (r: seq<Reservation>)
    ensures |r| == |rs|
    ensures forall i :: 0 <= i < |rs| && rs[i].id == id ==> r[i] == rs[i].(interviewCompleted := true)
    ensures forall i :: 0 <= i < |rs| && rs[i].id != id ==> r[i] == rs[i]
  {
    seq(|rs|, i requires 0 <= i < |rs| => if rs[i].id == id then rs[i].(interviewCompleted := true) else rs[i])
  }

  /** `update({ is_active: value }).eq('id', id)` on the units table. */
  function SetActive(us: seq<Unit>, id: Id, value: bool): (r: seq<Unit>)
    ensures |r| == |us|
    ensures forall i :: 0 <= i < |us| && us[i].id == id ==> r[i] == us[i].(isActive := value)
    ensures forall i :: 0 <= i < |us| && us[i].id != id ==> r[i] == us[i]
  {
    seq(|us|, i requires 0 <= i < |us| => if us[i].id == id then us[i].(isActive := value) else us[i])
  }

  /** `delete().eq('id', id)` on the units table: the rows with another id, in order. */
  function DeleteById(us: seq<Unit>, id: Id): (r: seq<Unit>)
    ensures forall u :: u in r <==> u in us && u.id != id
    ensures |r| <= |us|
    ensures UnitIdsDistinct(us) ==> UnitIdsDistinct(r)
    decreases |us|
  {
    if us == [] then []
    else if us[0].id == id then DeleteById(us[1..], id)
    else [us[0]] + DeleteById(us[1..], id)
  }

  class ClinicStore {
    var patients: seq<Patient>
    var reservations: seq<Reservation>
    var units: seq<Unit>
    var interviews: seq<InterviewRecord>
    var nextId: nat
    var nextPatientNumber: nat

    ghost predicate Valid()
      reads this
    {
      && IdsBelow(patients, reservations, units, interviews, nextId)
      && PatientIdsDistinct(patients) && ReservationIdsDistinct(reservations)
      && UnitIdsDistinct(units) && InterviewIdsDistinct(interviews)
    }

    constructor ()
      ensures Valid()
      ensures patients == [] && reservations == [] && units == [] && interviews == []
    {
      patients, reservations, units, interviews := [], [], [], [];
      nextId, nextPatientNumber := 0, 1;
    }

    /** `from('patients').insert(p).select('id').single()`: the store assigns id and patient number. */
    method InsertPatient(p: Patient, fail: bool) returns (id: Option<Id>)
      requires Valid()
      modifies this
      ensures Valid()
      ensures reservations == old(reservations) && units == old(units) && interviews == old(interviews)
      ensures nextId == old(nextId) + (if fail then 0 else 1)
      ensures fail ==> id == None && patients == old(patients)
      ensures !fail ==> id == Some(old(nextId))
      ensures !fail ==> patients == old(patients) + [p.(id := old(nextId), patientNumber := old(nextPatientNumber))]
      ensures id.Some? ==> forall i :: 0 <= i < |old(patients)| ==> old(patients)[i].id != id.value
    {
      if fail {
        id := None;
      } else {
        id := Some(nextId);
        patients := patients + [p.(id := nextId, patientNumber := nextPatientNumber)];
        nextId, nextPatientNumber := nextId + 1, nextPatientNumber + 1;
      }
    }

    /** `from('reservations').insert(r).select('id').single()`: the store assigns the id. */
    method InsertReservation(r: Reservation, fail: bool) returns (id: Option<Id>)
      requires Valid()
      modifies this
      ensures Valid()
      ensures patients == old(patients) && units == old(units) && interviews == old(interviews)
      ensures nextId == old(nextId) + (if fail then 0 else 1)
      ensures fail ==> id == None && reservations == old(reservations)
      ensures !fail ==> id == Some(old(nextId)) && reservations == old(reservations) + [r.(id := old(nextId))]
      ensures id.Some? ==> forall i :: 0 <= i < |old(reservations)| ==> old(reservations)[i].id != id.value
    {
      if fail {
        id := None;
      } else {
        id := Some(nextId);
        reservations := reservations + [r.(id := nextId)];
        nextId := nextId + 1;
      }
    }

    /** `from('units').insert(u)`. */
    method InsertUnit(u: Unit, fail: bool) returns (ok: bool)
      requires Valid()
      modifies this
      ensures Valid()
      ensures patients == old(patients) && reservations == old(reservations) && interviews == old(interviews)
      ensures ok == !fail
      ensures fail ==> units == old(units)
      ensures !fail ==> units == old(units) + [u.(id := old(nextId))]
    {
      ok := !fail;
      if ok {
        units := units + [u.(id := nextId)];
        nextId := nextId + 1;
      }
    }

    /** `from('interviews').insert(rec)`. */
    method InsertInterview(rec: InterviewRecord, fail: bool) returns (ok: bool)
      requires Valid()
      modifies this
      ensures Valid()
      ensures patients == old(patients) && reservations == old(reservations) && units == old(units)
      ensures ok == !fail
      ensures fail ==> interviews == old(interviews)
      ensures !fail ==> interviews == old(interviews) + [rec.(id := old(nextId))]
    {
      ok := !fail;
      if ok {
        interviews := interviews + [rec.(id := nextId)];
        nextId := nextId + 1;
      }
    }

    /** `from('reservations').update({ interview_completed: true }).eq('id', id)`. */
    method SetInterviewCompleted(id: Id, fail: bool) returns (ok: bool)
      requires Valid()
      modifies this
      ensures Valid() && nextId == old(nextId)
      ensures patients == old(patients) && units == old(units) && interviews == old(interviews)
      ensures ok == !fail
      ensures reservations == if fail then old(reservations) else MarkInterviewed(old(reservations), id)
    {
      ok := !fail;
      if ok {
        reservations := MarkInterviewed(reservations, id);
      }
    }

    /** `from('units').update({ is_active: value }).eq('id', id)`. */
    method UpdateUnitActive(id: Id, value: bool, fail: bool)
      requires Valid()
      modifies this
      ensures Valid() && nextId == old(nextId)
      ensures patients == old(patients) && reservations == old(reservations) && interviews == old(interviews)
      ensures units == if fail then old(units) else SetActive(old(units), id, value)
    {
      if !fail {
        units := SetActive(units, id, value);
      }
    }

    /** `from('units').delete().eq('id', id)`. */
    method DeleteUnit(id: Id, fail: bool)
      requires Valid()
      modifies this
      ensures Valid() && nextId == old(nextId)
      ensures patients == old(patients) && reservations == old(reservations) && interviews == old(interviews)
      ensures units == if fail then old(units) else DeleteById(old(units), id)
    {
      if !fail {
        units := DeleteById(units, id);
      }
    }
  }
}
