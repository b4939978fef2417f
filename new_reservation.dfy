/**
 * The admin "new reservation" form: choose an existing patient by search or
 * enter a new one (never both), pick date, time, unit and category, then
 * write the patient (if new) and the reservation, in that order.
 */
module NewReservation {
  import opened Wrappers
  import opened Seqs
  import opened Text
  import opened Clock
  import opened Supabase
  import opened Store
  import Units
  import AdminCalendar

  /** The time select: 20 options, hour `floor(i / 2) + 9`, minute `(i % 2) * 30`. */
  function TimeOptions(): seq<string> {
    seq(20, i requires 0 <= i < 20 => TimeLabel((i / 2 + 9) * 60 + (i % 2) * 30))
  }

  /** The form offers exactly the calendar's rows, 09:00 to 18:30. */
  lemma TimeOptionsAreCalendarRows()
    ensures |TimeOptions()| == 20
    ensures TimeOptions() == AdminCalendar.TimeSlots()
    ensures TimeOptions()[0] == "09:00" && TimeOptions()[19] == "18:30"
  {
    AdminCalendar.TimeSlotsShape();
  }

  /** Shortest query that reaches the store. */
  const MinQueryLength: nat := 2
  /** `.limit(10)`. */
  const MaxResults: nat := 10

  /** `phone.ilike.%q%,name_last.ilike.%q%,name_first.ilike.%q%`; a missing phone never matches. */
  function MatchesQuery(q: string): Patient -> bool {
    (p: Patient) =>
      (p.phone.Some? && ContainsIgnoreCase(p.phone.value, q))
      || ContainsIgnoreCase(p.nameLast, q) || ContainsIgnoreCase(p.nameFirst, q)
  }

  /** The search the store answers: the first ten matching patients in store order. */
  function SearchQuery(patients: seq<Patient>, q: string): (r: seq<Patient>)
    ensures |r| <= MaxResults
    ensures |r| == if Count(patients, MatchesQuery(q)) <= MaxResults then Count(patients, MatchesQuery(q)) else MaxResults
    ensures r == Filter(patients, MatchesQuery(q))[..|r|]
    ensures forall p :: p in r ==> p in patients && MatchesQuery(q)(p)
    ensures Count(patients, MatchesQuery(q)) <= MaxResults ==>
      forall p :: p in patients && MatchesQuery(q)(p) ==> p in r
  {
    var all := Filter(patients, MatchesQuery(q));
    var r := Take(all, MaxResults);
    assert forall p :: p in r ==> p in all;
    r
  }

  /** The first unit chosen when no unit came with the link: the lowest-numbered active one. */
  function DefaultUnit(preset: Option<Id>, active: seq<Unit>): Option<Id> {
    if preset == None && |active| > 0 then Some(active[0].id) else preset
  }

  lemma DefaultUnitIsLowestActive(preset: Option<Id>, us: seq<Unit>)
    requires preset == None && Units.ActiveByNumber(us) != []
    ensures DefaultUnit(preset, Units.ActiveByNumber(us)).Some?
    ensures exists x :: x in us && x.isActive && Some(x.id) == DefaultUnit(preset, Units.ActiveByNumber(us))
                        && (forall y :: y in us && y.isActive ==> x.unitNumber <= y.unitNumber)
  {
    var a := Units.ActiveByNumber(us);
    Units.FirstActiveIsLowest(us);
    assert a[0] in us && a[0].isActive;
  }

  /** The reservation row the form writes: confirmed, entered manually, no unit when none is chosen. */
  function ManualDraft(patientId: Id, unitId: Option<Id>, date: Day, time: Minute, category: Category, note: string): (r: Reservation)
    ensures r.status == Confirmed && r.source == Some(Manual)
    ensures r.patientId == Some(patientId) && r.unitId == unitId
    ensures r.date == date && r.startTime == time && r.category == Some(category) && r.note == Some(note)
  {
    Reservation(0, Some(patientId), unitId, date, time, Some(category), Confirmed, Some(Manual), false, Some(note))
  }

  /** The patient row for a new patient: kana kept as typed, an empty birth date stored as null. */
  function NewPatientDraft(nameLast: string, nameFirst: string, nameLastKana: string, nameFirstKana: string,
                           birthDate: string, gender: Gender, phone: string): (p: Patient)
    ensures p.nameLast == nameLast && p.nameFirst == nameFirst && p.phone == Some(phone)
    ensures p.nameLastKana == Some(nameLastKana) && p.nameFirstKana == Some(nameFirstKana)
    ensures p.birthDate == NullIfEmpty(birthDate) && p.gender == Some(gender)
  {
    Patient(0, 0, nameLast, nameFirst, Some(nameLastKana), Some(nameFirstKana), NullIfEmpty(birthDate),
            Some(gender), Some(phone), None, None)
  }

  datatype SubmitError = PatientMissing | PatientInsertFailed | ReservationInsertFailed

  datatype SubmitOutcome = NavigatedToCalendar | ErrorShown(reason: SubmitError) | NotSubmitted

  class NewReservationForm {
    var units: seq<Unit>
    var searchQuery: string
    var searchResults: seq<Patient>
    var selectedPatient: Option<Patient>
    var isNewPatient: bool
    var nameLast: string
    var nameFirst: string
    var nameLastKana: string
    var nameFirstKana: string
    var birthDate: string
    var gender: Gender
    var phone: string
    var reservationDate: Option<Day>
    var startTime: Option<Minute>
    var unitId: Option<Id>
    var category: Category
    var note: string
    var loading: bool
    var error: Option<SubmitError>

    /** The two ways of naming the patient are never active at once. */
    ghost predicate Valid()
      reads this
    {
      !(selectedPatient.Some? && isNewPatient)
    }

    /** Opened from a link that may carry date, time and unit; the date defaults to today. */
    constructor (presetDate: Option<Day>, presetTime: Option<Minute>, presetUnit: Option<Id>, now: Instant)
      ensures Valid()
      ensures selectedPatient == None && !isNewPatient && searchQuery == "" && searchResults == []
      ensures reservationDate == Some(presetDate.GetOr(TodayOf(now)))
      ensures startTime == presetTime && unitId == presetUnit && units == []
      ensures gender == Male && category == Treatment && note == "" && !loading && error == None
    {
      units, searchQuery, searchResults := [], "", [];
      selectedPatient, isNewPatient := None, false;
      nameLast, nameFirst, nameLastKana, nameFirstKana, birthDate, phone := "", "", "", "", "", "";
      gender := Male;
      reservationDate := Some(presetDate.GetOr(TodayOf(now)));
      startTime, unitId := presetTime, presetUnit;
      category, note := Treatment, "";
      loading, error := false, None;
    }

    /** `fetchUnits`: the active units by number, and the first of them when no unit was preset. */
    method FetchUnits(store: ClinicStore, fail: bool)
      requires Valid()
      modifies this
      ensures Valid()
      ensures units == if fail then old(units) else Units.ActiveByNumber(store.units)
      ensures unitId == if fail then old(unitId) else DefaultUnit(old(unitId), units)
      ensures selectedPatient == old(selectedPatient) && isNewPatient == old(isNewPatient)
      ensures searchResults == old(searchResults) && reservationDate == old(reservationDate) && startTime == old(startTime)
    {
      if !fail {
        units := Units.ActiveByNumber(store.units);
        unitId := DefaultUnit(unitId, units);
      }
    }

    /** `searchPatients`: a query shorter than 2 UTF-16 code units clears the results without asking the store; an error keeps them. */
    method SearchPatients(store: ClinicStore, query: string, fail: bool)
      requires Valid()
      modifies this`searchResults
      ensures Valid()
      ensures Utf16Length(query) < MinQueryLength ==> searchResults == []
      ensures Utf16Length(query) >= MinQueryLength && fail ==> searchResults == old(searchResults)
      ensures Utf16Length(query) >= MinQueryLength && !fail ==> searchResults == SearchQuery(store.patients, query)
    {
      if Utf16Length(query) < MinQueryLength {
        searchResults := [];
        return;
      }
      if !fail {
        searchResults := SearchQuery(store.patients, query);
      }
    }

    /** `handleSearchChange`: record the text, then search with it. */
    method HandleSearchChange(store: ClinicStore, query: string, fail: bool)
      requires Valid()
      modifies this`searchQuery, this`searchResults
      ensures Valid()
      ensures searchQuery == query
      ensures Utf16Length(query) < MinQueryLength ==> searchResults == []
      ensures Utf16Length(query) >= MinQueryLength && fail ==> searchResults == old(searchResults)
      ensures Utf16Length(query) >= MinQueryLength && !fail ==> searchResults == SearchQuery(store.patients, query)
    {
      searchQuery := query;
      SearchPatients(store, query, fail);
    }

    /** `selectPatient`: take the patient, clear the search, leave new-patient mode. */
    method SelectPatient(p: Patient)
      requires Valid()
      modifies this`selectedPatient, this`searchQuery, this`searchResults, this`isNewPatient
      ensures Valid()
      ensures selectedPatient == Some(p) && searchQuery == "" && searchResults == [] && !isNewPatient
    {
      selectedPatient := Some(p);
      searchQuery := "";
      searchResults := [];
      isNewPatient := false;
    }

    /** `handleNewPatient`: enter new-patient mode and drop any chosen patient. */
    method HandleNewPatient()
      requires Valid()
      modifies this`selectedPatient, this`isNewPatient
      ensures Valid()
      ensures isNewPatient && selectedPatient == None
    {
      isNewPatient := true;
      selectedPatient := None;
    }

    /** The "change" button beside a chosen patient. */
    method ClearSelectedPatient()
      requires Valid()
      modifies this`selectedPatient
      ensures Valid() && selectedPatient == None
    {
      selectedPatient := None;
    }

    /** The "cancel" button of the new-patient panel. */
    method CancelNewPatient()
      requires Valid()
      modifies this`isNewPatient
      ensures Valid() && !isNewPatient
    {
      isNewPatient := false;
    }

    /** The submit button is disabled while saving and while no patient is named. */
    predicate SubmitEnabled()
      reads this
    {
      !loading && (selectedPatient.Some? || isNewPatient)
    }

    /** The browser's `required` checks: date and time always, names and phone for a new patient. */
    predicate RequiredFilled()
      reads this
    {
      reservationDate.Some? && startTime.Some?
      && (isNewPatient ==> nameLast != "" && nameFirst != "" && phone != "")
    }

    /**
     * `handleSubmit`: fix the patient id (chosen patient, or a freshly inserted
     * one), then insert the reservation. Any failure shows an error and stops;
     * a failed patient insert means no reservation is written.
     */
    method HandleSubmit(store: ClinicStore, patientFails: bool, reservationFails: bool) returns (outcome: SubmitOutcome)
      requires Valid() && store.Valid()
      requires reservationDate.Some? && startTime.Some?
      modifies this`loading, this`error, store
      ensures Valid() && store.Valid() && !loading
      ensures store.units == old(store.units) && store.interviews == old(store.interviews)
      ensures outcome != NotSubmitted
      ensures error == (if outcome.ErrorShown? then Some(outcome.reason) else None)
      // neither a chosen nor a new patient: an error, and nothing is written
      ensures outcome == ErrorShown(PatientMissing) <==> selectedPatient == None && !isNewPatient
      ensures selectedPatient == None && !isNewPatient ==>
        store.patients == old(store.patients) && store.reservations == old(store.reservations)
      // a chosen patient is reused as is
      ensures selectedPatient.Some? ==> store.patients == old(store.patients)
      ensures selectedPatient.Some? ==>
        store.reservations == old(store.reservations) + (if reservationFails then [] else
          [ManualDraft(selectedPatient.value.id, unitId, reservationDate.value, startTime.value, category, note).(id := old(store.nextId))])
      // a new patient is inserted first; if that fails no reservation is inserted
      ensures isNewPatient && patientFails ==>
        outcome == ErrorShown(PatientInsertFailed) && store.patients == old(store.patients) && store.reservations == old(store.reservations)
      ensures isNewPatient && !patientFails ==>
        store.patients == old(store.patients) + [NewPatientDraft(nameLast, nameFirst, nameLastKana, nameFirstKana, birthDate, gender, phone)
                                                   .(id := old(store.nextId), patientNumber := old(store.nextPatientNumber))]
      ensures isNewPatient && !patientFails ==>
        store.reservations == old(store.reservations) + (if reservationFails then [] else
          [ManualDraft(old(store.nextId), unitId, reservationDate.value, startTime.value, category, note).(id := old(store.nextId) + 1)])
      ensures outcome == NavigatedToCalendar <==> (selectedPatient.Some? || (isNewPatient && !patientFails)) && !reservationFails
    {
      loading := true;
      error := None;
      var patientId: Id;
      if selectedPatient.Some? {
        patientId := selectedPatient.value.id;
      } else if isNewPatient {
        var newId := store.InsertPatient(NewPatientDraft(nameLast, nameFirst, nameLastKana, nameFirstKana, birthDate, gender, phone), patientFails);
        if newId.None? {
          error := Some(PatientInsertFailed);
          loading := false;
          return ErrorShown(PatientInsertFailed);
        }
        patientId := newId.value;
      } else {
        error := Some(PatientMissing);
        loading := false;
        return ErrorShown(PatientMissing);
      }
      var draft := ManualDraft(patientId, unitId, reservationDate.value, startTime.value, category, note);
      var rid := store.InsertReservation(draft, reservationFails);
      if rid.None? {
        error := Some(ReservationInsertFailed);
        outcome := ErrorShown(ReservationInsertFailed);
      } else {
        outcome := NavigatedToCalendar;
      }
      loading := false;
    }

    /** A press of the submit button: disabled or blocked by the browser's checks, nothing happens. */
    method Submit(store: ClinicStore, patientFails: bool, reservationFails: bool) returns (outcome: SubmitOutcome)
      requires Valid() && store.Valid()
      modifies this`loading, this`error, store
      ensures Valid() && store.Valid()
      ensures !(old(SubmitEnabled()) && old(RequiredFilled())) ==>
        outcome == NotSubmitted && store.patients == old(store.patients) && store.reservations == old(store.reservations)
      ensures outcome != ErrorShown(PatientMissing)
    {
      if !(SubmitEnabled() && RequiredFilled()) {
        return NotSubmitted;
      }
      outcome := HandleSubmit(store, patientFails, reservationFails);
    }
  }
}
