/**
 * The last step of public booking: find the patient by exact phone number
 * (or register a new one), then write a confirmed web reservation. The slot
 * is not checked again here: the insert is unconditional.
 */
module BookingConfirm {
  import opened Wrappers
  import opened Seqs
  import opened Text
  import opened Clock
  import opened Supabase
  import opened Store

  /** The values carried over from the booking form (empty strings where nothing was entered). */
  datatype ConfirmRequest = ConfirmRequest(
    date: Day,
    time: Minute,
    nameLast: string,
    nameFirst: string,
    nameLastKana: string,
    nameFirstKana: string,
    birthDate: string,
    gender: string,
    phone: string,
    email: string,
    category: Option<Category>,
    note: string)

  function HasPhone(phone: string): Patient -> bool {
    (p: Patient) => p.phone == Some(phone)
  }

  /**
   * `.eq('phone', phone).single()`: a row comes back only when exactly one
   * patient has that phone; none, or several, give no row.
   */
  function ExistingByPhone(patients: seq<Patient>, phone: string): (r: Option<Id>)
    ensures r.Some? <==> Count(patients, HasPhone(phone)) == 1
    ensures r.Some? ==> exists p :: p in patients && p.phone == Some(phone) && p.id == r.value
  {
    var matches := Filter(patients, HasPhone(phone));
    if |matches| == 1 then
      assert matches[0] in matches;
      Some(matches[0].id)
    else None
  }

  /** The new patient row: empty kana, birth date, gender and email are stored as null. */
  function WebPatientDraft(req: ConfirmRequest): (p: Patient)
    ensures p.phone == Some(req.phone) && p.nameLast == req.nameLast && p.nameFirst == req.nameFirst
    ensures p.nameLastKana == NullIfEmpty(req.nameLastKana) && p.nameFirstKana == NullIfEmpty(req.nameFirstKana)
    ensures p.birthDate == NullIfEmpty(req.birthDate) && p.email == NullIfEmpty(req.email)
    ensures req.gender == "" ==> p.gender == None
  {
    Patient(0, 0, req.nameLast, req.nameFirst, NullIfEmpty(req.nameLastKana), NullIfEmpty(req.nameFirstKana),
            NullIfEmpty(req.birthDate), ParseGender(req.gender), Some(req.phone), NullIfEmpty(req.email), None)
  }

  /** The reservation row: confirmed, from the web, questionnaire not done, no unit, empty note as null. */
  function WebDraft(patientId: Id, req: ConfirmRequest): (r: Reservation)
    ensures r.status == Confirmed && r.source == Some(Web) && !r.interviewCompleted && r.unitId == None
    ensures r.patientId == Some(patientId) && r.date == req.date && r.startTime == req.time
    ensures r.category == req.category && r.note == NullIfEmpty(req.note)
  {
    Reservation(0, Some(patientId), None, req.date, req.time, req.category, Confirmed, Some(Web), false, NullIfEmpty(req.note))
  }

  datatype ConfirmOutcome =
    | NavigatedToComplete(reservationId: Id, patientId: Id)
    | ErrorShown

  /**
   * `handleConfirm`. Lookup errors read as "no patient". The patient step
   * finishes before the reservation insert; a failed patient insert stops
   * before any reservation is written. Nothing about the slot is consulted.
   */
  method HandleConfirm(store: ClinicStore, req: ConfirmRequest, lookupFails: bool, patientFails: bool, reservationFails: bool)
    returns (outcome: ConfirmOutcome)
    requires store.Valid()
    modifies store
    ensures store.Valid()
    ensures store.units == old(store.units) && store.interviews == old(store.interviews)
    ensures old(store.nextId) <= store.nextId
    ensures outcome.NavigatedToComplete? ==> old(store.nextId) <= outcome.reservationId < store.nextId
    // an exact single phone match is reused and no patient is written
    ensures !lookupFails && ExistingByPhone(old(store.patients), req.phone).Some? ==>
      && store.patients == old(store.patients)
      && store.reservations == old(store.reservations) + (if reservationFails then [] else
           [WebDraft(ExistingByPhone(old(store.patients), req.phone).value, req).(id := old(store.nextId))])
      && outcome == (if reservationFails then ErrorShown
                     else NavigatedToComplete(old(store.nextId), ExistingByPhone(old(store.patients), req.phone).value))
    // otherwise a patient is inserted first
    ensures (lookupFails || ExistingByPhone(old(store.patients), req.phone).None?) && patientFails ==>
      outcome == ErrorShown && store.patients == old(store.patients) && store.reservations == old(store.reservations)
    ensures (lookupFails || ExistingByPhone(old(store.patients), req.phone).None?) && !patientFails ==>
      && store.patients == old(store.patients) + [WebPatientDraft(req).(id := old(store.nextId), patientNumber := old(store.nextPatientNumber))]
      && store.reservations == old(store.reservations) + (if reservationFails then [] else
           [WebDraft(old(store.nextId), req).(id := old(store.nextId) + 1)])
      && outcome == (if reservationFails then ErrorShown else NavigatedToComplete(old(store.nextId) + 1, old(store.nextId)))
  {
    var existing := if lookupFails then None else ExistingByPhone(store.patients, req.phone);
    var patientId: Id;
    if existing.Some? {
      patientId := existing.value;
    } else {
      var newId := store.InsertPatient(WebPatientDraft(req), patientFails);
      if newId.None? {
        return ErrorShown;
      }
      patientId := newId.value;
    }
    var rid := store.InsertReservation(WebDraft(patientId, req), reservationFails);
    if rid.None? {
      return ErrorShown;
    }
    outcome := NavigatedToComplete(rid.value, patientId);
  }

  /** After a confirm has registered the only patient with a phone, the next lookup finds that patient. */
  lemma {:induction false} SecondConfirmReuses(patients: seq<Patient>, p: Patient, phone: string)
    requires Count(patients, HasPhone(phone)) == 0
    requires p.phone == Some(phone)
    ensures Count(patients + [p], HasPhone(phone)) == 1
    ensures ExistingByPhone(patients + [p], phone) == Some(p.id)
  {
    FilterAppend(patients, [p], HasPhone(phone));
    assert Filter([p], HasPhone(phone)) == [p];
    assert Filter(patients + [p], HasPhone(phone)) == [p];
  }

  /** Phone is no unique key: once two patients share it, no lookup reuses either of them. */
  lemma DuplicatePhoneNeverReused(patients: seq<Patient>, phone: string)
    requires Count(patients, HasPhone(phone)) >= 2
    ensures ExistingByPhone(patients, phone) == None
  {
  }

  /**
   * Two confirms with the same phone and the same slot, starting from no
   * patient with that phone: one patient with the phone exists afterwards,
   * both reservations are written for that patient, and both occupy the same
   * date and time, since the insert is not guarded.
   */
  method ConfirmTwice(store: ClinicStore, req: ConfirmRequest)
    returns (first: ConfirmOutcome, second: ConfirmOutcome)
    requires store.Valid()
    requires Count(store.patients, HasPhone(req.phone)) == 0
    modifies store
    ensures Count(store.patients, HasPhone(req.phone)) == 1
    ensures first.NavigatedToComplete? && second.NavigatedToComplete?
    ensures first.patientId == second.patientId && first.reservationId != second.reservationId
    ensures |store.reservations| == |old(store.reservations)| + 2
    ensures forall k :: |old(store.reservations)| <= k < |store.reservations| ==>
      store.reservations[k].date == req.date && store.reservations[k].startTime == req.time
      && store.reservations[k].status == Confirmed
  {
    ghost var before := store.patients;
    ghost var rows := store.reservations;
    ghost var n := store.nextId;
    ghost var number := store.nextPatientNumber;
    assert ExistingByPhone(before, req.phone) == None;
    first := HandleConfirm(store, req, false, false, false);
    ghost var created := WebPatientDraft(req).(id := n, patientNumber := number);
    assert store.patients == before + [created];
    assert first == NavigatedToComplete(n + 1, n);
    assert store.reservations == rows + [WebDraft(n, req).(id := n + 1)];
    ghost var m := store.nextId;
    assert n + 1 < m;
    SecondConfirmReuses(before, created, req.phone);
    second := HandleConfirm(store, req, false, false, false);
    assert second == NavigatedToComplete(m, n);
    assert store.reservations == rows + [WebDraft(n, req).(id := n + 1), WebDraft(n, req).(id := m)];
  }
}
