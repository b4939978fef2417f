/**
 * The rows of the clinic's store: patients, units, reservations and staff,
 * with their enumerated columns. Identifiers are abstract numbers; dates and
 * times use the `Clock` representation.
 */
module Supabase {
  import opened Wrappers
  import opened Clock

  type Id = nat

  datatype Gender = Male | Female | OtherGender

  datatype Category = FirstVisit | Checkup | Treatment | Consultation | Emergency | OtherCategory

  datatype Status = Tentative | Confirmed | CheckedIn | InProgress | Completed | Cancelled | NoShow

  datatype Source = Manual | Phone | Web | Line | AiPhone

  datatype StaffRole = Dentist | Hygienist | Assistant | Receptionist | Admin

  datatype Patient = Patient(
    id: Id,
    patientNumber: nat,
    nameLast: string,
    nameFirst: string,
    nameLastKana: Option<string>,
    nameFirstKana: Option<string>,
    birthDate: Option<string>,
    gender: Option<Gender>,
    phone: Option<string>,
    email: Option<string>,
    address: Option<string>)

  datatype Unit = Unit(id: Id, unitNumber: int, name: string, isActive: bool)

  /** `unit_id` and `category`, `source` and `note` may be absent; `interview_completed` is always a boolean. */
  datatype Reservation = Reservation(
    id: Id,
    patientId: Option<Id>,
    unitId: Option<Id>,
    date: Day,
    startTime: Minute,
    category: Option<Category>,
    status: Status,
    source: Option<Source>,
    interviewCompleted: bool,
    note: Option<string>)

  datatype Staff = Staff(id: Id, staffNumber: nat, name: string, role: StaffRole)

  /** The wire spelling of each status, as the store holds it. */
  function StatusName(s: Status): string {
    match s
    case Tentative => "tentative"
    case Confirmed => "confirmed"
    case CheckedIn => "checked_in"
    case InProgress => "in_progress"
    case Completed => "completed"
    case Cancelled => "cancelled"
    case NoShow => "no_show"
  }

  /** Reading a status column: exactly the seven names are statuses. */
  function ParseStatus(name: string): (r: Option<Status>)
    ensures r.Some? ==> StatusName(r.value) == name
  {
    if name == "tentative" then Some(Tentative)
    else if name == "confirmed" then Some(Confirmed)
    else if name == "checked_in" then Some(CheckedIn)
    else if name == "in_progress" then Some(InProgress)
    else if name == "completed" then Some(Completed)
    else if name == "cancelled" then Some(Cancelled)
    else if name == "no_show" then Some(NoShow)
    else None
  }

  const AllStatuses: seq<Status> :=
    [Tentative, Confirmed, CheckedIn, InProgress, Completed, Cancelled, NoShow]

  /** A status is exactly one of seven values, each with its own name, and names read back. */
  lemma StatusesExhaustive(s: Status)
    ensures s in AllStatuses
    ensures ParseStatus(StatusName(s)) == Some(s)
    ensures forall i, j :: 0 <= i < j < |AllStatuses| ==> StatusName(AllStatuses[i]) != StatusName(AllStatuses[j])
  {
  }

  function CategoryName(c: Category): string {
    match c
    case FirstVisit => "first_visit"
    case Checkup => "checkup"
    case Treatment => "treatment"
    case Consultation => "consultation"
    case Emergency => "emergency"
    case OtherCategory => "other"
  }

  function ParseCategory(name: string): (r: Option<Category>)
    ensures r.Some? ==> CategoryName(r.value) == name
  {
    if name == "first_visit" then Some(FirstVisit)
    else if name == "checkup" then Some(Checkup)
    else if name == "treatment" then Some(Treatment)
    else if name == "consultation" then Some(Consultation)
    else if name == "emergency" then Some(Emergency)
    else if name == "other" then Some(OtherCategory)
    else None
  }

  lemma CategoryRoundTrip(c: Category)
    ensures ParseCategory(CategoryName(c)) == Some(c)
  {
  }

  function SourceName(s: Source): string {
    match s
    case Manual => "manual"
    case Phone => "phone"
    case Web => "web"
    case Line => "line"
    case AiPhone => "ai_phone"
  }

  function ParseSource(name: string): (r: Option<Source>)
    ensures r.Some? ==> SourceName(r.value) == name
  {
    if name == "manual" then Some(Manual)
    else if name == "phone" then Some(Phone)
    else if name == "web" then Some(Web)
    else if name == "line" then Some(Line)
    else if name == "ai_phone" then Some(AiPhone)
    else None
  }

  lemma SourceRoundTrip(s: Source)
    ensures ParseSource(SourceName(s)) == Some(s)
  {
  }

  function GenderName(g: Gender): string {
    match g
    case Male => "male"
    case Female => "female"
    case OtherGender => "other"
  }

  /** The gender select's value; the empty string (nothing chosen) is not a gender. */
  function ParseGender(name: string): (r: Option<Gender>)
    ensures r.Some? ==> GenderName(r.value) == name
    ensures name == "" ==> r == None
  {
    if name == "male" then Some(Male)
    else if name == "female" then Some(Female)
    else if name == "other" then Some(OtherGender)
    else None
  }

  lemma GenderRoundTrip(g: Gender)
    ensures ParseGender(GenderName(g)) == Some(g)
  {
  }

  /** Rows that the availability and day views count: every status except `cancelled`. */
  predicate NotCancelled(r: Reservation) {
    r.status != Cancelled
  }

  /**
   * A row of the `interviews` table, as the intake questionnaire writes it
   * (lib/supabase.ts does not declare this type; its columns are those inserted).
   */
  datatype InterviewRecord = InterviewRecord(
    id: Id,
    patientId: Id,
    reservationId: Id,
    chiefComplaint: string,
    symptomDuration: string,
    painLevel: int,
    medicalHistory: string,
    currentMedications: Option<string>,
    allergies: Option<string>,
    dentalAnxiety: string,
    lifestyleSmoking: bool,
    pregnancyStatus: string)
}
