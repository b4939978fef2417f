/**
 * The intake questionnaire: four screens, two multiple-choice lists kept as
 * membership toggles ("none" excludes every other medical-history entry),
 * and a submit that writes the answers and then marks the reservation's
 * questionnaire as done.
 */
module Interview {
  import opened Wrappers
  import opened Seqs
  import opened Text
  import opened Supabase
  import opened Store

  const NoneValue: string := "none"

  function Without(list: seq<string>, v: string): seq<string> {
    Filter(list, (x: string) => x != v)
  }

  /** `togglePainType`: drop `value` if present, else append it at the end. */
  function TogglePainType(list: seq<string>, v: string): (r: seq<string>)
    ensures v in r <==> v !in list
    ensures forall x :: x != v ==> (x in r <==> x in list)
    ensures v !in list ==> r == list + [v]
    ensures v in list ==> IsSubsequence(r, list)
  {
    if v in list then
      FilterSubsequence(list, (x: string) => x != v);
      Without(list, v)
    else list + [v]
  }

  /**
   * `toggleMedicalHistory`: "none" replaces everything with ["none"]; any
   * other value first drops "none", then toggles like a pain type.
   */
  function ToggleMedicalHistory(list: seq<string>, v: string): (r: seq<string>)
    ensures v == NoneValue ==> r == [NoneValue]
    ensures v != NoneValue ==> NoneValue !in r
    ensures v != NoneValue ==> (v in r <==> v !in list)
    ensures v != NoneValue ==> forall x :: x != v && x != NoneValue ==> (x in r <==> x in list)
    ensures v != NoneValue && v !in Without(list, NoneValue) ==> r == Without(list, NoneValue) + [v]
    ensures v != NoneValue ==> IsSubsequence(Without(list, NoneValue), list)
    ensures v != NoneValue && v in Without(list, NoneValue) ==> IsSubsequence(r, Without(list, NoneValue))
  {
    if v == NoneValue then [NoneValue]
    else
      var filtered := Without(list, NoneValue);
      FilterSubsequence(list, (x: string) => x != NoneValue);
      if v in filtered then
        FilterSubsequence(filtered, (x: string) => x != v);
        Without(filtered, v)
      else filtered + [v]
  }

  /** "none" never sits beside another entry. */
  predicate NoneExclusive(list: seq<string>) {
    NoneValue in list ==> list == [NoneValue]
  }

  lemma MedicalHistoryNoneExclusive(list: seq<string>, v: string)
    ensures NoneExclusive(ToggleMedicalHistory(list, v))
  {
  }

  lemma {:induction false} AppendNoDup(list: seq<string>, v: string)
    requires NoDup(list) && v !in list
    ensures NoDup(list + [v])
  {
    var r := list + [v];
    forall i, j | 0 <= i < j < |r| ensures r[i] != r[j] {
      if j == |list| {
        assert r[i] == list[i] && list[i] in list;
      }
    }
  }

  /** Both toggles keep a duplicate-free list duplicate-free. */
  lemma TogglesKeepNoDup(list: seq<string>, v: string)
    requires NoDup(list)
    ensures NoDup(TogglePainType(list, v))
    ensures NoDup(ToggleMedicalHistory(list, v))
  {
    FilterNoDup(list, (x: string) => x != v);
    if v !in list {
      AppendNoDup(list, v);
    }
    var filtered := Without(list, NoneValue);
    FilterNoDup(list, (x: string) => x != NoneValue);
    FilterNoDup(filtered, (x: string) => x != v);
    if v !in filtered {
      AppendNoDup(filtered, v);
    }
  }

  lemma {:induction false} FilterAllKept(list: seq<string>, v: string)
    requires v !in list
    ensures Without(list, v) == list
    decreases |list|
  {
    if list != [] {
      FilterAllKept(list[1..], v);
      assert list == [list[0]] + list[1..];
    }
  }

  /** Toggling an absent value twice gives back the list exactly. */
  lemma ToggleTwiceAbsent(list: seq<string>, v: string)
    requires v !in list
    ensures TogglePainType(TogglePainType(list, v), v) == list
  {
    FilterAppend(list, [v], (x: string) => x != v);
    FilterAllKept(list, v);
    assert Filter([v], (x: string) => x != v) == [];
  }

  /** Toggling a present value twice keeps the same entries, but the value moves to the end. */
  lemma ToggleTwicePresent(list: seq<string>, v: string)
    requires v in list
    ensures multiset(TogglePainType(TogglePainType(list, v), v)) == multiset(Without(list, v)) + multiset{v}
    ensures TogglePainType(TogglePainType(list, v), v) == Without(list, v) + [v]
  {
  }

  lemma ToggleTwiceReorders()
    ensures TogglePainType(TogglePainType(["constant", "night"], "constant"), "constant") == ["night", "constant"]
  {
    assert "night" != "constant";
    assert Without(["constant", "night"], "constant") == ["night"];
  }

  /** The answers on the four screens. */
  datatype Answers = Answers(
    chiefComplaint: string,
    symptomDuration: string,
    painLevel: int,
    painType: seq<string>,
    medicalHistory: seq<string>,
    currentMedications: string,
    allergies: string,
    dentalAnxiety: string,
    smokingStatus: string,
    pregnancyStatus: string)

  const EmptyAnswers := Answers("", "", 0, [], [], "", "", "", "", "")

  /**
   * The row written to `interviews`: medical history comma-joined, smoking
   * true only for "yes", empty medications and allergies as null. The pain
   * types are not part of it.
   */
  function BuildPayload(patientId: Id, reservationId: Id, a: Answers): (rec: InterviewRecord)
    ensures rec.patientId == patientId && rec.reservationId == reservationId
    ensures rec.medicalHistory == Join(a.medicalHistory, ',')
    ensures rec.lifestyleSmoking <==> a.smokingStatus == "yes"
    ensures rec.currentMedications == NullIfEmpty(a.currentMedications) && rec.allergies == NullIfEmpty(a.allergies)
    ensures rec.chiefComplaint == a.chiefComplaint && rec.painLevel == a.painLevel
  {
    InterviewRecord(0, patientId, reservationId, a.chiefComplaint, a.symptomDuration, a.painLevel,
                    Join(a.medicalHistory, ','), NullIfEmpty(a.currentMedications), NullIfEmpty(a.allergies),
                    a.dentalAnxiety, a.smokingStatus == "yes", a.pregnancyStatus)
  }

  /** The pain-type answers never reach the store. */
  lemma PayloadIgnoresPainType(patientId: Id, reservationId: Id, a: Answers, other: seq<string>)
    ensures BuildPayload(patientId, reservationId, a.(painType := other)) == BuildPayload(patientId, reservationId, a)
  {
  }

  /** The comma-joined history splits back into the chosen entries, none of which contains a comma. */
  lemma MedicalHistoryRecoverable(patientId: Id, reservationId: Id, a: Answers)
    requires a.medicalHistory != []
    requires forall k :: 0 <= k < |a.medicalHistory| ==> ',' !in a.medicalHistory[k]
    ensures Split(BuildPayload(patientId, reservationId, a).medicalHistory, ',') == a.medicalHistory
  {
    SplitJoin(a.medicalHistory, ',');
  }

  /** The screen numbers. */
  type Step = s: nat | 1 <= s <= 4 witness 1

  datatype StepButton = Next | Back

  /**
   * The step after pressing a button on the current screen: screen 1 has only
   * "next", enabled when the chief complaint is filled; screens 2 and 3 have
   * both; screen 4 has only "back" (and the submit button).
   */
  function StepAfter(step: Step, b: StepButton, chiefComplaint: string): (r: Step)
    ensures r == step || r == step + 1 || r == step - 1
    ensures step == 1 && r != 1 ==> r == 2 && chiefComplaint != ""
  {
    match b
    case Next => if step == 1 then (if chiefComplaint != "" then 2 else 1) else if step < 4 then step + 1 else step
    case Back => if step > 1 then step - 1 else step
  }

  function Run(step: Step, presses: seq<StepButton>, chiefComplaint: string): Step
    decreases |presses|
  {
    if presses == [] then step else Run(StepAfter(step, presses[0], chiefComplaint), presses[1..], chiefComplaint)
  }

  /**
   * Starting on screen 1, no sequence of presses leaves it while the chief
   * complaint is empty, and reaching screen `k` takes at least `k - 1` presses.
   */
  lemma {:induction false} RunBounds(step: Step, presses: seq<StepButton>, chiefComplaint: string)
    ensures Run(step, presses, chiefComplaint) <= step + |presses|
    ensures step == 1 && chiefComplaint == "" ==> Run(step, presses, chiefComplaint) == 1
    decreases |presses|
  {
    if presses != [] {
      RunBounds(StepAfter(step, presses[0], chiefComplaint), presses[1..], chiefComplaint);
    }
  }

  datatype SubmitOutcome = NavigatedToComplete(reservationId: Id) | ErrorShown

  class InterviewForm {
    var currentStep: Step
    var answers: Answers
    var submitting: bool
    var errorShown: bool

    constructor ()
      ensures currentStep == 1 && answers == EmptyAnswers && !submitting && !errorShown
    {
      currentStep := 1;
      answers := EmptyAnswers;
      submitting, errorShown := false, false;
    }

    method TogglePain(v: string)
      modifies this`answers
      ensures answers == old(answers).(painType := TogglePainType(old(answers).painType, v))
    {
      answers := answers.(painType := TogglePainType(answers.painType, v));
    }

    method ToggleHistory(v: string)
      modifies this`answers
      ensures answers == old(answers).(medicalHistory := ToggleMedicalHistory(old(answers).medicalHistory, v))
    {
      answers := answers.(medicalHistory := ToggleMedicalHistory(answers.medicalHistory, v));
    }

    /** The text fields and single-choice buttons: each sets its own answer and nothing else. */
    method SetChiefComplaint(v: string)
      modifies this`answers
      ensures answers == old(answers).(chiefComplaint := v)
    {
      answers := answers.(chiefComplaint := v);
    }

    method SetSymptomDuration(v: string)
      modifies this`answers
      ensures answers == old(answers).(symptomDuration := v)
    {
      answers := answers.(symptomDuration := v);
    }

    /** The range input, read back with `Number`. */
    method SetPainLevel(v: int)
      modifies this`answers
      ensures answers == old(answers).(painLevel := v)
    {
      answers := answers.(painLevel := v);
    }

    method SetCurrentMedications(v: string)
      modifies this`answers
      ensures answers == old(answers).(currentMedications := v)
    {
      answers := answers.(currentMedications := v);
    }

    method SetAllergies(v: string)
      modifies this`answers
      ensures answers == old(answers).(allergies := v)
    {
      answers := answers.(allergies := v);
    }

    method SetDentalAnxiety(v: string)
      modifies this`answers
      ensures answers == old(answers).(dentalAnxiety := v)
    {
      answers := answers.(dentalAnxiety := v);
    }

    method SetSmokingStatus(v: string)
      modifies this`answers
      ensures answers == old(answers).(smokingStatus := v)
    {
      answers := answers.(smokingStatus := v);
    }

    method SetPregnancyStatus(v: string)
      modifies this`answers
      ensures answers == old(answers).(pregnancyStatus := v)
    {
      answers := answers.(pregnancyStatus := v);
    }

    /** A filled chief complaint opens the way from screen 1 to screen 2. */
    method CompleteFirstScreen(v: string)
      requires currentStep == 1 && v != ""
      modifies this`answers, this`currentStep
      ensures currentStep == 2 && answers == old(answers).(chiefComplaint := v)
    {
      SetChiefComplaint(v);
      Press(Next);
    }

    method Press(b: StepButton)
      modifies this`currentStep
      ensures currentStep == StepAfter(old(currentStep), b, answers.chiefComplaint)
    {
      currentStep := StepAfter(currentStep, b, answers.chiefComplaint);
    }

    /**
     * `handleSubmit`: insert the answers, then set `interview_completed` on the
     * reservation. A failed insert stops before the update; on success only
     * the rows with the given id are flagged.
     */
    method HandleSubmit(store: ClinicStore, patientId: Id, reservationId: Id, insertFails: bool, updateFails: bool)
      returns (outcome: SubmitOutcome)
      requires store.Valid()
      modifies this`submitting, this`errorShown, store
      ensures store.Valid() && !submitting
      ensures store.patients == old(store.patients) && store.units == old(store.units)
      ensures errorShown <==> outcome == ErrorShown
      ensures insertFails ==> outcome == ErrorShown
      ensures insertFails ==> store.interviews == old(store.interviews) && store.reservations == old(store.reservations)
      ensures !insertFails ==>
        store.interviews == old(store.interviews) + [BuildPayload(patientId, reservationId, answers).(id := old(store.nextId))]
      ensures !insertFails ==>
        store.reservations == (if updateFails then old(store.reservations) else MarkInterviewed(old(store.reservations), reservationId))
      ensures outcome == (if insertFails || updateFails then ErrorShown else NavigatedToComplete(reservationId))
    {
      submitting := true;
      errorShown := false;
      var inserted := store.InsertInterview(BuildPayload(patientId, reservationId, answers), insertFails);
      if !inserted {
        errorShown := true;
        submitting := false;
        return ErrorShown;
      }
      var updated := store.SetInterviewCompleted(reservationId, updateFails);
      if !updated {
        errorShown := true;
        outcome := ErrorShown;
      } else {
        outcome := NavigatedToComplete(reservationId);
      }
      submitting := false;
    }
  }
}
