# dental-os scheduling core, modelled in Dafny

dental-os is a dental clinic front end. It has a public booking flow, a staff
calendar and reservation list, a staff form for new reservations, an intake
questionnaire and a unit (treatment chair) settings page. All of them work
against one hosted table store. This project models the scheduling and
booking rules in those pages, and proves what they promise.

How the model is set up:

- **The store** is the class `Store.ClinicStore`. It has sequences of patients,
  reservations, units and questionnaire rows, plus an id counter and a
  patient-number counter.
- **Store calls.** Each call the pages make is a method on the store. Whether
  the call fails is a boolean parameter, so every error path can be stated.
- **Queries.** Filters and orderings are functions over the rows: `Seqs.Filter`
  keeps store order, and `Seqs.SortBy` is an insertion sort proved sorted and a
  permutation.
- **Dates and times.** A date is a day number (0 is 1970-01-01, a Thursday),
  with a weekday function. A start time is a number of minutes since midnight,
  shown as "HH:MM". "Now" is an explicit parameter: milliseconds since local
  midnight of day 0.
- **Pages.** Each page whose state changes is a class, with one field per piece
  of page state and one method per handler. Its pure parts are functions and
  lemmas beside it.

Modules:

| module | what it holds |
|---|---|
| `Supabase` | the row types and their enumerations |
| `Store` | the store class and its updates |
| `Seqs`, `Text`, `Clock` | sequences, strings (digits, pad, split/join, trim, case-insensitive search), calendar arithmetic and "HH:MM" labels |
| `Booking` | the public week/slot grid |
| `AdminCalendar` | the staff day grid |
| `GridContrast` | where the public grid and the staff grid differ |
| `NewReservation` | the staff reservation form |
| `BookingConfirm` | the public confirmation step |
| `Interview` | the intake questionnaire |
| `ReservationList` | the staff reservation list |
| `Dashboard` | the staff home page |
| `Units`, `UnitSettings` | unit listings and unit management |

Three behaviours of the code that a reader may not expect:

- **Toggling a pain type twice.** With a duplicate-free list, this gives back
  the list only when the value was absent. When it was present, the value comes
  back at the end of the list (`Interview.ToggleTwiceReorders`).
- **`.single()` phone lookup.** The lookup reuses a patient only when exactly
  one patient has the phone. With two or more, it creates yet another patient.
- **Next unit number.** It is one more than the highest number on screen. It is
  at least 1 only when no number on screen is negative.

## Model

| member | source | states |
|---|---|---|
| `Supabase.StatusesExhaustive` | lib/supabase.ts:39 | a status is one of seven values; the seven have distinct names, and each name reads back as its status |
| `Supabase.ParseStatus` | lib/supabase.ts:39 | any name it accepts is the name of the status it returns |
| `Supabase.CategoryRoundTrip` | lib/supabase.ts:38 | each of the six categories reads back from its name (the row's category is optional) |
| `Supabase.SourceRoundTrip` | lib/supabase.ts:40 | each of the five sources reads back from its name (the row's source is optional) |
| `Supabase.GenderRoundTrip` | lib/supabase.ts:17 | male, female and other read back from their names |
| `Supabase.ParseGender` | lib/supabase.ts:17 | an accepted name is the gender's name; the empty selection is no gender |
| `Clock.WeekStart` | app/booking/page.tsx:10 | the week start is a Sunday, on or before the day and less than 7 days before it |
| `Clock.ParseTimeLabel` | app/booking/page.tsx:33-36 | splitting an "HH:MM" label on ':' and reading both numbers gives back the hour and minute |
| `Clock.TimeLabelInjective` | app/calendar/page.tsx:86 | two start times with the same "HH:MM" label are the same minute |
| `Booking.TimeSlotsShape` | app/booking/page.tsx:17-21 | 18 labels from "09:00" to "17:30", 30 minutes apart, strictly ascending, each parsing back to its hour and minute |
| `Booking.WeekDates` | app/booking/page.tsx:27 | seven consecutive days from the week start |
| `Booking.WeekQueryCoversWeek` | app/booking/page.tsx:46-47 | the fetched range [start, start+6] is exactly the seven shown days |
| `Booking.CollectReservedSlots` | app/booking/page.tsx:56-63 | the loop's map has a key for exactly the dates of the rows, and each key lists that date's "HH:MM" starts |
| `Booking.TimesOnMem` | app/booking/page.tsx:62 | a label is listed for a date exactly when some row on that date starts at it |
| `Booking.PastDateIff` | app/booking/page.tsx:77 | "before now and not today" holds exactly for dates before today |
| `Booking.SlotAvailableIff` | app/booking/page.tsx:69-93 | a slot is available exactly when it is not on Sunday, not on a past date, not earlier than now on today (a slot at now stays open), and not among the date's occupied labels |
| `Booking.ClosedDayUnavailable` | app/booking/page.tsx:24 | no slot on a Sunday is available, whatever the reservations |
| `Booking.AvailableImpliesSelectable` | app/booking/page.tsx:173-176 | a date with an available slot has an enabled date button |
| `Booking.OccupiedIff` | app/booking/page.tsx:49-62 | a slot is occupied exactly when a live reservation on that date starts at that minute, whatever its unit |
| `Booking.AvailableAgainstStore` | app/booking/page.tsx:44-93 | availability stated directly against the store rows: closed day, past date, past time today, or a live reservation at that date and minute |
| `Booking.CancelledNeverOccupies` | app/booking/page.tsx:54 | adding a cancelled reservation never changes the occupancy map |
| `Booking.BookingPage.constructor` | app/booking/page.tsx:10-14 | the page opens on the week containing today, with nothing selected and nothing loaded |
| `Booking.BookingPage.FetchReservedSlots` | app/booking/page.tsx:44-67 | on success the occupancy map is built from the week's live rows; on error it is kept; the week and selection do not change |
| `Booking.BookingPage.HandleDateSelect` | app/booking/page.tsx:95-99 | choosing a date selects it and clears the selected time |
| `Booking.BookingPage.ClickDate` | app/booking/page.tsx:173-182 | a click selects the date only when it is neither closed nor past; otherwise nothing changes |
| `Booking.BookingPage.ClickTime` | app/booking/page.tsx:101-103 | a click selects the time only when a date is selected and the slot is available |
| `Booking.BookingPage.HandlePrevWeek` | app/booking/page.tsx:105-109 | the week moves back 7 days; date and time are cleared; the map is reloaded for the new week, or kept on error (the effect at lines 40-42) |
| `Booking.BookingPage.HandleNextWeek` | app/booking/page.tsx:111-115 | the week moves forward 7 days; date and time are cleared; the map is reloaded for the new week, or kept on error (the effect at lines 40-42) |
| `Booking.BookingPage.NextLink` | app/booking/page.tsx:238-243 | the "next" link exists exactly when both a date and a time are selected, and carries them |
| `Booking.NextThenPrevWeek` | app/booking/page.tsx:105-115 | next and then previous week restores the week start, with the selection cleared and, after a successful reload, that week's map (the effect at lines 40-42) |
| `AdminCalendar.TimeSlotsShape` | app/calendar/page.tsx:17-23 | 20 labels from "09:00" to "18:30", row i at 9:00 + 30·i minutes, strictly ascending |
| `AdminCalendar.DayQueryExact` | app/calendar/page.tsx:55-57 | the loaded rows are exactly the live rows on the current date, each as often as in the store, ordered by start time |
| `AdminCalendar.ForSlotExact` | app/calendar/page.tsx:83-88 | a cell holds exactly the loaded rows with the column's unit and the row's start time, each as often as loaded, in loaded order; a row with no unit is in no column |
| `Seqs.FilterSubsequence` | app/calendar/page.tsx:84-87 | filtering keeps the kept rows in their original relative order |
| `AdminCalendar.DoubleBookingShown` | app/calendar/page.tsx:172 | two loaded rows on the same unit and time both appear in that cell |
| `AdminCalendar.CellClick` | app/calendar/page.tsx:178-182 | a click opens the new-reservation form, with date, time and unit, exactly when the cell is empty |
| `AdminCalendar.CalendarPage.constructor` | app/calendar/page.tsx:10-13 | the page opens on today with nothing loaded |
| `AdminCalendar.CalendarPage.FetchUnits` | app/calendar/page.tsx:33-41 | the columns become the active units by number; on error they stay |
| `AdminCalendar.CalendarPage.FetchReservations` | app/calendar/page.tsx:43-63 | the rows become the current date's live rows by start time; on error they stay |
| `AdminCalendar.CalendarPage.HandlePrevDay` | app/calendar/page.tsx:90-92 | the date moves back one day; the rows are reloaded for the new date, or kept on error; the unit columns stay (the effect at lines 29-31) |
| `AdminCalendar.CalendarPage.HandleNextDay` | app/calendar/page.tsx:94-96 | the date moves forward one day; the rows are reloaded for the new date, or kept on error; the unit columns stay (the effect at lines 29-31) |
| `AdminCalendar.CalendarPage.HandleToday` | app/calendar/page.tsx:98-100 | the date becomes today; the rows are reloaded for the new date, or kept on error; the unit columns stay (the effect at lines 29-31) |
| `GridContrast.BookingGridIsCalendarPrefix` | app/booking/page.tsx:17-38 | the public grid is the first 18 calendar rows; "18:00" and "18:30" exist only in the calendar |
| `GridContrast.OneUnitBlocksPublicSlot` | app/calendar/page.tsx:83-88 | a lone live reservation on one unit closes the public slot for all, but sits only in its unit's cell (exactly `[r]` when reservation ids are distinct, as in a valid store); other units' cells stay empty |
| `Units.ByNumber` | app/settings/units/page.tsx:18-21 | the listing is ordered by unit number and holds exactly the stored units |
| `Units.ActiveByNumber` | app/calendar/page.tsx:34-38 | the active units, ordered by unit number |
| `Units.FirstActiveIsLowest` | app/reservations/new/page.tsx:53-63 | the first active unit has the lowest number among active units |
| `NewReservation.TimeOptionsAreCalendarRows` | app/reservations/new/page.tsx:42-46 | the 20 time options are exactly the calendar's rows, "09:00" to "18:30" |
| `NewReservation.SearchQuery` | app/reservations/new/page.tsx:73-77 | the first min(matches, 10) matching patients in store order; each contains the query, ignoring case, in its phone, last name or first name |
| `NewReservation.DefaultUnitIsLowestActive` | app/reservations/new/page.tsx:59-63 | with no preset unit, the default is the lowest-numbered active unit |
| `NewReservation.ManualDraft` | app/reservations/new/page.tsx:135-146 | the row is confirmed, entered manually, for the given patient, date and time; an empty unit becomes null |
| `NewReservation.NewPatientDraft` | app/reservations/new/page.tsx:114-124 | names and phone as typed, kana kept, an empty birth date stored as null |
| `NewReservation.NewReservationForm.constructor` | app/reservations/new/page.tsx:13-39 | opens with no patient named, the date from the link or today, the preset time and unit, and the defaults male and treatment |
| `NewReservation.NewReservationForm.FetchUnits` | app/reservations/new/page.tsx:52-65 | loads the active units and, with none preset, picks the first |
| `NewReservation.NewReservationForm.SearchPatients` | app/reservations/new/page.tsx:67-82 | a query shorter than 2 UTF-16 code units clears the results without a lookup; otherwise the results are the store's search answer, or kept on error |
| `NewReservation.NewReservationForm.HandleSearchChange` | app/reservations/new/page.tsx:84-88 | the field takes the typed query and the search runs on it, with the same UTF-16 length guard |
| `Text.Utf16Length` | app/reservations/new/page.tsx:68 | JavaScript `length`: between one and two code units per character, one each when no character is outside the Basic Multilingual Plane |
| `Text.AstralCharLength` | app/reservations/new/page.tsx:68 | a single character such as U+20BB7 already has length 2, so it passes the guard |
| `NewReservation.NewReservationForm.SelectPatient` | app/reservations/new/page.tsx:90-95 | the patient is chosen, search cleared, "new patient" off |
| `NewReservation.NewReservationForm.HandleNewPatient` | app/reservations/new/page.tsx:97-100 | "new patient" on and the chosen patient cleared, so the two modes are never both active |
| `NewReservation.NewReservationForm.ClearSelectedPatient` | app/reservations/new/page.tsx:240 | the chosen patient is cleared |
| `NewReservation.NewReservationForm.CancelNewPatient` | app/reservations/new/page.tsx:256 | "new patient" is switched off |
| `NewReservation.NewReservationForm.HandleSubmit` | app/reservations/new/page.tsx:102-157 | with no patient named: the error and no writes; a chosen patient is reused; a new patient is inserted first, and if that fails no reservation is written; success exactly when both steps succeed |
| `NewReservation.NewReservationForm.Submit` | app/reservations/new/page.tsx:434 | a disabled or incomplete form writes nothing; the "no patient" error cannot arise through the button |
| `BookingConfirm.ExistingByPhone` | app/booking/confirm/page.tsx:50-54 | the lookup finds a patient exactly when one patient has that phone, and it is that patient |
| `BookingConfirm.WebPatientDraft` | app/booking/confirm/page.tsx:63-74 | the new patient has the given phone and names; empty kana, birth date, gender and email become null |
| `BookingConfirm.WebDraft` | app/booking/confirm/page.tsx:83-94 | the reservation is confirmed, from the web, questionnaire not done, no unit, an empty note as null |
| `BookingConfirm.HandleConfirm` | app/booking/confirm/page.tsx:44-109 | reuse when the lookup finds a patient, otherwise insert one; no reservation after a failed patient insert; the reservation is written without an occupancy check; success carries the new reservation id and the patient id |
| `BookingConfirm.SecondConfirmReuses` | app/booking/confirm/page.tsx:50-60 | once the phone belongs to exactly one patient, a second lookup finds that patient |
| `BookingConfirm.DuplicatePhoneNeverReused` | app/booking/confirm/page.tsx:50-54 | when two or more patients share the phone, the lookup finds none |
| `BookingConfirm.ConfirmTwice` | app/booking/confirm/page.tsx:44-109 | two confirmations with a new phone leave one patient with that phone, the same patient id, and two confirmed reservations in the same slot |
| `Interview.TogglePainType` | app/interview/page.tsx:73-79 | the value's membership flips and every other value's is unchanged; an absent value is appended at the end, and removing a present one keeps the others in their order |
| `Interview.ToggleMedicalHistory` | app/interview/page.tsx:82-92 | "none" gives exactly ["none"]; any other value removes "none" and flips its own membership, leaving the rest in their order; a new value goes at the end of the "none"-free list |
| `Interview.MedicalHistoryNoneExclusive` | app/interview/page.tsx:85-90 | after any toggle, "none" never appears beside another value |
| `Interview.TogglesKeepNoDup` | app/interview/page.tsx:74-78 | both toggles keep a duplicate-free list duplicate-free |
| `Interview.ToggleTwiceAbsent` | app/interview/page.tsx:73-79 | toggling an absent value twice restores the list exactly |
| `Interview.ToggleTwicePresent` | app/interview/page.tsx:73-79 | toggling a present value twice keeps the same entries, with that value moved to the end |
| `Interview.ToggleTwiceReorders` | app/interview/page.tsx:73-79 | a concrete list whose order changes after toggling a present value twice |
| `Interview.BuildPayload` | app/interview/page.tsx:102-114 | medical history comma-joined; smoking true exactly for "yes"; empty medications or allergies become null |
| `Interview.PayloadIgnoresPainType` | app/interview/page.tsx:102-114 | the pain-type answers never change the stored row |
| `Interview.MedicalHistoryRecoverable` | app/interview/page.tsx:108 | the joined history splits back into the chosen values |
| `Interview.StepAfter` | app/interview/page.tsx:273-275 | a press moves at most one step within 1..4; leaving step 1 requires a chief complaint |
| `Interview.RunBounds` | app/interview/page.tsx:137 | with an empty complaint, no press sequence leaves step 1; reaching step k takes at least k−1 presses |
| `Interview.InterviewForm.constructor` | app/interview/page.tsx:17-30 | starts at step 1 with empty answers |
| `Interview.InterviewForm.TogglePain` | app/interview/page.tsx:73-79 | only the pain-type list changes, by the toggle |
| `Interview.InterviewForm.ToggleHistory` | app/interview/page.tsx:82-92 | only the medical-history list changes, by the toggle |
| `Interview.InterviewForm.SetChiefComplaint` | app/interview/page.tsx:200 | only the chief complaint changes |
| `Interview.InterviewForm.SetSymptomDuration` | app/interview/page.tsx:213 | only the symptom duration changes |
| `Interview.InterviewForm.SetPainLevel` | app/interview/page.tsx:238 | only the pain level changes |
| `Interview.InterviewForm.SetCurrentMedications` | app/interview/page.tsx:320 | only the medications answer changes |
| `Interview.InterviewForm.SetAllergies` | app/interview/page.tsx:333 | only the allergies answer changes |
| `Interview.InterviewForm.SetDentalAnxiety` | app/interview/page.tsx:375 | only the dental-anxiety choice changes |
| `Interview.InterviewForm.SetSmokingStatus` | app/interview/page.tsx:401 | only the smoking choice changes |
| `Interview.InterviewForm.SetPregnancyStatus` | app/interview/page.tsx:428 | only the pregnancy choice changes |
| `Interview.InterviewForm.CompleteFirstScreen` | app/interview/page.tsx:198-276 | typing a non-empty complaint on screen 1 and pressing next reaches screen 2 |
| `Interview.InterviewForm.Press` | app/interview/page.tsx:343-350 | the step changes as the pressed button says |
| `Interview.InterviewForm.HandleSubmit` | app/interview/page.tsx:94-135 | the answers are inserted first; a failed insert leaves the reservations untouched; on success only the given reservation's questionnaire flag is set; completion exactly when both succeed |
| `ReservationList.ListQueryExact` | app/reservations/page.tsx:30-37 | the listing holds exactly the rows dated from..to inclusive that the status filter admits ("all" admits every status), each as often as stored |
| `ReservationList.KeyIsLexicographic` | app/reservations/page.tsx:32-33 | the combined sort key orders by date, then start time |
| `ReservationList.ListQueryOrdered` | app/reservations/page.tsx:32-33 | earlier rows are on an earlier date, or the same date at an earlier or equal start |
| `ReservationList.AllShowsCancelled` | app/reservations/page.tsx:35-37 | with "all", cancelled rows in range are listed |
| `ReservationList.ReversedRangeEmpty` | app/reservations/page.tsx:30-31 | a start date after the end date lists nothing |
| `ReservationList.OnlyWithinAll` | app/reservations/page.tsx:35-37 | one status never lists more than "all" |
| `ReservationList.ReservationListPage.constructor` | app/reservations/page.tsx:10-14 | the range starts at today..today with "all" |
| `ReservationList.ReservationListPage.FetchReservations` | app/reservations/page.tsx:20-45 | on success the rows become the query's answer; on error they stay |
| `ReservationList.ReservationListPage.ChangeFilters` | app/reservations/page.tsx:16-18 | changing a filter re-runs the query with the new values |
| `Dashboard.StatsOf` | app/page.tsx:46-51 | today is the row count; the other three count rows of their status |
| `Dashboard.StatusPartition` | app/page.tsx:48-50 | the seven per-status counts add up to the number of rows |
| `Dashboard.CountersAddUp` | app/page.tsx:40-50 | today's rows hold no cancelled row, so confirmed + checked-in + completed + the rest equals today, and the three never exceed it |
| `Dashboard.DashboardPage.constructor` | app/page.tsx:10-17 | the counters start at zero and agree with the empty list |
| `Dashboard.DashboardPage.FetchData` | app/page.tsx:25-55 | on success, today's live rows by start time; on error the list and counters stay; the counters always describe the list |
| `UnitSettings.MaxNumber` | app/settings/units/page.tsx:31 | no number exceeds the maximum, and some unit has it |
| `UnitSettings.NextNumber` | app/settings/units/page.tsx:31 | 1 for no units; otherwise above every number on screen and one past the highest; at least 1 when no number is negative |
| `UnitSettings.FreshNumberWhenListCurrent` | app/settings/units/page.tsx:31 | when the screen shows the stored units, the new number is used by no stored unit |
| `UnitSettings.SetActiveTwice` | app/settings/units/page.tsx:48-52 | flipping a unit's flag and flipping it back restores the table |
| `UnitSettings.UnitSettingsPage.constructor` | app/settings/units/page.tsx:7-10 | starts empty and loading |
| `UnitSettings.UnitSettingsPage.FetchUnits` | app/settings/units/page.tsx:16-25 | the list becomes every unit by number; without data it stays |
| `UnitSettings.UnitSettingsPage.AddUnit` | app/settings/units/page.tsx:27-46 | a blank name (after trimming) changes nothing; otherwise the untrimmed name is stored as an active unit with the next number; on success the field is cleared and the list reloaded |
| `UnitSettings.UnitSettingsPage.ToggleUnitActive` | app/settings/units/page.tsx:48-55 | only rows with the unit's id change, to the negation of the shown flag; then the list is reloaded |
| `UnitSettings.UnitSettingsPage.DeleteUnit` | app/settings/units/page.tsx:57-66 | declining changes nothing; confirming removes exactly the rows with that id |
| `Store.MarkInterviewed` | app/interview/page.tsx:118-121 | the row with the id gets the questionnaire flag; all others are unchanged |
| `Store.SetActive` | app/settings/units/page.tsx:49-52 | the row with the id gets the new flag; all others are unchanged |
| `Store.DeleteById` | app/settings/units/page.tsx:60-63 | exactly the rows without that id remain, and ids stay distinct |
| `Store.ClinicStore.constructor` | lib/supabase.ts:9-46 | an empty store, with ids below the counter and distinct in every table |
| `Store.ClinicStore.InsertPatient` | app/reservations/new/page.tsx:114-126 | a success appends the row under a fresh id and the next patient number; a failure writes nothing |
| `Store.ClinicStore.InsertReservation` | app/booking/confirm/page.tsx:83-96 | a success appends the row under a fresh id; a failure writes nothing |
| `Store.ClinicStore.InsertUnit` | app/settings/units/page.tsx:33-39 | a success appends the row under a fresh id |
| `Store.ClinicStore.InsertInterview` | app/interview/page.tsx:100-114 | a success appends the row under a fresh id |
| `Store.ClinicStore.SetInterviewCompleted` | app/interview/page.tsx:118-121 | a success sets the flag on the id's rows; other tables untouched |
| `Text.SplitJoin` | app/interview/page.tsx:108 | joining comma-free parts with ',' and splitting again gives the parts |
| `Text.TrimBlank` | app/settings/units/page.tsx:28 | a trimmed name is empty exactly when every character is whitespace |

## Left out

- **Network and library internals.** Calls to the table store, the PostgREST
  query builder and `.single()` internals are not modelled. Each call is a
  store method with a failure flag. Rows carry no `created_at`, and joined
  `patients`/`units` objects are not modelled.
- **`Date` and date-fns.** Internals, time zones, daylight-saving time and
  locale formatting are replaced by day numbers, a weekday function and minute
  counts. Dates held as "yyyy-MM-dd" strings are day numbers, so string
  comparison of dates is integer comparison.
- **End times.** The optional `end_time` column of a reservation is not
  modelled.
- **Search matching.** Case folding is ASCII only. `%` and `_` in a query are
  treated as ordinary characters, not wildcards. PostgREST treats `,` and
  parentheses in a query as syntax; this is not modelled. The order of search
  results is store order.
- **JavaScript `Number`.**
  - `Clock.ParseTime` reads decimal digits only. Surrounding whitespace, signs
    and hexadecimal forms are not modelled.
  - Trimming uses the JavaScript whitespace set.
- **URL parameters.** Reading them is not modelled. Their values are
  constructor arguments, and a missing `reservation_id` or `patient_id` on the
  questionnaire is not modelled. On the booking confirmation, a missing
  `category` is written as `''` and an unrecognised `gender` string is written
  as it stands (app/booking/confirm/page.tsx:23, 26, 71, 89); the model writes
  null for both, and only a hand-edited URL reaches either case.
- **Concurrency.** Two browser sessions booking at once, React re-renders and
  un-awaited reloads are not modelled. A reload happens in program order after
  the write it follows. A `useEffect` reload runs right after the state change
  that triggers it, inside the same handler (the list filters, the calendar's
  date buttons and the booking page's week buttons). Buttons disabled while loading are modelled only where
  a predicate states them (`NewReservation.NewReservationForm.SubmitEnabled`).
- **Patient on the questionnaire.** The questionnaire's `fetchPatient` only
  displays a name, so it is not modelled.
- **Rendering.** JSX rendering, colours, label tables and the questionnaire
  progress-bar percentage (floating point) are not modelled.
- **Week view.** The calendar's `viewMode` week option is never offered by the
  page, so only the day view is modelled.
- **Admin reservation insert.** Its row does not set `interview_completed`; the
  model assumes the store default, false.
- **Status changes and waiting lists.** No status change after creation,
  check-in flow or waiting list exists in these pages, and none is modelled.
- **Other files.** The OCR route, the staff settings page, layouts and the
  `(admin)` and `(public)` route groups are not part of this model.
- `Interview.ToggleTwiceAbsent`: restores the list only for a value that was
  absent. For a present value, `Interview.ToggleTwicePresent` states the move to
  the end instead.
- `UnitSettings.NextNumber`: at least 1 only when no number on screen is
  negative. The code takes the maximum of whatever numbers are stored.
