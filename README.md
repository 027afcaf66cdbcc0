# MediBook front end — a verified model of its logic

MediBook is a React front end for booking medical appointments. Patients
search doctors, book free slots, review doctors, chat with doctors or an
assistant bot, and join video consultations. Doctors publish their weekly
availability, close appointments and record consultation details.

This project models in Dafny the logic behind those screens:

- the conversation list of the chat widget: the pair key of a conversation,
  the fold of appointments into conversations, the merge with the server's
  conversations, the socket events, and sending a message;
- the doctor's availability editor and the patient's slot booking;
- the doctor's dashboard (appointment lists, counts, free slots in the
  coming fourteen days);
- the teleconsultation window and the patient's dashboard timers;
- the appointment-history form;
- the review modal;
- the doctor search;
- the profile page and the profile-completion wizard;
- the shared authentication store.

Each source file is one module:

- `Chat`, `Availability`, `Scheduler`, `DoctorDashboard`,
  `Teleconsultation`, `PatientDashboard`, `HistoryModal`, `Reviews`,
  `DoctorSearch`, `Profile`, `ProfileCompletion` and `AuthStore` model the
  source files;
- `Strings` holds the JavaScript string behaviour they share: character-code
  order, `trim`, `toLowerCase`, `includes`, the default `sort`, and
  what `filter` keeps;
- `Wrappers` holds `Option`, `Response` and `Fetched`.

How the model is built:

- **Classes:** a component whose handlers update its state is a `class`.
  Its `useState` fields are fields, and each handler is a method whose
  `ensures` clauses give the whole new state.
- **Pure logic:** filters, folds, validators and request choices are
  functions, and their properties are lemmas.
- **Outside inputs:** server answers are parameters of type `Response`
  (`Ok(payload)` or `Failed(message)`). Where a handler's `catch` does
  something of its own, the answer is a `Fetched` instead, whose `Threw`
  case is a rejected `fetch` or a body that is not JSON. The clock (`now`)
  and stored browser values are parameters too.
- **Instants:** milliseconds in the chat, the teleconsultation modal and
  the patient dashboard. Minutes in the doctor dashboard, where a
  `yyyy-MM-dd` date key is a day number.
- **Falsy values:** a JavaScript value that may be `null` or empty is an
  `Option`, or the empty string where only its falsiness matters.

## Model

| member | source | states |
|---|---|---|
| Chat.ConversationId | src/components/Chat.tsx:113-115 | the key starts with "conv_" and is exactly as long as "conv_", both ids and one separator |
| Chat.ConversationIdSorted | src/components/Chat.tsx:113-115 | the id that comes first in JavaScript string order is written first |
| Chat.ConversationIdSymmetric | src/components/Chat.tsx:113-115 | both users of a pair compute the same key |
| Chat.OtherUserFromAppointment | src/components/Chat.tsx:219-227 | a patient's counterpart is the doctor; a doctor's is the patient profile, or a placeholder "Patient" party when only the patient's id is known |
| Chat.OtherUserFromConversation | src/components/Chat.tsx:229-231 | the result is a participant other than the user, and every participant before it is the user; there is none exactly when every participant is the user |
| Chat.IndexOf | src/components/Chat.tsx:118-120 | the first position holding the id; none exactly when the id is absent |
| Chat.AppointmentConversationsUnique | src/components/Chat.tsx:110-142 | the appointment fold yields at most one conversation per key |
| Chat.AppointmentConversationsEntries | src/components/Chat.tsx:131-137 | each folded conversation has no message, no unread count, one participant matching its key, and as latest appointment one of the inputs with that key |
| Chat.AppointmentConversationsCover | src/components/Chat.tsx:122-129 | every appointment's conversation is listed, with a latest appointment no older than it |
| Chat.AppointmentConversations | src/components/Chat.tsx:110-142 | the fold yields at most one conversation per appointment |
| Chat.AppointmentStep | src/components/Chat.tsx:111-139 | one callback of the appointment fold: the accumulator it returns is exactly one more step of the fold |
| Chat.FoldAppointments | src/components/Chat.tsx:110-142 | the loop builds exactly the folded conversation list |
| Chat.MergedIds | src/components/Chat.tsx:175-205 | the merge keeps the input ids once each, in first-seen order |
| Chat.MergedUniqueAndFirst | src/components/Chat.tsx:175-205 | merged ids are unique, are exactly the input ids, and the first input (the bot) stays first |
| Chat.MergedUnread | src/components/Chat.tsx:200 | a merged entry's unread count is the sum over all inputs with its id |
| Chat.MergedLastMessage | src/components/Chat.tsx:184-191 | a merged entry keeps a last message from an input with its id, no other such input has a strictly newer one, and it has none only when no such input has one |
| Chat.MergedLatestAppointment | src/components/Chat.tsx:192-199 | the same for the latest appointment, by date |
| Chat.Merged | src/components/Chat.tsx:175-205 | the merge never lengthens the list |
| Chat.MergeStep | src/components/Chat.tsx:179-204 | one callback of the merge: the accumulator it returns is exactly one more step of the merge |
| Chat.MergeConversations | src/components/Chat.tsx:175-205 | the loop builds exactly the merged list |
| Chat.BotConversation | src/components/Chat.tsx:144-173 | the assistant's conversation has the bot id, is marked as the bot's and has nothing unread |
| Chat.WithConversationId | src/components/Chat.tsx:266-276 | a message without a conversation id gets the pair key of its sender and receiver; one with an id is unchanged |
| Chat.RepairedIdMatchesAppointment | src/components/Chat.tsx:266-276 | a repaired id is the key of the conversation built from the appointment with the same counterpart |
| Chat.AppendUnique | src/components/Chat.tsx:278-285 | a message whose id is listed is ignored, otherwise appended; distinct ids stay distinct |
| Chat.AppendUniqueIdempotent | src/components/Chat.tsx:278-285 | delivering the same message twice is delivering it once |
| Chat.FindMessage | src/components/Chat.tsx:327 | the result is the first update with the id asked for; none exactly when no update has it |
| Chat.ApplyReadReceipts | src/components/Chat.tsx:325-330 | same length and ids; a message with an update is replaced by it, others are kept |
| Chat.ApplyReadReceiptsIdempotent | src/components/Chat.tsx:325-330 | applying the same receipts twice is applying them once |
| Chat.BumpConversation | src/components/Chat.tsx:295-307 | only the message's conversation changes: its last message becomes the message, and its unread count grows by one when the user is the receiver |
| Chat.BumpTotalUnread | src/components/Chat.tsx:295-307 | the total unread count grows by the number of matching conversations when the user is the receiver, and is unchanged otherwise |
| Chat.WithLastMessage | src/components/Chat.tsx:490-496 | only the conversation with that id gets the saved message as its last message |
| Chat.ChatView.constructor | src/components/Chat.tsx:66-73 | empty lists, no selection, empty draft |
| Chat.ChatView.LoadData | src/components/Chat.tsx:78-210 | without a user id or a token nothing loads; if either request throws, the list is left as it was; otherwise it is the merge of the bot, the server's conversations and the appointment fold, a failed answer counting as empty |
| Chat.ChatView.OnNewMessage | src/components/Chat.tsx:264-318 | the repaired message is appended once if its conversation is open, stops the bot's typing indicator if the bot sent it, updates the conversation list, and is marked read when the user received it in the open conversation |
| Chat.ChatView.OnMessagesRead | src/components/Chat.tsx:320-331 | messages are replaced by their read receipts |
| Chat.ChatView.Recipient | src/components/Chat.tsx:414-417 | a message has a recipient only with a selected conversation, a non-blank draft and a signed-in user, and the recipient is that conversation's other participant |
| Chat.ChatView.Select | src/components/Chat.tsx:528 | clicking a conversation makes it the selected one |
| Chat.ChatView.SendMessage | src/components/Chat.tsx:412-503 | without a recipient nothing changes. To the bot, the message is appended, the draft cleared, the typing indicator raised and the text emitted. Otherwise the post goes out; on success the saved message is appended and becomes the last message; on failure the alert shows and the draft is kept |
| Availability.SlotsFor | src/components/AvailabilityManager.tsx:56 | a day's slots, or none when the day has no entry |
| Availability.WeekDays | src/components/AvailabilityManager.tsx:13-14 | fourteen days, exactly those from the week's start onward |
| Availability.Toggled | src/components/AvailabilityManager.tsx:57-59 | a listed time is removed with every other slot kept; an unlisted one is added and the list sorted, a permutation of the old list plus the time |
| Availability.ToggledFlipsPresence | src/components/AvailabilityManager.tsx:57-59 | the time is listed afterwards exactly when it was not before |
| Availability.ToggledKeepsSorted | src/components/AvailabilityManager.tsx:57-59 | a sorted list stays sorted |
| Availability.ToggledKeepsStrictlySorted | src/components/AvailabilityManager.tsx:57-59 | a sorted list without repeats stays so |
| Availability.ToggleTwiceRestores | src/components/AvailabilityManager.tsx:57-59 | toggling the same time twice restores a sorted list without repeats |
| Availability.TimeSlotsStrictlySorted | src/components/AvailabilityManager.tsx:16-19 | the ten offered times are in strictly increasing order |
| Availability.AvailabilityManager.constructor | src/components/AvailabilityManager.tsx:9-10 | the signed-in user, the week shown, today selected, an empty map and no request sent |
| Availability.AvailabilityManager.Load | src/components/AvailabilityManager.tsx:22-51 | with a stored user id and a successful answer the map is replaced, otherwise it is kept |
| Availability.AvailabilityManager.SelectedSlots | src/components/AvailabilityManager.tsx:94-95 | the selected day's slots |
| Availability.AvailabilityManager.SelectDay | src/components/AvailabilityManager.tsx:108 | clicking one of the fourteen days makes it the selected day |
| Availability.AvailabilityManager.ToggleTimeSlot | src/components/AvailabilityManager.tsx:54-92 | only the selected day changes, to the toggled list; the time's presence flips; the whole new map is sent |
| Scheduler.RequestedRange | src/components/AppointmentScheduler.tsx:33-34 | the requested range spans fourteen days |
| Scheduler.RequestedRangeIsWeekDays | src/components/AppointmentScheduler.tsx:20-21 | the requested range is exactly the days shown |
| Scheduler.ErrorText | src/components/AppointmentScheduler.tsx:52 | the server's message when it has one, the default otherwise |
| Scheduler.AppointmentScheduler.constructor | src/components/AppointmentScheduler.tsx:15-17 | the doctor and week shown, today selected, no slots, no confirmation pending, no request and no toast |
| Scheduler.AppointmentScheduler.SelectedSlots | src/components/AppointmentScheduler.tsx:106-107 | the selected day's free slots, or none |
| Scheduler.AppointmentScheduler.SelectDay | src/components/AppointmentScheduler.tsx:120 | clicking a day makes it the selected day |
| Scheduler.AppointmentScheduler.LoadSlots | src/components/AppointmentScheduler.tsx:24-61 | without a token, a login toast and no change; on success the slots and the confirmation flag are replaced; a failed answer shows its error or the fallback text; a thrown error shows the fixed loading-error text |
| Scheduler.AppointmentScheduler.BookAppointment | src/components/AppointmentScheduler.tsx:64-104 | without a patient or a token, a login toast and no request; on success the booked time leaves the day's slots and the rest of the map is unchanged; a failed answer shows its error or the fallback text; a thrown error shows the fixed server-error text; the slots change only on success |
| Scheduler.BookedSlotGone | src/components/AppointmentScheduler.tsx:92-95 | after booking, the time is no longer offered that day and other days are unchanged |
| Scheduler.BookedListStaysSorted | src/components/AppointmentScheduler.tsx:92-95 | a sorted day stays sorted after booking |
| DoctorDashboard.HistoricOnly | src/pages/DoctorDashboard.tsx:75-78 | a subsequence of the input holding every completed or cancelled appointment as often as the input does, and nothing else |
| DoctorDashboard.FindById | src/pages/DoctorDashboard.tsx:111-113 | the first appointment with the id: no earlier one has it; none exactly when no appointment has it |
| DoctorDashboard.RemoveById | src/pages/DoctorDashboard.tsx:124-126 | exactly the appointments with other ids are kept |
| DoctorDashboard.RemoveByIdDeletesOne | src/pages/DoctorDashboard.tsx:124-126 | with unique ids, removing a listed id deletes exactly that position |
| DoctorDashboard.RemoveByIdAbsent | src/pages/DoctorDashboard.tsx:124-126 | removing an unlisted id changes nothing |
| DoctorDashboard.CountStatusSplit | src/pages/DoctorDashboard.tsx:219 | the status count of two lists joined is the sum of their counts |
| DoctorDashboard.CountStatus | src/pages/DoctorDashboard.tsx:219 | the number of appointments with a status never exceeds the list's length |
| DoctorDashboard.PendingCount | src/pages/DoctorDashboard.tsx:219 | the pending count is zero exactly when no appointment is pending |
| DoctorDashboard.CompletedCount | src/pages/DoctorDashboard.tsx:230-234 | the completed count is zero exactly when none is completed |
| DoctorDashboard.CountStatusZero | src/pages/DoctorDashboard.tsx:219 | a status count is zero exactly when no appointment has the status |
| DoctorDashboard.ClosingPendingLowersPendingCount | src/pages/DoctorDashboard.tsx:124-126 | closing a pending appointment lowers the pending count by one |
| DoctorDashboard.CompletingRaisesCompletedCount | src/pages/DoctorDashboard.tsx:117-120 | recording a completion raises the completed count by one |
| DoctorDashboard.ClockText | src/pages/DoctorDashboard.tsx:174 | five characters: the hour's two digits, a colon, the minute's two digits |
| DoctorDashboard.ClockOrder | src/pages/DoctorDashboard.tsx:174-185 | comparing two clock texts as strings compares the minutes they show, in both directions |
| DoctorDashboard.TimesAfter | src/pages/DoctorDashboard.tsx:185 | a subsequence of the times holding every time after the current clock as often as the input does, and nothing else |
| DoctorDashboard.AsWrittenMissesToday | src/pages/DoctorDashboard.tsx:176-191 | one slot at 23:59 today, seen at 10:00, counts 0 as written and 1 as intended |
| DoctorDashboard.AsWrittenSkipsToday | src/pages/DoctorDashboard.tsx:181 | at any time but midnight, the written window excludes today |
| DoctorDashboard.CountedAsWritten | src/pages/DoctorDashboard.tsx:181-189 | a date counts none of its slots unless its midnight lies between now and fourteen days later, and never more than it lists |
| DoctorDashboard.SlotCountAsWritten | src/pages/DoctorDashboard.tsx:176-191 | the count as written never exceeds the slots listed |
| DoctorDashboard.Counted | src/pages/DoctorDashboard.tsx:181-189 | outside the window nothing counts; today only the later times count; other days in the window count in full |
| DoctorDashboard.SlotCount | src/pages/DoctorDashboard.tsx:176-191 | the intended count never exceeds the slots listed |
| DoctorDashboard.CountedAgreesAwayFromToday | src/pages/DoctorDashboard.tsx:181-189 | away from today the written and the intended window agree |
| DoctorDashboard.SlotCountAgreesWithoutToday | src/pages/DoctorDashboard.tsx:176-191 | without an entry for today both counts agree |
| DoctorDashboard.SlotCountAgreesAtMidnight | src/pages/DoctorDashboard.tsx:176-191 | at midnight both counts agree |
| DoctorDashboard.ToMap | src/pages/DoctorDashboard.tsx:166 | the stored map has exactly the answer's dates, and each date's last entry gives its slots |
| DoctorDashboard.ToMapDistinct | src/pages/DoctorDashboard.tsx:166 | when no date repeats, every entry of the answer is in the map with its own slots |
| DoctorDashboard.CountSlots | src/pages/DoctorDashboard.tsx:169-191 | the counting loop yields the as-written count of slots in the window |
| DoctorDashboard.Dashboard.FetchAppointments | src/pages/DoctorDashboard.tsx:29-86 | without a doctor id or when either request fails, nothing changes; otherwise the upcoming list is replaced and the historic list holds only closed appointments |
| DoctorDashboard.Dashboard.UpdateAppointmentStatus | src/pages/DoctorDashboard.tsx:88-130 | on success the appointment leaves the upcoming list and a copy with the new status joins the historic list; the historic list stays closed-only |
| DoctorDashboard.Dashboard.FetchAvailability | src/pages/DoctorDashboard.tsx:139-197 | without a doctor id, or on a failed answer, nothing changes; on success the map is stored, each date of the answer maps to its own slots, and the count is the as-written count, whose window starts at the current instant |
| DoctorDashboard.TwoDigits | src/pages/DoctorDashboard.tsx:174 | two decimal digits whose value is the number, as `HH` and `mm` are written |
| DoctorDashboard.HistoricCounts | src/pages/DoctorDashboard.tsx:74-77 | in a list of completed and cancelled appointments the two counts add up to its length |
| DoctorDashboard.Dashboard.Valid | src/pages/DoctorDashboard.tsx:74-77 | the historic list holds only completed or cancelled appointments, so their counts add up to its length |
| DoctorDashboard.Dashboard.constructor | src/pages/DoctorDashboard.tsx:18-25 | no appointment, an empty map and a zero count, and the historic list is valid |
| Teleconsultation.Classify | src/components/TeleconsultationModal.tsx:48-59 | upcoming exactly before the start; in progress exactly strictly between the start and thirty minutes later; ended otherwise, the start instant included |
| Teleconsultation.PhasesInOrder | src/components/TeleconsultationModal.tsx:48-59 | an ended consultation (not at the start instant) stays ended, and an upcoming one was upcoming earlier |
| Teleconsultation.StartInstantIsEnded | src/components/TeleconsultationModal.tsx:44-59 | at the start instant the window is open but the phase is "ended" |
| Teleconsultation.CanJoin | src/components/TeleconsultationModal.tsx:37-44 | the join window is the last five minutes before the start, the start instant, and the in-progress phase |
| Teleconsultation.TeleconsultationModal.constructor | src/components/TeleconsultationModal.tsx:21-23 | the appointment's start, status and visibility; no countdown, join disabled, nothing loaded or refused |
| Teleconsultation.TeleconsultationModal.UpdateTimer | src/components/TeleconsultationModal.tsx:33-59 | nothing unless open and accepted; then the join flag is the window minus the ended phase, and the countdown follows the phase |
| Teleconsultation.TeleconsultationModal.HandleJoin | src/components/TeleconsultationModal.tsx:70-76 | the call loads only while joining is enabled, otherwise the refusal shows |
| Teleconsultation.TeleconsultationModal.HandleClose | src/components/TeleconsultationModal.tsx:84-89 | the call, countdown and join flag are reset and the modal closes |
| Teleconsultation.JoinAfterTick | src/components/TeleconsultationModal.tsx:44-58 | after a tick, joining is enabled exactly strictly inside the window and not at the start instant |
| PatientDashboard.Label | src/pages/PatientDashboard.tsx:180-190 | the timer text follows the phase, with the remaining time before the start |
| PatientDashboard.Timers | src/pages/PatientDashboard.tsx:166-192 | every timer entry belongs to an accepted teleconsultation with that id and holds the label of its start |
| PatientDashboard.TimersKeys | src/pages/PatientDashboard.tsx:168-192 | timer entries exist exactly for accepted teleconsultations |
| PatientDashboard.TimersLabels | src/pages/PatientDashboard.tsx:168-192 | with distinct ids, each entry is its appointment's label |
| PatientDashboard.HasTeleconsultation | src/pages/PatientDashboard.tsx:263-265 | true exactly when some appointment is an accepted teleconsultation |
| PatientDashboard.HasTeleconsultationIffTimers | src/pages/PatientDashboard.tsx:263-265 | there is a video appointment exactly when there is a timer |
| PatientDashboard.KeepUpcoming | src/pages/PatientDashboard.tsx:430 | a subsequence of the input holding every pending or accepted appointment as often as the input does, and nothing else |
| PatientDashboard.InsertByDate | src/pages/PatientDashboard.tsx:431 | inserting keeps the list sorted by date and adds exactly the element |
| PatientDashboard.SortByDate | src/pages/PatientDashboard.tsx:431 | sorted by date, a permutation of the input |
| PatientDashboard.UpcomingList | src/pages/PatientDashboard.tsx:429-431 | sorted by date, and a permutation of the filtered list: every pending or accepted appointment as often as the input holds it |
| PatientDashboard.StatsParams | src/pages/PatientDashboard.tsx:99-106 | the period and status always come first; the custom dates follow exactly for a custom period |
| PatientDashboard.CustomDatesIffCustom | src/pages/PatientDashboard.tsx:99-106 | a start date is sent exactly when the period is custom |
| PatientDashboard.Dashboard.constructor | src/pages/PatientDashboard.tsx:65-86 | no appointment and no timer, the "month" range without custom dates, nothing selected and no notice |
| PatientDashboard.Dashboard.UpdateTimers | src/pages/PatientDashboard.tsx:165-199 | the loop builds exactly the timer map of the appointments |
| PatientDashboard.Dashboard.OpenTeleconsultation | src/pages/PatientDashboard.tsx:227-238 | an appointment that is not accepted is refused, then one without a link; otherwise it is selected and the modal opens |
| PatientDashboard.Dashboard.SelectTimeRange | src/pages/PatientDashboard.tsx:319-322 | the period is set and custom dates are on exactly for "custom" |
| HistoryModal.StatusLabel | src/components/AppointmentHistoryModal.tsx:248-254 | each known status's label, "En attente" for any other |
| HistoryModal.WithoutIndex | src/components/AppointmentHistoryModal.tsx:119 | dropping a position never makes the list longer |
| HistoryModal.HistoryModal.constructor | src/components/AppointmentHistoryModal.tsx:34-44 | nothing selected, empty details and draft medication, not submitting, no stored details, no request and no toast |
| HistoryModal.WithoutIndexSpec | src/components/AppointmentHistoryModal.tsx:116-121 | removing a listed position deletes exactly that medication; any other index changes nothing |
| HistoryModal.HistoryModal.ChooseAppointment | src/components/AppointmentHistoryModal.tsx:260-287 | only a completed appointment without details can be chosen, and it becomes the selection |
| HistoryModal.HistoryModal.AddMedicament | src/components/AppointmentHistoryModal.tsx:105-113 | a blank entry changes nothing; otherwise the trimmed entry, itself not blank, is appended and the input cleared |
| HistoryModal.HistoryModal.RemoveMedicament | src/components/AppointmentHistoryModal.tsx:116-121 | the medication list loses the index |
| HistoryModal.HistoryModal.SubmitDetails | src/components/AppointmentHistoryModal.tsx:124-176 | an incomplete form is refused; without a token nothing is sent; on success the details are recorded, the form reset and the selection cleared; the submitting flag ends false |
| HistoryModal.HistoryModal.Cancel | src/components/AppointmentHistoryModal.tsx:362-365 | the selection is cleared and the form reset |
| HistoryModal.EmptyDetailsIncomplete | src/components/AppointmentHistoryModal.tsx:125-128 | a reset form cannot be submitted |
| Reviews.Rejection | src/components/ReviewModal.tsx:112-125 | a review is accepted exactly with a token, a rating in 1..5 and a non-blank comment; otherwise the first failing check's message, in that order |
| Reviews.EmptyDraftRejected | src/components/ReviewModal.tsx:117-120 | the reset form is always refused |
| Reviews.Stars | src/components/ReviewModal.tsx:291 | star i is filled exactly when i is below the rating |
| Reviews.FilledStars | src/components/ReviewModal.tsx:287-296 | the number of filled stars is the rating clamped to the stars drawn |
| Reviews.ClickedRating | src/components/ReviewModal.tsx:352-354 | clicking star i gives a valid rating that fills exactly i + 1 stars |
| Reviews.ReactionCount | src/components/ReviewModal.tsx:311 | a missing count shows as 0 |
| Reviews.Refreshed | src/components/ReviewModal.tsx:177-180 | only the refreshed review's counts change, to those of the answer, or none when the answer has none |
| Reviews.ReviewModal.constructor | src/components/ReviewModal.tsx:32-37 | the doctor reviewed, no review, an empty draft, no reaction count, no toast and no request |
| Reviews.ReviewModal.SubmitReview | src/components/ReviewModal.tsx:107-160 | a refused form only shows why; otherwise the review is posted; on success it is prepended and the form resets to rating 0 and an empty comment |
| Reviews.ReviewModal.ClickStar | src/components/ReviewModal.tsx:352-354 | the form's rating becomes i + 1 |
| Reviews.ReviewModal.EditComment | src/components/ReviewModal.tsx:362-364 | typing replaces the draft's comment and keeps its rating |
| Reviews.ReviewModal.HandleReaction | src/components/ReviewModal.tsx:186-239 | without a user or token, nothing is sent; then the request fitting the current reaction is sent, and on success the review's counts are refreshed |
| Reviews.ChooseReactionRequest | src/components/ReviewModal.tsx:210-220 | the same reaction or none: POST to /react with `type`; a different existing one: PUT to /update-reaction with `newType`; a PUT exactly in the latter case |
| DoctorSearch.FilteredDoctors | src/pages/ClientDashboard.tsx:67-77 | a subsequence of the doctors, in order, keeping exactly (and all copies of) those matching the name query and the specialty |
| DoctorSearch.NoFilterKeepsAll | src/pages/ClientDashboard.tsx:67-77 | with an empty query and no specialty every doctor is listed |
| DoctorSearch.QueryCaseIgnored | src/pages/ClientDashboard.tsx:68-70 | a lower-cased query lists the same doctors |
| DoctorSearch.FilterIdempotent | src/pages/ClientDashboard.tsx:67-77 | filtering the result again changes nothing |
| Profile.PasswordRejection | src/pages/Profile.tsx:174-184 | a new password is accepted exactly when it matches its confirmation and has at least 8 characters; a mismatch is reported first |
| Profile.ClearedPasswordsPassGate | src/pages/Profile.tsx:205-227 | cleared password fields never hold a save back |
| Profile.Payload | src/pages/Profile.tsx:233-247 | the form's fields, with speciality and hospital present exactly for a doctor's profile |
| Profile.ProfilePage.constructor | src/pages/Profile.tsx:58-80 | no profile, empty password fields and form, nothing loading, the password dialog closed and unverified, no toast and no request |
| Profile.ProfilePage.MapClick | src/pages/Profile.tsx:164-166 | only the coordinates change |
| Profile.ProfilePage.VerifyPassword | src/pages/Profile.tsx:169-215 | a refused password shows why and sends nothing; otherwise the change is requested; success confirms, clears the fields and closes the modal; loading ends false on every path |
| Profile.ProfilePage.Submit | src/pages/Profile.tsx:218-285 | a typed, unconfirmed new password opens the modal and saves nothing; otherwise the payload is sent, and success stores the profile and resets the confirmation |
| ProfileCompletion.SchemaValid | src/pages/ProfileCompletion.tsx:15-45 | a form the rules accept has no empty field, the speciality and hospital included, whatever the role |
| ProfileCompletion.SchemaIgnoresRole | src/pages/ProfileCompletion.tsx:15-45 | the doctor-only rule is implied by the length rules |
| ProfileCompletion.EmptySpecialityInvalid | src/pages/ProfileCompletion.tsx:25-28 | a form with an empty speciality never satisfies the rules |
| ProfileCompletion.Payload | src/pages/ProfileCompletion.tsx:142-196 | the form's fields and the stored credentials, with speciality, hospital and an empty availability exactly for the stored doctor role |
| ProfileCompletion.MissingField | src/pages/ProfileCompletion.tsx:161-169 | the last step is allowed exactly with a non-blank CIN and address; a blank CIN is reported first |
| ProfileCompletion.Destination | src/pages/ProfileCompletion.tsx:230-234 | the doctor dashboard exactly for a returned doctor, the client dashboard otherwise |
| ProfileCompletion.ChainResultAsWritten | src/pages/ProfileCompletion.tsx:205-214 | the written chain yields nothing, whatever the server answers |
| ProfileCompletion.AsWrittenDoctorSentToClient | src/pages/ProfileCompletion.tsx:205-234 | as written a registered doctor lands on /client; with the intended chain, on /doctor |
| ProfileCompletion.ChainResult | src/pages/ProfileCompletion.tsx:205-214 | the intended chain yields the returned user, and nothing after a failure |
| ProfileCompletion.DestinationFollowsRole | src/pages/ProfileCompletion.tsx:230-234 | with the intended chain a registered user reaches the dashboard of their role |
| ProfileCompletion.StoredRecord | src/pages/ProfileCompletion.tsx:218-227 | each stored field is the returned user's, and the record has no field when there is no result |
| ProfileCompletion.Wizard.constructor | src/pages/ProfileCompletion.tsx:54-74 | a valid wizard at the first step with the empty form, no alert, no registration, nothing stored and no destination |
| ProfileCompletion.Wizard.Previous | src/pages/ProfileCompletion.tsx:484-486 | offered only after the first step, it goes back one step |
| ProfileCompletion.Wizard.SelectLocation | src/pages/ProfileCompletion.tsx:95-101 | a chosen point replaces the form's coordinates and nothing else |
| ProfileCompletion.Wizard.Submit | src/pages/ProfileCompletion.tsx:124-137 | before the last step it advances by one whatever the form holds; at the last step it registers as `Register` does, storing the empty record and going to /client |
| ProfileCompletion.Wizard.Register | src/pages/ProfileCompletion.tsx:161-234 | a missing field alerts and sends nothing; otherwise the payload is sent, and since the awaited chain yields nothing, the stored record is empty and the destination is /client whatever the server answers |
| ProfileCompletion.ThreeSubmissionsRegister | src/pages/ProfileCompletion.tsx:124-137 | three submissions from the first step reach the registration |
| AuthStore.Patched | src/store/auth.ts:32 | each field comes from the update when it sets it, from the user otherwise |
| AuthStore.PatchCompose | src/store/auth.ts:31-33 | two updates in a row are one update with the later fields winning |
| AuthStore.Store.constructor | src/store/auth.ts:22-24 | no user; the token read from storage; authenticated exactly for a non-empty stored token |
| AuthStore.Store.SetToken | src/store/auth.ts:26-29 | storage gets the token, or "" for none; authenticated exactly for a non-empty token |
| AuthStore.Store.SetUser | src/store/auth.ts:30 | the user is replaced as a whole |
| AuthStore.Store.UpdateUser | src/store/auth.ts:31-33 | a null user stays null; otherwise the update's fields override the user's |
| AuthStore.Store.AdoptStoredRole | src/pages/ProfileCompletion.tsx:75-79 | a user without a role takes the stored one; a user with a role, or no user, is unchanged |
| AuthStore.ReloadKeepsAuthentication | src/store/auth.ts:23-29 | a token set and then read back after a reload gives the same authentication, and the same non-empty token |
| Strings.SortStrings | src/components/AvailabilityManager.tsx:59 | the default sort: a sorted permutation of the input |
| Strings.LtIrreflexive | src/pages/DoctorDashboard.tsx:185 | no string is before itself |
| Strings.LtTransitive | src/components/AvailabilityManager.tsx:59 | the string order is transitive |
| Strings.LtTrichotomy | src/components/AvailabilityManager.tsx:59 | any two different strings are ordered one way or the other |
| Strings.RemoveAll | src/components/AvailabilityManager.tsx:58 | the value is gone, every other value keeps its count, nothing is added, and the kept values stay in their order |
| Strings.ToLower | src/pages/ClientDashboard.tsx:69-74 | same length, each character lower-cased |
| Strings.Contains | src/pages/ClientDashboard.tsx:69-70 | a string contains only substrings no longer than itself |
| Strings.Trim | src/components/AppointmentHistoryModal.tsx:106-109 | never longer than the input, and neither end of a non-empty result is whitespace |
| Strings.TrimDropsEndWhitespace | src/components/AppointmentHistoryModal.tsx:106-109 | the trimmed string is a slice of the input with only whitespace before and after it |
| Strings.ContainsAt | src/pages/ClientDashboard.tsx:69-70 | `includes` holds exactly when the text occurs at some position |
| Strings.BlankIffTrimsToEmpty | src/components/AppointmentHistoryModal.tsx:106 | `IsBlank` (empty or whitespace only) holds exactly when trimming leaves nothing |
| Strings.TrimNotBlank | src/components/AppointmentHistoryModal.tsx:106-109 | trimming a non-blank string leaves a non-blank string |

## Left out

- Network I/O, Socket.IO connections and JSON parsing. Every answer is a parameter. Where the `catch` does what a failed answer does (logging only, or the same toast), a thrown error is the `Failed` case; elsewhere it is `Threw`.
- The `joinConversation` emissions and the message loading on selection (src/components/Chat.tsx:338-410). These are socket and fetch glue; selection is the plain setter `Chat.ChatView.Select`.
- The review modal's initial fetch of reviews and reactions (src/components/ReviewModal.tsx:40-105). It is a parallel fetch with no logic beyond storing the answers.
- `localStorage`, geolocation, Leaflet clicks, file uploads and object URLs. Stored values are parameters; each chosen picture is a boolean.
- Timers and intervals. Each tick is one call with `now`.
- date-fns parsing, formatting and week computation. Dates are integers, and a date key is a day number.
- `Date.now()` in a message id is the `now` parameter, written as a decimal string.
- React rendering, effect scheduling, and answers arriving after unmount or out of order.
- ProfileCompletion.Wizard.Previous: models only the button's own handler. The button has no `type`, so inside the form every click also submits the form and runs `handleSubmit`, which advances the step again: "Précédent" never leaves the wizard one step back. At step 3, when the submit handler still reads step 3, the click sends the registration. The model does not combine the two handlers, because the outcome depends on whether React re-renders between the click and the submit events.
- The wizard's "location missing" branch (src/pages/ProfileCompletion.tsx:172-182). The location always holds two numbers in the model, so this branch cannot be reached.
- JavaScript numbers. Fees and coordinates are `real` values, with no NaN and no rounding.
- String lengths are counted in characters, not UTF-16 code units.
- Strings.Lt compares Unicode scalar values, while JavaScript's `<` compares UTF-16 code units. The two orders differ only between a character above U+FFFF and one from U+E000 to U+FFFF.
- `toLowerCase` is modelled for ASCII and Latin-1 letters only.
- Chat.ChatView.SendMessage: the REST post's bearer token is not modelled.
- Scheduler.AppointmentScheduler.BookAppointment: requires the time to be one of the selected day's listed slots. The handler is reached only from the buttons drawn for those slots (src/components/AppointmentScheduler.tsx:138-143), so a day without an entry, for which `prev[dateKey].filter` would throw inside the state updater, is not modelled.
- DoctorDashboard.Dashboard.FetchAvailability: requires the answer's dates to be distinct. The answer is a JSON object, whose parsed form never repeats a key. `ToMap` itself states what happens with repeated dates: the last entry wins.
- Statistics pages, CSV/PDF export and i18n tables are not part of this model.
- AuthStore.Store.UpdateUser: an update that sets a field explicitly to `undefined` is not modelled. A `UserPatch` field is either set or absent.

## Findings

| source | as written | input that shows it | evidently intended | confidence | as-written member | corrected member |
|---|---|---|---|---|---|---|
| src/pages/DoctorDashboard.tsx:176-191 | the window check starts at the current instant, but a date key parses to that day's midnight, so today's entry is excluded except at exactly 00:00 and the "only later times today" branch never runs | now = day 1 at 10:00, availability {day 1: ["23:59"]}: counted 0 | today's later slots count: 1 | not executed | DoctorDashboard.AsWrittenMissesToday | DoctorDashboard.Counted |
| src/pages/ProfileCompletion.tsx:205-234 | the awaited promise chain ends with a step that only logs, so the result is always undefined; the stored user is empty and every registration goes to /client | server returns a user with role "doctor": destination /client | a doctor is sent to /doctor | not executed | ProfileCompletion.AsWrittenDoctorSentToClient | ProfileCompletion.DestinationFollowsRole |
