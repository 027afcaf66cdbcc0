/** The patient's booking panel for one doctor: the free slots of the
    fourteen days shown, and booking one of them. */
module Scheduler {
  import opened Wrappers
  import opened Strings
  import opened Availability

  const LoginRequired: string := "Veuillez vous connecter pour réserver un rendez-vous."
  const LoadFailed: string := "Impossible de charger les créneaux disponibles."
  const BookingFailed: string := "Erreur lors de la réservation."
  const LoadCrashed: string := "Erreur lors du chargement des créneaux disponibles."
  const BookingCrashed: string := "Erreur serveur lors de la réservation."

  datatype Toast = SuccessToast(text: string) | ErrorToast(text: string)

  /** The slots request's body: the shown days and whether the doctor
      confirms bookings by hand. */
  datatype SlotsPayload = SlotsPayload(availableSlots: SlotMap, requiresConfirmation: bool)

  datatype BookingRequest = BookingRequest(doctorId: string, date: int, time: string)

  /** The first and last date of the slots request. */
  function RequestedRange(weekStart: int): (r: (int, int))
    ensures r.1 - r.0 + 1 == DaysShown
  {
    (weekStart, weekStart + DaysShown - 1)
  }

  /** The requested range covers exactly the days shown. */
  lemma RequestedRangeIsWeekDays(weekStart: int)
    ensures forall d :: RequestedRange(weekStart).0 <= d <= RequestedRange(weekStart).1 <==> d in WeekDays(weekStart)
  {
  }

  /** An error toast's text: the server's message, or the default when the
      server gave none. */
  function ErrorText(serverMessage: string, default: string): (r: string)
    ensures serverMessage != "" ==> r == serverMessage
    ensures serverMessage == "" ==> r == default
  {
    if serverMessage != "" then serverMessage else default
  }

  class AppointmentScheduler {
    const doctorId: string
    const weekStart: int
    var selectedDay: int
    var availableSlots: SlotMap
    var requiresConfirmation: bool
    var requests: seq<BookingRequest>
    var toast: Option<Toast>

    constructor (doctorId: string, weekStart: int, today: int)
      ensures this.doctorId == doctorId && this.weekStart == weekStart && selectedDay == today
      ensures availableSlots == map[] && !requiresConfirmation && requests == [] && toast.None?
    {
      this.doctorId := doctorId;
      this.weekStart := weekStart;
      selectedDay := today;
      availableSlots := map[];
      requiresConfirmation := false;
      requests := [];
      toast := None;
    }

    /** The slots shown for the selected date: none when it has no entry. */
    function SelectedSlots(): (r: seq<string>)
      reads this
      ensures selectedDay !in availableSlots ==> r == []
      ensures selectedDay in availableSlots ==> r == availableSlots[selectedDay]
    {
      SlotsFor(availableSlots, selectedDay)
    }

    method SelectDay(day: int)
      requires day in WeekDays(weekStart)
      modifies this`selectedDay
      ensures selectedDay == day
    {
      selectedDay := day;
    }

    /** The load on mount: without a stored token only the login toast;
        a success replaces the slots and the confirmation flag; a non-ok
        answer shows the server's error or the default; a thrown error
        shows the fixed load-error text. */
    method LoadSlots(token: Option<string>, fetched: Fetched<SlotsPayload>)
      modifies this`availableSlots, this`requiresConfirmation, this`toast
      ensures token.None? || token.value == "" ==>
        availableSlots == old(availableSlots) && requiresConfirmation == old(requiresConfirmation)
        && toast == Some(ErrorToast(LoginRequired))
      ensures token.Some? && token.value != "" && fetched.Received? && fetched.response.Ok? ==>
        availableSlots == fetched.response.payload.availableSlots
        && requiresConfirmation == fetched.response.payload.requiresConfirmation && toast == old(toast)
      ensures token.Some? && token.value != "" && fetched.Received? && fetched.response.Failed? ==>
        availableSlots == old(availableSlots) && requiresConfirmation == old(requiresConfirmation)
        && toast == Some(ErrorToast(ErrorText(fetched.response.message, LoadFailed)))
      ensures token.Some? && token.value != "" && fetched.Threw? ==>
        availableSlots == old(availableSlots) && requiresConfirmation == old(requiresConfirmation)
        && toast == Some(ErrorToast(LoadCrashed))
    {
      if token.None? || token.value == "" {
        toast := Some(ErrorToast(LoginRequired));
        return;
      }
      match fetched
      case Received(Ok(payload)) =>
        availableSlots := payload.availableSlots;
        requiresConfirmation := payload.requiresConfirmation;
      case Received(Failed(message)) =>
        toast := Some(ErrorToast(ErrorText(message, LoadFailed)));
      case Threw =>
        toast := Some(ErrorToast(LoadCrashed));
    }

    /** `bookAppointment`, reached only from the button of a listed time of
        the selected date: without a patient id or token no request is
        made; on success the booked time leaves the selected date's list
        and no other date changes; on a non-ok answer or a thrown error
        nothing changes but the toast. */
    method BookAppointment(time: string, patientId: Option<string>, token: Option<string>, fetched: Fetched<string>)
      requires time in SelectedSlots()
      modifies this`availableSlots, this`requests, this`toast
      ensures patientId.None? || patientId.value == "" || token.None? || token.value == "" ==>
        availableSlots == old(availableSlots) && requests == old(requests)
        && toast == Some(ErrorToast(LoginRequired))
      ensures patientId.Some? && patientId.value != "" && token.Some? && token.value != "" ==>
        requests == old(requests) + [BookingRequest(doctorId, selectedDay, time)]
      ensures && patientId.Some? && patientId.value != "" && token.Some? && token.value != ""
              && fetched.Received? && fetched.response.Ok? ==>
        && availableSlots == old(availableSlots)[selectedDay := RemoveAll(old(availableSlots)[selectedDay], time)]
        && toast == Some(SuccessToast(fetched.response.payload))
      ensures && patientId.Some? && patientId.value != "" && token.Some? && token.value != ""
              && fetched.Received? && fetched.response.Failed? ==>
        availableSlots == old(availableSlots) && toast == Some(ErrorToast(ErrorText(fetched.response.message, BookingFailed)))
      ensures patientId.Some? && patientId.value != "" && token.Some? && token.value != "" && fetched.Threw? ==>
        availableSlots == old(availableSlots) && toast == Some(ErrorToast(BookingCrashed))
    {
      if patientId.None? || patientId.value == "" || token.None? || token.value == "" {
        toast := Some(ErrorToast(LoginRequired));
        return;
      }
      var dateKey := selectedDay;
      requests := requests + [BookingRequest(doctorId, dateKey, time)];
      match fetched
      case Received(Ok(message)) =>
        availableSlots := availableSlots[dateKey := RemoveAll(availableSlots[dateKey], time)];
        toast := Some(SuccessToast(message));
      case Received(Failed(message)) =>
        toast := Some(ErrorToast(ErrorText(message, BookingFailed)));
      case Threw =>
        toast := Some(ErrorToast(BookingCrashed));
    }
  }

  /** After a successful booking the time is no longer offered that day,
      the other times keep their multiplicity, and every other date keeps
      its list. */
  lemma BookedSlotGone(m: SlotMap, day: int, time: string)
    requires day in m
    ensures var m2 := m[day := RemoveAll(m[day], time)];
      && time !in SlotsFor(m2, day)
      && (forall y :: y != time ==> multiset(SlotsFor(m2, day))[y] == multiset(SlotsFor(m, day))[y])
      && (forall d :: d != day ==> SlotsFor(m2, d) == SlotsFor(m, d))
  {
  }

  /** Removing a booked time keeps the day's list in order. */
  lemma BookedListStaysSorted(m: SlotMap, day: int, time: string)
    requires day in m && Sorted(m[day])
    ensures Sorted(SlotsFor(m[day := RemoveAll(m[day], time)], day))
  {
    RemoveAllSorted(m[day], time);
  }
}
