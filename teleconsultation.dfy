/** The teleconsultation window: where an instant stands relative to a
    consultation's start, when the join button is on, and the modal's three
    flags. Instants are milliseconds. */
module Teleconsultation {
  import opened Wrappers

  const MillisPerMinute: int := 60000
  /** The join button opens this long before the start... */
  const JoinLead: int := 5 * MillisPerMinute
  /** ...and a consultation counts as in progress this long after it. */
  const SessionLength: int := 30 * MillisPerMinute

  const Accepted: string := "accepted"

  datatype Phase = Upcoming | InProgress | Ended

  /** Before the start a countdown; strictly between the start and thirty
      minutes later "in progress"; otherwise, the exact start instant
      included, ended. */
  function Classify(start: int, now: int): (r: Phase)
    ensures r == Upcoming <==> now < start
    ensures r == InProgress <==> start < now < start + SessionLength
    ensures r == Ended <==> now == start || now >= start + SessionLength
  {
    if now < start then Upcoming
    else if start < now < start + SessionLength then InProgress
    else Ended
  }

  /** `isAfter(now, start - 5 min) && isBefore(now, start + 30 min)`: from
      five minutes before the start until the consultation is over, the
      start instant included. */
  predicate CanJoin(start: int, now: int): (r: bool)
    ensures r <==> (start - JoinLead < now && Classify(start, now) == Upcoming)
                   || now == start || Classify(start, now) == InProgress
  {
    start - JoinLead < now < start + SessionLength
  }

  /** The three phases follow one another as time passes. */
  lemma PhasesInOrder(start: int, t1: int, t2: int)
    requires t1 <= t2
    ensures Classify(start, t1) == Ended && t1 != start ==> Classify(start, t2) == Ended
    ensures Classify(start, t2) == Upcoming ==> Classify(start, t1) == Upcoming
  {
  }

  /** The one instant the source misclassifies: at the start itself the
      window is open but the consultation is reported ended. */
  lemma StartInstantIsEnded(start: int)
    ensures Classify(start, start) == Ended && CanJoin(start, start)
  {
  }

  /** What the countdown line shows. */
  datatype TimerText = Countdown(remaining: int) | InProgressText

  class TeleconsultationModal {
    const start: int
    const status: string
    var isOpen: bool
    var timeRemaining: Option<TimerText>
    var joinEnabled: bool
    var iframeLoaded: bool
    var joinRefused: bool

    constructor (start: int, status: string, isOpen: bool)
      ensures this.start == start && this.status == status && this.isOpen == isOpen
      ensures timeRemaining.None? && !joinEnabled && !iframeLoaded && !joinRefused
    {
      this.start := start;
      this.status := status;
      this.isOpen := isOpen;
      timeRemaining := None;
      joinEnabled := false;
      iframeLoaded := false;
      joinRefused := false;
    }

    /** One tick of `updateTimer`: nothing unless the modal is open and the
        appointment accepted; then the join flag follows the window, except
        that the ended branch switches it off again. */
    method UpdateTimer(now: int)
      modifies this`timeRemaining, this`joinEnabled
      ensures !isOpen || status != Accepted ==>
        timeRemaining == old(timeRemaining) && joinEnabled == old(joinEnabled)
      ensures isOpen && status == Accepted ==>
        && joinEnabled == (CanJoin(start, now) && Classify(start, now) != Ended)
        && (Classify(start, now) == Upcoming ==> timeRemaining == Some(Countdown(start - now)))
        && (Classify(start, now) == InProgress ==> timeRemaining == Some(InProgressText))
        && (Classify(start, now) == Ended ==> timeRemaining.None?)
    {
      if !isOpen || status != Accepted {
        return;
      }
      joinEnabled := CanJoin(start, now);
      if now < start {
        timeRemaining := Some(Countdown(start - now));
      } else if start < now && now < start + SessionLength {
        timeRemaining := Some(InProgressText);
      } else {
        timeRemaining := None;
        joinEnabled := false;
      }
    }

    /** Joining loads the call only while the button is on; otherwise the
        refusal toast shows. */
    method HandleJoin()
      modifies this`iframeLoaded, this`joinRefused
      ensures joinEnabled ==> iframeLoaded && joinRefused == old(joinRefused)
      ensures !joinEnabled ==> iframeLoaded == old(iframeLoaded) && joinRefused
    {
      if !joinEnabled {
        joinRefused := true;
        return;
      }
      iframeLoaded := true;
    }

    /** Closing resets the call, the countdown and the join flag. */
    method HandleClose()
      modifies this`iframeLoaded, this`timeRemaining, this`joinEnabled, this`isOpen
      ensures !iframeLoaded && timeRemaining.None? && !joinEnabled && !isOpen
    {
      iframeLoaded := false;
      timeRemaining := None;
      joinEnabled := false;
      isOpen := false;
    }
  }

  /** After a tick of an open, accepted modal the button is on exactly when
      the instant lies strictly inside the window and is not the start. */
  lemma JoinAfterTick(start: int, now: int)
    ensures (CanJoin(start, now) && Classify(start, now) != Ended)
            <==> (start - JoinLead < now < start + SessionLength && now != start)
  {
  }
}
