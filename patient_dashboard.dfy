/** The patient's dashboard: per-appointment teleconsultation timers, the
    guards for opening a call, the upcoming list and the statistics query.
    Instants are milliseconds. */
module PatientDashboard {
  import opened Wrappers
  import opened Teleconsultation
  import opened Strings

  const Pending: string := "pending"

  datatype Appointment = Appointment(
    id: string,
    /** `new Date(date).getTime()`, the sort key. */
    dateMs: int,
    /** The date and time parsed together: the consultation's start. */
    startMs: int,
    status: string,
    isTeleconsultation: bool,
    jitsiUrl: Option<string>)

  /** A timer entry's text. */
  datatype TimerLabel = StartsIn(remaining: int) | InProgressLabel | EndedLabel

  predicate IsVideoAccepted(a: Appointment) {
    a.isTeleconsultation && a.status == Accepted
  }

  /** The label for a start instant, by the shared classification. */
  function Label(start: int, now: int): (r: TimerLabel)
    ensures r.StartsIn? <==> Classify(start, now) == Upcoming
    ensures r.InProgressLabel? <==> Classify(start, now) == InProgress
    ensures r.EndedLabel? <==> Classify(start, now) == Ended
    ensures r.StartsIn? ==> r.remaining == start - now
  {
    match Classify(start, now)
    case Upcoming => StartsIn(start - now)
    case InProgress => InProgressLabel
    case Ended => EndedLabel
  }

  /** The timers `updateTimers` builds, entry by entry. */
  function Timers(appts: seq<Appointment>, now: int): (r: map<string, TimerLabel>)
    ensures forall id :: id in r ==> exists i :: 0 <= i < |appts| && appts[i].id == id &&
                                                 IsVideoAccepted(appts[i]) && r[id] == Label(appts[i].startMs, now)
    decreases |appts|
  {
    if appts == [] then map[]
    else
      var a := appts[|appts| - 1];
      var m := Timers(appts[..|appts| - 1], now);
      if IsVideoAccepted(a) then m[a.id := Label(a.startMs, now)] else m
  }

  /** Timer entries exist exactly for the accepted teleconsultations. */
  lemma {:induction false} TimersKeys(appts: seq<Appointment>, now: int)
    ensures forall id :: id in Timers(appts, now) <==>
      exists i :: 0 <= i < |appts| && appts[i].id == id && IsVideoAccepted(appts[i])
  {
    if appts != [] {
      var init := appts[..|appts| - 1];
      TimersKeys(init, now);
      assert forall i :: 0 <= i < |init| ==> init[i] == appts[i];
    }
  }

  /** With distinct ids, each accepted teleconsultation's entry is the
      label of its own start. */
  lemma {:induction false} TimersLabels(appts: seq<Appointment>, now: int, i: nat)
    requires i < |appts| && IsVideoAccepted(appts[i])
    requires forall p, q :: 0 <= p < q < |appts| ==> appts[p].id != appts[q].id
    ensures appts[i].id in Timers(appts, now) && Timers(appts, now)[appts[i].id] == Label(appts[i].startMs, now)
  {
    var n := |appts|;
    if i < n - 1 {
      var init := appts[..n - 1];
      assert init[i] == appts[i];
      TimersLabels(init, now, i);
      assert appts[n - 1].id != appts[i].id;
    }
  }

  /** `appointments.some(apt => apt.isTeleconsultation && apt.status === "accepted")`. */
  function HasTeleconsultation(appts: seq<Appointment>): (r: bool)
    ensures r <==> exists i :: 0 <= i < |appts| && IsVideoAccepted(appts[i])
  {
    if appts == [] then false
    else
      assert forall i :: 1 <= i < |appts| ==> appts[1..][i - 1] == appts[i];
      IsVideoAccepted(appts[0]) || HasTeleconsultation(appts[1..])
  }

  /** So the list of timers is empty exactly when there is no accepted
      teleconsultation. */
  lemma HasTeleconsultationIffTimers(appts: seq<Appointment>, now: int)
    ensures HasTeleconsultation(appts) <==> |Timers(appts, now)| > 0
  {
    TimersKeys(appts, now);
    if HasTeleconsultation(appts) {
      var i :| 0 <= i < |appts| && IsVideoAccepted(appts[i]);
      assert appts[i].id in Timers(appts, now);
    }
    if |Timers(appts, now)| > 0 {
      var id :| id in Timers(appts, now);
    }
  }

  // ---------------------------------------------------------------------
  // The upcoming list
  // ---------------------------------------------------------------------

  predicate IsUpcoming(a: Appointment) {
    a.status == Pending || a.status == Accepted
  }

  function KeepUpcoming(s: seq<Appointment>): (r: seq<Appointment>)
    ensures SubsequenceOf(r, s)
    ensures forall a :: a in r <==> a in s && IsUpcoming(a)
    ensures forall a: Appointment :: IsUpcoming(a) ==> multiset(r)[a] == multiset(s)[a]
    ensures forall a: Appointment :: !IsUpcoming(a) ==> multiset(r)[a] == 0
  {
    if s == [] then []
    else
      var rest := KeepUpcoming(s[1..]);
      assert s == [s[0]] + s[1..];
      if IsUpcoming(s[0]) then
        assert ([s[0]] + rest)[1..] == rest;
        [s[0]] + rest
      else rest
  }

  ghost predicate SortedByDate(s: seq<Appointment>) {
    forall i, j :: 0 <= i < j < |s| ==> s[i].dateMs <= s[j].dateMs
  }

  /** Putting an appointment no later than the head in front of a sorted
      list keeps it sorted. */
  lemma SortedCons(a: Appointment, s: seq<Appointment>)
    requires SortedByDate(s) && (s != [] ==> a.dateMs <= s[0].dateMs)
    ensures SortedByDate([a] + s)
  {
    var r := [a] + s;
    forall i, j | 0 <= i < j < |r| ensures r[i].dateMs <= r[j].dateMs {
      if i == 0 {
        assert r[j] == s[j - 1] && s[0].dateMs <= s[j - 1].dateMs;
      } else {
        assert r[i] == s[i - 1] && r[j] == s[j - 1];
      }
    }
  }

  /** Inserting after every entry of the same or an earlier date keeps the
      sort stable. */
  function InsertByDate(x: Appointment, s: seq<Appointment>): (r: seq<Appointment>)
    requires SortedByDate(s)
    ensures |r| == |s| + 1 && (r[0] == x || (s != [] && r[0] == s[0]))
    ensures SortedByDate(r)
    ensures multiset(r) == multiset(s) + multiset{x}
  {
    if s == [] then [x]
    else if x.dateMs < s[0].dateMs then
      SortedCons(x, s);
      [x] + s
    else
      assert SortedByDate(s[1..]) by {
        forall i, j | 0 <= i < j < |s| - 1 ensures s[1..][i].dateMs <= s[1..][j].dateMs {
          assert s[1..][i] == s[i + 1] && s[1..][j] == s[j + 1];
        }
      }
      var rest := InsertByDate(x, s[1..]);
      assert |s| > 1 ==> s[1..][0] == s[1];
      SortedCons(s[0], rest);
      assert s == [s[0]] + s[1..];
      [s[0]] + rest
  }

  function SortByDate(s: seq<Appointment>): (r: seq<Appointment>)
    ensures SortedByDate(r)
    ensures multiset(r) == multiset(s)
  {
    if s == [] then []
    else
      assert s == s[..|s| - 1] + [s[|s| - 1]];
      InsertByDate(s[|s| - 1], SortByDate(s[..|s| - 1]))
  }

  /** The upcoming list: pending and accepted appointments, earliest date
      first. */
  function UpcomingList(appts: seq<Appointment>): (r: seq<Appointment>)
    ensures SortedByDate(r)
    ensures forall a :: a in r <==> a in appts && IsUpcoming(a)
    ensures multiset(r) == multiset(KeepUpcoming(appts))
    ensures forall a: Appointment :: IsUpcoming(a) ==> multiset(r)[a] == multiset(appts)[a]
  {
    var kept := KeepUpcoming(appts);
    var r := SortByDate(kept);
    assert forall a :: a in r <==> a in multiset(r);
    r
  }

  // ---------------------------------------------------------------------
  // The statistics query
  // ---------------------------------------------------------------------

  /** The query string's parameters, in order. */
  function StatsParams(timeRange: string, statusFilter: string, isCustomDate: bool,
                       startIso: string, endIso: string): (r: seq<(string, string)>)
    ensures |r| >= 2 && r[..2] == [("timeRange", timeRange), ("statusFilter", statusFilter)]
    ensures isCustomDate ==> r[2..] == [("startDate", startIso), ("endDate", endIso)]
    ensures !isCustomDate ==> |r| == 2
  {
    [("timeRange", timeRange), ("statusFilter", statusFilter)]
      + (if isCustomDate then [("startDate", startIso), ("endDate", endIso)] else [])
  }

  predicate HasCustomDates(params: seq<(string, string)>) {
    exists i :: 0 <= i < |params| && params[i].0 == "startDate"
  }

  /** Custom dates are sent exactly when the custom range is on. */
  lemma CustomDatesIffCustom(timeRange: string, statusFilter: string, isCustomDate: bool, s: string, e: string)
    ensures HasCustomDates(StatsParams(timeRange, statusFilter, isCustomDate, s, e)) <==> isCustomDate
  {
    var r := StatsParams(timeRange, statusFilter, isCustomDate, s, e);
    if isCustomDate {
      assert r[2].0 == "startDate";
    }
  }

  datatype Notice = NotAccepted | NoTeleconsultationLink

  class Dashboard {
    var appointments: seq<Appointment>
    var timers: map<string, TimerLabel>
    var timeRange: string
    var isCustomDate: bool
    var selected: Option<Appointment>
    var teleconsultationOpen: bool
    var notice: Option<Notice>

    constructor ()
      ensures appointments == [] && timers == map[] && timeRange == "month" && !isCustomDate
      ensures selected.None? && !teleconsultationOpen && notice.None?
    {
      appointments := [];
      timers := map[];
      timeRange := "month";
      isCustomDate := false;
      selected := None;
      teleconsultationOpen := false;
      notice := None;
    }

    /** `updateTimers`: a fresh map filled with one entry per accepted
        teleconsultation, then stored. */
    method UpdateTimers(now: int)
      modifies this`timers
      ensures timers == Timers(appointments, now)
    {
      var newTimers: map<string, TimerLabel> := map[];
      var i := 0;
      while i < |appointments|
        invariant 0 <= i <= |appointments|
        invariant newTimers == Timers(appointments[..i], now)
      {
        var appointment := appointments[i];
        if appointment.isTeleconsultation && appointment.status == Accepted {
          if now < appointment.startMs {
            newTimers := newTimers[appointment.id := StartsIn(appointment.startMs - now)];
          } else if appointment.startMs < now && now < appointment.startMs + SessionLength {
            newTimers := newTimers[appointment.id := InProgressLabel];
          } else {
            newTimers := newTimers[appointment.id := EndedLabel];
          }
        }
        assert appointments[..i + 1][..i] == appointments[..i];
        i := i + 1;
      }
      assert appointments[..i] == appointments;
      timers := newTimers;
    }

    /** `openTeleconsultation`: a non-accepted appointment is refused
        first, then one without a link; otherwise it is selected and the
        modal opens. */
    method OpenTeleconsultation(a: Appointment)
      modifies this`selected, this`teleconsultationOpen, this`notice
      ensures a.status != Accepted ==>
        notice == Some(NotAccepted) && selected == old(selected) && teleconsultationOpen == old(teleconsultationOpen)
      ensures a.status == Accepted && (a.jitsiUrl.None? || a.jitsiUrl.value == "") ==>
        notice == Some(NoTeleconsultationLink) && selected == old(selected) && teleconsultationOpen == old(teleconsultationOpen)
      ensures a.status == Accepted && a.jitsiUrl.Some? && a.jitsiUrl.value != "" ==>
        selected == Some(a) && teleconsultationOpen && notice == old(notice)
    {
      if a.status != Accepted {
        notice := Some(NotAccepted);
        return;
      }
      if a.jitsiUrl.None? || a.jitsiUrl.value == "" {
        notice := Some(NoTeleconsultationLink);
        return;
      }
      selected := Some(a);
      teleconsultationOpen := true;
    }

    /** Choosing a period: custom dates are used exactly for "custom". */
    method SelectTimeRange(value: string)
      modifies this`timeRange, this`isCustomDate
      ensures timeRange == value && (isCustomDate <==> value == "custom")
    {
      timeRange := value;
      isCustomDate := value == "custom";
    }
  }
}
