/** The doctor's dashboard: the upcoming and historic appointment lists,
    closing an appointment, the summary counts, and the number of free
    slots in the coming fourteen days. Instants are minutes since the
    epoch in local time; a date key is a day number, whose midnight is
    `day * MinutesPerDay`. */
module DoctorDashboard {
  import opened Wrappers
  import opened Strings

  const MinutesPerDay: nat := 1440
  const WindowDays: nat := 14

  const Pending: string := "pending"
  const Completed: string := "completed"
  const Cancelled: string := "cancelled"

  datatype Appointment = Appointment(id: string, status: string, patientName: string, date: int, time: string)

  predicate IsHistoric(status: string) {
    status == Completed || status == Cancelled
  }

  // ---------------------------------------------------------------------
  // Appointment lists
  // ---------------------------------------------------------------------

  /** `historicData.filter(...)`: only closed appointments, in order. */
  function HistoricOnly(s: seq<Appointment>): (r: seq<Appointment>)
    ensures SubsequenceOf(r, s)
    ensures forall a :: a in r <==> a in s && IsHistoric(a.status)
    ensures forall a: Appointment :: IsHistoric(a.status) ==> multiset(r)[a] == multiset(s)[a]
    ensures forall a: Appointment :: !IsHistoric(a.status) ==> multiset(r)[a] == 0
  {
    if s == [] then []
    else
      var rest := HistoricOnly(s[1..]);
      assert s == [s[0]] + s[1..];
      if IsHistoric(s[0].status) then
        assert ([s[0]] + rest)[1..] == rest;
        [s[0]] + rest
      else rest
  }

  /** `appointments.find(apt => apt._id === id)`: the first appointment
      with that id. */
  function FindById(s: seq<Appointment>, id: string): (r: Option<Appointment>)
    ensures r.Some? ==> r.value.id == id
    ensures r.Some? ==> exists i :: 0 <= i < |s| && s[i] == r.value && forall j :: 0 <= j < i ==> s[j].id != id
    ensures r.None? <==> forall a :: a in s ==> a.id != id
  {
    if s == [] then None
    else if s[0].id == id then Some(s[0])
    else
      var r := FindById(s[1..], id);
      assert forall k :: 0 <= k < |s| - 1 ==> s[1..][k] == s[k + 1];
      r
  }

  /** `prev.filter(apt => apt._id !== id)`. */
  function RemoveById(s: seq<Appointment>, id: string): (r: seq<Appointment>)
    ensures |r| <= |s|
    ensures forall a :: a in r <==> a in s && a.id != id
  {
    if s == [] then []
    else if s[0].id == id then RemoveById(s[1..], id)
    else [s[0]] + RemoveById(s[1..], id)
  }

  ghost predicate UniqueIds(s: seq<Appointment>) {
    forall i, j :: 0 <= i < j < |s| ==> s[i].id != s[j].id
  }

  /** With distinct ids, removing by id deletes exactly the one entry and
      keeps the others in order. */
  lemma {:induction false} RemoveByIdDeletesOne(s: seq<Appointment>, i: nat)
    requires i < |s| && UniqueIds(s)
    ensures RemoveById(s, s[i].id) == s[..i] + s[i + 1..]
  {
    UniqueIdsTail(s);
    if i == 0 {
      RemoveByIdHead(s);
    } else {
      assert s[0].id != s[i].id && s[1..][i - 1] == s[i];
      RemoveByIdDeletesOne(s[1..], i - 1);
      DropAfterHead(s, i);
    }
  }

  /** Deleting position `i > 0` keeps the head and deletes `i - 1` from
      the tail. */
  lemma DropAfterHead(s: seq<Appointment>, i: nat)
    requires 0 < i < |s|
    ensures s[..i] + s[i + 1..] == [s[0]] + (s[1..][..i - 1] + s[1..][i..])
  {
    assert s[1..][..i - 1] == s[1..i] && s[1..][i..] == s[i + 1..];
    assert s[..i] == [s[0]] + s[1..i];
  }

  lemma UniqueIdsTail(s: seq<Appointment>)
    requires s != [] && UniqueIds(s)
    ensures UniqueIds(s[1..])
  {
    var tail := s[1..];
    forall p, q | 0 <= p < q < |tail| ensures tail[p].id != tail[q].id {
      assert tail[p] == s[p + 1] && tail[q] == s[q + 1];
    }
  }

  lemma RemoveByIdHead(s: seq<Appointment>)
    requires s != [] && UniqueIds(s)
    ensures RemoveById(s, s[0].id) == s[1..]
  {
    var tail := s[1..];
    forall a | a in tail ensures a.id != s[0].id {
      var k :| 0 <= k < |tail| && tail[k] == a;
      assert s[k + 1] == a;
    }
    RemoveByIdAbsent(tail, s[0].id);
  }

  lemma {:induction false} RemoveByIdAbsent(s: seq<Appointment>, id: string)
    requires forall a :: a in s ==> a.id != id
    ensures RemoveById(s, id) == s
  {
    if s != [] {
      RemoveByIdAbsent(s[1..], id);
      assert s == [s[0]] + s[1..];
    }
  }

  function CountStatus(s: seq<Appointment>, status: string): (r: nat)
    ensures r <= |s|
  {
    if s == [] then 0
    else (if s[0].status == status then 1 else 0) + CountStatus(s[1..], status)
  }

  lemma {:induction false} CountStatusSplit(a: seq<Appointment>, b: seq<Appointment>, status: string)
    ensures CountStatus(a + b, status) == CountStatus(a, status) + CountStatus(b, status)
  {
    if a != [] {
      CountStatusSplit(a[1..], b, status);
      assert (a + b)[1..] == a[1..] + b;
    } else {
      assert a + b == b;
    }
  }

  /** The "pending" card: upcoming appointments still awaiting an answer. */
  function PendingCount(upcoming: seq<Appointment>): (r: nat)
    ensures r <= |upcoming|
    ensures r == 0 <==> forall a :: a in upcoming ==> a.status != Pending
  {
    CountStatusZero(upcoming, Pending);
    CountStatus(upcoming, Pending)
  }

  /** The "completed" card: historic appointments that took place. */
  function CompletedCount(historic: seq<Appointment>): (r: nat)
    ensures r <= |historic|
    ensures r == 0 <==> forall a :: a in historic ==> a.status != Completed
  {
    CountStatusZero(historic, Completed);
    CountStatus(historic, Completed)
  }

  lemma {:induction false} CountStatusZero(s: seq<Appointment>, status: string)
    ensures CountStatus(s, status) == 0 <==> forall a :: a in s ==> a.status != status
  {
    if s != [] {
      CountStatusZero(s[1..], status);
      assert forall a :: a in s <==> a == s[0] || a in s[1..];
    }
  }

  lemma CountStatusDropOne(s: seq<Appointment>, i: nat, status: string)
    requires i < |s|
    ensures CountStatus(s, status) == CountStatus(s[..i] + s[i + 1..], status) + (if s[i].status == status then 1 else 0)
  {
    var before, x, after := s[..i], s[i], s[i + 1..];
    assert s == (before + [x]) + after;
    CountStatusSplit(before + [x], after, status);
    CountStatusSplit(before, [x], status);
    CountStatusSplit(before, after, status);
  }

  /** A list of closed appointments holds only completed and cancelled
      ones. */
  lemma {:induction false} HistoricCounts(s: seq<Appointment>)
    requires forall a :: a in s ==> IsHistoric(a.status)
    ensures CountStatus(s, Completed) + CountStatus(s, Cancelled) == |s|
  {
    if s != [] {
      assert forall a :: a in s[1..] ==> a in s;
      HistoricCounts(s[1..]);
    }
  }

  /** Closing a pending appointment takes one off the pending card. */
  lemma ClosingPendingLowersPendingCount(upcoming: seq<Appointment>, i: nat)
    requires i < |upcoming| && UniqueIds(upcoming) && upcoming[i].status == Pending
    ensures PendingCount(RemoveById(upcoming, upcoming[i].id)) == PendingCount(upcoming) - 1
  {
    RemoveByIdDeletesOne(upcoming, i);
    CountStatusDropOne(upcoming, i, Pending);
  }

  /** Completing an appointment adds one to the completed card. */
  lemma CompletingRaisesCompletedCount(historic: seq<Appointment>, a: Appointment)
    ensures CompletedCount(historic + [a.(status := Completed)]) == CompletedCount(historic) + 1
  {
    CountStatusSplit(historic, [a.(status := Completed)], Completed);
  }

  // ---------------------------------------------------------------------
  // Free slots in the coming fourteen days
  // ---------------------------------------------------------------------

  /** Two decimal digits, zero-padded. */
  function TwoDigits(n: nat): (r: string)
    requires n < 100
    ensures |r| == 2 && IsDigit(r[0]) && IsDigit(r[1])
    ensures DigitValue(r[0]) * 10 + DigitValue(r[1]) == n
  {
    ['0' + (n / 10) as char, '0' + (n % 10) as char]
  }

  /** `format(now, "HH:mm")` for a minute of the day: the hour and the
      minute, two digits each. */
  function ClockText(minuteOfDay: nat): (r: string)
    requires minuteOfDay < MinutesPerDay
    ensures |r| == 5 && r[2] == ':'
    ensures forall k :: k in {0, 1, 3, 4} ==> IsDigit(r[k])
    ensures DigitValue(r[0]) * 10 + DigitValue(r[1]) == minuteOfDay / 60
    ensures DigitValue(r[3]) * 10 + DigitValue(r[4]) == minuteOfDay % 60
  {
    TwoDigits(minuteOfDay / 60) + ":" + TwoDigits(minuteOfDay % 60)
  }

  /** The clock text orders as the minutes do, so comparing "HH:mm"
      strings compares times of day. */
  lemma ClockOrder(a: nat, b: nat)
    requires a < MinutesPerDay && b < MinutesPerDay
    ensures Lt(ClockText(a), ClockText(b)) <==> a < b
  {
    var x, y := ClockText(a), ClockText(b);
    ClockLex(x, y);
    var h1, m1, h2, m2 := a / 60, a % 60, b / 60, b % 60;
    assert a == 60 * h1 + m1 && b == 60 * h2 + m2;
  }

  /** Two five-character strings with the same middle character compare
      on their other four characters, left to right. */
  lemma ClockLex(x: string, y: string)
    requires |x| == 5 && |y| == 5 && x[2] == y[2]
    ensures Lt(x, y) <==> x[0] < y[0] || (x[0] == y[0] && (x[1] < y[1] || (x[1] == y[1] &&
                          (x[3] < y[3] || (x[3] == y[3] && x[4] < y[4])))))
  {
    var x1, y1 := x[1..], y[1..];
    var x3, y3 := x1[1..][1..], y1[1..][1..];
    assert x1[0] == x[1] && y1[0] == y[1] && x1[1..][0] == y1[1..][0];
    assert x3[0] == x[3] && y3[0] == y[3] && x3[1..] == [x[4]] && y3[1..] == [y[4]];
    assert [x[4]][1..] == [] && [y[4]][1..] == [] && !Lt([], []);
    assert Lt([x[4]], [y[4]]) <==> x[4] < y[4];
    assert Lt(x3, y3) <==> x[3] < y[3] || (x[3] == y[3] && x[4] < y[4]);
    assert Lt(x1[1..], y1[1..]) == Lt(x3, y3);
  }

  /** `times.filter(time => time > currentTime)`. */
  function TimesAfter(times: seq<string>, current: string): (r: seq<string>)
    ensures |r| <= |times|
    ensures SubsequenceOf(r, times)
    ensures forall t :: t in r <==> t in times && Lt(current, t)
    ensures forall t :: Lt(current, t) ==> multiset(r)[t] == multiset(times)[t]
    ensures forall t :: !Lt(current, t) ==> multiset(r)[t] == 0
  {
    if times == [] then []
    else
      var rest := TimesAfter(times[1..], current);
      assert times == [times[0]] + times[1..];
      if Lt(current, times[0]) then
        assert ([times[0]] + rest)[1..] == rest;
        [times[0]] + rest
      else rest
  }

  /** The slots of one date that count, as the source writes it: the date's
      midnight must lie between `now` and fourteen days later, and on the
      date of `now` only later times count. */
  function CountedAsWritten(now: nat, day: int, times: seq<string>): (r: nat)
    ensures r <= |times|
    ensures day * MinutesPerDay < now || now + WindowDays * MinutesPerDay < day * MinutesPerDay ==> r == 0
  {
    if now <= day * MinutesPerDay <= now + WindowDays * MinutesPerDay then
      if day == now / MinutesPerDay then |TimesAfter(times, ClockText(now % MinutesPerDay))| else |times|
    else 0
  }

  function SlotCountAsWritten(now: nat, entries: seq<(int, seq<string>)>): (r: nat)
    ensures r <= TotalSlots(entries)
    decreases |entries|
  {
    if entries == [] then 0
    else
      var last := entries[|entries| - 1];
      SlotCountAsWritten(now, entries[..|entries| - 1]) + CountedAsWritten(now, last.0, last.1)
  }

  /** Except at midnight the date of `now` starts before `now`, so the
      source never counts today's remaining slots: one slot at 23:59 today,
      seen at 10:00, is not counted. */
  lemma AsWrittenMissesToday()
    ensures SlotCountAsWritten(MinutesPerDay + 600, [(1, ["23:59"])]) == 0
    ensures SlotCount(MinutesPerDay + 600, [(1, ["23:59"])]) == 1
  {
    assert ClockText(600) == "10:00";
    assert Lt("10:00", "23:59");
    assert [(1, ["23:59"])][..0] == [];
    assert TimesAfter(["23:59"], "10:00") == ["23:59"];
  }

  /** More generally, any time but midnight the as-written window skips
      today altogether. */
  lemma AsWrittenSkipsToday(now: nat, times: seq<string>)
    requires now % MinutesPerDay != 0
    ensures CountedAsWritten(now, now / MinutesPerDay, times) == 0
  {
  }

  /** The evidently intended window: today's later slots and every slot of
      the next fourteen days. */
  predicate InWindow(now: nat, day: int) {
    now / MinutesPerDay <= day <= now / MinutesPerDay + WindowDays
  }

  function Counted(now: nat, day: int, times: seq<string>): (r: nat)
    ensures !InWindow(now, day) ==> r == 0
    ensures InWindow(now, day) && day != now / MinutesPerDay ==> r == |times|
    ensures day == now / MinutesPerDay ==> r == |TimesAfter(times, ClockText(now % MinutesPerDay))|
  {
    if InWindow(now, day) then
      if day == now / MinutesPerDay then |TimesAfter(times, ClockText(now % MinutesPerDay))| else |times|
    else 0
  }

  /** The free-slot count over the availability's entries; it never
      exceeds the number of listed slots. */
  function SlotCount(now: nat, entries: seq<(int, seq<string>)>): (r: nat)
    ensures r <= TotalSlots(entries)
    decreases |entries|
  {
    if entries == [] then 0
    else
      var last := entries[|entries| - 1];
      SlotCount(now, entries[..|entries| - 1]) + Counted(now, last.0, last.1)
  }

  function TotalSlots(entries: seq<(int, seq<string>)>): nat
    decreases |entries|
  {
    if entries == [] then 0 else TotalSlots(entries[..|entries| - 1]) + |entries[|entries| - 1].1|
  }


  /** Away from today both windows agree on a date. */
  lemma CountedAgreesAwayFromToday(now: nat, day: int, times: seq<string>)
    requires day != now / MinutesPerDay
    ensures Counted(now, day, times) == CountedAsWritten(now, day, times)
  {
    var today := now / MinutesPerDay;
    assert today * MinutesPerDay <= now < (today + 1) * MinutesPerDay;
    if day > today {
      assert day * MinutesPerDay >= (today + 1) * MinutesPerDay;
      if day <= today + WindowDays {
        assert day * MinutesPerDay <= (today + WindowDays) * MinutesPerDay;
      } else {
        assert day * MinutesPerDay >= (today + WindowDays + 1) * MinutesPerDay;
      }
    } else {
      assert day * MinutesPerDay <= (today - 1) * MinutesPerDay;
    }
  }

  /** So the corrected count differs from the source's only by today's
      remaining slots: without an entry for today both counts agree. */
  lemma {:induction false} SlotCountAgreesWithoutToday(now: nat, entries: seq<(int, seq<string>)>)
    requires forall i :: 0 <= i < |entries| ==> entries[i].0 != now / MinutesPerDay
    ensures SlotCount(now, entries) == SlotCountAsWritten(now, entries)
  {
    if entries != [] {
      var last := entries[|entries| - 1];
      SlotCountAgreesWithoutToday(now, entries[..|entries| - 1]);
      CountedAgreesAwayFromToday(now, last.0, last.1);
    }
  }

  /** At midnight exactly, today's midnight is `now` itself and both counts
      agree on every date. */
  lemma {:induction false} SlotCountAgreesAtMidnight(now: nat, entries: seq<(int, seq<string>)>)
    requires now % MinutesPerDay == 0
    ensures SlotCount(now, entries) == SlotCountAsWritten(now, entries)
  {
    if entries != [] {
      var last := entries[|entries| - 1];
      SlotCountAgreesAtMidnight(now, entries[..|entries| - 1]);
      if last.0 != now / MinutesPerDay {
        CountedAgreesAwayFromToday(now, last.0, last.1);
      }
    }
  }

  /** `data.availability` as a map: each entry sets its date. */
  function ToMap(entries: seq<(int, seq<string>)>): (r: map<int, seq<string>>)
    ensures forall d :: d in r <==> exists i :: 0 <= i < |entries| && entries[i].0 == d
    ensures forall i :: 0 <= i < |entries| && (forall j :: i < j < |entries| ==> entries[j].0 != entries[i].0) ==>
                        r[entries[i].0] == entries[i].1
    decreases |entries|
  {
    if entries == [] then map[]
    else
      var last := entries[|entries| - 1];
      var r := ToMap(entries[..|entries| - 1])[last.0 := last.1];
      assert forall i :: 0 <= i < |entries| - 1 ==> entries[..|entries| - 1][i] == entries[i];
      r
  }

  /** The entries of a JSON object never repeat a key. */
  ghost predicate DistinctDates(entries: seq<(int, seq<string>)>) {
    forall i, j :: 0 <= i < j < |entries| ==> entries[i].0 != entries[j].0
  }

  /** With distinct dates, the map holds every entry's list under its date. */
  lemma ToMapDistinct(entries: seq<(int, seq<string>)>)
    requires DistinctDates(entries)
    ensures forall i :: 0 <= i < |entries| ==> entries[i].0 in ToMap(entries) && ToMap(entries)[entries[i].0] == entries[i].1
  {
  }

  // ---------------------------------------------------------------------
  // The dashboard state
  // ---------------------------------------------------------------------

  class Dashboard {
    var appointments: seq<Appointment>
    var historic: seq<Appointment>
    var availability: map<int, seq<string>>
    var slotsIn14Days: nat

    /** Only closed appointments are ever shown as historic, so the
        historic list splits into the completed and the cancelled ones. */
    ghost predicate Valid(): (r: bool)
      reads this
      ensures r ==> CountStatus(historic, Completed) + CountStatus(historic, Cancelled) == |historic|
    {
      if forall a :: a in historic ==> IsHistoric(a.status) then
        HistoricCounts(historic);
        true
      else false
    }

    constructor ()
      ensures Valid()
      ensures appointments == [] && historic == [] && availability == map[] && slotsIn14Days == 0
    {
      appointments := [];
      historic := [];
      availability := map[];
      slotsIn14Days := 0;
    }

    /** `fetchAppointments`: without a doctor id or when either request
        fails, both lists stay as they are; otherwise the upcoming list is
        replaced and the historic list keeps only closed appointments. */
    method FetchAppointments(doctorId: Option<string>, upcoming: Response<seq<Appointment>>, all: Response<seq<Appointment>>)
      requires Valid()
      modifies this`appointments, this`historic
      ensures Valid()
      ensures doctorId.None? || doctorId.value == "" || upcoming.Failed? || all.Failed? ==>
        appointments == old(appointments) && historic == old(historic)
      ensures doctorId.Some? && doctorId.value != "" && upcoming.Ok? && all.Ok? ==>
        appointments == upcoming.payload && historic == HistoricOnly(all.payload)
    {
      if doctorId.None? || doctorId.value == "" || upcoming.Failed? || all.Failed? {
        return;
      }
      appointments := upcoming.payload;
      historic := HistoricOnly(all.payload);
    }

    /** `updateAppointmentStatus`: on success the appointment leaves the
        upcoming list and, when it was listed, a copy carrying the new
        status joins the historic list; a failed request changes nothing. */
    method UpdateAppointmentStatus(id: string, status: string, ok: bool)
      requires Valid() && IsHistoric(status)
      modifies this`appointments, this`historic
      ensures Valid()
      ensures !ok ==> appointments == old(appointments) && historic == old(historic)
      ensures ok ==> appointments == RemoveById(old(appointments), id)
      ensures ok && FindById(old(appointments), id).Some? ==>
        historic == old(historic) + [FindById(old(appointments), id).value.(status := status)]
      ensures ok && FindById(old(appointments), id).None? ==> historic == old(historic)
    {
      if !ok {
        return;
      }
      var updated := FindById(appointments, id);
      if updated.Some? {
        historic := historic + [updated.value.(status := status)];
      }
      appointments := RemoveById(appointments, id);
    }

    /** `fetchAvailability`: on success the map is stored and the slots
        whose date's midnight lies between now and fourteen days later are
        summed entry by entry, as the source writes it (see
        `AsWrittenSkipsToday` for what that window leaves out). */
    method FetchAvailability(doctorId: Option<string>, response: Response<seq<(int, seq<string>)>>, now: nat)
      requires response.Ok? ==> DistinctDates(response.payload)
      modifies this`availability, this`slotsIn14Days
      ensures doctorId.None? || doctorId.value == "" || response.Failed? ==>
        availability == old(availability) && slotsIn14Days == old(slotsIn14Days)
      ensures doctorId.Some? && doctorId.value != "" && response.Ok? ==>
        availability == ToMap(response.payload) && slotsIn14Days == SlotCountAsWritten(now, response.payload)
      ensures doctorId.Some? && doctorId.value != "" && response.Ok? ==>
        forall i :: 0 <= i < |response.payload| ==> availability[response.payload[i].0] == response.payload[i].1
    {
      if doctorId.None? || doctorId.value == "" || response.Failed? {
        return;
      }
      var entries := response.payload;
      availability := ToMap(entries);
      ToMapDistinct(entries);
      slotsIn14Days := CountSlots(entries, now);
    }
  }

  /** The counting loop of `fetchAvailability`: each entry whose date's
      midnight lies between now and fourteen days later adds its slots,
      today's only those after the current time. */
  method CountSlots(entries: seq<(int, seq<string>)>, now: nat) returns (slotsCount: nat)
    ensures slotsCount == SlotCountAsWritten(now, entries)
  {
    slotsCount := 0;
    var currentTime := ClockText(now % MinutesPerDay);
    var today := now / MinutesPerDay;
    var i := 0;
    while i < |entries|
      invariant 0 <= i <= |entries|
      invariant slotsCount == SlotCountAsWritten(now, entries[..i])
    {
      var (date, times) := entries[i];
      if now <= date * MinutesPerDay <= now + WindowDays * MinutesPerDay {
        var validTimes := if date == today then TimesAfter(times, currentTime) else times;
        slotsCount := slotsCount + |validTimes|;
      }
      assert entries[..i + 1][..i] == entries[..i];
      i := i + 1;
    }
    assert entries[..i] == entries;
  }
}
