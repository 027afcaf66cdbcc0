/** The doctor's availability editor: a map from dates to sorted lists of
    "HH:mm" slots, edited one slot at a time for the selected date and
    pushed whole to the backend after each edit. Dates are day numbers
    (the "yyyy-MM-dd" key of a day). */
module Availability {
  import opened Wrappers
  import opened Strings

  /** Date key to the slots offered that day. */
  type SlotMap = map<int, seq<string>>

  /** The ten bookable hours, "08:00" to "17:00". */
  const TimeSlots: seq<string> :=
    ["08:00", "09:00", "10:00", "11:00", "12:00", "13:00", "14:00", "15:00", "16:00", "17:00"]

  /** Number of consecutive days offered, from the start of the week. */
  const DaysShown: nat := 14

  /** The slots of a date, the empty list when the date has no entry. */
  function SlotsFor(m: SlotMap, day: int): (r: seq<string>)
    ensures day in m ==> r == m[day]
    ensures day !in m ==> r == []
  {
    if day in m then m[day] else []
  }

  /** The days shown: fourteen consecutive days from the start of the week. */
  function WeekDays(weekStart: int): (r: seq<int>)
    ensures |r| == DaysShown
    ensures forall d :: d in r <==> weekStart <= d < weekStart + DaysShown
  {
    var r := seq(DaysShown, i requires 0 <= i < DaysShown => weekStart + i);
    assert forall i :: 0 <= i < DaysShown ==> r[i] == weekStart + i;
    assert forall d :: weekStart <= d < weekStart + DaysShown ==> d in r by {
      forall d | weekStart <= d < weekStart + DaysShown ensures d in r {
        assert r[d - weekStart] == d;
      }
    }
    r
  }

  /** Toggling one time in a day's list: remove every copy when present,
      otherwise append it and sort the list. */
  function Toggled(slots: seq<string>, time: string): (r: seq<string>)
    ensures time in slots ==> time !in r
    ensures time in slots ==> forall y :: y != time ==> multiset(r)[y] == multiset(slots)[y]
    ensures time !in slots ==> Sorted(r) && multiset(r) == multiset(slots) + multiset{time}
  {
    if time in slots then RemoveAll(slots, time) else SortStrings(slots + [time])
  }

  /** Toggling presence: the time is in the result exactly when it was not
      in the list before. */
  lemma ToggledFlipsPresence(slots: seq<string>, time: string)
    ensures time in Toggled(slots, time) <==> time !in slots
  {
    if time !in slots {
      assert time in multiset(Toggled(slots, time));
    }
  }

  /** A sorted list stays sorted under a toggle. */
  lemma ToggledKeepsSorted(slots: seq<string>, time: string)
    requires Sorted(slots)
    ensures Sorted(Toggled(slots, time))
  {
    if time in slots {
      RemoveAllSorted(slots, time);
    }
  }

  /** A sorted list without repeats stays one under a toggle. */
  lemma ToggledKeepsStrictlySorted(slots: seq<string>, time: string)
    requires StrictlySorted(slots)
    ensures StrictlySorted(Toggled(slots, time))
  {
    var r := Toggled(slots, time);
    StrictlySortedIsSorted(slots);
    StrictlySortedCounts(slots);
    ToggledKeepsSorted(slots, time);
    forall y ensures multiset(r)[y] <= 1 {
      if time !in slots && y == time {
        assert multiset(slots)[time] == 0;
      }
    }
    SortedDistinctIsStrict(r);
  }

  /** Toggling the same time twice restores a sorted list without repeats. */
  lemma ToggleTwiceRestores(slots: seq<string>, time: string)
    requires StrictlySorted(slots)
    ensures Toggled(Toggled(slots, time), time) == slots
  {
    StrictlySortedIsSorted(slots);
    var twice := Toggled(Toggled(slots, time), time);
    if time in slots {
      RemovedThenAdded(slots, time);
    } else {
      AddedThenRemoved(slots, time);
    }
    SortedUnique(twice, slots);
  }

  /** Removing a listed time and adding it back gives the same elements. */
  lemma RemovedThenAdded(slots: seq<string>, time: string)
    requires StrictlySorted(slots) && time in slots
    ensures Sorted(SortStrings(RemoveAll(slots, time) + [time]))
    ensures multiset(SortStrings(RemoveAll(slots, time) + [time])) == multiset(slots)
  {
    var once := RemoveAll(slots, time);
    var twice := SortStrings(once + [time]);
    StrictlySortedOccursOnce(slots, time);
    RemoveOnceThenAdd(slots, time);
  }

  /** Taking out the one copy of a value and appending it back gives the
      same elements. */
  lemma RemoveOnceThenAdd(slots: seq<string>, time: string)
    requires multiset(slots)[time] == 1
    ensures multiset(RemoveAll(slots, time) + [time]) == multiset(slots)
  {
    var once := RemoveAll(slots, time);
    forall y ensures multiset(once + [time])[y] == multiset(slots)[y] {
      if y == time {
        assert multiset(once)[y] == 0;
      } else {
        assert multiset(once)[y] == multiset(slots)[y];
      }
    }
  }

  /** Adding an unlisted time and removing it again gives the same elements. */
  lemma AddedThenRemoved(slots: seq<string>, time: string)
    requires time !in slots
    ensures Sorted(RemoveAll(SortStrings(slots + [time]), time))
    ensures multiset(RemoveAll(SortStrings(slots + [time]), time)) == multiset(slots)
  {
    var once := SortStrings(slots + [time]);
    var twice := RemoveAll(once, time);
    RemoveAllSorted(once, time);
    assert multiset(slots)[time] == 0;
    forall y ensures multiset(twice)[y] == multiset(slots)[y] {
    }
  }

  /** The offered times are sorted and distinct, so every toggle sequence
      started from them is reversible. */
  lemma TimeSlotsStrictlySorted()
    ensures |TimeSlots| == 10 && StrictlySorted(TimeSlots)
  {
    forall i | 0 <= i < |TimeSlots| - 1 ensures Lt(TimeSlots[i], TimeSlots[i + 1]) {
    }
    AdjacentLtIsStrictlySorted(TimeSlots);
  }

  lemma {:induction false} AdjacentLtIsStrictlySorted(s: seq<string>)
    requires forall i :: 0 <= i < |s| - 1 ==> Lt(s[i], s[i + 1])
    ensures StrictlySorted(s)
  {
    if |s| > 1 {
      AdjacentLtIsStrictlySorted(s[1..]);
      forall j | 1 <= j < |s| ensures Lt(s[0], s[j]) {
        if j > 1 {
          assert Lt(s[1..][0], s[1..][j - 1]);
          LtTransitive(s[0], s[1], s[j]);
        }
      }
    }
  }

  /** Writing one date's list leaves every other date's list alone. */
  lemma SlotsForUpdated(m: SlotMap, day: int, slots: seq<string>)
    ensures SlotsFor(m[day := slots], day) == slots
    ensures forall d :: d != day ==> SlotsFor(m[day := slots], d) == SlotsFor(m, d)
  {
  }

  /** The body of the update request. */
  datatype UpdateRequest = UpdateRequest(userId: Option<string>, availability: SlotMap)

  /** The editor's state for the signed-in doctor. */
  class AvailabilityManager {
    const userId: Option<string>
    const weekStart: int
    var selectedDay: int
    var availability: SlotMap
    var sent: seq<UpdateRequest>

    constructor (userId: Option<string>, weekStart: int, today: int)
      ensures this.userId == userId && this.weekStart == weekStart
      ensures selectedDay == today && availability == map[] && sent == []
    {
      this.userId := userId;
      this.weekStart := weekStart;
      selectedDay := today;
      availability := map[];
      sent := [];
    }

    /** The slots shown for the selected date. */
    function SelectedSlots(): (r: seq<string>)
      reads this
      ensures r == SlotsFor(availability, selectedDay)
    {
      SlotsFor(availability, selectedDay)
    }

    /** The initial load: the backend's map replaces the local one when a
        user id is stored and the request succeeds. */
    method Load(storedUserId: Option<string>, response: Response<SlotMap>)
      modifies this`availability
      ensures storedUserId.Some? && storedUserId.value != "" && response.Ok? ==> availability == response.payload
      ensures storedUserId.None? || storedUserId.value == "" || response.Failed? ==> availability == old(availability)
    {
      if storedUserId.Some? && storedUserId.value != "" && response.Ok? {
        availability := response.payload;
      }
    }

    /** Clicking one of the fourteen day buttons. */
    method SelectDay(day: int)
      requires day in WeekDays(weekStart)
      modifies this`selectedDay
      ensures selectedDay == day
    {
      selectedDay := day;
    }

    /** `toggleTimeSlot`: the selected date's list is toggled, every other
        date keeps its list, and the whole new map is sent. */
    method ToggleTimeSlot(time: string)
      modifies this`availability, this`sent
      ensures availability == old(availability)[selectedDay := Toggled(SlotsFor(old(availability), selectedDay), time)]
      ensures time in SelectedSlots() <==> time !in SlotsFor(old(availability), selectedDay)
      ensures forall d :: d != selectedDay ==> SlotsFor(availability, d) == SlotsFor(old(availability), d)
      ensures sent == old(sent) + [UpdateRequest(userId, availability)]
    {
      var dateKey := selectedDay;
      var currentSlots := SlotsFor(availability, dateKey);
      var newSlots := if time in currentSlots then RemoveAll(currentSlots, time) else SortStrings(currentSlots + [time]);
      ToggledFlipsPresence(currentSlots, time);
      SlotsForUpdated(availability, dateKey, newSlots);
      availability := availability[dateKey := newSlots];
      sent := sent + [UpdateRequest(userId, availability)];
    }
  }
}
