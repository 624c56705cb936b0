/**
 * The booking context (src/contexts/BookingContext.tsx): the slot-grid
 * generator, the two statically configured days, the merge of a bookings
 * snapshot into those days, and the provider that holds the state.
 */
module BookingContext {
  import opened Wrappers
  import opened Types
  import opened Clock

  /** Width of one slot, in minutes. */
  const SlotMinutes := 15

  // ----- slot grid -----

  /** A slot as the generator emits it: labelled, keyed, and not booked. */
  function FreshSlot(date: string, m: Minute): (slot: TimeSlot)
    ensures !slot.isBooked && slot.bookingId.None? && slot.bookerName.None?
  {
    TimeSlot(Label(m), DateTimeKey(date, m), false, None, None)
  }

  /** A fresh slot's label reads back as its minute, and its key as its date and minute. */
  lemma FreshSlotReadsBack(date: string, m: Minute)
    ensures ParseLabel(FreshSlot(date, m).time) == Some(m)
    ensures KeyDate(FreshSlot(date, m).dateTime) == date && KeyMinute(FreshSlot(date, m).dateTime) == Some(m)
  {
    LabelRoundTrip(m);
    KeyRoundTrip(date, m);
  }

  /** The slots from minute `t` while the clock is still before `end`, one every 15 minutes. */
  function Grid(date: string, t: int, end: TimeOfDay): seq<TimeSlot>
    requires 0 <= t
    decreases end - t
  {
    if t < end then [FreshSlot(date, t)] + Grid(date, t + SlotMinutes, end) else []
  }

  /** The number of 15-minute ticks from `start` that fall strictly before `end`. */
  function SlotCount(start: int, end: int): (n: nat)
    ensures start < end ==> start + SlotMinutes * (n - 1) < end <= start + SlotMinutes * n
    ensures start >= end ==> n == 0
  {
    if start < end then (end - start + SlotMinutes - 1) / SlotMinutes else 0
  }

  /** The grid has exactly as many slots as 15-minute ticks fit before `end`. */
  lemma {:induction false} GridSize(date: string, t: int, end: TimeOfDay)
    requires 0 <= t
    ensures |Grid(date, t, end)| == SlotCount(t, end)
    decreases end - t
  {
    if t < end {
      GridSize(date, t + SlotMinutes, end);
    }
  }

  /** Slot `i` of the grid is the fresh slot at minute `t + 15 i`, which is before `end`. */
  lemma {:induction false} GridAt(date: string, t: int, end: TimeOfDay, i: int)
    requires 0 <= t && 0 <= i < |Grid(date, t, end)|
    ensures t + SlotMinutes * i < end
    ensures Grid(date, t, end)[i] == FreshSlot(date, t + SlotMinutes * i)
    decreases end - t
  {
    if i > 0 {
      GridAt(date, t + SlotMinutes, end, i - 1);
    }
  }

  /** The label and key of slot `i` are those of minute `t + 15 i`. */
  lemma GridKeyAt(date: string, t: int, end: TimeOfDay, i: int)
    requires 0 <= t && 0 <= i < |Grid(date, t, end)|
    ensures t + SlotMinutes * i < end
    ensures Grid(date, t, end)[i].time == Label(t + SlotMinutes * i)
    ensures KeyDate(Grid(date, t, end)[i].dateTime) == date
    ensures KeyMinute(Grid(date, t, end)[i].dateTime) == Some(t + SlotMinutes * i)
  {
    GridAt(date, t, end, i);
    FreshSlotReadsBack(date, t + SlotMinutes * i);
  }

  /** The keys of one day's grid are pairwise distinct: the grid can use them as render keys. */
  lemma GridKeysDistinct(date: string, t: int, end: TimeOfDay, i: int, j: int)
    requires 0 <= t && 0 <= i < j < |Grid(date, t, end)|
    ensures Grid(date, t, end)[i].dateTime != Grid(date, t, end)[j].dateTime
  {
    GridKeyAt(date, t, end, i);
    GridKeyAt(date, t, end, j);
  }

  /** The labels of one day's grid read back as strictly increasing times, 15 minutes apart. */
  lemma GridLabelsIncrease(date: string, t: int, end: TimeOfDay, i: int)
    requires 0 <= t && 0 <= i && i + 1 < |Grid(date, t, end)|
    ensures ParseLabel(Grid(date, t, end)[i].time).Some?
    ensures ParseLabel(Grid(date, t, end)[i + 1].time).Some?
    ensures ParseLabel(Grid(date, t, end)[i + 1].time).value == ParseLabel(Grid(date, t, end)[i].time).value + SlotMinutes
  {
    GridAt(date, t, end, i);
    GridAt(date, t, end, i + 1);
    FreshSlotReadsBack(date, t + SlotMinutes * i);
    FreshSlotReadsBack(date, t + SlotMinutes * (i + 1));
  }

  /** Everything the generator promises, stated of the grid from `start`. */
  lemma GridProperties(date: string, start: TimeOfDay, end: TimeOfDay)
    ensures start >= end ==> Grid(date, start, end) == []
    ensures |Grid(date, start, end)| == SlotCount(start, end)
    ensures forall i :: 0 <= i < |Grid(date, start, end)| ==>
              start + SlotMinutes * i < end && Grid(date, start, end)[i] == FreshSlot(date, start + SlotMinutes * i)
    ensures forall i, j :: 0 <= i < j < |Grid(date, start, end)| ==>
              Grid(date, start, end)[i].dateTime != Grid(date, start, end)[j].dateTime
  {
    var g := Grid(date, start, end);
    GridSize(date, start, end);
    forall i | 0 <= i < |g|
      ensures start + SlotMinutes * i < end && g[i] == FreshSlot(date, start + SlotMinutes * i)
    {
      GridAt(date, start, end, i);
    }
    forall i, j | 0 <= i < j < |g|
      ensures g[i].dateTime != g[j].dateTime
    {
      GridKeysDistinct(date, start, end, i, j);
    }
  }

  /**
   * generateTimeSlots: walk from `start` toward `end` in 15-minute steps,
   * emitting an unbooked slot at every tick strictly before `end`.
   */
  method GenerateTimeSlots(date: string, start: TimeOfDay, end: TimeOfDay) returns (slots: seq<TimeSlot>)
    ensures slots == Grid(date, start, end)
    ensures start >= end ==> slots == []
    ensures |slots| == SlotCount(start, end)
    ensures forall i :: 0 <= i < |slots| ==>
              start + SlotMinutes * i < end && slots[i] == FreshSlot(date, start + SlotMinutes * i)
    ensures forall i, j :: 0 <= i < j < |slots| ==> slots[i].dateTime != slots[j].dateTime
  {
    slots := [];
    var currentTime: int := start;
    while currentTime < end
      invariant currentTime == start + SlotMinutes * |slots|
      invariant slots != [] ==> currentTime < end + SlotMinutes
      invariant forall i :: 0 <= i < |slots| ==> slots[i] == FreshSlot(date, start + SlotMinutes * i)
      decreases end - currentTime
    {
      var timeString := Label(currentTime);
      var dateTimeString := DateTimeKey(date, currentTime);
      slots := slots + [TimeSlot(timeString, dateTimeString, false, None, None)];
      currentTime := currentTime + SlotMinutes;
    }
    GridProperties(date, start, end);
  }

  // ----- the configured days -----

  const Day1 := "2025-07-16"
  const Day2 := "2025-07-17"

  /** initialSchedules: 16 July from 10:00 and 17 July from 09:30, both until 16:00. */
  function InitialSchedules(): (r: seq<Schedule>)
    ensures |r| == 2 && r[0].date == "2025年7月16日" && r[1].date == "2025年7月17日"
    ensures |r[0].slots| == 24 && |r[1].slots| == 26
  {
    GridSize(Day1, 10 * 60, 16 * 60);
    GridSize(Day2, 9 * 60 + 30, 16 * 60);
    [ Schedule("2025年7月16日", Grid(Day1, 10 * 60, 16 * 60)),
      Schedule("2025年7月17日", Grid(Day2, 9 * 60 + 30, 16 * 60)) ]
  }

  /** The labels at the ends of the configured days. */
  lemma ConfiguredLabels()
    ensures Label(10 * 60) == "10:00" && Label(9 * 60 + 30) == "09:30" && Label(15 * 60 + 45) == "15:45"
  {
    assert Digit(0) == '0' && Digit(1) == '1' && Digit(3) == '3' && Digit(4) == '4' && Digit(5) == '5' && Digit(9) == '9';
  }

  /** The configured days: 16 July with 24 slots 10:00 to 15:45, 17 July with 26 slots 09:30 to 15:45. */
  lemma InitialSchedulesLayout()
    ensures |InitialSchedules()| == 2
    ensures InitialSchedules()[0].date == "2025年7月16日" && InitialSchedules()[1].date == "2025年7月17日"
    ensures |InitialSchedules()[0].slots| == 24
    ensures InitialSchedules()[0].slots[0].time == "10:00" && InitialSchedules()[0].slots[23].time == "15:45"
    ensures |InitialSchedules()[1].slots| == 26
    ensures InitialSchedules()[1].slots[0].time == "09:30" && InitialSchedules()[1].slots[25].time == "15:45"
  {
    GridSize(Day1, 10 * 60, 16 * 60);
    GridSize(Day2, 9 * 60 + 30, 16 * 60);
    ConfiguredLabels();
    GridKeyAt(Day1, 10 * 60, 16 * 60, 0);
    GridKeyAt(Day1, 10 * 60, 16 * 60, 23);
    GridKeyAt(Day2, 9 * 60 + 30, 16 * 60, 0);
    GridKeyAt(Day2, 9 * 60 + 30, 16 * 60, 25);
  }

  /** Every configured slot starts out unbooked, with no booking id and no booker name. */
  lemma InitialSchedulesUnbooked(d: int, i: int)
    requires 0 <= d < |InitialSchedules()| && 0 <= i < |InitialSchedules()[d].slots|
    ensures !InitialSchedules()[d].slots[i].isBooked
    ensures InitialSchedules()[d].slots[i].bookingId.None? && InitialSchedules()[d].slots[i].bookerName.None?
  {
    if d == 0 {
      GridAt(Day1, 10 * 60, 16 * 60, i);
    } else {
      GridAt(Day2, 9 * 60 + 30, 16 * 60, i);
    }
  }

  /** The key of a configured slot names its day's date and minute `start + 15 i` of that day. */
  lemma InitialSlotKey(d: int, i: int)
    requires 0 <= d < |InitialSchedules()| && 0 <= i < |InitialSchedules()[d].slots|
    ensures KeyDate(InitialSchedules()[d].slots[i].dateTime) == if d == 0 then Day1 else Day2
    ensures KeyMinute(InitialSchedules()[d].slots[i].dateTime)
            == Some((if d == 0 then 10 * 60 else 9 * 60 + 30) + SlotMinutes * i)
  {
    var s := InitialSchedules();
    if d == 0 {
      assert s[d].slots == Grid(Day1, 10 * 60, 16 * 60);
      GridKeyAt(Day1, 10 * 60, 16 * 60, i);
    } else {
      assert s[d].slots == Grid(Day2, 9 * 60 + 30, 16 * 60);
      GridKeyAt(Day2, 9 * 60 + 30, 16 * 60, i);
    }
  }

  /** No two configured slots, on the same day or on different days, share a key. */
  lemma InitialKeysDistinct(d1: int, i1: int, d2: int, i2: int)
    requires 0 <= d1 < |InitialSchedules()| && 0 <= i1 < |InitialSchedules()[d1].slots|
    requires 0 <= d2 < |InitialSchedules()| && 0 <= i2 < |InitialSchedules()[d2].slots|
    requires d1 != d2 || i1 != i2
    ensures InitialSchedules()[d1].slots[i1].dateTime != InitialSchedules()[d2].slots[i2].dateTime
  {
    InitialSlotKey(d1, i1);
    InitialSlotKey(d2, i2);
    if d1 != d2 {
      assert Day1 != Day2 by { assert Day1[9] != Day2[9]; }
    }
  }

  // ----- merge of a bookings snapshot into the grids -----

  /** Some booking of the snapshot is for the instant `key`. */
  ghost predicate HasBookingAt(bookings: seq<Booking>, key: string)
  {
    exists i :: 0 <= i < |bookings| && bookings[i].bookingTime == key
  }

  /** `i` is the position of the first booking of the snapshot for the instant `key`. */
  ghost predicate IsFirstMatch(bookings: seq<Booking>, key: string, i: int)
  {
    && 0 <= i < |bookings|
    && bookings[i].bookingTime == key
    && forall j :: 0 <= j < i ==> bookings[j].bookingTime != key
  }

  /** `Array.find`: the first booking of the snapshot for the instant `key`, if any. */
  function FindBooking(bookings: seq<Booking>, key: string): (r: Option<Booking>)
    ensures r.None? <==> !HasBookingAt(bookings, key)
    ensures r.Some? ==> exists i :: IsFirstMatch(bookings, key, i) && bookings[i] == r.value
  {
    if |bookings| == 0 then None
    else if bookings[0].bookingTime == key then
      assert IsFirstMatch(bookings, key, 0);
      Some(bookings[0])
    else
      var r := FindBooking(bookings[1..], key);
      assert HasBookingAt(bookings[1..], key) ==> HasBookingAt(bookings, key) by {
        if HasBookingAt(bookings[1..], key) {
          var i :| 0 <= i < |bookings[1..]| && bookings[1..][i].bookingTime == key;
          assert bookings[i + 1].bookingTime == key;
        }
      }
      assert HasBookingAt(bookings, key) ==> HasBookingAt(bookings[1..], key) by {
        if HasBookingAt(bookings, key) {
          var i :| 0 <= i < |bookings| && bookings[i].bookingTime == key;
          assert bookings[1..][i - 1].bookingTime == key;
        }
      }
      assert r.Some? ==> exists i :: IsFirstMatch(bookings, key, i) && bookings[i] == r.value by {
        if r.Some? {
          var i :| IsFirstMatch(bookings[1..], key, i) && bookings[1..][i] == r.value;
          assert IsFirstMatch(bookings, key, i + 1);
        }
      }
      r
  }

  /** Only one position can be the first match. */
  lemma FirstMatchUnique(bookings: seq<Booking>, key: string, i: int, j: int)
    requires IsFirstMatch(bookings, key, i) && IsFirstMatch(bookings, key, j)
    ensures i == j
  {
  }

  /**
   * What the merge promises of one slot: its skeleton (`time`, `dateTime`) is
   * kept; it is booked exactly when some booking is for its instant; when
   * booked it names the first such booking of the snapshot, otherwise none.
   */
  ghost predicate SlotReconciled(base: TimeSlot, slot: TimeSlot, bookings: seq<Booking>)
  {
    && slot.time == base.time
    && slot.dateTime == base.dateTime
    && (slot.isBooked <==> HasBookingAt(bookings, base.dateTime))
    && (slot.isBooked ==>
          exists i :: IsFirstMatch(bookings, base.dateTime, i)
                   && slot.bookingId == Some(bookings[i].id)
                   && slot.bookerName == Some(bookings[i].bookerName))
    && (!slot.isBooked ==> slot.bookingId.None? && slot.bookerName.None?)
  }

  /** What the merge promises of a list of days: same days, same slots, each slot reconciled. */
  ghost predicate Reconciled(base: seq<Schedule>, schedules: seq<Schedule>, bookings: seq<Booking>)
  {
    && |schedules| == |base|
    && (forall d :: 0 <= d < |base| ==>
          && schedules[d].date == base[d].date
          && |schedules[d].slots| == |base[d].slots|)
    && (forall d, i :: 0 <= d < |base| && 0 <= i < |base[d].slots| && |schedules[d].slots| == |base[d].slots| ==>
          SlotReconciled(base[d].slots[i], schedules[d].slots[i], bookings))
  }

  /** One slot, recomputed: `{...slot, isBooked: !!booking, bookingId: booking?.id, bookerName: booking?.bookerName}`. */
  function MergeSlot(slot: TimeSlot, bookings: seq<Booking>): (r: TimeSlot)
    ensures SlotReconciled(slot, r, bookings)
    ensures SlotWellFormed(r)
  {
    var booking := FindBooking(bookings, slot.dateTime);
    slot.(isBooked := booking.Some?,
          bookingId := if booking.Some? then Some(booking.value.id) else None,
          bookerName := if booking.Some? then Some(booking.value.bookerName) else None)
  }

  /** One day, recomputed slot by slot. */
  function MergeSchedule(schedule: Schedule, bookings: seq<Booking>): (r: Schedule)
    ensures r.date == schedule.date && |r.slots| == |schedule.slots|
    ensures forall i :: 0 <= i < |r.slots| ==> SlotReconciled(schedule.slots[i], r.slots[i], bookings)
  {
    schedule.(slots := seq(|schedule.slots|, i requires 0 <= i < |schedule.slots| => MergeSlot(schedule.slots[i], bookings)))
  }

  /** Every day of `base`, recomputed from the snapshot. */
  function Merge(base: seq<Schedule>, bookings: seq<Booking>): (r: seq<Schedule>)
    ensures Reconciled(base, r, bookings)
  {
    seq(|base|, d requires 0 <= d < |base| => MergeSchedule(base[d], bookings))
  }

  /** updateScheduleWithBookings: always rebuilt from `initialSchedules`, never from the previous state. */
  function UpdatedSchedules(bookingData: seq<Booking>): (r: seq<Schedule>)
    ensures Reconciled(InitialSchedules(), r, bookingData)
  {
    Merge(InitialSchedules(), bookingData)
  }

  /** The merge promise determines the result completely: two reconciled results are equal. */
  lemma {:induction false} ReconciledUnique(base: seq<Schedule>, s1: seq<Schedule>, s2: seq<Schedule>, bookings: seq<Booking>)
    requires Reconciled(base, s1, bookings) && Reconciled(base, s2, bookings)
    ensures s1 == s2
  {
    forall d | 0 <= d < |base|
      ensures s1[d] == s2[d]
    {
      forall i | 0 <= i < |base[d].slots|
        ensures s1[d].slots[i] == s2[d].slots[i]
      {
        var b, x, y := base[d].slots[i], s1[d].slots[i], s2[d].slots[i];
        assert SlotReconciled(b, x, bookings) && SlotReconciled(b, y, bookings);
        if x.isBooked {
          var k :| IsFirstMatch(bookings, b.dateTime, k)
                   && x.bookingId == Some(bookings[k].id) && x.bookerName == Some(bookings[k].bookerName);
          var l :| IsFirstMatch(bookings, b.dateTime, l)
                   && y.bookingId == Some(bookings[l].id) && y.bookerName == Some(bookings[l].bookerName);
          FirstMatchUnique(bookings, b.dateTime, k, l);
        }
      }
      assert s1[d].slots == s2[d].slots;
    }
  }

  /** Reconciliation only looks at the skeleton of the days it starts from. */
  lemma {:induction false} ReconciledOnSkeleton(base: seq<Schedule>, merged: seq<Schedule>, r: seq<Schedule>,
                                                earlier: seq<Booking>, bookings: seq<Booking>)
    requires Reconciled(base, merged, earlier) && Reconciled(merged, r, bookings)
    ensures Reconciled(base, r, bookings)
  {
    forall d, i | 0 <= d < |base| && 0 <= i < |base[d].slots| && |r[d].slots| == |base[d].slots|
      ensures SlotReconciled(base[d].slots[i], r[d].slots[i], bookings)
    {
      assert SlotReconciled(base[d].slots[i], merged[d].slots[i], earlier);
      assert SlotReconciled(merged[d].slots[i], r[d].slots[i], bookings);
    }
  }

  /**
   * No drift: merging a snapshot into days that were already merged with an
   * earlier snapshot gives what merging it into the base days gives.
   */
  lemma MergeForgetsEarlierSnapshot(base: seq<Schedule>, earlier: seq<Booking>, bookings: seq<Booking>)
    ensures Merge(Merge(base, earlier), bookings) == Merge(base, bookings)
  {
    ReconciledOnSkeleton(base, Merge(base, earlier), Merge(Merge(base, earlier), bookings), earlier, bookings);
    ReconciledUnique(base, Merge(Merge(base, earlier), bookings), Merge(base, bookings), bookings);
  }

  /** Merging the same snapshot twice changes nothing more. */
  lemma MergeIdempotent(base: seq<Schedule>, bookings: seq<Booking>)
    ensures Merge(Merge(base, bookings), bookings) == Merge(base, bookings)
  {
    MergeForgetsEarlierSnapshot(base, bookings, bookings);
  }

  /** The generated days are what merging an empty snapshot gives. */
  lemma MergeNothingIsInitial()
    ensures Merge(InitialSchedules(), []) == InitialSchedules()
  {
    var base := InitialSchedules();
    assert Reconciled(base, base, []) by {
      forall d, i | 0 <= d < |base| && 0 <= i < |base[d].slots|
        ensures SlotReconciled(base[d].slots[i], base[d].slots[i], [])
      {
        InitialSchedulesUnbooked(d, i);
      }
    }
    ReconciledUnique(base, Merge(base, []), base, []);
  }

  // ----- the provider's state -----

  /**
   * BookingProvider: the state the context exposes. `snapshot` records the
   * bookings the current `schedules` were last merged from.
   */
  class BookingProvider {
    var bookings: seq<Booking>
    var schedules: seq<Schedule>
    var loading: bool
    var error: Option<string>
    ghost var snapshot: seq<Booking>

    /** The shown days are always the configured days merged with some snapshot. */
    ghost predicate Valid()
      reads this
    {
      schedules == Merge(InitialSchedules(), snapshot)
    }

    /** The initial state: no bookings, the generated days, not loading, no error. */
    constructor ()
      ensures Valid()
      ensures bookings == [] && schedules == InitialSchedules()
      ensures !loading && error == None
    {
      bookings := [];
      schedules := InitialSchedules();
      loading := false;
      error := None;
      snapshot := [];
      MergeNothingIsInitial();
    }

    /** updateScheduleWithBookings: recompute the days from `initialSchedules` and the given snapshot. */
    method UpdateScheduleWithBookings(bookingData: seq<Booking>)
      modifies this
      ensures Valid()
      ensures schedules == UpdatedSchedules(bookingData)
      ensures bookings == old(bookings) && loading == old(loading) && error == old(error)
    {
      schedules := UpdatedSchedules(bookingData);
      snapshot := bookingData;
    }

    /** updateBookings: store the new snapshot and show it merged. */
    method UpdateBookings(newBookings: seq<Booking>)
      modifies this
      ensures Valid()
      ensures bookings == newBookings && schedules == UpdatedSchedules(newBookings)
      ensures loading == old(loading) && error == old(error)
    {
      bookings := newBookings;
      UpdateScheduleWithBookings(newBookings);
    }

    /**
     * Whatever the snapshot, the shown days are the two configured days with
     * their slot counts, times and keys, and no two shown slots share a key.
     */
    lemma ShownDaysKeepLayout()
      requires Valid()
      ensures |schedules| == 2
      ensures schedules[0].date == "2025年7月16日" && schedules[1].date == "2025年7月17日"
      ensures |schedules[0].slots| == 24 && |schedules[1].slots| == 26
      ensures forall d, i :: 0 <= d < 2 && 0 <= i < |schedules[d].slots| ==>
                schedules[d].slots[i].time == InitialSchedules()[d].slots[i].time
                && schedules[d].slots[i].dateTime == InitialSchedules()[d].slots[i].dateTime
      ensures forall d1, i1, d2, i2 ::
                (0 <= d1 < 2 && 0 <= i1 < |schedules[d1].slots| && 0 <= d2 < 2 && 0 <= i2 < |schedules[d2].slots|
                 && (d1, i1) != (d2, i2)) ==>
                schedules[d1].slots[i1].dateTime != schedules[d2].slots[i2].dateTime
    {
      var base := InitialSchedules();
      forall d1, i1, d2, i2 | 0 <= d1 < 2 && 0 <= i1 < |schedules[d1].slots|
          && 0 <= d2 < 2 && 0 <= i2 < |schedules[d2].slots| && (d1, i1) != (d2, i2)
        ensures schedules[d1].slots[i1].dateTime != schedules[d2].slots[i2].dateTime
      {
        assert SlotReconciled(base[d1].slots[i1], schedules[d1].slots[i1], snapshot);
        assert SlotReconciled(base[d2].slots[i2], schedules[d2].slots[i2], snapshot);
        InitialKeysDistinct(d1, i1, d2, i2);
      }
    }

    /**
     * refreshBookings: raise `loading`, clear `error`, run the (empty) refresh
     * body, and lower `loading` again in the `finally` step.
     */
    method RefreshBookings()
      requires Valid()
      modifies this
      ensures Valid()
      ensures !loading && error == None
      ensures bookings == old(bookings) && schedules == old(schedules)
    {
      loading := true;
      error := None;
      loading := false;
    }
  }
}
