/**
 * How the store's writes show up in the merged days once the next snapshot
 * of the collection is merged (the store's records are the snapshot).
 */
module Scenarios {
  import opened Wrappers
  import opened Types
  import opened BookingContext
  import opened BookingService

  /** One booking for the first slot of 16 July marks that slot, and only that slot, as booked. */
  lemma SingleBookingMarksOneSlot(id: string, name: string)
    ensures var key := InitialSchedules()[0].slots[0].dateTime;
            var merged := UpdatedSchedules([Booking(id, name, key)]);
            && merged[0].slots[0].isBooked
            && merged[0].slots[0].bookingId == Some(id)
            && merged[0].slots[0].bookerName == Some(name)
            && forall d, i :: 0 <= d < |merged| && 0 <= i < |merged[d].slots| && (d, i) != (0, 0) ==>
                 !merged[d].slots[i].isBooked
  {
    var base := InitialSchedules();
    InitialSchedulesLayout();
    var key := base[0].slots[0].dateTime;
    var bookings := [Booking(id, name, key)];
    var merged := UpdatedSchedules(bookings);
    assert IsFirstMatch(bookings, key, 0);
    assert SlotReconciled(base[0].slots[0], merged[0].slots[0], bookings);
    forall d, i | 0 <= d < |merged| && 0 <= i < |merged[d].slots| && (d, i) != (0, 0)
      ensures !merged[d].slots[i].isBooked
    {
      assert SlotReconciled(base[d].slots[i], merged[d].slots[i], bookings);
      InitialKeysDistinct(d, i, 0, 0);
    }
  }

  /**
   * After a create for an instant no record held, the slot at that instant
   * shows the new booking's id and name once the next snapshot is merged.
   */
  lemma CreateThenObserve(base: seq<Schedule>, records: seq<Booking>, id: string, name: string, d: int, i: int)
    requires 0 <= d < |base| && 0 <= i < |base[d].slots|
    requires !HasBookingAt(records, base[d].slots[i].dateTime)
    ensures var slot := Merge(base, records + [Booking(id, name, base[d].slots[i].dateTime)])[d].slots[i];
            slot.isBooked && slot.bookingId == Some(id) && slot.bookerName == Some(name)
  {
    var key := base[d].slots[i].dateTime;
    var snapshot := records + [Booking(id, name, key)];
    assert IsFirstMatch(snapshot, key, |records|) by {
      forall j | 0 <= j < |records| ensures snapshot[j].bookingTime != key {
        assert snapshot[j] == records[j];
      }
    }
    var slot := Merge(base, snapshot)[d].slots[i];
    assert SlotReconciled(base[d].slots[i], slot, snapshot);
    var k :| IsFirstMatch(snapshot, key, k) && slot.bookingId == Some(snapshot[k].id)
             && slot.bookerName == Some(snapshot[k].bookerName);
    FirstMatchUnique(snapshot, key, k, |records|);
  }

  /**
   * After a cancel of (name, instant), the slot at that instant stays booked
   * exactly when some record at that instant was made under another name.
   */
  lemma CancelThenObserve(base: seq<Schedule>, records: seq<Booking>, name: string, d: int, i: int)
    requires 0 <= d < |base| && 0 <= i < |base[d].slots|
    ensures var key := base[d].slots[i].dateTime;
            Merge(base, Without(records, name, key))[d].slots[i].isBooked
            <==> exists j :: 0 <= j < |records| && records[j].bookingTime == key && records[j].bookerName != name
  {
    var key := base[d].slots[i].dateTime;
    var rest := Without(records, name, key);
    assert SlotReconciled(base[d].slots[i], Merge(base, rest)[d].slots[i], rest);
    if exists j :: 0 <= j < |records| && records[j].bookingTime == key && records[j].bookerName != name {
      var j :| 0 <= j < |records| && records[j].bookingTime == key && records[j].bookerName != name;
      assert records[j] in rest;
      var k :| 0 <= k < |rest| && rest[k] == records[j];
      assert HasBookingAt(rest, key);
    }
    if HasBookingAt(rest, key) {
      var k :| 0 <= k < |rest| && rest[k].bookingTime == key;
      assert rest[k] in records;
      var j :| 0 <= j < |records| && records[j] == rest[k];
      assert records[j].bookerName != name;
    }
  }

  /** A cancel that matches nothing leaves the merged days exactly as they were. */
  lemma CancelNoMatchKeepsSchedules(base: seq<Schedule>, records: seq<Booking>, name: string, time: string)
    requires Matching(records, name, time) == []
    ensures Merge(base, Without(records, name, time)) == Merge(base, records)
  {
    WithoutNoMatch(records, name, time);
  }
}
