/**
 * The home page (src/app/page.tsx) carries its own copy of the slot
 * generator and of the two configured days. Both are proved to agree with
 * the booking context's.
 */
module HomePage {
  import opened Wrappers
  import opened Types
  import opened Clock
  import BookingContext

  /**
   * The page's generateTimeSlots: the same walk as the context's, so for the
   * same inputs it yields the same list.
   */
  method GenerateTimeSlots(date: string, start: TimeOfDay, end: TimeOfDay) returns (slots: seq<TimeSlot>)
    ensures slots == BookingContext.Grid(date, start, end)
    ensures start >= end ==> slots == []
    ensures |slots| == BookingContext.SlotCount(start, end)
    ensures forall i :: 0 <= i < |slots| ==>
              start + 15 * i < end && slots[i] == BookingContext.FreshSlot(date, start + 15 * i)
    ensures forall i, j :: 0 <= i < j < |slots| ==> slots[i].dateTime != slots[j].dateTime
  {
    slots := [];
    var currentTime: int := start;
    while currentTime < end
      invariant currentTime == start + 15 * |slots|
      invariant slots != [] ==> currentTime < end + 15
      invariant forall i :: 0 <= i < |slots| ==> slots[i] == BookingContext.FreshSlot(date, start + 15 * i)
      decreases end - currentTime
    {
      var timeString := Label(currentTime);
      var dateTimeString := DateTimeKey(date, currentTime);
      slots := slots + [TimeSlot(timeString, dateTimeString, false, None, None)];
      currentTime := currentTime + 15;
    }
    BookingContext.GridProperties(date, start, end);
  }

  /**
   * The page's initialSchedule, built with the page's own generator: 16 July
   * with 24 slots from 10:00 to 15:45 and 17 July with 26 slots from 09:30
   * to 15:45, the same two days as the context's initialSchedules.
   */
  method InitialSchedule() returns (r: seq<Schedule>)
    ensures |r| == 2
    ensures r[0].date == "2025年7月16日" && r[1].date == "2025年7月17日"
    ensures |r[0].slots| == 24 && r[0].slots[0].time == "10:00" && r[0].slots[23].time == "15:45"
    ensures |r[1].slots| == 26 && r[1].slots[0].time == "09:30" && r[1].slots[25].time == "15:45"
    ensures forall d, i :: 0 <= d < 2 && 0 <= i < |r[d].slots| ==> !r[d].slots[i].isBooked
    ensures r == BookingContext.InitialSchedules()
  {
    var first := GenerateTimeSlots("2025-07-16", 10 * 60, 16 * 60);
    var second := GenerateTimeSlots("2025-07-17", 9 * 60 + 30, 16 * 60);
    r := [Schedule("2025年7月16日", first), Schedule("2025年7月17日", second)];
    BookingContext.InitialSchedulesLayout();
  }
}
