/**
 * The records shared by the store and the UI (src/lib/types.ts).
 * Strings stay strings; the optional `bookingId` and `bookerName`
 * fields of a slot are options.
 */
module Types {
  import opened Wrappers

  /** One reservation as the document store keeps it. */
  datatype Booking = Booking(id: string, bookerName: string, bookingTime: string)

  /** One 15-minute cell of a day's grid. `dateTime` is the join key against `Booking.bookingTime`. */
  datatype TimeSlot = TimeSlot(
    time: string,
    dateTime: string,
    isBooked: bool,
    bookingId: Option<string>,
    bookerName: Option<string>)

  /** One day: its display label and its ordered slots. */
  datatype Schedule = Schedule(date: string, slots: seq<TimeSlot>)

  /** The derived fields of a slot agree with each other: booked exactly when it names a booking. */
  predicate SlotWellFormed(slot: TimeSlot)
  {
    && (slot.isBooked <==> slot.bookingId.Some?)
    && (slot.isBooked <==> slot.bookerName.Some?)
  }
}
