# Booking slot grid and booking reconciliation, in Dafny

This project models the core of a small slot-booking web app. The app shows two days of 15-minute slots and keeps them in step with a list of bookings held in a document store. The model has three parts.

- **The slot grid generator** (`generateTimeSlots`). It walks from a day's opening time toward its closing time in 15-minute steps. At every tick strictly before closing it emits an unbooked slot with an `HH:MM` label and a timestamp key. The two configured days are 16 July (10:00–16:00) and 17 July (09:30–16:00).
- **The booking context** (`BookingProvider`). It holds `bookings`, `schedules`, `loading` and `error`. Its merge always recomputes the days from the configured grids. Each slot is marked booked exactly when some booking's `bookingTime` equals the slot's `dateTime`. When several bookings match, the first one in snapshot order (`Array.find`) supplies `bookingId` and `bookerName`.
- **The booking service** (`bookingService`). The store's `bookings` collection is modelled as an in-memory sequence of records. `getAll` reads every record. `create` appends one record under a fresh document id. `deleteByNameAndTime` removes every record that matches both the name and the time, and reports whether any matched.

Files:

- `Wrappers.dfy`: the `Option` type.
- `Types.dfy`: `Booking`, `TimeSlot`, `Schedule` (src/lib/types.ts).
- `Clock.dfy`: times of day as minutes since midnight, the zero-padded `HH:MM` label and its parser, and the timestamp key `date + "T" + HH:MM` with its decoders.
- `BookingContext.dfy`: the generator (a loop), the configured days, the merge, and the `BookingProvider` class.
- `HomePage.dfy`: the home page's own copy of the generator and of the configured days.
- `BookingService.dfy`: the `BookingCollection` class and the query/delete filters.
- `Scenarios.dfy`: how writes to the store show up in the merged days once the next snapshot is merged.

Modelling choices:

- **Time of day.** A time of day is an integer number of minutes, from 0 to 1440. A slot minute is below 1440.
- **Timestamp key.** `toISOString()` is replaced by `DateTimeKey(date, m) = date + "T" + Label(m)`. The key is proved injective for every date string, because its tail always has exactly 5 characters, and the label and date can both be read back from it.
- **Store inputs.** Whether the store answers is a boolean input of each service operation. A failure becomes `Failed(FetchFailed | CreateFailed | DeleteFailed)`, which is distinct from `Ok(false)` ("nothing matched"). The document id that Firestore draws for `create` is an input, and it must be unused.
- **Slot count: a ceiling, not a truncation.** One might expect `(end − start) / 15` slots, truncated, with no slot running past `end`. The code emits a slot at every tick `start + 15·i < end`. That gives ⌈(end − start) / 15⌉ slots, and with bounds that are not a multiple of 15 apart the last slot runs past `end`. The model follows the code: see `SlotCount` and `GenerateTimeSlots`. The configured days use whole-hour and half-hour bounds, so they are not affected.

## Model

| member | source | states |
|---|---|---|
| `Clock.LabelRoundTrip` | src/contexts/BookingContext.tsx:28 | Parsing a slot's zero-padded `HH:MM` label gives back its minute since midnight. |
| `Clock.LabelInjective` | src/app/page.tsx:20-21 | Different minutes have different labels. |
| `Clock.Label` | src/app/page.tsx:21 | A label is five characters with `:` in the middle. |
| `Clock.ParseLabel` | src/app/page.tsx:20-21 | Accepts exactly the `HH:MM` texts with two-digit hours below 24 and two-digit minutes below 60, and reads each as a minute of the day. |
| `Clock.ParsedIsLabel` | src/app/page.tsx:20-21 | Every text the parser accepts is the label of the minute it reads as. With `LabelRoundTrip`, the label of a minute is the one zero-padded `HH:MM` text that reads as that minute. |
| `Clock.DateTimeKey` | src/contexts/BookingContext.tsx:29 | The key of a slot is six characters longer than its date: a `T` and the five-character label follow the date. |
| `Clock.KeyRoundTrip` | src/contexts/BookingContext.tsx:29 | A timestamp key can be read back into its date and its minute. |
| `Clock.DateTimeKeyInjective` | src/contexts/BookingContext.tsx:29 | Two keys are equal only when both date and minute are equal, so the join key is exact. |
| `BookingContext.FreshSlot` | src/contexts/BookingContext.tsx:31-35 | A generated slot is unbooked and has no booking id and no booker name. |
| `BookingContext.FreshSlotReadsBack` | src/contexts/BookingContext.tsx:28-29 | A generated slot's label reads back as its minute, and its key reads back as its date and minute. |
| `BookingContext.SlotCount` | src/contexts/BookingContext.tsx:27 | For start < end, the count n is the least with start + 15·n ≥ end, and start + 15·(n−1) < end. For start ≥ end it is 0, with no wrap to the next day. |
| `BookingContext.GridSize` | src/contexts/BookingContext.tsx:24-37 | The grid has exactly `SlotCount(start, end)` slots. |
| `BookingContext.GridAt` | src/contexts/BookingContext.tsx:24-37 | Slot i is the unbooked slot at minute start + 15·i, and that minute is before end. |
| `BookingContext.GridKeyAt` | src/contexts/BookingContext.tsx:28-29 | Slot i's label is the label of start + 15·i, and its key decodes to the day's date and that minute. |
| `BookingContext.GridKeysDistinct` | src/components/booking/BookingGrid.tsx:40 | Within one day, no two slots share a `dateTime`, which the grid uses as its render key. |
| `BookingContext.GridLabelsIncrease` | src/contexts/BookingContext.tsx:37 | Consecutive labels read back as times exactly 15 minutes apart, so they strictly increase. |
| `BookingContext.GridProperties` | src/contexts/BookingContext.tsx:22-40 | The grid is empty when start ≥ end, has the ceiling count, holds the fresh slot at start + 15·i, and has distinct keys. |
| `BookingContext.GenerateTimeSlots` | src/contexts/BookingContext.tsx:22-40 | The loop returns the grid, proved with its loop invariants. It is empty when start ≥ end, has the ceiling count, slot i is at start + 15·i < end and unbooked, and keys are distinct. |
| `BookingContext.InitialSchedulesLayout` | src/contexts/BookingContext.tsx:42-51 | There are two days. 16 July has 24 slots from "10:00" to "15:45". 17 July has 26 slots from "09:30" to "15:45". |
| `BookingContext.InitialSchedulesUnbooked` | src/contexts/BookingContext.tsx:42-51 | Every configured slot starts unbooked, with no booking id and no booker name. |
| `BookingContext.InitialSchedules` | src/contexts/BookingContext.tsx:42-51 | There are two days, "2025年7月16日" with 24 slots and "2025年7月17日" with 26 slots. |
| `BookingContext.InitialSlotKey` | src/contexts/BookingContext.tsx:42-51 | A configured slot's key decodes to its day's date and to opening time + 15·i. |
| `BookingContext.InitialKeysDistinct` | src/contexts/BookingContext.tsx:42-51 | No two configured slots share a key, on the same day or across the two days. |
| `BookingContext.FindBooking` | src/contexts/BookingContext.tsx:68 | `find` returns nothing exactly when no booking is at the key. Otherwise it returns the booking at the first position whose time is the key. |
| `BookingContext.FirstMatchUnique` | src/contexts/BookingContext.tsx:68 | Only one position can be the first match. |
| `BookingContext.MergeSlot` | src/contexts/BookingContext.tsx:67-74 | Keeps `time` and `dateTime`. Booked iff some booking is at `dateTime`. When booked, id and name come from the first such booking. When not booked, both are absent. |
| `BookingContext.MergeSchedule` | src/contexts/BookingContext.tsx:65-76 | The day keeps its date and slot count, and every slot is reconciled with the snapshot. |
| `BookingContext.Merge` | src/contexts/BookingContext.tsx:65-76 | Same number of days, same dates, same slot counts, and every slot is reconciled with the snapshot. |
| `BookingContext.UpdatedSchedules` | src/contexts/BookingContext.tsx:64-78 | The new schedules are the configured days reconciled with the given bookings. The previous schedules play no part. |
| `BookingContext.ReconciledUnique` | src/contexts/BookingContext.tsx:65-76 | The reconciliation promise fixes the result completely: two results that both meet it are equal. |
| `BookingContext.ReconciledOnSkeleton` | src/contexts/BookingContext.tsx:66-70 | Reconciliation depends only on the `time`/`dateTime` skeleton, which merging keeps. |
| `BookingContext.MergeForgetsEarlierSnapshot` | src/contexts/BookingContext.tsx:65 | Merging into days already merged with an earlier snapshot gives the same result as merging into the base days, so no drift builds up. |
| `BookingContext.MergeIdempotent` | src/contexts/BookingContext.tsx:64-78 | Applying the same snapshot twice gives the same schedules. |
| `BookingContext.MergeNothingIsInitial` | src/contexts/BookingContext.tsx:55 | The initial `schedules` equal the configured days merged with an empty snapshot. |
| `BookingContext.BookingProvider.constructor` | src/contexts/BookingContext.tsx:54-57 | The provider starts with no bookings, the configured days, `loading` false and `error` null. |
| `BookingContext.BookingProvider.UpdateScheduleWithBookings` | src/contexts/BookingContext.tsx:64-78 | `schedules` becomes the merge of the given bookings into the configured days. Nothing else changes. |
| `BookingContext.BookingProvider.UpdateBookings` | src/contexts/BookingContext.tsx:59-62 | `bookings` becomes `newBookings`, and `schedules` becomes their merge into the configured days. |
| `BookingContext.BookingProvider.ShownDaysKeepLayout` | src/contexts/BookingContext.tsx:64-78 | Whatever bookings were merged last, the shown days are the two configured days with 24 and 26 slots, each slot keeps its configured time and key, and no two shown slots share a key. |
| `BookingContext.BookingProvider.RefreshBookings` | src/contexts/BookingContext.tsx:80-94 | Ends with `loading` false and `error` null. `bookings` and `schedules` are unchanged. |
| `HomePage.GenerateTimeSlots` | src/app/page.tsx:10-36 | The page's loop returns exactly the same list as the context's generator, for the same inputs, with the same count, slot positions, unbooked slots and distinct keys. |
| `HomePage.InitialSchedule` | src/app/page.tsx:39-48 | Built with the page's own generator: two days, "2025年7月16日" with 24 unbooked slots from "10:00" to "15:45" and "2025年7月17日" with 26 unbooked slots from "09:30" to "15:45". The result equals the context's `initialSchedules`. |
| `BookingService.Matches` | src/lib/firebase.ts:76-78 | A record is selected when both its booker name and its booking time equal the given ones. |
| `BookingService.Matching` | src/lib/firebase.ts:75-80 | The query selects exactly the records with both this booker name and this booking time. |
| `BookingService.Without` | src/lib/firebase.ts:87-92 | After the delete, a record remains iff it was stored and does not match both fields. Records that differ in either field survive. |
| `BookingService.QueryAndDeletePartition` | src/lib/firebase.ts:75-92 | As multisets, the selected records and the remaining records together make up the collection. |
| `BookingService.WithoutNoMatch` | src/lib/firebase.ts:82-85 | When the query selects nothing, the collection is left exactly as it was. |
| `BookingService.WithoutKeepsDistinctIds` | src/lib/firebase.ts:87-92 | Deleting keeps document ids distinct. |
| `BookingService.DeleteBySelectedIds` | src/lib/firebase.ts:87-91 | With distinct ids, a record survives the delete exactly when no selected document carries its id, so filtering by name and time is deleting the selected documents. |
| `BookingService.BookingCollection.GetAll` | src/lib/firebase.ts:35-51 | Returns one Booking per stored record, with its id, booker name and time, or the fetch error when the store fails. |
| `BookingService.BookingCollection.Create` | src/lib/firebase.ts:54-69 | Adds exactly one record with the given name and time under the fresh id, and returns that id. Earlier records are unchanged. A store failure is an error that changes nothing. |
| `BookingService.BookingCollection.DeleteByNameAndTime` | src/lib/firebase.ts:72-100 | Returns false and changes nothing when no record matches. Otherwise it removes every matching record, duplicates included, returns true, and leaves no match. A record survives exactly when no selected document has its id. A store failure is an error, distinct from false. |
| `Scenarios.SingleBookingMarksOneSlot` | src/contexts/BookingContext.tsx:42-76 | One booking at 16 July 10:00 marks exactly that slot booked, with its id and name, and every other slot on both days stays unbooked. |
| `Scenarios.CreateThenObserve` | src/lib/firebase.ts:57-64 | After a create at a free instant, merging the next snapshot shows that slot booked under the new id and name. |
| `Scenarios.CancelThenObserve` | src/lib/firebase.ts:75-95 | After a cancel of (name, instant), that slot stays booked iff some record at that instant was made under another name. |
| `Scenarios.CancelNoMatchKeepsSchedules` | src/lib/firebase.ts:82-85 | A cancel that matches nothing leaves the merged days unchanged. |

## Left out

- JavaScript `Date` semantics. Local time versus UTC (`toTimeString` versus `toISOString`), the ISO string format, and minute rollover in `setMinutes` are not modelled. Keys are the abstract `date + "T" + HH:MM` instead. Bounds are times of day, so no slot reaches midnight.
- Parsing the `"HH:MM"` bound strings. The bounds are given as minutes.
- `refreshBookings`: its fetch is commented out, so its `catch` branch cannot run and is not modelled. The moment with `loading` true is not observable in this sequential model.
- The store's `createdAt` timestamp (`Timestamp.now()`), Firebase initialisation, environment configuration and console logging.
- Firestore's own order of returned documents. The model keeps insertion order.
- BookingService.BookingCollection.DeleteByNameAndTime: the deletes issued through `Promise.all` are modelled as one atomic filter. A store failure partway through, which could leave some matching records deleted, is modelled as changing nothing.
- BookingService.BookingCollection.Create: the requirement that the new id is unused stands for Firestore's own id generation. Ids themselves are not generated.
- Presentation components (grid, slot cell, modals, input field, header, footer, layout), the modals' trimmed-name check, and the admin page. The admin page reads `createBooking`/`cancelBooking` from the context, which does not provide them. No such context operations, live subscription, read timeout, cache or error classification exist in this code, so none are modelled.
- React's asynchronous state setters. Each setter is modelled as an immediate field assignment.
