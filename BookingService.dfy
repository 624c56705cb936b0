/**
 * The booking service (src/lib/firebase.ts) over an in-memory stand-in for
 * the `bookings` collection: a sequence of records in insertion order.
 * Whether the store answers is an input of each operation; a store failure
 * becomes a `Failed` result, distinct from the `false` of "nothing matched".
 */
module BookingService {
  import opened Types

  /** The error each operation throws when the store fails. */
  datatype StoreError = FetchFailed | CreateFailed | DeleteFailed

  /** What an operation resolves to, or the error it rejects with. */
  datatype Outcome<T> = Ok(value: T) | Failed(error: StoreError)

  /** No two stored records share a document id. */
  ghost predicate DistinctIds(records: seq<Booking>)
  {
    forall i, j :: 0 <= i < j < |records| ==> records[i].id != records[j].id
  }

  /** The `where bookerName == ... && bookingTime == ...` filter of the delete query. */
  predicate Matches(record: Booking, bookerName: string, bookingTime: string)
  {
    record.bookerName == bookerName && record.bookingTime == bookingTime
  }

  /** The records the delete query selects, in collection order. */
  function Matching(records: seq<Booking>, bookerName: string, bookingTime: string): (r: seq<Booking>)
    ensures forall x :: x in r <==> x in records && Matches(x, bookerName, bookingTime)
    ensures |r| <= |records|
  {
    if records == [] then []
    else if Matches(records[0], bookerName, bookingTime) then
      [records[0]] + Matching(records[1..], bookerName, bookingTime)
    else
      Matching(records[1..], bookerName, bookingTime)
  }

  /** The records left after deleting every one the query selects, in collection order. */
  function Without(records: seq<Booking>, bookerName: string, bookingTime: string): (r: seq<Booking>)
    ensures forall x :: x in r <==> x in records && !Matches(x, bookerName, bookingTime)
    ensures |r| <= |records|
  {
    if records == [] then []
    else if Matches(records[0], bookerName, bookingTime) then
      Without(records[1..], bookerName, bookingTime)
    else
      [records[0]] + Without(records[1..], bookerName, bookingTime)
  }

  /** The query and the deletion split the collection: every record goes to exactly one side. */
  lemma {:induction false} QueryAndDeletePartition(records: seq<Booking>, bookerName: string, bookingTime: string)
    ensures multiset(Matching(records, bookerName, bookingTime)) + multiset(Without(records, bookerName, bookingTime))
            == multiset(records)
  {
    if records != [] {
      var head, tail := records[0], records[1..];
      QueryAndDeletePartition(tail, bookerName, bookingTime);
      assert records == [head] + tail;
      assert multiset(records) == multiset([head]) + multiset(tail);
      if Matches(head, bookerName, bookingTime) {
        assert Matching(records, bookerName, bookingTime) == [head] + Matching(tail, bookerName, bookingTime);
        assert Without(records, bookerName, bookingTime) == Without(tail, bookerName, bookingTime);
      } else {
        assert Matching(records, bookerName, bookingTime) == Matching(tail, bookerName, bookingTime);
        assert Without(records, bookerName, bookingTime) == [head] + Without(tail, bookerName, bookingTime);
      }
    }
  }

  /** Deleting with a query that selects nothing leaves the collection as it was. */
  lemma {:induction false} WithoutNoMatch(records: seq<Booking>, bookerName: string, bookingTime: string)
    requires Matching(records, bookerName, bookingTime) == []
    ensures Without(records, bookerName, bookingTime) == records
  {
    if records != [] {
      assert records[0] !in Matching(records, bookerName, bookingTime);
      WithoutNoMatch(records[1..], bookerName, bookingTime);
      assert records == [records[0]] + records[1..];
    }
  }

  /** Deleting keeps document ids distinct. */
  lemma {:induction false} WithoutKeepsDistinctIds(records: seq<Booking>, bookerName: string, bookingTime: string)
    requires DistinctIds(records)
    ensures DistinctIds(Without(records, bookerName, bookingTime))
  {
    if records != [] {
      var tail := records[1..];
      assert DistinctIds(tail) by {
        forall i, j | 0 <= i < j < |tail| ensures tail[i].id != tail[j].id {
          assert tail[i] == records[i + 1] && tail[j] == records[j + 1];
        }
      }
      WithoutKeepsDistinctIds(tail, bookerName, bookingTime);
      var rest := Without(tail, bookerName, bookingTime);
      if !Matches(records[0], bookerName, bookingTime) {
        var r := [records[0]] + rest;
        forall i, j | 0 <= i < j < |r| ensures r[i].id != r[j].id {
          if i == 0 {
            assert r[j] in tail;
            var k :| 0 <= k < |tail| && tail[k] == r[j];
            assert records[k + 1] == r[j];
          } else {
            assert r[i] == rest[i - 1] && r[j] == rest[j - 1];
          }
        }
      }
    }
  }

  /**
   * With distinct ids, removing the matching records is removing the
   * documents whose ids the query returned: a record survives exactly when
   * no selected document carries its id.
   */
  lemma DeleteBySelectedIds(records: seq<Booking>, bookerName: string, bookingTime: string)
    requires DistinctIds(records)
    ensures forall b :: b in records ==>
              (b in Without(records, bookerName, bookingTime)
               <==> forall s :: s in Matching(records, bookerName, bookingTime) ==> s.id != b.id)
  {
    var selected := Matching(records, bookerName, bookingTime);
    forall b | b in records
      ensures b in Without(records, bookerName, bookingTime) <==> forall s :: s in selected ==> s.id != b.id
    {
      if Matches(b, bookerName, bookingTime) {
        assert b in selected;
      } else {
        forall s | s in selected ensures s.id != b.id {
          var i :| 0 <= i < |records| && records[i] == s;
          var j :| 0 <= j < |records| && records[j] == b;
          assert i != j;
        }
      }
    }
  }

  /** The `bookings` collection. */
  class BookingCollection {
    var records: seq<Booking>

    ghost predicate Valid()
      reads this
    {
      DistinctIds(records)
    }

    constructor ()
      ensures Valid() && records == []
    {
      records := [];
    }

    /** getAll: every stored record as a Booking, with its id, booker name and time; or the fetch error. */
    method GetAll(storeFails: bool) returns (r: Outcome<seq<Booking>>)
      ensures storeFails ==> r == Failed(FetchFailed)
      ensures !storeFails ==> r.Ok? && |r.value| == |records|
      ensures !storeFails ==> forall i :: 0 <= i < |records| ==>
                r.value[i].id == records[i].id
                && r.value[i].bookerName == records[i].bookerName
                && r.value[i].bookingTime == records[i].bookingTime
    {
      if storeFails {
        return Failed(FetchFailed);
      }
      var bookings := seq(|records|, i requires 0 <= i < |records| reads this =>
                            Booking(records[i].id, records[i].bookerName, records[i].bookingTime));
      return Ok(bookings);
    }

    /**
     * create: add one record with the given name and time under the fresh
     * document id the store draws (`freshId`), and resolve to that id.
     */
    method Create(bookerName: string, bookingTime: string, freshId: string, storeFails: bool)
      returns (r: Outcome<string>)
      requires Valid()
      requires forall i :: 0 <= i < |records| ==> records[i].id != freshId
      modifies this
      ensures Valid()
      ensures storeFails ==> r == Failed(CreateFailed) && records == old(records)
      ensures !storeFails ==> r == Ok(freshId) && records == old(records) + [Booking(freshId, bookerName, bookingTime)]
    {
      if storeFails {
        return Failed(CreateFailed);
      }
      records := records + [Booking(freshId, bookerName, bookingTime)];
      return Ok(freshId);
    }

    /**
     * deleteByNameAndTime: select the records with both this name and this
     * time; resolve to false if there are none, otherwise delete all of them
     * and resolve to true.
     */
    method DeleteByNameAndTime(bookerName: string, bookingTime: string, storeFails: bool)
      returns (r: Outcome<bool>)
      requires Valid()
      modifies this
      ensures Valid()
      ensures storeFails ==> r == Failed(DeleteFailed) && records == old(records)
      ensures !storeFails ==> r == Ok(exists i :: 0 <= i < |old(records)| && Matches(old(records)[i], bookerName, bookingTime))
      ensures !storeFails ==> records == Without(old(records), bookerName, bookingTime)
      ensures !storeFails ==> forall i :: 0 <= i < |records| ==> !Matches(records[i], bookerName, bookingTime)
      ensures !storeFails ==> forall b :: b in old(records) ==>
                (b in records <==> forall s :: s in Matching(old(records), bookerName, bookingTime) ==> s.id != b.id)
    {
      if storeFails {
        return Failed(DeleteFailed);
      }
      var selected := Matching(records, bookerName, bookingTime);
      DeleteBySelectedIds(records, bookerName, bookingTime);
      if selected == [] {
        WithoutNoMatch(records, bookerName, bookingTime);
        return Ok(false);
      }
      assert selected[0] in records;
      WithoutKeepsDistinctIds(records, bookerName, bookingTime);
      records := Without(records, bookerName, bookingTime);
      return Ok(true);
    }
  }
}
