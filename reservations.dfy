/**
 * The guest's reservation list with optimistic deletion: a delete removes the
 * booking from the displayed list at once, then asks the server to delete it.
 */
module Reservations {
  import opened Common
  import opened Seqs
  import opened Domain
  import opened Actions

  function IdIsNot(bookingId: nat): BookingRow -> bool {
    (b: BookingRow) => b.id != bookingId
  }

  /** The `useOptimistic` reducer: `currentBookings.filter((booking) => booking.id !== bookingId)`. */
  function RemoveBooking(current: seq<BookingRow>, bookingId: nat): (r: seq<BookingRow>)
    ensures forall b :: b in r <==> b in current && b.id != bookingId
    ensures forall b :: multiset(r)[b] == if b.id != bookingId then multiset(current)[b] else 0
    ensures IsSubsequence(r, current)
  {
    FilterIsSubsequence(current, IdIsNot(bookingId));
    Filter(current, IdIsNot(bookingId))
  }

  /** Removing an id that no booking has leaves the list as it was. */
  lemma RemoveAbsent(current: seq<BookingRow>, bookingId: nat)
    requires forall i :: 0 <= i < |current| ==> current[i].id != bookingId
    ensures RemoveBooking(current, bookingId) == current
  {
    FilterKeepsAll(current, IdIsNot(bookingId));
  }

  /** Dispatching the same delete twice is dispatching it once. */
  lemma RemoveIdempotent(current: seq<BookingRow>, bookingId: nat)
    ensures RemoveBooking(RemoveBooking(current, bookingId), bookingId) == RemoveBooking(current, bookingId)
  {
    FilterIdempotent(current, IdIsNot(bookingId));
  }

  /** Two optimistic deletes give the same list in either order. */
  lemma RemoveCommutes(current: seq<BookingRow>, a: nat, b: nat)
    ensures RemoveBooking(RemoveBooking(current, a), b) == RemoveBooking(RemoveBooking(current, b), a)
  {
    FilterCommutes(current, IdIsNot(a), IdIsNot(b));
  }

  /**
   * The optimistic list: the `bookings` prop with every dispatched delete applied in
   * turn. It is the prop, in its order, less every booking whose id was deleted, and
   * each remaining booking appears as often as in the prop.
   */
  function ApplyDeletes(bookings: seq<BookingRow>, pending: seq<nat>): (r: seq<BookingRow>)
    ensures forall b :: b in r <==> b in bookings && b.id !in pending
    ensures forall b :: multiset(r)[b] == if b.id in pending then 0 else multiset(bookings)[b]
    ensures IsSubsequence(r, bookings)
    decreases |pending|
  {
    if pending == [] then
      SubsequenceReflexive(bookings);
      bookings
    else
      var init := pending[..|pending| - 1];
      var last := pending[|pending| - 1];
      assert pending == init + [last];
      var before := ApplyDeletes(bookings, init);
      var r := RemoveBooking(before, last);
      SubsequenceTransitive(r, before, bookings);
      r
  }

  /** `rows` is what `getBookings(guestId)` returns from `st`: exactly the guest's rows, each with its id. */
  ghost predicate ListsGuestBookings(rows: seq<BookingRow>, st: Store, guestId: nat) {
    forall b :: b in rows <==> b.id in st.bookings && st.bookings[b.id] == b.booking && b.booking.guestId == guestId
  }

  /**
   * The list a guest sees once the next prop arrives after a delete: a booking that was
   * on it shows again exactly when the server delete threw, since a thrown delete
   * leaves the store as it was.
   */
  lemma DeleteSettles(st: Store, session: Option<Session>, storeFails: bool, guestId: nat,
                      before: seq<BookingRow>, after: seq<BookingRow>, b: BookingRow)
    requires Resolved(session)
    requires ListsGuestBookings(before, st, guestId) && b in before
    requires ListsGuestBookings(after, DeleteReservationStep(st, session, b.id, storeFails).store, guestId)
    ensures b in after <==> DeleteReservationStep(st, session, b.id, storeFails).outcome.Threw?
  {
  }

  /**
   * The state of one `ReservationList`: the `bookings` prop the server rendered last,
   * and the ids deleted optimistically since then.
   */
  class ReservationList {
    var bookings: seq<BookingRow>
    var pending: seq<nat>

    /** `optimisticBookings`, the list on screen. */
    function Shown(): seq<BookingRow>
      reads this
    {
      ApplyDeletes(bookings, pending)
    }

    /** `useOptimistic(bookings, …)`: the overlay starts as the prop. */
    constructor (bookings: seq<BookingRow>)
      ensures this.bookings == bookings && pending == []
      ensures Shown() == bookings
    {
      this.bookings := bookings;
      pending := [];
    }

    /** `optimisticDelete(bookingId)` */
    method OptimisticDelete(bookingId: nat)
      modifies this
      ensures bookings == old(bookings) && pending == old(pending) + [bookingId]
      ensures Shown() == RemoveBooking(old(Shown()), bookingId)
    {
      pending := pending + [bookingId];
      assert pending[..|pending| - 1] == old(pending);
    }

    /**
     * `handleDelete(bookingId)`: the optimistic removal first, then the awaited server
     * delete. The booking leaves the displayed list whatever the server answers.
     */
    method HandleDelete(bookingId: nat, db: Database, session: Option<Session>, storeFails: bool)
      returns (outcome: Outcome, effects: seq<Effect>)
      requires db.Valid() && Resolved(session)
      modifies this, db
      ensures db.Valid()
      ensures bookings == old(bookings) && pending == old(pending) + [bookingId]
      ensures Shown() == RemoveBooking(old(Shown()), bookingId)
      ensures Step(db.Snapshot(), outcome, effects) ==
                DeleteReservationStep(old(db.Snapshot()), session, bookingId, storeFails)
    {
      OptimisticDelete(bookingId);
      outcome, effects := DeleteReservation(db, session, bookingId, storeFails);
    }

    /**
     * The transition ends and a fresh `bookings` prop arrives from the server: the
     * overlay is dropped and the list shows the prop, so a booking whose delete failed
     * is back on screen.
     */
    method Settle(bookings: seq<BookingRow>)
      modifies this
      ensures this.bookings == bookings && pending == []
      ensures Shown() == bookings
    {
      this.bookings := bookings;
      pending := [];
    }
  }

}
