/**
 * The records of the hosted data store (`guests`, `bookings`), the store itself as
 * two tables keyed by id, the NextAuth session object, and the effects a server
 * action leaves for the rendering layer (path revalidation and redirect).
 */
module Domain {
  import opened Common

  /** A row of the `guests` table. Columns never written by the app are null (`None`). */
  datatype Guest = Guest(
    email: string,
    fullName: string,
    nationality: Option<string>,
    countryFlag: Option<string>,
    nationalID: Option<string>)

  /** A row of the `bookings` table (its id is the table key). Dates are kept as the text the client sends. */
  datatype Booking = Booking(
    guestId: nat,
    cabinId: nat,
    startDate: string,
    endDate: string,
    numNights: int,
    numGuests: int,
    cabinPrice: int,
    extraPrice: int,
    totalPrice: int,
    isPaid: bool,
    hasBreakfast: bool,
    observations: string,
    status: string)

  /** A booking as the reservation list receives it: the row together with its id. */
  datatype BookingRow = BookingRow(id: nat, booking: Booking)

  /** The two tables the core reads and writes, as a value. */
  datatype Store = Store(guests: map<nat, Guest>, bookings: map<nat, Booking>)

  /**
   * No two guests share an email. The app keeps this itself: the `signIn` callback
   * creates a guest only when none has the email. Two first sign-ins running at once
   * could break it; that interleaving is not modelled.
   */
  ghost predicate UniqueEmails(guests: map<nat, Guest>) {
    forall a, b :: a in guests && b in guests && guests[a].email == guests[b].email ==> a == b
  }

  predicate HasGuestWithEmail(guests: map<nat, Guest>, email: string) {
    exists id :: id in guests && guests[id].email == email
  }

  /** Stands in for `getGuest(email)`: the id of the guest registered under `email`, if any. */
  function GuestIdByEmail(guests: map<nat, Guest>, email: string): (r: Option<nat>)
    requires UniqueEmails(guests)
    ensures r.Some? <==> HasGuestWithEmail(guests, email)
    ensures r.Some? ==> r.value in guests && guests[r.value].email == email
  {
    if HasGuestWithEmail(guests, email) then
      var id :| id in guests && guests[id].email == email; Some(id)
    else None
  }

  /**
   * Stands in for `getBookings(guestId).map((booking) => booking.id)`: the ids of the
   * bookings the guest owns. Only membership is ever asked of it (`includes`), so it is a set.
   */
  function OwnedIds(bookings: map<nat, Booking>, guestId: nat): (ids: set<nat>)
    ensures forall id :: id in ids <==> id in bookings && bookings[id].guestId == guestId
  {
    set id | id in bookings && bookings[id].guestId == guestId
  }

  /**
   * The data store. Ids of new rows come from the two identity counters, so a new
   * id never collides with an existing row.
   */
  class Database {
    var guests: map<nat, Guest>
    var bookings: map<nat, Booking>
    var nextGuestId: nat
    var nextBookingId: nat

    ghost predicate Valid()
      reads this
    {
      && (forall id :: id in guests ==> id < nextGuestId)
      && (forall id :: id in bookings ==> id < nextBookingId)
      && UniqueEmails(guests)
    }

    function Snapshot(): Store
      reads this
    {
      Store(guests, bookings)
    }

    constructor ()
      ensures Valid()
      ensures guests == map[] && bookings == map[]
    {
      guests := map[];
      bookings := map[];
      nextGuestId := 1;
      nextBookingId := 1;
    }
  }

  /** `session.user`: what the identity provider reports, plus the `guestId` the session callback attaches. */
  datatype SessionUser = SessionUser(email: string, name: string, image: string, guestId: Option<nat>)

  /** The NextAuth session object; `user` may be absent. */
  datatype Session = Session(user: Option<SessionUser>, expires: string)

  /**
   * A session as the server actions receive it from `auth()`: when present, it has
   * passed through the session callback and so carries the guest's id.
   */
  predicate Resolved(session: Option<Session>) {
    session.Some? ==> session.value.user.Some? && session.value.user.value.guestId.Some?
  }

  /** `session.user.guestId` of a resolved, present session. */
  function SessionGuestId(session: Option<Session>): nat
    requires session.Some? && Resolved(session)
  {
    session.value.user.value.guestId.value
  }

  /** What a server action asks of the rendering layer: `revalidatePath(path)` or `redirect(path)`. */
  datatype Effect = Revalidate(path: string) | Redirect(path: string)

}
