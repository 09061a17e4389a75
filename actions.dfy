/**
 * The server actions that mutate the store: `updateProfile`, `deleteReservation`,
 * `updateBooking` and `createBooking`.
 *
 * Each action runs the same fixed sequence: read the session, validate or check
 * ownership, write one row, then request revalidation of cached paths and, for two
 * of them, a redirect. Any failing step throws before the write, so a thrown action
 * leaves the store as it was and requests no effect.
 *
 * Each action is an imperative method over a `Database`, proved equal to a pure
 * `...Step` function of the tables before the call; the properties of the action are
 * stated on that function and in the lemmas at the end.
 */
module Actions {
  import opened Common
  import opened Text
  import opened Domain
  import opened Auth

  const SignInRequired := "You must be signed in to update your profile"
  const BadNationalID := "National ID must be 6-12 characters long and contain only letters and numbers"
  const GuestNotUpdated := "Guest could not be updated"
  const OnlyDeleteOwn := "You can only delete your own bookings"
  const BookingNotDeleted := "Booking could not be deleted"
  const OnlyUpdateOwn := "You can only update your own bookings"
  const BookingNotUpdated := "Booking could not be updated"
  const BookingNotCreated := "Booking could not be created"

  /** Free-text observations are cut to this many characters before they are stored. */
  const MaxObservations: nat := 1000

  const ProfilePath := "/account/profile"
  const ReservationsPath := "/account/reservations"
  const ThankYouPath := "/cabins/thankyou"

  const EditPrefix := "/account/reservations/edit/"
  const CabinPrefix := "/cabins/"

  /**
   * `/account/reservations/edit/${bookingId}`: the prefix, then the id in decimal without
   * leading zeros, which reads back as the id.
   */
  function EditPath(bookingId: nat): (p: string)
    ensures |p| > |EditPrefix| && p[..|EditPrefix|] == EditPrefix
    ensures forall i :: |EditPrefix| <= i < |p| ==> IsDigit(p[i])
    ensures ParseNat(p[|EditPrefix|..]) == bookingId
    ensures |p| > |EditPrefix| + 1 ==> p[|EditPrefix|] != '0'
  {
    ParseNatToString(bookingId);
    assert (EditPrefix + NatToString(bookingId))[|EditPrefix|..] == NatToString(bookingId);
    EditPrefix + NatToString(bookingId)
  }

  /** `/cabins/${cabinId}`: the prefix, then the id in decimal without leading zeros, which reads back as the id. */
  function CabinPath(cabinId: nat): (p: string)
    ensures |p| > |CabinPrefix| && p[..|CabinPrefix|] == CabinPrefix
    ensures forall i :: |CabinPrefix| <= i < |p| ==> IsDigit(p[i])
    ensures ParseNat(p[|CabinPrefix|..]) == cabinId
    ensures |p| > |CabinPrefix| + 1 ==> p[|CabinPrefix|] != '0'
  {
    ParseNatToString(cabinId);
    assert (CabinPrefix + NatToString(cabinId))[|CabinPrefix|..] == NatToString(cabinId);
    CabinPrefix + NatToString(cabinId)
  }

  datatype ErrorKind = Unauthenticated | ValidationFailed | Forbidden | StoreFailed

  /** The `Error` an action throws: its kind and the message the source gives it. */
  datatype ActionError = ActionError(kind: ErrorKind, message: string)

  datatype Outcome = Done | Threw(error: ActionError)

  /** The tables after an action, how it ended, and the effects it requested, in order. */
  datatype Step = Step(store: Store, outcome: Outcome, effects: seq<Effect>)

  function Reject(st: Store, kind: ErrorKind, message: string): Step {
    Step(st, Threw(ActionError(kind, message)), [])
  }

  /** The fields `updateProfile` reads from its form. */
  datatype ProfileForm = ProfileForm(nationality: string, nationalID: string)

  /** The fields `updateBooking` reads from its form (`bookingId` already a number). */
  datatype UpdateForm = UpdateForm(bookingId: nat, numGuests: int, observations: string)

  /** The fields `createBooking` reads from its form. */
  datatype ReservationForm = ReservationForm(numGuests: int, observations: string)

  // ---------------------------------------------------------------- field rules

  /** `stored` is what `input.slice(0, 1000)` keeps. */
  predicate IsCappedObservations(stored: string, input: string) {
    IsSliceOf(stored, input, MaxObservations)
  }

  /** `formData.get("observations").slice(0, 1000)` */
  function CapObservations(input: string): (stored: string)
    ensures IsCappedObservations(stored, input)
  {
    Slice(input, MaxObservations)
  }

  /**
   * `const [nationality, countryFlag] = formData.get("nationality").split("%")`:
   * the text before the first `%` (all of it when there is none), and the text
   * between the first `%` and the next one or the end, which is undefined when the
   * field holds no `%`.
   */
  function NationalityParts(field: string): (r: (string, Option<string>))
    ensures '%' !in r.0 && |r.0| <= |field| && r.0 == field[..|r.0|]
    ensures r.1.None? <==> '%' !in field
    ensures r.1.Some? ==> |r.0| < |field| && field[|r.0|] == '%' && '%' !in r.1.value
    ensures r.1.None? ==> r.0 == field
    ensures r.1.Some? ==>
              var rest := field[|r.0| + 1..];
              && |r.1.value| <= |rest| && r.1.value == rest[..|r.1.value|]
              && (|r.1.value| == |rest| || rest[|r.1.value|] == '%')
  {
    var parts := Split(field, '%');
    SplitHead(field, '%');
    JoinSplit(field, '%');
    if |parts| > 1 then
      var rest := field[|parts[0]| + 1..];
      assert field == parts[0] + ['%'] + rest;
      SplitAtFirst(parts[0], '%', rest);
      SplitHead(rest, '%');
      JoinSplit(rest, '%');
      (parts[0], Some(parts[1]))
    else (parts[0], None)
  }

  /** A form value `name%flag` gives back exactly its two halves. */
  lemma NationalityPartsOfPair(name: string, flag: string)
    requires '%' !in name && '%' !in flag
    ensures NationalityParts(name + ['%'] + flag) == (name, Some(flag))
  {
    SplitPair(name, '%', flag);
  }

  /**
   * `.from("guests").update({nationality, countryFlag, nationalID}).eq("id", guestId)`.
   * No row matches an unknown id, and that is not an error. An undefined
   * `countryFlag` is dropped from the JSON body, so its column keeps its value.
   */
  function ApplyProfile(guests: map<nat, Guest>, guestId: nat, nationality: string,
                        countryFlag: Option<string>, nationalID: string): (r: map<nat, Guest>)
    ensures r.Keys == guests.Keys
    ensures forall id :: id in guests && id != guestId ==> r[id] == guests[id]
    ensures forall id :: id in guests ==> r[id].email == guests[id].email && r[id].fullName == guests[id].fullName
  {
    if guestId in guests then
      var g := guests[guestId];
      guests[guestId := g.(nationality := Some(nationality),
                           countryFlag := if countryFlag.Some? then countryFlag else g.countryFlag,
                           nationalID := Some(nationalID))]
    else guests
  }

  /** What a successful profile update leaves in the session guest's row. */
  predicate ProfileUpdated(before: Guest, after: Guest, form: ProfileForm) {
    var (nationality, countryFlag) := NationalityParts(form.nationality);
    && after.email == before.email
    && after.fullName == before.fullName
    && after.nationalID == Some(form.nationalID)
    && after.nationality == Some(nationality)
    && after.countryFlag == (if countryFlag.Some? then countryFlag else before.countryFlag)
  }

  /** `after` differs from `before` at most in the two fields a guest may edit. */
  predicate OnlyGuestEditableChanged(before: Booking, after: Booking) {
    before.(numGuests := after.numGuests, observations := after.observations) == after
  }

  /** The row `createBooking` inserts, in terms of the client's booking data and form. */
  predicate CreatedFrom(b: Booking, data: Booking, guestId: nat, form: ReservationForm) {
    && b.guestId == guestId
    && b.cabinId == data.cabinId
    && b.startDate == data.startDate
    && b.endDate == data.endDate
    && b.numNights == data.numNights
    && b.cabinPrice == data.cabinPrice
    && b.numGuests == form.numGuests
    && IsCappedObservations(b.observations, form.observations)
    && b.extraPrice == 0
    && b.totalPrice == data.cabinPrice
    && !b.isPaid
    && !b.hasBreakfast
    && b.status == "unconfirmed"
  }

  /**
   * The row `createBooking` builds: the client's booking data spread over every column,
   * then the owner, the form fields and the fixed defaults written over it.
   */
  function NewBooking(data: Booking, guestId: nat, form: ReservationForm): (b: Booking)
    ensures CreatedFrom(b, data, guestId, form)
  {
    data.(guestId := guestId,
          numGuests := form.numGuests,
          observations := CapObservations(form.observations),
          extraPrice := 0,
          totalPrice := data.cabinPrice,
          isPaid := false,
          hasBreakfast := false,
          status := "unconfirmed")
  }

  // ---------------------------------------------------------------- specifications

  function UpdateProfileStep(st: Store, session: Option<Session>, form: ProfileForm, storeFails: bool): (s: Step)
    requires Resolved(session)
    ensures session.None? ==> s == Reject(st, Unauthenticated, SignInRequired)
    ensures session.Some? && !IsNationalID(form.nationalID) ==> s == Reject(st, ValidationFailed, BadNationalID)
    ensures s.outcome.Done? <==> session.Some? && IsNationalID(form.nationalID) && !storeFails
    ensures s.outcome.Threw? ==> s.store == st && s.effects == []
    ensures s.store.bookings == st.bookings && s.store.guests.Keys == st.guests.Keys
    ensures forall id :: id in st.guests && (session.None? || id != SessionGuestId(session)) ==>
              s.store.guests[id] == st.guests[id]
    ensures s.outcome.Done? && SessionGuestId(session) in st.guests ==>
              ProfileUpdated(st.guests[SessionGuestId(session)], s.store.guests[SessionGuestId(session)], form)
    ensures s.outcome.Done? ==> s.effects == [Revalidate(ProfilePath)]
  {
    if session.None? then Reject(st, Unauthenticated, SignInRequired)
    else
      var guestId := SessionGuestId(session);
      var (nationality, countryFlag) := NationalityParts(form.nationality);
      if !IsNationalID(form.nationalID) then Reject(st, ValidationFailed, BadNationalID)
      else if storeFails then Reject(st, StoreFailed, GuestNotUpdated)
      else
        var guests := ApplyProfile(st.guests, guestId, nationality, countryFlag, form.nationalID);
        Step(st.(guests := guests), Done, [Revalidate(ProfilePath)])
  }

  function DeleteReservationStep(st: Store, session: Option<Session>, bookingId: nat, storeFails: bool): (s: Step)
    requires Resolved(session)
    ensures session.None? ==> s == Reject(st, Unauthenticated, SignInRequired)
    ensures session.Some? && bookingId !in OwnedIds(st.bookings, SessionGuestId(session)) ==>
              s == Reject(st, Forbidden, OnlyDeleteOwn)
    ensures s.outcome.Done? <==>
              session.Some? && bookingId in OwnedIds(st.bookings, SessionGuestId(session)) && !storeFails
    ensures s.outcome.Threw? ==> s.store == st && s.effects == []
    ensures s.store.guests == st.guests
    ensures s.outcome.Done? ==> s.store.bookings.Keys == st.bookings.Keys - {bookingId}
    ensures forall id :: id in s.store.bookings ==> id in st.bookings && s.store.bookings[id] == st.bookings[id]
    ensures s.outcome.Done? ==> s.effects == [Revalidate(ReservationsPath)]
  {
    if session.None? then Reject(st, Unauthenticated, SignInRequired)
    else if bookingId !in OwnedIds(st.bookings, SessionGuestId(session)) then Reject(st, Forbidden, OnlyDeleteOwn)
    else if storeFails then Reject(st, StoreFailed, BookingNotDeleted)
    else Step(st.(bookings := st.bookings - {bookingId}), Done, [Revalidate(ReservationsPath)])
  }

  function UpdateBookingStep(st: Store, session: Option<Session>, form: UpdateForm, storeFails: bool): (s: Step)
    requires Resolved(session)
    ensures session.None? ==> s == Reject(st, Unauthenticated, SignInRequired)
    ensures session.Some? && form.bookingId !in OwnedIds(st.bookings, SessionGuestId(session)) ==>
              s == Reject(st, Forbidden, OnlyUpdateOwn)
    ensures s.outcome.Done? <==>
              session.Some? && form.bookingId in OwnedIds(st.bookings, SessionGuestId(session)) && !storeFails
    ensures s.outcome.Threw? ==> s.store == st && s.effects == []
    ensures s.store.guests == st.guests && s.store.bookings.Keys == st.bookings.Keys
    ensures forall id :: id in st.bookings && id != form.bookingId ==> s.store.bookings[id] == st.bookings[id]
    ensures s.outcome.Done? ==>
              var (before, after) := (st.bookings[form.bookingId], s.store.bookings[form.bookingId]);
              && OnlyGuestEditableChanged(before, after)
              && after.numGuests == form.numGuests
              && IsCappedObservations(after.observations, form.observations)
    ensures s.outcome.Done? ==>
              s.effects == [Revalidate(ReservationsPath), Revalidate(EditPath(form.bookingId)), Redirect(ReservationsPath)]
  {
    if session.None? then Reject(st, Unauthenticated, SignInRequired)
    else if form.bookingId !in OwnedIds(st.bookings, SessionGuestId(session)) then Reject(st, Forbidden, OnlyUpdateOwn)
    else if storeFails then Reject(st, StoreFailed, BookingNotUpdated)
    else
      var id := form.bookingId;
      var updated := st.bookings[id].(numGuests := form.numGuests, observations := CapObservations(form.observations));
      Step(st.(bookings := st.bookings[id := updated]), Done,
           [Revalidate(ReservationsPath), Revalidate(EditPath(id)), Redirect(ReservationsPath)])
  }

  /** `newId` is the id the store assigns to the inserted row. */
  function CreateBookingStep(st: Store, session: Option<Session>, data: Booking, form: ReservationForm,
                             newId: nat, storeFails: bool): (s: Step)
    requires Resolved(session) && newId !in st.bookings
    ensures session.None? ==> s == Reject(st, Unauthenticated, SignInRequired)
    ensures s.outcome.Done? <==> session.Some? && !storeFails
    ensures s.outcome.Threw? ==> s.store == st && s.effects == []
    ensures s.store.guests == st.guests
    ensures forall id :: id in st.bookings ==> id in s.store.bookings && s.store.bookings[id] == st.bookings[id]
    ensures s.outcome.Done? ==>
              && s.store.bookings.Keys == st.bookings.Keys + {newId}
              && CreatedFrom(s.store.bookings[newId], data, SessionGuestId(session), form)
              && s.effects == [Revalidate(CabinPath(data.cabinId)), Redirect(ThankYouPath)]
  {
    if session.None? then Reject(st, Unauthenticated, SignInRequired)
    else if storeFails then Reject(st, StoreFailed, BookingNotCreated)
    else
      var row := NewBooking(data, SessionGuestId(session), form);
      Step(st.(bookings := st.bookings[newId := row]), Done,
           [Revalidate(CabinPath(data.cabinId)), Redirect(ThankYouPath)])
  }

  // ---------------------------------------------------------------- the actions

  method UpdateProfile(db: Database, session: Option<Session>, form: ProfileForm, storeFails: bool)
    returns (outcome: Outcome, effects: seq<Effect>)
    requires db.Valid() && Resolved(session)
    modifies db
    ensures db.Valid()
    ensures db.nextGuestId == old(db.nextGuestId) && db.nextBookingId == old(db.nextBookingId)
    ensures Step(db.Snapshot(), outcome, effects) == UpdateProfileStep(old(db.Snapshot()), session, form, storeFails)
  {
    effects := [];
    if session.None? {
      outcome := Threw(ActionError(Unauthenticated, SignInRequired));
      return;
    }
    var guestId := SessionGuestId(session);
    var nationalID := form.nationalID;
    var (nationality, countryFlag) := NationalityParts(form.nationality);
    if !IsNationalID(nationalID) {
      outcome := Threw(ActionError(ValidationFailed, BadNationalID));
      return;
    }
    if storeFails {
      outcome := Threw(ActionError(StoreFailed, GuestNotUpdated));
      return;
    }
    db.guests := ApplyProfile(db.guests, guestId, nationality, countryFlag, nationalID);
    effects := effects + [Revalidate(ProfilePath)];
    outcome := Done;
  }

  method DeleteReservation(db: Database, session: Option<Session>, bookingId: nat, storeFails: bool)
    returns (outcome: Outcome, effects: seq<Effect>)
    requires db.Valid() && Resolved(session)
    modifies db
    ensures db.Valid()
    ensures db.nextGuestId == old(db.nextGuestId) && db.nextBookingId == old(db.nextBookingId)
    ensures Step(db.Snapshot(), outcome, effects) == DeleteReservationStep(old(db.Snapshot()), session, bookingId, storeFails)
  {
    effects := [];
    if session.None? {
      outcome := Threw(ActionError(Unauthenticated, SignInRequired));
      return;
    }
    var guestBookingsIds := OwnedIds(db.bookings, SessionGuestId(session));
    if bookingId !in guestBookingsIds {
      outcome := Threw(ActionError(Forbidden, OnlyDeleteOwn));
      return;
    }
    if storeFails {
      outcome := Threw(ActionError(StoreFailed, BookingNotDeleted));
      return;
    }
    db.bookings := db.bookings - {bookingId};
    effects := effects + [Revalidate(ReservationsPath)];
    outcome := Done;
  }

  method UpdateBooking(db: Database, session: Option<Session>, form: UpdateForm, storeFails: bool)
    returns (outcome: Outcome, effects: seq<Effect>)
    requires db.Valid() && Resolved(session)
    modifies db
    ensures db.Valid()
    ensures db.nextGuestId == old(db.nextGuestId) && db.nextBookingId == old(db.nextBookingId)
    ensures Step(db.Snapshot(), outcome, effects) == UpdateBookingStep(old(db.Snapshot()), session, form, storeFails)
  {
    effects := [];
    var bookingId := form.bookingId;
    if session.None? {
      outcome := Threw(ActionError(Unauthenticated, SignInRequired));
      return;
    }
    var guestBookingsIds := OwnedIds(db.bookings, SessionGuestId(session));
    if bookingId !in guestBookingsIds {
      outcome := Threw(ActionError(Forbidden, OnlyUpdateOwn));
      return;
    }
    var numGuests := form.numGuests;
    var observations := CapObservations(form.observations);
    if storeFails {
      outcome := Threw(ActionError(StoreFailed, BookingNotUpdated));
      return;
    }
    db.bookings := db.bookings[bookingId := db.bookings[bookingId].(numGuests := numGuests, observations := observations)];
    effects := effects + [Revalidate(ReservationsPath)];
    effects := effects + [Revalidate(EditPath(bookingId))];
    effects := effects + [Redirect(ReservationsPath)];
    outcome := Done;
  }

  method CreateBooking(db: Database, session: Option<Session>, data: Booking, form: ReservationForm, storeFails: bool)
    returns (outcome: Outcome, effects: seq<Effect>)
    requires db.Valid() && Resolved(session)
    modifies db
    ensures db.Valid()
    ensures db.nextGuestId == old(db.nextGuestId)
    ensures Step(db.Snapshot(), outcome, effects) ==
              CreateBookingStep(old(db.Snapshot()), session, data, form, old(db.nextBookingId), storeFails)
  {
    effects := [];
    if session.None? {
      outcome := Threw(ActionError(Unauthenticated, SignInRequired));
      return;
    }
    var newBooking := NewBooking(data, SessionGuestId(session), form);
    if storeFails {
      outcome := Threw(ActionError(StoreFailed, BookingNotCreated));
      return;
    }
    db.bookings := db.bookings[db.nextBookingId := newBooking];
    db.nextBookingId := db.nextBookingId + 1;
    effects := effects + [Revalidate(CabinPath(data.cabinId))];
    effects := effects + [Redirect(ThankYouPath)];
    outcome := Done;
  }

  // ---------------------------------------------------------------- laws

  /** A guest may not touch another guest's booking: delete and update both throw and change nothing. */
  lemma ForeignBookingUntouchable(st: Store, session: Option<Session>, form: UpdateForm, storeFails: bool)
    requires Resolved(session) && session.Some?
    requires form.bookingId in st.bookings && st.bookings[form.bookingId].guestId != SessionGuestId(session)
    ensures DeleteReservationStep(st, session, form.bookingId, storeFails) == Reject(st, Forbidden, OnlyDeleteOwn)
    ensures UpdateBookingStep(st, session, form, storeFails) == Reject(st, Forbidden, OnlyUpdateOwn)
  {
  }

  /** A guest without bookings can delete or update nothing. */
  lemma NoBookingsNoMutation(st: Store, session: Option<Session>, form: UpdateForm, storeFails: bool)
    requires Resolved(session) && session.Some?
    requires OwnedIds(st.bookings, SessionGuestId(session)) == {}
    ensures DeleteReservationStep(st, session, form.bookingId, storeFails).outcome.Threw?
    ensures DeleteReservationStep(st, session, form.bookingId, storeFails).store == st
    ensures UpdateBookingStep(st, session, form, storeFails).outcome.Threw?
    ensures UpdateBookingStep(st, session, form, storeFails).store == st
  {
  }

  /** Once a delete has gone through, deleting the same id again is refused. */
  lemma SecondDeleteRefused(st: Store, session: Option<Session>, bookingId: nat, storeFails: bool, again: bool)
    requires Resolved(session)
    requires DeleteReservationStep(st, session, bookingId, storeFails).outcome.Done?
    ensures var after := DeleteReservationStep(st, session, bookingId, storeFails).store;
            DeleteReservationStep(after, session, bookingId, again) == Reject(after, Forbidden, OnlyDeleteOwn)
  {
  }

  /** Updating a booking never moves any booking to another owner. */
  lemma UpdateKeepsOwnership(st: Store, session: Option<Session>, form: UpdateForm, storeFails: bool, g: nat)
    requires Resolved(session)
    ensures OwnedIds(UpdateBookingStep(st, session, form, storeFails).store.bookings, g) == OwnedIds(st.bookings, g)
  {
  }

  /** A successful delete removes exactly its id from its owner's bookings and no other guest's. */
  lemma DeleteShrinksOwnership(st: Store, session: Option<Session>, bookingId: nat, storeFails: bool, g: nat)
    requires Resolved(session)
    requires DeleteReservationStep(st, session, bookingId, storeFails).outcome.Done?
    ensures OwnedIds(DeleteReservationStep(st, session, bookingId, storeFails).store.bookings, g) ==
              OwnedIds(st.bookings, g) - {bookingId}
  {
  }

  /** A successful create gives the new id to the session guest and to nobody else. */
  lemma CreateGrowsOwnership(st: Store, session: Option<Session>, data: Booking, form: ReservationForm,
                              newId: nat, storeFails: bool, g: nat)
    requires Resolved(session) && newId !in st.bookings
    requires CreateBookingStep(st, session, data, form, newId, storeFails).outcome.Done?
    ensures OwnedIds(CreateBookingStep(st, session, data, form, newId, storeFails).store.bookings, g) ==
              if g == SessionGuestId(session) then OwnedIds(st.bookings, g) + {newId} else OwnedIds(st.bookings, g)
  {
  }

  /** Updates of two different bookings invalidate two different edit views. */
  lemma EditPathsDistinct(a: nat, b: nat)
    requires a != b
    ensures EditPath(a) != EditPath(b)
  {
  }

  /**
   * A session `authorized` refuses is one every server action refuses too: each throws
   * its not-signed-in error and leaves the store as it was.
   */
  lemma UnauthorizedActionsRefused(st: Store, session: Option<Session>, storeFails: bool,
                                   profile: ProfileForm, bookingId: nat, update: UpdateForm,
                                   data: Booking, reservation: ReservationForm, newId: nat)
    requires Resolved(session) && !Authorized(session) && newId !in st.bookings
    ensures UpdateProfileStep(st, session, profile, storeFails) == Reject(st, Unauthenticated, SignInRequired)
    ensures DeleteReservationStep(st, session, bookingId, storeFails) == Reject(st, Unauthenticated, SignInRequired)
    ensures UpdateBookingStep(st, session, update, storeFails) == Reject(st, Unauthenticated, SignInRequired)
    ensures CreateBookingStep(st, session, data, reservation, newId, storeFails) ==
              Reject(st, Unauthenticated, SignInRequired)
  {
  }

}
