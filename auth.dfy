/**
 * The NextAuth callbacks of the authentication configuration: `authorized` guards
 * protected pages, `signIn` gets or creates the guest row of the signing-in user,
 * and `session` attaches that guest's id to the session.
 */
module Auth {
  import opened Common
  import opened Domain

  /** The user object the identity provider hands to the `signIn` callback. */
  datatype ProviderUser = ProviderUser(email: string, name: string)

  /** `authorized({auth})`: `!!auth?.user`, true exactly when there is a session with a user. */
  predicate Authorized(auth: Option<Session>)
    ensures Resolved(auth) ==> (Authorized(auth) <==> auth.Some?)
  {
    auth.Some? && auth.value.user.Some?
  }

  /** `createGuest({email: user.email, fullName: user.name})`: the other columns start null. */
  function NewGuest(user: ProviderUser): (g: Guest)
    ensures g.email == user.email && g.fullName == user.name
    ensures g.nationality.None? && g.countryFlag.None? && g.nationalID.None?
  {
    Guest(user.email, user.name, None, None, None)
  }

  /** The guest table after the `signIn` callback, and whether it allowed the sign-in. */
  datatype SignInResult = SignInResult(guests: map<nat, Guest>, allowed: bool)

  /**
   * The `signIn` callback. `lookupFails` and `createFails` say whether `getGuest` or
   * `createGuest` throws; either is caught and refuses the sign-in. `newId` is the id
   * the store gives a created guest.
   */
  function SignInStep(guests: map<nat, Guest>, user: ProviderUser, newId: nat,
                      lookupFails: bool, createFails: bool): (r: SignInResult)
    requires newId !in guests
    ensures r.allowed <==> !lookupFails && (HasGuestWithEmail(guests, user.email) || !createFails)
    ensures r.allowed ==> HasGuestWithEmail(r.guests, user.email)
    ensures HasGuestWithEmail(guests, user.email) || !r.allowed ==> r.guests == guests
    ensures !HasGuestWithEmail(guests, user.email) && r.allowed ==> r.guests == guests[newId := NewGuest(user)]
    ensures UniqueEmails(guests) ==> UniqueEmails(r.guests)
  {
    if lookupFails then SignInResult(guests, false)
    else if HasGuestWithEmail(guests, user.email) then SignInResult(guests, true)
    else if createFails then SignInResult(guests, false)
    else
      var guests' := guests[newId := NewGuest(user)];
      assert guests'[newId].email == user.email;
      SignInResult(guests', true)
  }

  method SignIn(db: Database, user: ProviderUser, lookupFails: bool, createFails: bool) returns (allowed: bool)
    requires db.Valid()
    modifies db
    ensures db.Valid()
    ensures db.bookings == old(db.bookings) && db.nextBookingId == old(db.nextBookingId)
    ensures SignInResult(db.guests, allowed) == SignInStep(old(db.guests), user, old(db.nextGuestId), lookupFails, createFails)
  {
    if lookupFails {
      return false;
    }
    var existingGuest := GuestIdByEmail(db.guests, user.email);
    if existingGuest.None? {
      if createFails {
        return false;
      }
      db.guests := db.guests[db.nextGuestId := NewGuest(user)];
      db.nextGuestId := db.nextGuestId + 1;
    }
    return true;
  }

  /** Signing in again with the same email adds no guest, whatever happens the second time. */
  lemma SignInIdempotent(guests: map<nat, Guest>, user: ProviderUser, newId: nat, lookupFails: bool, createFails: bool,
                         nextId: nat, lookupFails': bool, createFails': bool)
    requires newId !in guests
    requires SignInStep(guests, user, newId, lookupFails, createFails).allowed
    requires nextId !in SignInStep(guests, user, newId, lookupFails, createFails).guests
    ensures var once := SignInStep(guests, user, newId, lookupFails, createFails).guests;
            SignInStep(once, user, nextId, lookupFails', createFails').guests == once
  {
  }

  /** What the `session` callback leaves behind: the session returned, or a thrown error. */
  datatype CallbackResult = Returned(session: Session) | Thrown

  /**
   * The `session` callback: `getGuest(session.user.email)`, then
   * `session.user.guestId = guest.id`. A missing user or a missing guest makes the
   * property access throw, as does a failing lookup.
   */
  function SessionCallback(guests: map<nat, Guest>, session: Session, lookupFails: bool): (r: CallbackResult)
    requires UniqueEmails(guests)
    ensures r.Returned? <==> !lookupFails && session.user.Some? && HasGuestWithEmail(guests, session.user.value.email)
    ensures r.Returned? ==>
              && r.session.expires == session.expires
              && r.session.user.Some?
              && var u := r.session.user.value;
              && u.(guestId := session.user.value.guestId) == session.user.value
              && u.guestId.Some? && u.guestId.value in guests && guests[u.guestId.value].email == u.email
  {
    if lookupFails || session.user.None? then Thrown
    else
      match GuestIdByEmail(guests, session.user.value.email)
      case None => Thrown
      case Some(id) => Returned(session.(user := Some(session.user.value.(guestId := Some(id)))))
  }

  /**
   * After a sign-in that was allowed, the session callback finds the guest, and the
   * session it returns passes `authorized` and carries the guest id the server
   * actions read.
   */
  lemma SignedInSessionResolves(guests: map<nat, Guest>, user: ProviderUser, newId: nat,
                                 lookupFails: bool, createFails: bool, session: Session)
    requires UniqueEmails(guests) && newId !in guests
    requires SignInStep(guests, user, newId, lookupFails, createFails).allowed
    requires session.user.Some? && session.user.value.email == user.email
    ensures var after := SignInStep(guests, user, newId, lookupFails, createFails).guests;
            && UniqueEmails(after)
            && SessionCallback(after, session, false).Returned?
            && Authorized(Some(SessionCallback(after, session, false).session))
            && Resolved(Some(SessionCallback(after, session, false).session))
  {
  }

}
