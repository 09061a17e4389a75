# The Wild Oasis: reservation rules, verified

The Wild Oasis is a booking site for a cabin-rental business. Guests sign in through an identity provider, browse cabins filtered by capacity, and make, edit and cancel reservations. This project models the business rules at its core and proves their properties in Dafny:

- **Server actions** (`app/_lib/actions.js`): `updateProfile`, `deleteReservation`, `updateBooking` and `createBooking`.
  - They run over an abstract store with two tables, `guests` and `bookings`, each a map from id to row (`Domain.Database`).
  - Each action gets an optional session. It returns how it ended (done, or the error it throws) and the effects it requested, in order: `revalidatePath` entries, then an optional `redirect`.
  - Each action is an imperative method. Its `ensures` equates the new tables, the outcome and the effects with a pure `...Step` function of the tables before the call.
  - The `...Step` functions and the lemmas beside them state the rules:
    - authentication comes first, then validation or the ownership check (the booking id must be among the guest's own booking ids);
    - a failing check, or a store error, leaves the store unchanged and requests no effect;
    - each write has a field-level frame;
    - `observations` is capped at 1000 characters;
    - a created booking gets fixed defaults;
    - each action requests a fixed list of effects.
- **Authentication callbacks** (`app/_lib/auth.js`):
  - `authorized` (`Auth.Authorized`);
  - `signIn`, which gets or creates the guest and is idempotent on the guest table;
  - `session`, which attaches the guest id and leaves the rest of the session as it was.

  A lemma connects them to the actions: after an allowed sign-in, the session callback succeeds, and the session it returns passes `authorized` and carries the guest id the actions read.
- **Capacity filter** (`app/_components/CabinList.js`). The small, medium and large buckets partition every capacity, and each filter result is an order-preserving subsequence of the cabin list. An empty list renders nothing, whatever the filter. Any other filter value ends in a `TypeError` when a non-empty list is rendered.
- **Optimistic delete** (`app/_components/ReservationList.js`). The reducer removes every booking with the id and keeps each other booking, as often as it occurs and in order. It is idempotent and commutes with itself. The displayed list is the `bookings` prop less the ids deleted optimistically. When `handleDelete` runs, it removes the booking from the display before the server delete, so the booking leaves the displayed list whatever the server answers. Once the next prop arrives, the booking is back exactly when the server delete threw.

Store errors and failed lookups are boolean parameters of the operations. The ids of new rows come from identity counters in the store.

Files: `common.dfy` (Option), `seqs.dfy` (filter and subsequence laws), `text.dfy` (`slice`, `split`, the national-ID pattern, decimal ids in paths), `domain.dfy` (rows, store, session, effects), `actions.dfy`, `auth.dfy`, `cabins.dfy`, `reservations.dfy`.

## Model

| member | source | states |
|---|---|---|
| Actions.UpdateProfileStep | app/_lib/actions.js:11-67 | With no session it throws "You must be signed in…" and changes nothing. A national ID failing `^[a-zA-Z0-9]{6,12}$` throws before any write. It succeeds exactly when signed in with a valid ID and no store error. Only the session guest's row changes: email and name are kept, `nationalID` and `nationality` are set, and `countryFlag` is set when the form gives one. On success the effects are `[revalidate /account/profile]`. |
| Actions.UpdateProfile | app/_lib/actions.js:11-67 | The imperative action equals `UpdateProfileStep` on the tables before it, keeps the store invariant and leaves both id counters alone. |
| Actions.NationalityParts | app/_lib/actions.js:25 | `nationality` is the text before the first `%`, and all of the field when it has no `%`. `countryFlag` is undefined exactly when the field has no `%`. Otherwise it is the text after the first `%`, up to the next `%` or the end. |
| Actions.NationalityPartsOfPair | app/_lib/actions.js:24-25 | A field `name%flag` gives back exactly `name` and `flag`. |
| Actions.ApplyProfile | app/_lib/actions.js:35-45 | The guest update keeps the set of guest ids. It changes no row but the session guest's and never changes anyone's email or full name. |
| Actions.DeleteReservationStep | app/_lib/actions.js:69-101 | With no session it throws Unauthenticated. If the id is not among the guest's own booking ids, it throws "You can only delete your own bookings" and changes nothing. It succeeds exactly when signed in as the owner with no store error. Success removes exactly that row, leaves every other row and the guests table alone, and requests `[revalidate /account/reservations]`. |
| Actions.DeleteReservation | app/_lib/actions.js:69-101 | The imperative action equals `DeleteReservationStep` and keeps the store invariant. |
| Actions.UpdateBookingStep | app/_lib/actions.js:103-155 | The session check and the ownership guard come as for delete. On success only the target row changes, and only in `numGuests` and `observations`. The stored `observations` is a prefix of the input, at most 1000 long, and equals the input when that fits. The effects are `[revalidate /account/reservations, revalidate /account/reservations/edit/<id>, redirect /account/reservations]`. |
| Actions.UpdateBooking | app/_lib/actions.js:103-155 | The imperative action equals `UpdateBookingStep` and keeps the store invariant. |
| Actions.CreateBookingStep | app/_lib/actions.js:177-207 | With no session it throws and inserts nothing. On success it inserts exactly one row, under the new id, and changes no other row. That row satisfies `CreatedFrom`. The effects are `[revalidate /cabins/<cabinId>, redirect /cabins/thankyou]`. A store error leaves everything unchanged. |
| Actions.CreateBooking | app/_lib/actions.js:177-207 | The imperative action equals `CreateBookingStep` with the store's next booking id and keeps the store invariant. |
| Actions.NewBooking | app/_lib/actions.js:184-194 | The new row has the session guest as owner, overriding any `guestId` in the booking data. It keeps the data's cabin, dates, nights and cabin price. It takes `numGuests` from the form and the capped `observations`. It sets `extraPrice` 0, `totalPrice` = `cabinPrice`, `isPaid` false, `hasBreakfast` false and `status` "unconfirmed". |
| Actions.CapObservations | app/_lib/actions.js:128-131 | `slice(0, 1000)` keeps a prefix of length min(input length, 1000). |
| Actions.ForeignBookingUntouchable | app/_lib/actions.js:118-125 | A signed-in guest's delete or update of a booking owned by another guest throws Forbidden and leaves the store unchanged. |
| Actions.NoBookingsNoMutation | app/_lib/actions.js:78-85 | A guest with no bookings can delete or update nothing. |
| Actions.SecondDeleteRefused | app/_lib/actions.js:78-91 | After a successful delete, deleting the same id again throws Forbidden. |
| Actions.UpdateKeepsOwnership | app/_lib/actions.js:128-139 | An update leaves every guest's set of owned booking ids unchanged. |
| Actions.DeleteShrinksOwnership | app/_lib/actions.js:88-91 | A successful delete removes its id from every guest's owned ids and nothing else. |
| Actions.CreateGrowsOwnership | app/_lib/actions.js:184-198 | A successful create adds the new id to the session guest's owned ids only. |
| Actions.EditPath | app/_lib/actions.js:151 | The edit path is `/account/reservations/edit/` followed by decimal digits that read back as the booking id, with no leading zero. |
| Actions.CabinPath | app/_lib/actions.js:204 | The cabin path is `/cabins/` followed by decimal digits that read back as the cabin id, with no leading zero. |
| Actions.EditPathsDistinct | app/_lib/actions.js:151 | Updates of two different bookings revalidate two different edit paths. |
| Actions.UnauthorizedActionsRefused | app/_lib/actions.js:18-20 | A session that `authorized` refuses is refused by all four server actions: each throws its not-signed-in error and leaves the store unchanged. |
| Text.Slice | app/_lib/actions.js:130 | `s.slice(0, n)` is a prefix of `s`, of length at most `n`. It is all of `s` when `s` fits, and exactly `n` long otherwise. |
| Text.Split | app/_lib/actions.js:25 | `split` yields at least one part, and no part contains the separator. |
| Text.SplitHead | app/_lib/actions.js:25 | The first part runs up to the first separator. It is the only part exactly when there is no separator. |
| Text.JoinSplit | app/_lib/actions.js:25 | Joining the parts of a split with the separator gives back the original text. |
| Text.SplitWithoutSeparator | app/_lib/actions.js:25 | Text without the separator splits into itself alone. |
| Text.SplitAtFirst | app/_lib/actions.js:25 | `a%b` with `%`-free `a` splits into `a` followed by the parts of `b`. |
| Text.SplitPair | app/_lib/actions.js:25 | `x%y` with `%`-free halves splits into exactly `[x, y]`. |
| Text.MatchesClassRepeatIff | app/_lib/actions.js:28 | Matching the anchored pattern `^[a-zA-Z0-9]{lo,hi}$` character by character holds exactly when the length lies in `[lo, hi]` and every character is an ASCII letter or digit. |
| Text.NationalIDIsPattern | app/_lib/actions.js:28 | The validator used by the profile action is exactly the regular expression `^[a-zA-Z0-9]{6,12}$`. |
| Text.NatToString | app/_lib/actions.js:151 | A rendered id is a non-empty string of decimal digits with no leading zero. |
| Text.ParseNatToString | app/_lib/actions.js:151 | Reading the decimal text of an id back gives the id. |
| Text.NatToStringInjective | app/_lib/actions.js:151 | Different ids render to different texts. |
| Auth.Authorized | app/_lib/auth.js:60-67 | `authorized` grants access exactly when there is a session with a user. For sessions that have passed the session callback, that is exactly "a session exists", the check each server action makes first. |
| Auth.NewGuest | app/_lib/auth.js:90-93 | A created guest takes its email and full name from the provider's user. Its nationality, flag and national ID start empty. |
| Auth.SignInStep | app/_lib/auth.js:85-99 | Sign-in is allowed exactly when the lookup does not throw and either the guest exists or creating it does not throw. After an allowed sign-in a guest with that email exists. A guest `{email, fullName = name}` is added only when none had that email, and only then does the table change. Unique emails are preserved. |
| Auth.SignIn | app/_lib/auth.js:85-99 | The imperative callback equals `SignInStep` with the store's next guest id. It keeps the store invariant and the bookings. |
| Auth.SignInIdempotent | app/_lib/auth.js:87-94 | A repeated sign-in with the same email adds no further guest, whatever the second attempt's lookup or create does. |
| Auth.SessionCallback | app/_lib/auth.js:113-117 | The callback returns exactly when the session has a user, the lookup works and a guest with that email exists. The returned user carries that guest's id. Every other field of the session and its user is as before. |
| Auth.SignedInSessionResolves | app/_lib/auth.js:113-117 | After an allowed sign-in, the session callback for that email returns. The returned session passes `authorized` (`!!auth?.user`) and carries a guest id. |
| Cabins.FilterCabins | app/_components/CabinList.js:8-20 | "small", "medium" and "large" keep exactly the cabins with capacity ≤ 2, 3..7 and ≥ 8, each as often as the list holds it. "all" keeps the list unchanged. Every result is an order-preserving subsequence of the list. Any other filter value leaves the result undefined. |
| Cabins.CabinList | app/_components/CabinList.js:5-31 | An empty cabin list renders nothing, whatever the filter. A non-empty list with an unknown filter fails with a `TypeError`. Otherwise the grid shows the filtered cabins. |
| Cabins.BucketsPartitionCapacities | app/_components/CabinList.js:9-16 | Every capacity is in exactly one of the three buckets. |
| Cabins.BucketsPartitionCabins | app/_components/CabinList.js:9-16 | The three bucket results hold, as a multiset, exactly the cabins of the list, so their lengths add up to its length. |
| Seqs.Filter | app/_components/ReservationList.js:16 | `filter` keeps exactly the elements that pass, each as many times as it occurs in the input, and drops every element that fails. |
| Seqs.FilterIsSubsequence | app/_components/ReservationList.js:16 | `filter` keeps the relative order of what it keeps. |
| Seqs.FilterKeepsAll | app/_components/ReservationList.js:16 | When every element passes, `filter` returns its input. |
| Seqs.FilterIdempotent | app/_components/ReservationList.js:16 | Filtering twice by the same test equals filtering once. |
| Seqs.FilterCommutes | app/_components/ReservationList.js:16 | Two filters commute. |
| Seqs.SubsequenceReflexive | app/_components/CabinList.js:18-20 | A list is a subsequence of itself; the "all" case relies on this. |
| Seqs.SubsequenceTransitive | app/_components/ReservationList.js:14-17 | A subsequence of a subsequence is a subsequence; repeated optimistic deletes rely on this. |
| Reservations.RemoveBooking | app/_components/ReservationList.js:14-17 | After the reducer no booking with the id remains. Every other booking stays, as often as it occurred, in its original order. |
| Reservations.RemoveAbsent | app/_components/ReservationList.js:16 | Deleting an id that no booking has leaves the list unchanged. |
| Reservations.RemoveIdempotent | app/_components/ReservationList.js:16 | Applying the reducer twice with the same id equals applying it once. |
| Reservations.RemoveCommutes | app/_components/ReservationList.js:16 | Optimistic deletes of two ids commute. |
| Reservations.ApplyDeletes | app/_components/ReservationList.js:11-18 | The displayed list is the `bookings` prop, in order, less the bookings whose ids were deleted optimistically. Every other booking appears as often as in the prop. |
| Reservations.ReservationList.constructor | app/_components/ReservationList.js:11-12 | The overlay is seeded from the `bookings` prop and shows it unchanged. |
| Reservations.ReservationList.OptimisticDelete | app/_components/ReservationList.js:23 | Dispatching a delete applies the reducer to the displayed list and leaves the prop alone. |
| Reservations.ReservationList.HandleDelete | app/_components/ReservationList.js:21-26 | The optimistic removal comes before the server delete, so the booking leaves the displayed list even when the server delete throws. The store changes exactly as `DeleteReservationStep` says. |
| Reservations.ReservationList.Settle | app/_components/ReservationList.js:11-12 | When a fresh prop arrives, the overlay is dropped and the list shows the prop. |
| Reservations.DeleteSettles | app/_components/ReservationList.js:21-26 | Take the guest's bookings from the store before and after a delete. A booking that was listed before is listed again after exactly when the server delete threw. |

## Left out

- Supabase and `data-service.js` are not part of this model. The core's calls into them (`getGuest`, `createGuest`, `getBookings`, and the `update`/`delete`/`insert` queries) are reads and writes of the two tables. `Domain.GuestIdByEmail` stands in for `getGuest(email)`: the guest with that email, if any. `Domain.OwnedIds` stands in for `getBookings(guestId).map((booking) => booking.id)`: the ids of the guest's bookings, as a set. Whether a write fails is the `storeFails` parameter; whether a lookup throws is `lookupFails` or `createFails`. `getBookings` itself never fails in this model, and the order of its result is not modelled, because only membership is asked of it.
- A failing single-row write is taken to change nothing. Concurrent writes from two sessions (last write wins) are not modelled.
- `signInAction` and `signOutAction` (app/_lib/actions.js:157-172) are thin calls into NextAuth with fixed redirect targets. They are left out with the rest of the OAuth setup (app/_lib/auth.js:37-43, 135-145).
- `revalidatePath` and `redirect` appear only as entries in the effect list. Next.js caching and navigation are not modelled. A `redirect` ends the action, and the model treats that as success.
- Sessions are values. The `session` callback mutates `session.user` in place and returns that same object, so the model returns the updated value. Aliasing of the session object is not captured.
- The server actions assume a resolved session (`Domain.Resolved`): a present session has a user and a guest id. The session callback sets both, or throws inside `auth()`, before an action's own checks run. `Auth.SignedInSessionResolves` proves that a session the callback returns is resolved.
- `Number(...)` coercion, `NaN`, and price arithmetic are left out. Form numbers are integers and ids are naturals. The text of a template literal for ids at or above 10^21 (exponent notation) is not modelled.
- A missing form field (`formData.get` returning `null`) is not modelled. Form fields are strings, so the `TypeError` of `.split` or `.slice` on `null` is not covered.
- Strings are sequences of characters; UTF-16 code units are not modelled.
- `console.log` and `console.error` are not modelled.
- React's scheduling of `useOptimistic` and transitions is not modelled. The overlay is a list of dispatched ids, and `Settle` stands for the point where the transition ends and the next prop is shown. Rendering is not modelled, and neither are `DeleteReservation.js`, `SubmitButton.js`, `Filter.js`, `Reservation.js`, `layout.js`, `account/page.js` and `middleware.js`. They hold routing, data fetching and display text only.
- In the given source, the delete button (`app/_components/DeleteReservation.js:27-29`) calls `deleteReservation(bookingId)` directly and takes no `onDelete` prop. `handleDelete` in `ReservationList` runs only if `ReservationCard` calls its `onDelete`. `ReservationCard` is not part of this model, so the model does not show that the optimistic path is the one the page uses. The `confirm` dialog before the delete is not modelled either.
- `status` is stored as text. The only value the core writes is "unconfirmed".
- Behaviours of the code the model keeps:
  - A failed optimistic delete has no explicit rollback. The overlay is simply dropped when the next prop arrives.
  - The "not signed in" message of every action reads "You must be signed in to update your profile".
  - A profile update for a guest id with no row succeeds without changing anything.
  - A `nationality` field without `%` leaves `countryFlag` undefined. `undefined` members are dropped from the JSON body, so the column keeps its value.
