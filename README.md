# Event ticketing backend — a Dafny model

A model of the request handlers of an event-ticketing backend (Express over
MongoDB) and of its recommendation rule, with proofs of what they promise.

- `recommendations.dfy` — `getRecommendations`: the categories of the user's
  booked events, the active, not-yet-past events of those categories that the
  user has not booked, soonest first, at most five; an empty list when a
  booked event no longer exists. Pure functions and lemmas.
- `bookings.dfy` — the booking routes. `BookingStore` holds the booking
  collection as a sequence; `Create` looks up the event, prices the booking
  (`ticketPrice * tickets`), stores it, and only then renders the e-ticket and
  mails it. Listing and download are pure functions over the collection.
- `events.dfy` — the event routes. `EventStore` holds the event collection as
  a map from id to event; create, update, delete and toggle-active change it
  in place; the public list, the admin list and lookup by id are functions.
- `auth.dfy` — the account routes over `UserStore`, a map from e-mail address
  to user: signup, login, forgot-password (store a six-digit code) and
  reset-password (check it, save the password, clear the code).
- `server.dfy` — the CORS origin check and the allowed-origin list.
- `models.dfy`, `http.dfy`, `sorting.dfy`, `wrappers.dfy` — the stored
  records, the reply shape (status plus value or error message), a stable
  sort on an integer key (the store's `sort`), and `Option`.
- `scenarios.dfy` — client runs whose contracts follow from the handlers'
  contracts: the seed data's four bookings (totals 300, 75, 150, 25), a booking
  whose mail fails, a price change after booking, a reset code used twice.

Modelling choices:
- The caller's identity (`req.user.id`) is a trusted parameter. The clock
  (`new Date()`, creation time), the ids the store assigns, `Math.random()`,
  the uploaded file's stored name, and the success of PDF rendering and mail
  delivery are parameters too.
- JavaScript falsiness is written out: an empty category is dropped by
  `filter(Boolean)`, an empty role becomes `'user'`, an empty origin passes the
  CORS check, an empty FRONTEND_URL falls back to the default, an empty stored
  code is refused.
- A best-effort design would reply 201 once the booking is stored, even when
  rendering the ticket or mailing it fails afterwards. The code does not: such
  a failure gives 500, although the booking stays stored. The model follows the
  code. The code also does not validate `tickets`.
- The web client shows a $5 service fee that the server never charges;
  `totalAmount` is price times tickets.

## Model

| member | source | states |
|---|---|---|
| `Models.OwnedBy` | backend/utils/recommendations.js:7 | `Booking.find({ userId })` returns exactly the bookings of that user |
| `Models.OwnedByCount` | backend/routes/bookings.js:14 | the user-filter keeps each of the user's bookings with its multiplicity and drops all others |
| `Sorting.SortBy` | backend/utils/recommendations.js:19 | the store sort yields a list sorted by the key that is a permutation of its input |
| `Recommendations.Populate` | backend/utils/recommendations.js:7 | `populate` yields the event with the referenced id, or null exactly when no such event exists |
| `Recommendations.Resolve` | backend/utils/recommendations.js:8 | all bookings' events resolve, in order, or the dereference fails exactly when some booking's event is missing |
| `Recommendations.EventIds` | backend/utils/recommendations.js:8 | `bookedEventIds` is the id of each populated event, position by position |
| `Recommendations.Categories` | backend/utils/recommendations.js:11 | the category set holds exactly the non-empty categories of the booked events, each once |
| `Recommendations.Candidates` | backend/utils/recommendations.js:14-18 | the query returns exactly the events in a booked category, not booked, active and dated now or later |
| `Recommendations.Top` | backend/utils/recommendations.js:21 | `slice(0, 5)` is a prefix of at most five, the whole list when shorter |
| `Recommendations.GetRecommendations` | backend/utils/recommendations.js:4-26 | at most five events, sorted by date, each in the catalogue, active, not past, in a category the user booked, and not booked by the user |
| `Recommendations.MatchIsRecommendable` | backend/utils/recommendations.js:14-18 | the query filter over the resolved bookings holds exactly for the events the source promises to recommend |
| `Recommendations.MatchImpliesRecommendable` | backend/utils/recommendations.js:14-18 | every event passing the query filter is recommendable |
| `Recommendations.RecommendableImpliesMatch` | backend/utils/recommendations.js:14-18 | every recommendable event passes the query filter |
| `Recommendations.RecommendationsArePrefix` | backend/utils/recommendations.js:14-21 | no recommendable event dated before a returned one is omitted; with fewer than five results every recommendable event is returned |
| `Recommendations.NoBookingsNoRecommendations` | backend/utils/recommendations.js:11-15 | a user without bookings gets an empty list |
| `Recommendations.DanglingBookingGivesNoRecommendations` | backend/utils/recommendations.js:8-25 | a booking whose event was deleted makes the dereference throw and the result empty |
| `Bookings.BookingStore.Create` | backend/routes/bookings.js:24-60 | unknown event: 404, nothing stored; otherwise exactly one booking appended with the caller, the request's event and tickets, total price times tickets; 201 only when the purchaser exists and rendering and mailing both succeed, else 500 with the booking kept; the mail goes to the caller's address |
| `Bookings.ListBookings` | backend/routes/bookings.js:12-21 | exactly the caller's bookings, with multiplicity, newest first |
| `Bookings.FindOwned` | backend/routes/bookings.js:65-68 | finds a booking with that id owned by the caller, or none exactly when there is none |
| `Bookings.Download` | backend/routes/bookings.js:63-83 | 404 exactly when no booking with that id belongs to the caller; otherwise the PDF with disposition `attachment; filename=e-ticket-<id>.pdf`, or 500 when rendering fails |
| `Bookings.ForeignBookingInvisible` | backend/routes/bookings.js:65-72 | inserting another user's booking anywhere does not change the owned lookup |
| `Bookings.ForeignDownloadLooksMissing` | backend/routes/bookings.js:65-72 | a download of another user's booking gives the same reply as one of a booking that does not exist |
| `Bookings.ForeignBookingNotFound` | backend/routes/bookings.js:65-72 | in a store with distinct ids, downloading another user's booking gives the 404 `Booking not found` |
| `Bookings.TicketFileName` | backend/routes/bookings.js:78 | the ticket file is named `e-ticket-`, then the booking id, then `.pdf` |
| `Bookings.ConfirmationMail` | backend/routes/bookings.js:44-54 | the confirmation goes to the purchaser's address, its subject names the event, and its one attachment is the PDF named after the booking |
| `Http.ServerError` | backend/routes/bookings.js:57-59 | every `catch` block answers 500 with the message `Server error` |
| `Bookings.AttachmentNameMatchesDownload` | backend/routes/bookings.js:48-78 | the mailed attachment's file name is the one the download disposition names |
| `Events.CategoryFilter` | backend/routes/events.js:36-38 | a category filter applies exactly when the query names a non-empty category other than `'All'` |
| `Events.PublicList` | backend/routes/events.js:31-45 | the public list holds exactly the active events, of the requested category when one applies |
| `Events.AllMeansNoFilter` | backend/routes/events.js:36 | `'All'`, an empty and an absent category list the same events |
| `Events.PublicListWithinAdminList` | backend/routes/events.js:48-55 | the admin list contains the public list and all inactive events, which the public list never shows |
| `Events.GetEvent` | backend/routes/events.js:58-68 | the event with that id, or 404 exactly when there is none |
| `Events.ApplyPatch` | backend/routes/events.js:95-99 | the merge never changes the event's id, and an empty update leaves the event as it is |
| `Events.WithUpload` | backend/routes/events.js:96-98 | an uploaded file sets the update's `imageUrl` to its upload URL; the other fields, and the whole update without a file, stay as the body gave them |
| `Events.UploadUrl` | backend/routes/events.js:75 | an upload is served under `/api/uploads/` followed by its stored file name |
| `Events.AdminList` | backend/routes/events.js:48-55 | the admin list holds every stored event, active or not, with its stored value |
| `Events.PatchOverwritesExactlySupplied` | backend/routes/events.js:95-99 | for each of the nine updatable fields (title, description, category, venue, date, price, image, active flag, creator), a supplied value replaces the stored one and an absent one keeps it; the id never changes; an empty body changes nothing |
| `Events.UploadDecidesImage` | backend/routes/events.js:96-98 | an uploaded file sets `imageUrl` to its upload URL; without a file the body's `imageUrl` is taken when supplied (a `null` clears it); with neither the stored value stays |
| `Events.EventStore.Create` | backend/routes/events.js:72-90 | 201 with the form's fields, `createdBy` the caller, `imageUrl` the upload URL or null, stored under the new id, nothing else changed |
| `Events.EventStore.Update` | backend/routes/events.js:93-107 | missing id: 404 and store unchanged; otherwise only that event changes, to the merge of the body and the upload |
| `Events.EventStore.Delete` | backend/routes/events.js:110-120 | missing id: 404 and store unchanged; otherwise exactly that event is removed |
| `Events.EventStore.ToggleActive` | backend/routes/events.js:123-134 | missing id: 404 and store unchanged; otherwise only that event's `isActive` changes, to the supplied value |
| `Auth.RoleOrDefault` | backend/routes/auth.js:33 | the supplied role, or `'user'` when it is absent or empty |
| `Auth.Decimal` | backend/routes/auth.js:103 | `toString` gives a non-empty string of decimal digits without a leading zero |
| `Auth.DecimalRoundTrip` | backend/routes/auth.js:103 | reading the decimal string back gives the number |
| `Auth.DecimalLength` | backend/routes/auth.js:103 | a number with k + 1 digits is written with k + 1 characters |
| `Auth.OtpNumber` | backend/routes/auth.js:103 | the drawn code lies in 100000..999999 |
| `Auth.GenerateOtp` | backend/routes/auth.js:103 | the code is six decimal digits, not starting with zero, of value 100000..999999 |
| `Auth.OtpAccepted` | backend/routes/auth.js:128-131 | a supplied code is accepted exactly when it is non-empty and equal to the stored code |
| `Auth.UserStore.Signup` | backend/routes/auth.js:18-55 | a known e-mail: 400 and no user created; otherwise the user is stored with the supplied or default role and 201 is returned whatever the mail outcome |
| `Auth.UserStore.Login` | backend/routes/auth.js:58-90 | unknown e-mail and wrong password give the same 400; 403 exactly when the password matched and the account is deactivated; success exactly when it matched and the account is active |
| `Auth.UserStore.ForgotPassword` | backend/routes/auth.js:93-115 | unknown e-mail: 404, nothing stored; otherwise the generated code is stored on that user only, and 200 only when the mail succeeds, else 500 with the code kept |
| `Auth.UserStore.ResetPassword` | backend/routes/auth.js:118-144 | unknown e-mail: 404; a missing or different code: 400 with the password unchanged; otherwise the new password is saved and the code cleared |
| `Server.FrontendUrl` | backend/server.js:20 | FRONTEND_URL when set and non-empty, `http://localhost:5173` otherwise |
| `Server.AllowedLocalOrigins` | backend/server.js:21 | the list always holds both development origins and the configured frontend, and nothing else |
| `Server.CheckOrigin` | backend/server.js:24-28 | an origin passes exactly when it is absent or in the allowed list; any other is refused with the CORS error |
| `Server.DevOriginsAlwaysAllowed` | backend/server.js:21-27 | both development origins and the configured frontend pass whatever FRONTEND_URL is |
| `Server.UnsetFrontendAllowsOnlyDevOrigins` | backend/server.js:20-28 | without FRONTEND_URL any other non-empty origin is refused |
| `Scenarios.Book` | backend/routes/bookings.js:24-60 | a booking of a known event, with the purchaser found and both steps succeeding, is answered 201 with total price times tickets, and adds only a booking with the new id |
| `Scenarios.SeedBookings` | backend/scripts/seed.js:131-154 | the seed's four bookings are created with 201 and totals 300, 75, 150 and 25 |
| `Scenarios.UndeliveredMailKeepsBooking` | backend/routes/bookings.js:34-59 | a failed mail gives 500, yet the booking is stored and downloadable |
| `Scenarios.PriceChangeKeepsTotal` | backend/routes/bookings.js:33-39 | a later price change leaves the stored total untouched |
| `Scenarios.ResetCodeUsedTwice` | backend/routes/auth.js:128-138 | a code accepted once is refused the second time, and the first new password stays |

## Left out

- Bookings.BookingStore.Create: requires `tickets > 0`, but the route does not check the ticket count. The booking schema is not part of this model, so what the store then does with such a count is not known.
- Bookings.BookingStore.Create: prices, ticket counts and totals are whole numbers here. In the code they are double-precision JavaScript numbers, so three behaviours are not modelled. A fractional price is multiplied with rounding (19.99 × 3 gives 59.97000000000001). A fractional ticket count is priced and stored as given. A missing or non-numeric count makes the total NaN, which the store refuses, so the reply is 500 and nothing is stored.
- PDF rendering, the QR code inside the ticket, and mail delivery are modelled only as steps that succeed or fail. Their code is not part of this model.
- The mail's text and HTML bodies are not modelled; they need number formatting and the purchaser's name.
- JWT issuing, password hashing, the hashing and expiry of stored codes, and the authentication and admin middleware are not modelled. That code is not part of this model, and the caller's identity is trusted.
- Uploads are not modelled: the disk storage, the file names built from the clock and a random number, and the creation of the uploads directory are file-system I/O.
- Store failures are not modelled: connection errors, schema validation, and the cast error a malformed id raises. In the code these give 500, and a malformed id therefore gives 500 rather than 404. Schema defaults are assumed: a new event is active, a booking is `confirmed`, and a new user is active.
- Listing order is not modelled: the event lists are maps. The recommendation catalogue is a sequence in store order, and ties in date keep that order, which the store does not guarantee.
- The recommendation function's catch-all also covers store errors; only the throw on a deleted event is modelled.
- Events.EventStore.ToggleActive: a body without `isActive` is modelled as leaving the event unchanged, assuming undefined keys are dropped from updates. Older store drivers would instead write null.
- A request body without `email` is not modelled. There, the store's query would match an arbitrary user.
- `Math.random()` is a real number in [0, 1); the rounding of double-precision arithmetic is not modelled.
- Concurrency and seat capacity are not modelled: there is no locking and no capacity check.
- The GET /recommendations route, the health route, route mounting and `listen` are not modelled; they are plain wiring.
- The web client's components (booking modal, dashboard, navigation) are not modelled; they are UI state.
