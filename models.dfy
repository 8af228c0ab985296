/**
 * The three stored records (Event, Booking, User) and the one query on the
 * booking collection that two handlers share.
 *
 * Identifiers are strings, dates and timestamps are integers (milliseconds),
 * prices are whole numbers.  A category of "" stands for a missing one: it is
 * the value that `filter(Boolean)` drops.
 */
module Models {
  import opened Wrappers

  type UserId = string
  type EventId = string
  type BookingId = string
  type Email = string

  datatype Event = Event(
    id: EventId,
    title: string,
    description: string,
    category: string,
    venue: string,
    date: int,
    ticketPrice: int,
    imageUrl: Option<string>,
    isActive: bool,
    createdBy: UserId)

  /** The status a booking is stored with; the schema declares no other. */
  const Confirmed := "confirmed"

  datatype Booking = Booking(
    id: BookingId,
    userId: UserId,
    eventId: EventId,
    tickets: int,
    totalAmount: int,
    status: string,
    createdAt: int)

  /**
   * `password` is the credential as the handlers assign it; the pre-save hash
   * is abstracted away.  `otp` is what `getOTP()` answers (expiry not modelled).
   */
  datatype User = User(
    id: UserId,
    name: string,
    email: Email,
    password: string,
    role: string,
    isActive: bool,
    otp: Option<string>)

  /** `Booking.find({ userId })`: the user's bookings, in store order. */
  function OwnedBy(bookings: seq<Booking>, userId: UserId): (r: seq<Booking>)
    ensures forall b :: b in r <==> b in bookings && b.userId == userId
  {
    if bookings == [] then []
    else
      assert bookings == [bookings[0]] + bookings[1..];
      (if bookings[0].userId == userId then [bookings[0]] else []) + OwnedBy(bookings[1..], userId)
  }

  /** The query keeps every booking of the user as often as the store holds it, and no other. */
  lemma {:induction false} OwnedByCount(bookings: seq<Booking>, userId: UserId, b: Booking)
    ensures multiset(OwnedBy(bookings, userId))[b] == if b.userId == userId then multiset(bookings)[b] else 0
  {
    if bookings != [] {
      assert bookings == [bookings[0]] + bookings[1..];
      OwnedByCount(bookings[1..], userId, b);
    }
  }
}
