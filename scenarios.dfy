/**
 * Client runs of the handlers, stated as methods whose contracts follow from
 * the handlers' contracts alone: the seed data's bookings, a booking whose
 * confirmation mail fails, a price change after booking, and a reset code
 * used twice.
 */
module Scenarios {
  import opened Wrappers
  import opened Models
  import opened Http
  import Events
  import Bookings
  import Auth

  /** The record `User.findById` answers for the caller `id`. */
  function Buyer(id: UserId): User {
    User(id, "John Doe", "john@example.com", "secret", "user", true, None)
  }

  function Concert(price: int): Events.EventForm {
    Events.EventForm("Live Concert", "An evening of music", "Music", "Arena", 1733000000000, price)
  }

  /** One successful booking by `caller`, with the purchaser found and both steps succeeding. */
  method Book(store: Bookings.BookingStore, events: map<EventId, Event>, caller: UserId, eventId: EventId,
              tickets: int, id: BookingId, now: int) returns (status: int, total: int)
    requires store.Valid()
    requires tickets > 0 && eventId in events
    requires forall b :: b in store.bookings ==> b.id != id
    modifies store
    ensures store.Valid()
    ensures forall b :: b in store.bookings ==> b in old(store.bookings) || b.id == id
    ensures status == 201 && total == events[eventId].ticketPrice * tickets
  {
    var r, mail := store.Create(caller, eventId, tickets, events, id, now, Some(Buyer(caller)), true, true);
    status, total := r.status, r.value.totalAmount;
  }

  /** The four bookings of the seed data: 2 x 150, 1 x 75, 3 x 50 and 1 x 25. */
  method SeedBookings() returns (statuses: seq<int>, totals: seq<int>)
    ensures statuses == [201, 201, 201, 201]
    ensures totals == [300, 75, 150, 25]
  {
    var catalogue := new Events.EventStore();
    var e1 := catalogue.Create("e1", Concert(150), "admin", None);
    var e2 := catalogue.Create("e2", Concert(75), "admin", None);
    var e3 := catalogue.Create("e3", Concert(50), "admin", None);
    var e4 := catalogue.Create("e4", Concert(25), "admin", None);
    var events := catalogue.events;
    var store := new Bookings.BookingStore();
    var s1, t1 := Book(store, events, "u1", "e1", 2, "b1", 1);
    var s2, t2 := Book(store, events, "u2", "e2", 1, "b2", 2);
    var s3, t3 := Book(store, events, "u3", "e3", 3, "b3", 3);
    var s4, t4 := Book(store, events, "u1", "e4", 1, "b4", 4);
    statuses, totals := [s1, s2, s3, s4], [t1, t2, t3, t4];
  }

  /**
   * A confirmation mail that cannot be delivered turns the reply into 500,
   * yet the booking is stored and a download of it succeeds.
   */
  method UndeliveredMailKeepsBooking() returns (created: int, stored: nat, download: int)
    ensures created == 500 && stored == 1 && download == 200
  {
    var catalogue := new Events.EventStore();
    var e := catalogue.Create("e1", Concert(150), "admin", None);
    var store := new Bookings.BookingStore();
    var r, mail := store.Create("u1", "e1", 2, catalogue.events, "b1", 1, Some(Buyer("u1")), true, false);
    created, stored := r.status, |store.bookings|;
    assert store.bookings[0].id == "b1" && store.bookings[0].userId == "u1";
    download := Bookings.Download(store.bookings, "b1", "u1", true).status;
  }

  /** The amount is fixed when booking: a later price change leaves it alone. */
  method PriceChangeKeepsTotal() returns (total: int, newPrice: int)
    ensures total == 300 && newPrice == 200
  {
    var catalogue := new Events.EventStore();
    var e := catalogue.Create("e1", Concert(150), "admin", None);
    var store := new Bookings.BookingStore();
    var r, mail := store.Create("u1", "e1", 2, catalogue.events, "b1", 1, Some(Buyer("u1")), true, true);
    var u := catalogue.Update("e1", Events.EmptyPatch.(ticketPrice := Some(200)), None);
    total, newPrice := store.bookings[0].totalAmount, u.value.ticketPrice;
  }

  /** A code accepted once is cleared, so the same code is refused the second time. */
  method ResetCodeUsedTwice(users: Auth.UserStore, email: Email, otp: string, first: string, second: string)
    returns (r1: Response<string>, r2: Response<string>)
    requires users.Valid()
    requires email in users.users && Auth.OtpAccepted(users.users[email].otp, otp)
    modifies users
    ensures r1.status == 200 && r2 == Failure(400, "Invalid or expired OTP")
    ensures email in users.users && users.users[email].password == first && users.users[email].otp == None
  {
    r1 := users.ResetPassword(email, otp, first);
    r2 := users.ResetPassword(email, otp, second);
  }
}
