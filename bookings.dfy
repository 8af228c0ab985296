/**
 * The booking routes: create a booking (price it, store it, then render the
 * e-ticket and mail it), list the caller's bookings, and download an e-ticket.
 *
 * The caller's id is the authenticated `req.user.id`.  Rendering the PDF and
 * sending the mail are opaque steps: the model only knows whether each one
 * succeeded.  The PDF bytes, the mail's text and HTML bodies and the QR code
 * inside the ticket are not modelled.
 *
 * The booking form in the web client shows a $5 service fee on top of the
 * ticket total; the server never charges it: `totalAmount` is price times
 * tickets and nothing more.
 */
module Bookings {
  import opened Wrappers
  import opened Models
  import opened Http
  import opened Sorting

  const PdfType := "application/pdf"

  /** One attachment of a mail; its bytes are not modelled. */
  datatype Attachment = Attachment(filename: string, contentType: string)

  /** The arguments of `sendBookingConfirmation` that the model keeps. */
  datatype Mail = Mail(to: Email, subject: string, attachments: seq<Attachment>)

  /** The headers the download sends with the PDF. */
  datatype TicketFile = TicketFile(contentType: string, disposition: string)

  /** `e-ticket-<booking id>.pdf`, the name used for the attachment and for the download. */
  function TicketFileName(id: BookingId): (name: string)
    ensures |name| == |id| + 13
    ensures name[..9] == "e-ticket-" && name[9..|name| - 4] == id && name[|name| - 4..] == ".pdf"
  {
    "e-ticket-" + id + ".pdf"
  }

  /**
   * The confirmation: to the purchaser's address, subject naming the event,
   * and the e-ticket as the one attachment.
   */
  function ConfirmationMail(user: User, event: Event, booking: Booking): (m: Mail)
    ensures m.to == user.email
    ensures m.subject == "Your E-Ticket for " + event.title
    ensures |m.attachments| == 1 && m.attachments[0].contentType == PdfType
    ensures m.attachments[0].filename == TicketFileName(booking.id)
  {
    Mail(user.email, "Your E-Ticket for " + event.title, [Attachment(TicketFileName(booking.id), PdfType)])
  }

  /** No two bookings share an id: the store hands out fresh ids. */
  ghost predicate UniqueIds(bookings: seq<Booking>) {
    forall i, j :: 0 <= i < j < |bookings| ==> bookings[i].id != bookings[j].id
  }

  /** The booking collection, in insertion order. */
  class BookingStore {
    var bookings: seq<Booking>

    ghost predicate Valid()
      reads this
    {
      UniqueIds(bookings)
    }

    constructor ()
      ensures Valid() && bookings == []
    {
      bookings := [];
    }

    /**
     * POST /: `events` is the event collection, `newId` the id the store
     * assigns, `now` the creation time, `purchaser` what `User.findById`
     * answers for the caller, `renderOk` and `sendOk` whether the PDF and the
     * mail steps succeed.  The booking is stored before either step runs and
     * stays stored when one of them fails, although the reply is then 500.
     */
    method Create(caller: UserId, eventId: EventId, tickets: int, events: map<EventId, Event>,
                  newId: BookingId, now: int, purchaser: Option<User>, renderOk: bool, sendOk: bool)
      returns (resp: Response<Booking>, mail: Option<Mail>)
      requires Valid()
      requires tickets > 0
      requires purchaser.Some? ==> purchaser.value.id == caller
      requires forall b :: b in bookings ==> b.id != newId
      modifies this
      ensures Valid()
      ensures eventId !in events ==> resp == Failure(404, "Event not found") && bookings == old(bookings) && mail == None
      ensures eventId in events ==>
        bookings == old(bookings) + [Booking(newId, caller, eventId, tickets, events[eventId].ticketPrice * tickets, Confirmed, now)]
      ensures mail.Some? <==> eventId in events && purchaser.Some? && renderOk
      ensures mail.Some? ==> mail.value == ConfirmationMail(purchaser.value, events[eventId], bookings[|bookings| - 1])
      ensures mail.Some? ==> mail.value.to == purchaser.value.email && purchaser.value.id == caller
      ensures resp.Success? <==> eventId in events && purchaser.Some? && renderOk && sendOk
      ensures resp.Success? ==> resp.status == 201 && resp.value == bookings[|bookings| - 1]
      ensures eventId in events && !resp.Success? ==> resp == ServerError()
    {
      if eventId !in events {
        return Failure(404, "Event not found"), None;
      }
      var event := events[eventId];
      var totalAmount := event.ticketPrice * tickets;
      var booking := Booking(newId, caller, eventId, tickets, totalAmount, Confirmed, now);
      bookings := bookings + [booking];
      // a missing purchaser fails on `user.name` right after rendering
      if purchaser.None? || !renderOk {
        return ServerError(), None;
      }
      mail := Some(ConfirmationMail(purchaser.value, event, booking));
      if !sendOk {
        return ServerError(), mail;
      }
      resp := Success(201, booking);
    }
  }

  function NewestFirst(b: Booking): int {
    -b.createdAt
  }

  /** GET /: the caller's bookings, newest first. */
  function ListBookings(bookings: seq<Booking>, caller: UserId): (r: seq<Booking>)
    ensures forall b :: b in r <==> b in bookings && b.userId == caller
    ensures forall b :: multiset(r)[b] == if b.userId == caller then multiset(bookings)[b] else 0
    ensures forall i, j :: 0 <= i < j < |r| ==> r[i].createdAt >= r[j].createdAt
  {
    var own := OwnedBy(bookings, caller);
    var r := SortBy(own, NewestFirst);
    forall b ensures multiset(r)[b] == if b.userId == caller then multiset(bookings)[b] else 0 {
      OwnedByCount(bookings, caller, b);
    }
    assert forall b :: b in r <==> b in multiset(own);
    assert forall i, j :: 0 <= i < j < |r| ==> NewestFirst(r[i]) <= NewestFirst(r[j]);
    r
  }

  /** `Booking.findOne({ _id: id, userId: caller })`. */
  function FindOwned(bookings: seq<Booking>, id: BookingId, caller: UserId): (r: Option<Booking>)
    ensures r.Some? ==> r.value in bookings && r.value.id == id && r.value.userId == caller
    ensures r.None? <==> forall b :: b in bookings ==> !(b.id == id && b.userId == caller)
  {
    if bookings == [] then None
    else if bookings[0].id == id && bookings[0].userId == caller then Some(bookings[0])
    else
      assert bookings == [bookings[0]] + bookings[1..];
      FindOwned(bookings[1..], id, caller)
  }

  /**
   * GET /:id/download.  A booking that does not exist and a booking of
   * another user both give the same 404; `renderOk` says whether the fresh
   * PDF rendering succeeds.
   */
  function Download(bookings: seq<Booking>, id: BookingId, caller: UserId, renderOk: bool): (r: Response<TicketFile>)
    ensures r.status == 404 <==> forall b :: b in bookings ==> !(b.id == id && b.userId == caller)
    ensures r.status == 404 ==> r == Failure(404, "Booking not found")
    ensures r.Success? <==> r.status != 404 && renderOk
    ensures r.Success? ==> r == Success(200, TicketFile(PdfType, "attachment; filename=" + TicketFileName(id)))
    ensures !r.Success? && r.status != 404 ==> r == ServerError()
  {
    match FindOwned(bookings, id, caller)
    case None => Failure(404, "Booking not found")
    case Some(b) =>
      if renderOk then Success(200, TicketFile(PdfType, "attachment; filename=" + TicketFileName(b.id)))
      else ServerError()
  }

  /** Another user's booking, wherever it sits in the store, changes nothing the caller can see. */
  lemma {:induction false} ForeignBookingInvisible(before: seq<Booking>, after: seq<Booking>, other: Booking,
                                                   id: BookingId, caller: UserId)
    requires other.userId != caller
    ensures FindOwned(before + [other] + after, id, caller) == FindOwned(before + after, id, caller)
  {
    if before == [] {
      assert before + [other] + after == [other] + after;
      assert before + after == after;
      assert ([other] + after)[1..] == after;
    } else {
      assert (before + [other] + after)[1..] == before[1..] + [other] + after;
      assert (before + after)[1..] == before[1..] + after;
      ForeignBookingInvisible(before[1..], after, other, id, caller);
    }
  }

  /** Hence a download cannot tell whether a foreign booking with that id exists. */
  lemma ForeignDownloadLooksMissing(before: seq<Booking>, after: seq<Booking>, other: Booking,
                                    caller: UserId, renderOk: bool)
    requires other.userId != caller
    ensures Download(before + [other] + after, other.id, caller, renderOk)
         == Download(before + after, other.id, caller, renderOk)
  {
    ForeignBookingInvisible(before, after, other, other.id, caller);
  }

  /**
   * In a store with distinct ids, downloading another user's booking is
   * refused exactly as a missing booking is.
   */
  lemma ForeignBookingNotFound(bookings: seq<Booking>, other: Booking, caller: UserId, renderOk: bool)
    requires UniqueIds(bookings)
    requires other in bookings && other.userId != caller
    ensures Download(bookings, other.id, caller, renderOk) == Failure(404, "Booking not found")
  {
    forall b | b in bookings ensures !(b.id == other.id && b.userId == caller) {
      var i :| 0 <= i < |bookings| && bookings[i] == b;
      var j :| 0 <= j < |bookings| && bookings[j] == other;
      if b.id == other.id {
        assert i == j;
      }
    }
  }

  /** The mailed attachment and a later download of the same booking carry the same file name. */
  lemma AttachmentNameMatchesDownload(bookings: seq<Booking>, booking: Booking, user: User, event: Event)
    requires booking in bookings
    ensures Download(bookings, booking.id, booking.userId, true)
         == Success(200, TicketFile(PdfType, "attachment; filename=" + ConfirmationMail(user, event, booking).attachments[0].filename))
  {
  }
}
