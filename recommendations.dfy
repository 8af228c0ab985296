/**
 * The recommendation rule of `getRecommendations`: up to five upcoming, active
 * events in the categories the user has booked before, soonest first, leaving
 * out the events the user has already booked.
 *
 * The booking and event collections are sequences in store order; `now` is the
 * clock reading of `new Date()`.
 */
module Recommendations {
  import opened Wrappers
  import opened Models
  import opened Sorting

  const MaxRecommendations := 5

  /** `populate('eventId')`: the referenced event, or null once it is gone. */
  function Populate(eventId: EventId, events: seq<Event>): (r: Option<Event>)
    ensures r.Some? ==> r.value in events && r.value.id == eventId
    ensures r.None? <==> forall e :: e in events ==> e.id != eventId
  {
    if events == [] then None
    else if events[0].id == eventId then Some(events[0])
    else
      assert events == [events[0]] + events[1..];
      Populate(eventId, events[1..])
  }

  /**
   * The populated event of every booking, or None when some booking's event no
   * longer exists: `booking.eventId._id` then throws.
   */
  function Resolve(bookings: seq<Booking>, events: seq<Event>): (r: Option<seq<Event>>)
    ensures r.None? <==> exists b :: b in bookings && Populate(b.eventId, events).None?
    ensures r.Some? ==> |r.value| == |bookings|
    ensures r.Some? ==> forall i :: 0 <= i < |bookings| ==> Populate(bookings[i].eventId, events) == Some(r.value[i])
  {
    if bookings == [] then Some([])
    else
      assert bookings == [bookings[0]] + bookings[1..];
      match Populate(bookings[0].eventId, events)
      case None => None
      case Some(e) =>
        match Resolve(bookings[1..], events)
        case None => None
        case Some(rest) => Some([e] + rest)
  }

  /** `bookedEventIds`: the id of every populated event. */
  function EventIds(booked: seq<Event>): (ids: seq<EventId>)
    ensures |ids| == |booked|
    ensures forall i :: 0 <= i < |booked| ==> ids[i] == booked[i].id
  {
    seq(|booked|, i requires 0 <= i < |booked| => booked[i].id)
  }

  /**
   * `[...new Set(categories.filter(Boolean))]`: each non-empty category of the
   * booked events once, in order of first occurrence.
   */
  function Categories(booked: seq<Event>): (cats: seq<string>)
    ensures forall c :: c in cats <==> c != "" && exists e :: e in booked && e.category == c
    ensures forall i, j :: 0 <= i < j < |cats| ==> cats[i] != cats[j]
  {
    if booked == [] then []
    else
      var init := booked[..|booked| - 1];
      var last := booked[|booked| - 1];
      assert booked == init + [last];
      var cats := Categories(init);
      if last.category == "" || last.category in cats then cats else cats + [last.category]
  }

  /** The query filter of lines 14-18. */
  predicate Matches(e: Event, cats: seq<string>, bookedIds: seq<EventId>, now: int) {
    e.category in cats && e.id !in bookedIds && e.isActive && e.date >= now
  }

  /** `Event.find(filter)`: the matching events in store order. */
  function Candidates(events: seq<Event>, cats: seq<string>, bookedIds: seq<EventId>, now: int): (r: seq<Event>)
    ensures forall e :: e in r <==> e in events && Matches(e, cats, bookedIds, now)
  {
    if events == [] then []
    else
      assert events == [events[0]] + events[1..];
      (if Matches(events[0], cats, bookedIds, now) then [events[0]] else [])
        + Candidates(events[1..], cats, bookedIds, now)
  }

  function DateOf(e: Event): int { e.date }

  /** `slice(0, 5)`. */
  function Top(s: seq<Event>): (r: seq<Event>)
    ensures |r| <= MaxRecommendations && |r| <= |s|
    ensures r == s[..|r|]
    ensures |r| < MaxRecommendations ==> r == s
  {
    if |s| <= MaxRecommendations then s else s[..MaxRecommendations]
  }

  function GetRecommendations(bookings: seq<Booking>, events: seq<Event>, userId: UserId, now: int): (r: seq<Event>)
    ensures |r| <= MaxRecommendations
    ensures SortedBy(r, DateOf)
    ensures forall e :: e in r ==> e in events && Recommendable(e, bookings, events, userId, now)
  {
    match Resolve(OwnedBy(bookings, userId), events)
    case None => []
    case Some(booked) =>
      var sorted := SortBy(Candidates(events, Categories(booked), EventIds(booked), now), DateOf);
      var r := Top(sorted);
      forall e | e in r ensures e in events && Recommendable(e, bookings, events, userId, now) {
        assert e in multiset(sorted);
        MatchIsRecommendable(e, bookings, events, userId, now, booked);
      }
      r
  }

  /** The category of some booked event of `userId` that still exists. */
  ghost predicate BookedCategory(c: string, bookings: seq<Booking>, events: seq<Event>, userId: UserId) {
    exists b :: b in bookings && b.userId == userId
      && Populate(b.eventId, events).Some? && Populate(b.eventId, events).value.category == c
  }

  /**
   * What the source promises of a recommended event, stated on the stores
   * rather than on the query: active, not in the past, in a non-empty category
   * the user has booked, and not booked by the user.
   */
  ghost predicate Recommendable(e: Event, bookings: seq<Booking>, events: seq<Event>, userId: UserId, now: int) {
    && e.isActive
    && e.date >= now
    && e.category != ""
    && BookedCategory(e.category, bookings, events, userId)
    && forall b :: b in bookings && b.userId == userId ==> b.eventId != e.id
  }

  /** The query filter over the resolved bookings means exactly `Recommendable`. */
  lemma MatchIsRecommendable(e: Event, bookings: seq<Booking>, events: seq<Event>, userId: UserId, now: int, booked: seq<Event>)
    requires Resolve(OwnedBy(bookings, userId), events) == Some(booked)
    ensures Matches(e, Categories(booked), EventIds(booked), now) <==> Recommendable(e, bookings, events, userId, now)
  {
    if Matches(e, Categories(booked), EventIds(booked), now) {
      MatchImpliesRecommendable(e, bookings, events, userId, now, booked);
    }
    if Recommendable(e, bookings, events, userId, now) {
      RecommendableImpliesMatch(e, bookings, events, userId, now, booked);
    }
  }

  lemma MatchImpliesRecommendable(e: Event, bookings: seq<Booking>, events: seq<Event>, userId: UserId, now: int, booked: seq<Event>)
    requires Resolve(OwnedBy(bookings, userId), events) == Some(booked)
    requires Matches(e, Categories(booked), EventIds(booked), now)
    ensures Recommendable(e, bookings, events, userId, now)
  {
    var own := OwnedBy(bookings, userId);
    var ids := EventIds(booked);
    assert e.category in Categories(booked);
    var ev :| ev in booked && ev.category == e.category;
    var i :| 0 <= i < |booked| && booked[i] == ev;
    assert own[i] in own;
    assert Populate(own[i].eventId, events) == Some(ev);
    assert BookedCategory(e.category, bookings, events, userId);
    forall b | b in bookings && b.userId == userId ensures b.eventId != e.id {
      assert b in own;
      var k :| 0 <= k < |own| && own[k] == b;
      assert ids[k] == booked[k].id == b.eventId;
    }
  }

  lemma RecommendableImpliesMatch(e: Event, bookings: seq<Booking>, events: seq<Event>, userId: UserId, now: int, booked: seq<Event>)
    requires Resolve(OwnedBy(bookings, userId), events) == Some(booked)
    requires Recommendable(e, bookings, events, userId, now)
    ensures Matches(e, Categories(booked), EventIds(booked), now)
  {
    var own := OwnedBy(bookings, userId);
    var b :| b in bookings && b.userId == userId
      && Populate(b.eventId, events).Some? && Populate(b.eventId, events).value.category == e.category;
    assert b in own;
    var k :| 0 <= k < |own| && own[k] == b;
    assert booked[k] in booked && booked[k].category == e.category;
    assert e.category in Categories(booked);
    NotBookedId(e, own, events, booked);
  }

  /** Every id of `bookedEventIds` is the event id of one of the user's bookings. */
  lemma NotBookedId(e: Event, own: seq<Booking>, events: seq<Event>, booked: seq<Event>)
    requires Resolve(own, events) == Some(booked)
    requires forall b :: b in own ==> b.eventId != e.id
    ensures e.id !in EventIds(booked)
  {
    var ids := EventIds(booked);
    forall j | 0 <= j < |ids| ensures ids[j] != e.id {
      assert own[j] in own;
      assert Populate(own[j].eventId, events) == Some(booked[j]);
    }
  }

  /**
   * The result is a prefix of all recommendable events sorted by date: no
   * event dated before a returned one is left out, and when fewer than five
   * are returned every recommendable event is.
   */
  lemma {:induction false} RecommendationsArePrefix(bookings: seq<Booking>, events: seq<Event>, userId: UserId, now: int)
    requires forall b :: b in bookings && b.userId == userId ==> Populate(b.eventId, events).Some?
    ensures var r := GetRecommendations(bookings, events, userId, now);
      forall e, i :: e in events && Recommendable(e, bookings, events, userId, now) && 0 <= i < |r| && e.date < r[i].date ==> e in r
    ensures var r := GetRecommendations(bookings, events, userId, now);
      |r| < MaxRecommendations ==> forall e :: e in events && Recommendable(e, bookings, events, userId, now) ==> e in r
  {
    var booked := Resolve(OwnedBy(bookings, userId), events).value;
    var sorted := SortBy(Candidates(events, Categories(booked), EventIds(booked), now), DateOf);
    var r := GetRecommendations(bookings, events, userId, now);
    assert r == Top(sorted);
    forall e | e in events && Recommendable(e, bookings, events, userId, now)
      ensures e in sorted
    {
      MatchIsRecommendable(e, bookings, events, userId, now, booked);
      SortedMember(e, Candidates(events, Categories(booked), EventIds(booked), now));
    }
    forall e, i | e in sorted && 0 <= i < |r| && e.date < r[i].date
      ensures e in r
    {
      TopKeepsEarlier(sorted, e, i);
    }
  }

  lemma SortedMember(e: Event, s: seq<Event>)
    requires e in s
    ensures e in SortBy(s, DateOf)
  {
    assert e in multiset(s);
  }

  /** An event of a date-sorted list dated before the `i`-th of its first five is among them. */
  lemma TopKeepsEarlier(sorted: seq<Event>, e: Event, i: int)
    requires SortedBy(sorted, DateOf)
    requires e in sorted
    requires 0 <= i < |Top(sorted)| && e.date < Top(sorted)[i].date
    ensures e in Top(sorted)
  {
    var r := Top(sorted);
    var j :| 0 <= j < |sorted| && sorted[j] == e;
    assert r[i] == sorted[i];
    if j >= |r| {
      assert false;
    }
    assert r[j] == e;
  }

  /** A user without bookings has no categories, hence no recommendations. */
  lemma {:induction false} NoBookingsNoRecommendations(bookings: seq<Booking>, events: seq<Event>, userId: UserId, now: int)
    requires forall b :: b in bookings ==> b.userId != userId
    ensures GetRecommendations(bookings, events, userId, now) == []
  {
    var own := OwnedBy(bookings, userId);
    HeadIsMember(own);
    assert Resolve(own, events) == Some([]);
    var cands := Candidates(events, Categories([]), EventIds([]), now);
    HeadIsMember(cands);
  }

  /**
   * When the event of one of the user's bookings has been deleted, the
   * dereference of the missing event throws and the result is empty.
   */
  lemma DanglingBookingGivesNoRecommendations(bookings: seq<Booking>, events: seq<Event>, userId: UserId, now: int, b: Booking)
    requires b in bookings && b.userId == userId
    requires forall e :: e in events ==> e.id != b.eventId
    ensures GetRecommendations(bookings, events, userId, now) == []
  {
    assert b in OwnedBy(bookings, userId);
  }

  lemma HeadIsMember<T>(s: seq<T>)
    ensures s != [] ==> s[0] in s
  {
  }
}
