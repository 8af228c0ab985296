/**
 * The event routes: the public and the admin listing, lookup by id, and the
 * admin operations create, update, delete and toggle-active over the event
 * collection, kept as a map from id to event.
 *
 * An uploaded image is represented by the file name the upload storage chose;
 * how that name is made (clock and random suffix) is not modelled.  Listings
 * are maps: the order in which the store returns documents is not modelled.
 */
module Events {
  import opened Wrappers
  import opened Models
  import opened Http

  /** The form fields of POST /. */
  datatype EventForm = EventForm(
    title: string, description: string, category: string, venue: string, date: int, ticketPrice: int)

  /** `{ ...req.body }` of PUT /:id: the fields the request supplies, each one optional. */
  datatype EventPatch = EventPatch(
    title: Option<string>,
    description: Option<string>,
    category: Option<string>,
    venue: Option<string>,
    date: Option<int>,
    ticketPrice: Option<int>,
    imageUrl: Option<Option<string>>,
    isActive: Option<bool>,
    createdBy: Option<UserId>)

  const EmptyPatch := EventPatch(None, None, None, None, None, None, None, None, None)

  const UploadsPrefix := "/api/uploads/"

  /** Where the stored upload is served: under /api/uploads/, by its stored name. */
  function UploadUrl(filename: string): (url: string)
    ensures |url| == |UploadsPrefix| + |filename|
    ensures url[..|UploadsPrefix|] == UploadsPrefix && url[|UploadsPrefix|..] == filename
  {
    UploadsPrefix + filename
  }

  /** Overwrites the supplied fields, as `findByIdAndUpdate` does with a plain update document. */
  function ApplyPatch(e: Event, p: EventPatch): (r: Event)
    ensures r.id == e.id
    ensures p == EmptyPatch ==> r == e
  {
    e.(title := p.title.GetOr(e.title),
       description := p.description.GetOr(e.description),
       category := p.category.GetOr(e.category),
       venue := p.venue.GetOr(e.venue),
       date := p.date.GetOr(e.date),
       ticketPrice := p.ticketPrice.GetOr(e.ticketPrice),
       imageUrl := p.imageUrl.GetOr(e.imageUrl),
       isActive := p.isActive.GetOr(e.isActive),
       createdBy := p.createdBy.GetOr(e.createdBy))
  }

  /** An uploaded file replaces whatever `imageUrl` the body carried. */
  function WithUpload(p: EventPatch, file: Option<string>): (q: EventPatch)
    ensures file.Some? ==> q.imageUrl == Some(Some(UploadUrl(file.value)))
    ensures file.None? ==> q == p
    ensures q.(imageUrl := p.imageUrl) == p
  {
    if file.Some? then p.(imageUrl := Some(Some(UploadUrl(file.value)))) else p
  }

  /** `category && category !== 'All'`: the category to filter on, if any. */
  function CategoryFilter(category: Option<string>): (f: Option<string>)
    ensures f.Some? <==> category.Some? && category.value != "" && category.value != "All"
    ensures f.Some? ==> f == category
  {
    if category.Some? && category.value != "" && category.value != "All" then category else None
  }

  predicate Listed(e: Event, category: Option<string>) {
    e.isActive && (CategoryFilter(category).Some? ==> e.category == CategoryFilter(category).value)
  }

  /** GET /: the active events, of the requested category unless it is absent or 'All'. */
  function PublicList(events: map<EventId, Event>, category: Option<string>): (r: map<EventId, Event>)
    ensures forall id :: id in r <==>
      && id in events
      && events[id].isActive
      && (category.Some? && category.value != "" && category.value != "All" ==> events[id].category == category.value)
    ensures forall id :: id in r ==> r[id] == events[id]
  {
    map id | id in events && Listed(events[id], category) :: events[id]
  }

  /** GET /admin/all: every event, active or not. */
  function AdminList(events: map<EventId, Event>): (r: map<EventId, Event>)
    ensures forall id :: id in r <==> id in events
    ensures forall id :: id in r ==> r[id] == events[id]
  {
    events
  }

  /** 'All', an empty category and no category all list the same events. */
  lemma AllMeansNoFilter(events: map<EventId, Event>)
    ensures PublicList(events, Some("All")) == PublicList(events, Some("")) == PublicList(events, None)
  {
  }

  /** The public list is part of the admin list, which alone shows the inactive events. */
  lemma PublicListWithinAdminList(events: map<EventId, Event>, category: Option<string>)
    ensures forall id :: id in PublicList(events, category) ==>
      id in AdminList(events) && PublicList(events, category)[id] == AdminList(events)[id]
    ensures forall id :: id in AdminList(events) && !AdminList(events)[id].isActive ==> id !in PublicList(events, category)
  {
  }

  /** GET /:id. */
  function GetEvent(events: map<EventId, Event>, id: EventId): (r: Response<Event>)
    ensures r.Success? <==> id in events
    ensures r.Success? ==> r == Success(200, events[id])
    ensures r.Failure? ==> r == Failure(404, "Event not found")
  {
    if id in events then Success(200, events[id]) else Failure(404, "Event not found")
  }

  /** A field the update does not supply keeps its value, and a supplied one takes it. */
  lemma PatchOverwritesExactlySupplied(e: Event, p: EventPatch)
    ensures ApplyPatch(e, EmptyPatch) == e
    ensures ApplyPatch(e, p).id == e.id
    ensures p.title.None? ==> ApplyPatch(e, p).title == e.title
    ensures p.title.Some? ==> ApplyPatch(e, p).title == p.title.value
    ensures p.description.None? ==> ApplyPatch(e, p).description == e.description
    ensures p.description.Some? ==> ApplyPatch(e, p).description == p.description.value
    ensures p.category.None? ==> ApplyPatch(e, p).category == e.category
    ensures p.category.Some? ==> ApplyPatch(e, p).category == p.category.value
    ensures p.venue.None? ==> ApplyPatch(e, p).venue == e.venue
    ensures p.venue.Some? ==> ApplyPatch(e, p).venue == p.venue.value
    ensures p.date.None? ==> ApplyPatch(e, p).date == e.date
    ensures p.date.Some? ==> ApplyPatch(e, p).date == p.date.value
    ensures p.ticketPrice.None? ==> ApplyPatch(e, p).ticketPrice == e.ticketPrice
    ensures p.ticketPrice.Some? ==> ApplyPatch(e, p).ticketPrice == p.ticketPrice.value
    ensures p.imageUrl.None? ==> ApplyPatch(e, p).imageUrl == e.imageUrl
    ensures p.imageUrl.Some? ==> ApplyPatch(e, p).imageUrl == p.imageUrl.value
    ensures p.isActive.None? ==> ApplyPatch(e, p).isActive == e.isActive
    ensures p.isActive.Some? ==> ApplyPatch(e, p).isActive == p.isActive.value
    ensures p.createdBy.None? ==> ApplyPatch(e, p).createdBy == e.createdBy
    ensures p.createdBy.Some? ==> ApplyPatch(e, p).createdBy == p.createdBy.value
  {
  }

  /**
   * An upload decides `imageUrl`; without one the body's `imageUrl` does, and
   * with neither the stored value stays.
   */
  lemma UploadDecidesImage(e: Event, p: EventPatch, file: Option<string>)
    ensures file.Some? ==> ApplyPatch(e, WithUpload(p, file)).imageUrl == Some(UploadUrl(file.value))
    ensures file.None? && p.imageUrl.Some? ==> ApplyPatch(e, WithUpload(p, file)).imageUrl == p.imageUrl.value
    ensures file.None? && p.imageUrl.None? ==> ApplyPatch(e, WithUpload(p, file)).imageUrl == e.imageUrl
  {
  }

  /** The event collection. */
  class EventStore {
    var events: map<EventId, Event>

    /** Every event is stored under its own id. */
    ghost predicate Valid()
      reads this
    {
      forall id :: id in events ==> events[id].id == id
    }

    constructor ()
      ensures Valid() && events == map[]
    {
      events := map[];
    }

    /**
     * POST /: `newId` is the id the store assigns, `file` the stored upload if
     * one came with the request.  A new event is active (the schema default).
     */
    method Create(newId: EventId, form: EventForm, caller: UserId, file: Option<string>) returns (resp: Response<Event>)
      requires Valid()
      requires newId !in events
      modifies this
      ensures Valid()
      ensures resp.Success? && resp.status == 201
      ensures resp.value == Event(newId, form.title, form.description, form.category, form.venue, form.date,
                                  form.ticketPrice, if file.Some? then Some(UploadUrl(file.value)) else None, true, caller)
      ensures events == old(events)[newId := resp.value]
    {
      var imageUrl := if file.Some? then Some(UploadUrl(file.value)) else None;
      var event := Event(newId, form.title, form.description, form.category, form.venue, form.date,
                         form.ticketPrice, imageUrl, true, caller);
      events := events[newId := event];
      resp := Success(201, event);
    }

    /** PUT /:id. */
    method Update(id: EventId, patch: EventPatch, file: Option<string>) returns (resp: Response<Event>)
      requires Valid()
      modifies this
      ensures Valid()
      ensures id !in old(events) ==> resp == Failure(404, "Event not found") && events == old(events)
      ensures id in old(events) ==>
        events == old(events)[id := ApplyPatch(old(events)[id], WithUpload(patch, file))]
        && resp == Success(200, events[id])
    {
      if id !in events {
        return Failure(404, "Event not found");
      }
      var event := ApplyPatch(events[id], WithUpload(patch, file));
      events := events[id := event];
      resp := Success(200, event);
    }

    /** DELETE /:id: a hard delete; bookings of the event stay where they are. */
    method Delete(id: EventId) returns (resp: Response<string>)
      requires Valid()
      modifies this
      ensures Valid()
      ensures id !in old(events) ==> resp == Failure(404, "Event not found") && events == old(events)
      ensures id in old(events) ==> resp == Success(200, "Event deleted successfully") && events == old(events) - {id}
    {
      if id !in events {
        return Failure(404, "Event not found");
      }
      events := events - {id};
      resp := Success(200, "Event deleted successfully");
    }

    /**
     * PUT /:id/toggle-active: sets `isActive` to the value in the body (it does
     * not negate it); a body without the field leaves the event as it is.
     */
    method ToggleActive(id: EventId, isActive: Option<bool>) returns (resp: Response<Event>)
      requires Valid()
      modifies this
      ensures Valid()
      ensures id !in old(events) ==> resp == Failure(404, "Event not found") && events == old(events)
      ensures id in old(events) ==>
        events == old(events)[id := old(events)[id].(isActive := isActive.GetOr(old(events)[id].isActive))]
        && resp == Success(200, events[id])
    {
      resp := Update(id, EmptyPatch.(isActive := isActive), None);
    }
  }
}
