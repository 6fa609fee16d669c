/** The incident-event table and its route handlers: the public read and
    create of `app/api/events/route.ts` and the moderation handlers of
    `app/api/admin/events/route.ts` (list for review, approve or reject,
    delete). The table is a map from event id to the stored row; each row
    owns its attachments, so removing a row removes its attachments with it. */
module Events {
  import opened Common

  /** A stored attachment row. */
  datatype Attachment = Attachment(
    fileName: string,
    fileUrl: string,
    fileType: string,
    isPiiRedacted: bool,
    redactionAreas: Option<string>)

  /** A stored event row together with the attachments it owns.
      Timestamps are milliseconds since the epoch. */
  datatype Event = Event(
    id: string,
    title: string,
    description: string,
    eventDate: int,
    category: string,
    submitterEmail: Option<string>,
    createdAt: int,
    isApproved: bool,
    approvedAt: Option<int>,
    approvedBy: Option<string>,
    attachments: seq<Attachment>)

  /** One entry of the `attachments` array of a POST body. */
  datatype AttachmentInput = AttachmentInput(
    fileName: string,
    fileUrl: string,
    fileType: string,
    isPiiRedacted: Option<bool>,
    redactionAreas: Option<string>)

  /** The JSON body of the public POST, including the fields the handler
      never reads. `eventDate` is the text handed to `new Date(...)`. */
  datatype EventBody = EventBody(
    title: string,
    description: string,
    eventDate: string,
    category: string,
    submitterEmail: Option<string>,
    captchaToken: Option<string>,
    attachments: Option<seq<AttachmentInput>>)

  /** The JSON body of the moderation PATCH. */
  datatype ModerationBody = ModerationBody(eventId: Option<string>, action: Option<string>)

  /** The admin listing `{ pending, approved, all }`. */
  datatype Listing = Listing(pending: seq<Event>, approved: seq<Event>, all: seq<Event>)

  /** The success payloads of the moderation PATCH. */
  datatype Moderated = ApprovedEvent(event: Event) | RejectedAndDeleted

  function CreatedAt(e: Event): int { e.createdAt }
  function EventDate(e: Event): int { e.eventDate }
  predicate IsPending(e: Event) { !e.isApproved }
  predicate IsApproved(e: Event) { e.isApproved }

  /** The attachment row stored for one entry of the POST body. */
  function StoredAttachment(a: AttachmentInput): (r: Attachment)
    ensures r.fileName == a.fileName && r.fileUrl == a.fileUrl && r.fileType == a.fileType
    ensures r.redactionAreas == a.redactionAreas
    ensures r.isPiiRedacted <==> a.isPiiRedacted == Some(true)
  {
    Attachment(a.fileName, a.fileUrl, a.fileType,
               if a.isPiiRedacted.Some? then a.isPiiRedacted.value else false,
               a.redactionAreas)
  }

  /** The attachment rows created for the body's `attachments`, one per
      entry and in the same order; none when the field is absent. */
  function StoredAttachments(atts: Option<seq<AttachmentInput>>): (r: seq<Attachment>)
    ensures atts.None? ==> r == []
    ensures atts.Some? ==> |r| == |atts.value|
    ensures atts.Some? ==> forall i :: 0 <= i < |r| ==> r[i] == StoredAttachment(atts.value[i])
  {
    match atts
    case None => []
    case Some(s) => seq(|s|, i requires 0 <= i < |s| => StoredAttachment(s[i]))
  }

  /** The row the public POST creates: it reads title, description,
      eventDate, category and attachments and nothing else; the approval
      fields take their defaults and createdAt is the time of the call. */
  function NewEvent(id: string, body: EventBody, eventDate: int, now: int): (e: Event)
    ensures e.id == id && e.createdAt == now && e.eventDate == eventDate
    ensures e.title == body.title && e.description == body.description && e.category == body.category
    ensures !e.isApproved && e.approvedAt.None? && e.approvedBy.None? && e.submitterEmail.None?
    ensures e.attachments == StoredAttachments(body.attachments)
  {
    Event(id, body.title, body.description, eventDate, body.category, None, now,
          false, None, None, StoredAttachments(body.attachments))
  }

  /** The approval stamp of the PATCH handler: approved by `admin` at `now`,
      whatever the event's prior state, every other field untouched. A
      session without a username sends `approvedBy: undefined`, which the
      store reads as "leave the column as it is". */
  function Approve(e: Event, now: int, admin: Option<string>): (r: Event)
    ensures r.isApproved && r.approvedAt == Some(now)
    ensures r.approvedBy == (if admin.Some? then admin else e.approvedBy)
    ensures r.(isApproved := e.isApproved, approvedAt := e.approvedAt, approvedBy := e.approvedBy) == e
  {
    e.(isApproved := true, approvedAt := Some(now), approvedBy := if admin.Some? then admin else e.approvedBy)
  }

  /** Approving twice is approving once with the later stamp: the last
      writer wins on approvedAt, and on approvedBy whenever it names one. */
  lemma ApproveTwice(e: Event, t1: int, a1: Option<string>, t2: int, a2: Option<string>)
    ensures Approve(Approve(e, t1, a1), t2, a2) == Approve(e, t2, if a2.Some? then a2 else a1)
  {
  }

  /** The POST body ignores the submitter's e-mail and the captcha token. */
  lemma NewEventIgnoresExtraFields(id: string, body: EventBody, eventDate: int, now: int,
                                   email: Option<string>, token: Option<string>)
    ensures NewEvent(id, body.(submitterEmail := email, captchaToken := token), eventDate, now)
         == NewEvent(id, body, eventDate, now)
  {
  }

  class EventStore {
    var events: map<string, Event>

    /** Every row is stored under its own id. */
    ghost predicate Valid()
      reads this
    {
      forall id :: id in events ==> events[id].id == id
    }

    constructor ()
      ensures Valid() && events == map[]
    {
      events := map[];
    }

    /** Public GET: every stored event with its attachments, whether approved
        or not, newest eventDate first; a store failure gives 500. */
    method ListPublic(fault: bool) returns (reply: Reply<seq<Event>>)
      requires Valid()
      ensures fault ==> reply == Fail(500, "Failed to fetch events")
      ensures !fault ==> reply.Ok?
      ensures reply.Ok? ==> |reply.payload| == |events|
      ensures reply.Ok? ==> forall e :: e in reply.payload <==> e in events.Values
      ensures reply.Ok? ==> SortedBy(reply.payload, EventDate, Desc)
    {
      if fault {
        return Fail(500, "Failed to fetch events");
      }
      var all := Query(events, EventDate, Desc);
      reply := Ok(all);
    }

    /** Public POST: inserts one event with one attachment row per supplied
        entry. A body that is not JSON (`json` is `None`), a date `new Date`
        cannot read, an id already in use or any other store failure gives
        500 and creates nothing. */
    method Create(json: Option<EventBody>, newId: string, now: int,
                  parseDate: string -> Option<int>, fault: bool)
      returns (reply: Reply<Event>)
      requires Valid()
      modifies this
      ensures Valid()
      ensures reply.Fail? ==> reply == Fail(500, "Failed to create event") && events == old(events)
      ensures reply.Fail? <==> json.None? || fault || newId in old(events) || parseDate(json.value.eventDate).None?
      ensures reply.Ok? ==> reply.payload == NewEvent(newId, json.value, parseDate(json.value.eventDate).value, now)
      ensures reply.Ok? ==> events == old(events)[newId := reply.payload]
    {
      if json.None? {
        return Fail(500, "Failed to create event");
      }
      var body := json.value;
      var date := parseDate(body.eventDate);
      if fault || newId in events || date.None? {
        return Fail(500, "Failed to create event");
      }
      var e := NewEvent(newId, body, date.value, now);
      events := events[newId := e];
      reply := Ok(e);
    }

    /** Admin GET: behind the admin gate, all events newest createdAt first,
        split into pending and approved by filtering the whole, so each part
        keeps the order of the whole and together they hold exactly the whole. */
    method ListForReview(isAdmin: bool, fault: bool) returns (reply: Reply<Listing>)
      requires Valid()
      ensures !isAdmin ==> reply == Fail(401, Unauthorized)
      ensures isAdmin && fault ==> reply == Fail(500, "Failed to fetch events")
      ensures isAdmin && !fault ==> reply.Ok?
      ensures reply.Ok? ==> |reply.payload.all| == |events|
      ensures reply.Ok? ==> forall e :: e in reply.payload.all <==> e in events.Values
      ensures reply.Ok? ==> SortedBy(reply.payload.all, CreatedAt, Desc)
      ensures reply.Ok? ==> reply.payload.pending == Filter(reply.payload.all, IsPending)
      ensures reply.Ok? ==> reply.payload.approved == Filter(reply.payload.all, IsApproved)
      ensures reply.Ok? ==> SortedBy(reply.payload.pending, CreatedAt, Desc)
      ensures reply.Ok? ==> SortedBy(reply.payload.approved, CreatedAt, Desc)
      ensures reply.Ok? ==> forall e :: e in reply.payload.pending <==> e in reply.payload.all && !e.isApproved
      ensures reply.Ok? ==> forall e :: e in reply.payload.approved <==> e in reply.payload.all && e.isApproved
      ensures reply.Ok? ==>
        multiset(reply.payload.pending) + multiset(reply.payload.approved) == multiset(reply.payload.all)
    {
      if !isAdmin {
        return Fail(401, Unauthorized);
      }
      if fault {
        return Fail(500, "Failed to fetch events");
      }
      var all := Query(events, CreatedAt, Desc);
      var pending := Filter(all, IsPending);
      var approved := Filter(all, IsApproved);
      FilterKeepsOrder(all, IsPending, CreatedAt, Desc);
      FilterKeepsOrder(all, IsApproved, CreatedAt, Desc);
      FilterMembers(all, IsPending);
      FilterMembers(all, IsApproved);
      FilterSplits(all, IsPending, IsApproved);
      reply := Ok(Listing(pending, approved, all));
    }

    /** Admin PATCH: `approve` stamps the named event, `reject` deletes it
        with its attachments. The gate comes first; a body that is not JSON
        (`json` is `None`) gives 500; a missing eventId or action and an
        unknown action give 400; an unknown id or a store failure gives 500.
        Nothing else in the table changes, and an approved event never
        becomes pending again. */
    method Moderate(isAdmin: bool, admin: Option<string>, json: Option<ModerationBody>,
                    now: int, fault: bool)
      returns (reply: Reply<Moderated>)
      requires Valid()
      modifies this
      ensures Valid()
      ensures !isAdmin ==> reply == Fail(401, Unauthorized)
      ensures isAdmin && json.None? ==> reply == Fail(500, "Failed to update event")
      ensures isAdmin && json.Some? && !(Truthy(json.value.eventId) && Truthy(json.value.action)) ==>
        reply == Fail(400, "Missing eventId or action")
      ensures isAdmin && json.Some? && Truthy(json.value.eventId) && Truthy(json.value.action)
              && json.value.action.value != "approve" && json.value.action.value != "reject" ==>
        reply == Fail(400, "Invalid action")
      ensures reply.Fail? ==> events == old(events)
      ensures reply.Ok? <==> isAdmin && json.Some? && Truthy(json.value.eventId) && !fault
                             && json.value.eventId.value in old(events)
                             && json.value.action in {Some("approve"), Some("reject")}
      ensures isAdmin && json.Some? && Truthy(json.value.eventId)
              && json.value.action in {Some("approve"), Some("reject")}
              && (fault || json.value.eventId.value !in old(events)) ==>
        reply == Fail(500, "Failed to update event")
      ensures reply.Ok? && json.value.action == Some("approve") ==>
        var id := json.value.eventId.value;
        reply == Ok(ApprovedEvent(Approve(old(events)[id], now, admin)))
        && events == old(events)[id := Approve(old(events)[id], now, admin)]
      ensures reply.Ok? && json.value.action == Some("reject") ==>
        reply == Ok(RejectedAndDeleted) && events == old(events) - {json.value.eventId.value}
      ensures events.Keys <= old(events).Keys
      ensures forall id :: id in events && old(events)[id].isApproved ==> events[id].isApproved
    {
      if !isAdmin {
        return Fail(401, Unauthorized);
      }
      if json.None? {
        return Fail(500, "Failed to update event");
      }
      var body := json.value;
      if !(Truthy(body.eventId) && Truthy(body.action)) {
        return Fail(400, "Missing eventId or action");
      }
      var id, action := body.eventId.value, body.action.value;
      if action == "approve" {
        if fault || id !in events {
          return Fail(500, "Failed to update event");
        }
        var e := Approve(events[id], now, admin);
        events := events[id := e];
        reply := Ok(ApprovedEvent(e));
      } else if action == "reject" {
        if fault || id !in events {
          return Fail(500, "Failed to update event");
        }
        events := events - {id};
        reply := Ok(RejectedAndDeleted);
      } else {
        reply := Fail(400, "Invalid action");
      }
    }

    /** Admin DELETE: removes the event named by the `id` query parameter,
        approved or pending. The gate comes first; a missing id gives 400;
        an unknown id or a store failure gives 500. */
    method Delete(isAdmin: bool, id: Option<string>, fault: bool) returns (reply: Reply<()>)
      requires Valid()
      modifies this
      ensures Valid()
      ensures !isAdmin ==> reply == Fail(401, Unauthorized)
      ensures isAdmin && !Truthy(id) ==> reply == Fail(400, "Missing event ID")
      ensures isAdmin && Truthy(id) && (fault || id.value !in old(events)) ==>
        reply == Fail(500, "Failed to delete event")
      ensures reply.Fail? ==> events == old(events)
      ensures reply.Ok? <==> isAdmin && Truthy(id) && !fault && id.value in old(events)
      ensures reply.Ok? ==> events == old(events) - {id.value}
    {
      if !isAdmin {
        return Fail(401, Unauthorized);
      }
      if !Truthy(id) {
        return Fail(400, "Missing event ID");
      }
      if fault || id.value !in events {
        return Fail(500, "Failed to delete event");
      }
      events := events - {id.value};
      reply := Ok(());
    }
  }

  /** Rejecting an event and then moderating it again, by either action,
      ends in the generic 500: the row is gone and there is no 404. */
  method RejectIsFinal(store: EventStore, id: string, admin: Option<string>, now: int, action: string)
    returns (first: Reply<Moderated>, second: Reply<Moderated>)
    requires store.Valid() && id != "" && id in store.events
    requires action == "approve" || action == "reject"
    modifies store
    ensures first == Ok(RejectedAndDeleted)
    ensures second == Fail(500, "Failed to update event")
    ensures store.events == old(store.events) - {id}
  {
    first := store.Moderate(true, admin, Some(ModerationBody(Some(id), Some("reject"))), now, false);
    second := store.Moderate(true, admin, Some(ModerationBody(Some(id), Some(action))), now, false);
  }
}
