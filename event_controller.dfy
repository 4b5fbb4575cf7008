/**
 * The event controller (Backend/controllers/Event.js): a second router with
 * its own creation rules and the query-filter builder of its list endpoint.
 * The server never mounts it; its delete handler is the same as the mounted
 * one, `EventRoutes.EventStore.Delete`.
 *
 * The title filter is a case-insensitive regular expression built from user
 * input; its matching is a parameter (`titleMatches(pattern, title)`).
 */
module EventController {
  import opened Wrappers
  import opened Http
  import opened EventModel
  import opened EventRoutes

  /** A JSON body value for `department` or `categories`: a list of strings or a single string. */
  datatype ListOrText = List(items: seq<string>) | Text(text: string)

  /** `Array.isArray(v) ? v : [v]`. */
  function ToList(v: ListOrText): (r: seq<string>)
    ensures v.List? ==> r == v.items
    ensures v.Text? ==> r == [v.text]
    ensures |r| >= 1 || v == List([])
  {
    match v
    case List(items) => items
    case Text(text) => [text]
  }

  /** The JSON body of the controller's POST /add; the images come as already-built records. */
  datatype ControllerRequest = ControllerRequest(
    title: Field, description: Field, date: Field, time: Field, venue: Field,
    department: ListOrText, categories: ListOrText, organizers: Field, addedBy: Field,
    mainImage: Option<Image>, images: seq<Image>,
    contactEmail: Field, contactPhone: Field, googleForm: Field, qrImage: Option<Image>,
    volunteerForm: Field, userRole: Field)

  predicate ControllerMissingRequired(req: ControllerRequest) {
    !RequiredPresent(req.title, req.description, req.date, req.time, req.venue, req.addedBy, req.userRole)
  }

  /** The controller's POST /add: the reply and the collection afterwards. */
  function ControllerCreateOutcome(events: Events, newId: EventId, req: ControllerRequest, parseDate: DateParser)
    : (r: (Result<(EventId, Event), Failure>, Events))
    requires newId !in events
    ensures ControllerMissingRequired(req) ==> r == (Err(BadRequest("Required fields are missing.")), events)
    ensures r.0.Ok? <==> !ControllerMissingRequired(req) && parseDate(req.date.value).Some?
    ensures r.0.Err? ==> r.1 == events
    ensures r.0.Err? && !ControllerMissingRequired(req) ==> r.0.error == InternalError("Internal Server Error")
    ensures r.0.Ok? ==>
              var e := r.0.value.1;
              && r.0.value.0 == newId && r.1 == events[newId := e] && WellFormed(e)
              && e.department == ToList(req.department) && e.categories == ToList(req.categories)
              && e.organizers == SplitOrganizers(req.organizers)
              && e.date == parseDate(req.date.value).value
              && e.mainImage == req.mainImage && e.images == req.images && e.qrImage == req.qrImage
              && e.updatedBy == None
    ensures r.0.Ok? ==>
              var e := r.0.value.1;
              && e.title == req.title.value && e.description == req.description.value
              && e.time == req.time.value && e.venue == req.venue.value && e.addedBy == req.addedBy.value
              && e.contactEmail == req.contactEmail && e.contactPhone == req.contactPhone
              && e.googleForm == req.googleForm && e.volunteerForm == req.volunteerForm
    ensures AllWellFormed(events) ==> AllWellFormed(r.1)
  {
    if ControllerMissingRequired(req) then (Err(BadRequest("Required fields are missing.")), events)
    else match parseDate(req.date.value)
      case None => (Err(InternalError("Internal Server Error")), events)
      case Some(when) =>
        var e := Event(req.title.value, req.description.value, req.mainImage, req.images,
                       ToList(req.department), ToList(req.categories), when,
                       req.time.value, req.venue.value,
                       req.contactEmail, req.contactPhone, req.googleForm, req.volunteerForm,
                       req.qrImage, SplitOrganizers(req.organizers), req.addedBy.value, None);
        (Ok((newId, e)), events[newId := e])
  }

  // ------------------------------------------------------------------ list query

  /** The query string of GET /: four optional parameters. */
  datatype ListQuery = ListQuery(title: Field, department: Field, category: Field, eventType: Field)

  /** A condition on the stored date, against an instant. */
  datatype DateConstraint = OnInstant(t: int) | After(t: int) | Before(t: int)

  /** The `filters` object handed to `find`: each member absent or one constraint. */
  datatype Filters = Filters(title: Option<string>, department: Option<string>,
                             category: Option<string>, date: Option<DateConstraint>)

  const MsPerDay: int := 24 * 60 * 60 * 1000

  /**
   * `new Date().toISOString().split("T")[0]`, as Mongoose casts it back to a
   * date: midnight UTC of the day holding `now`.
   */
  function StartOfUtcDay(now: int): (t: int)
    ensures t <= now < t + MsPerDay
    ensures t % MsPerDay == 0
  {
    now - now % MsPerDay
  }

  /** How many constraints a filter object holds. */
  function ConstraintCount(f: Filters): nat {
    (if f.title.Some? then 1 else 0) + (if f.department.Some? then 1 else 0)
    + (if f.category.Some? then 1 else 0) + (if f.date.Some? then 1 else 0)
  }

  /** The event types the date filter knows. */
  predicate KnownEventType(eventType: Field) {
    eventType == Some("ongoing") || eventType == Some("upcoming") || eventType == Some("past")
  }

  /** The filter builder of GET /: one constraint per truthy parameter and known event type. */
  method BuildFilters(q: ListQuery, now: int) returns (f: Filters)
    ensures f.title.Some? <==> Truthy(q.title)
    ensures f.title.Some? ==> f.title.value == q.title.value
    ensures f.department.Some? <==> Truthy(q.department)
    ensures f.department.Some? ==> f.department.value == q.department.value
    ensures f.category.Some? <==> Truthy(q.category)
    ensures f.category.Some? ==> f.category.value == q.category.value
    ensures q.eventType == Some("ongoing") ==> f.date == Some(OnInstant(StartOfUtcDay(now)))
    ensures q.eventType == Some("upcoming") ==> f.date == Some(After(StartOfUtcDay(now)))
    ensures q.eventType == Some("past") ==> f.date == Some(Before(StartOfUtcDay(now)))
    ensures !KnownEventType(q.eventType) ==> f.date == None
    ensures ConstraintCount(f) == (if Truthy(q.title) then 1 else 0) + (if Truthy(q.department) then 1 else 0)
                                  + (if Truthy(q.category) then 1 else 0) + (if KnownEventType(q.eventType) then 1 else 0)
  {
    f := Filters(None, None, None, None);
    var today := StartOfUtcDay(now);
    if Truthy(q.title) {
      f := f.(title := Some(q.title.value));
    }
    if Truthy(q.department) {
      f := f.(department := Some(q.department.value));
    }
    if Truthy(q.category) {
      f := f.(category := Some(q.category.value));
    }
    if q.eventType == Some("ongoing") {
      f := f.(date := Some(OnInstant(today)));
    } else if q.eventType == Some("upcoming") {
      f := f.(date := Some(After(today)));
    } else if q.eventType == Some("past") {
      f := f.(date := Some(Before(today)));
    }
  }

  /** The stored date satisfies a date constraint. */
  predicate DateSatisfies(c: DateConstraint, date: int) {
    match c
    case OnInstant(t) => date == t
    case After(t) => date > t
    case Before(t) => date < t
  }

  /** A regular-expression search of a title, case-insensitive. */
  type TitleMatcher = (string, string) -> bool

  /** An event satisfies every constraint of the filter object (`$in: [x]` is list membership). */
  predicate Matches(f: Filters, e: Event, titleMatches: TitleMatcher) {
    && (f.title.Some? ==> titleMatches(f.title.value, e.title))
    && (f.department.Some? ==> f.department.value in e.department)
    && (f.category.Some? ==> f.category.value in e.categories)
    && (f.date.Some? ==> DateSatisfies(f.date.value, e.date))
  }

  /**
   * The three event types split the instants around midnight UTC: every date
   * satisfies exactly one of them, and "ongoing" only the midnight instant itself.
   */
  lemma EventTypesPartition(t: int, date: int)
    ensures DateSatisfies(OnInstant(t), date) || DateSatisfies(After(t), date) || DateSatisfies(Before(t), date)
    ensures !(DateSatisfies(OnInstant(t), date) && DateSatisfies(After(t), date))
    ensures !(DateSatisfies(OnInstant(t), date) && DateSatisfies(Before(t), date))
    ensures !(DateSatisfies(After(t), date) && DateSatisfies(Before(t), date))
  {
  }

  /** `find(filters)`: every stored event that matches, each once. */
  method Find(events: Events, f: Filters, titleMatches: TitleMatcher) returns (r: seq<(EventId, Event)>)
    ensures forall i :: 0 <= i < |r| ==> r[i].0 in events && r[i].1 == events[r[i].0] && Matches(f, r[i].1, titleMatches)
    ensures forall id :: id in events && Matches(f, events[id], titleMatches) ==>
              exists i :: 0 <= i < |r| && r[i].0 == id
    ensures forall i, j :: 0 <= i < j < |r| ==> r[i].0 != r[j].0
  {
    var todo := events.Keys;
    r := [];
    while todo != {}
      invariant todo <= events.Keys
      invariant forall i :: 0 <= i < |r| ==>
                  r[i].0 in events && r[i].0 !in todo && r[i].1 == events[r[i].0] && Matches(f, r[i].1, titleMatches)
      invariant forall id :: id in events && id !in todo && Matches(f, events[id], titleMatches) ==>
                  exists i :: 0 <= i < |r| && r[i].0 == id
      invariant forall i, j :: 0 <= i < j < |r| ==> r[i].0 != r[j].0
      decreases todo
    {
      var id :| id in todo;
      ghost var before := r;
      if Matches(f, events[id], titleMatches) {
        r := r + [(id, events[id])];
        assert r[|r| - 1].0 == id;
      }
      assert forall i :: 0 <= i < |before| ==> r[i] == before[i];
      todo := todo - {id};
    }
  }
}
