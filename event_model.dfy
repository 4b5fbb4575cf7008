/**
 * The `events` collection's document shape (Backend/models/Event.js): the
 * event record and its embedded image records.
 */
module EventModel {
  import opened Wrappers

  /** A document's `_id`. */
  type EventId = nat

  /** An image's bytes; their content is opaque to every handler. */
  type Bytes = seq<bv8>

  /** The image sub-document: both fields are optional in the schema. */
  datatype Image = Image(data: Option<Bytes>, contentType: Option<string>)

  /**
   * An event document. The schema declares no `verifiedBy` field, so the value
   * the creating handlers compute for it is not stored.
   */
  datatype Event = Event(
    title: string,
    description: string,
    mainImage: Option<Image>,
    images: seq<Image>,
    department: seq<string>,
    categories: seq<string>,
    date: int,
    time: string,
    venue: string,
    contactEmail: Option<string>,
    contactPhone: Option<string>,
    googleForm: Option<string>,
    volunteerForm: Option<string>,
    qrImage: Option<Image>,
    organizers: seq<string>,
    addedBy: string,
    updatedBy: Option<string>)

  /**
   * The schema's required string fields are non-empty (Mongoose's `required`
   * rejects the empty string); `date` is a number of milliseconds, present by
   * construction.
   */
  predicate WellFormed(e: Event) {
    e.title != "" && e.description != "" && e.time != "" && e.venue != "" && e.addedBy != ""
  }

  type Events = map<EventId, Event>

  predicate AllWellFormed(events: Events) {
    forall id :: id in events ==> WellFormed(events[id])
  }
}
