/**
 * The mounted event endpoints (Backend/routes/Event.routes.js) over the
 * `events` collection, modelled as a map from `_id` to document.
 *
 * Multipart text fields arrive as optional strings; the uploaded files as the
 * per-field lists multer collects, or no file table at all when the request
 * is not multipart. `JSON.parse` and the `Date` constructor's reading of a
 * string are parameters (`parse`, `parseDate`).
 */
module EventRoutes {
  import opened Wrappers
  import opened Http
  import opened EventModel
  import JsString

  /** A text field of the request body: absent, or the string sent. */
  type Field = Option<string>

  /** JavaScript truthiness of a body field: present and not the empty string. */
  predicate Truthy(f: Field) {
    f.Some? && f.value != ""
  }

  /** `JSON.parse` on a list field: the list of strings, or None when it throws. */
  type JsonParser = string -> Option<seq<string>>

  /** The `Date` constructor on a string: the instant in milliseconds, or None for an invalid date. */
  type DateParser = string -> Option<int>

  /** safeParseJSON: the parsed list, or `[]` whenever parsing fails (an absent value included). */
  function SafeParseJSON(parse: JsonParser, value: Field): (r: seq<string>)
    ensures value.Some? && parse(value.value).Some? ==> r == parse(value.value).value
    ensures value.None? || parse(value.value).None? ==> r == []
  {
    if value.Some? then
      match parse(value.value)
      case Some(xs) => xs
      case None => []
    else []
  }

  /** Each piece of `xs` trimmed. */
  function TrimAll(xs: seq<string>): (r: seq<string>)
    ensures |r| == |xs| && forall i :: 0 <= i < |xs| ==> r[i] == JsString.Trim(xs[i])
  {
    seq(|xs|, i requires 0 <= i < |xs| => JsString.Trim(xs[i]))
  }

  /**
   * `organizers ? organizers.split(",").map(o => o.trim()) : []`: one entry per
   * comma-separated piece, each trimmed and comma-free.
   */
  function SplitOrganizers(organizers: Field): (r: seq<string>)
    ensures !Truthy(organizers) ==> r == []
    ensures Truthy(organizers) ==> r == TrimAll(JsString.Split(organizers.value, ","))
    ensures forall i :: 0 <= i < |r| ==> ',' !in r[i] && JsString.Trim(r[i]) == r[i]
  {
    if Truthy(organizers) then
      var pieces := JsString.Split(organizers.value, ",");
      JsString.SplitPiecesFree(organizers.value, ',');
      var r := TrimAll(pieces);
      forall i | 0 <= i < |r| ensures ',' !in r[i] && JsString.Trim(r[i]) == r[i] {
        assert pieces[i] in pieces;
        JsString.TrimChars(pieces[i]);
        JsString.TrimIdempotent(pieces[i]);
      }
      r
    else []
  }

  /** A comma-free organizers text yields exactly one organizer, its trim. */
  lemma SingleOrganizer(s: string)
    requires s != "" && ',' !in s
    ensures SplitOrganizers(Some(s)) == [JsString.Trim(s)]
  {
    JsString.SplitWithoutSeparator(s, ',');
  }

  /**
   * The value both creating handlers compute for `verifiedBy`: "N/A" exactly
   * for the role "faculty", "Pending" otherwise. The schema has no such field.
   */
  function VerifiedByFor(userRole: string): (r: string)
    ensures r == "N/A" <==> userRole == "faculty"
    ensures r == "N/A" || r == "Pending"
  {
    if userRole == "faculty" then "N/A" else "Pending"
  }

  // ------------------------------------------------------------------ uploads

  /** A file multer kept in memory. */
  datatype Upload = Upload(buffer: Bytes, mimetype: string)

  /** `req.files`: the files received for each of the three upload fields (an absent field is empty). */
  datatype Uploads = Uploads(mainImage: seq<Upload>, qrImage: seq<Upload>, images: seq<Upload>)

  /** The image record stored for an uploaded file. */
  function ImageOf(u: Upload): (img: Image)
    ensures img.data == Some(u.buffer) && img.contentType == Some(u.mimetype)
  {
    Image(Some(u.buffer), Some(u.mimetype))
  }

  function ImagesOf(us: seq<Upload>): (r: seq<Image>)
    ensures |r| == |us| && forall i :: 0 <= i < |us| ==> r[i] == ImageOf(us[i])
  {
    seq(|us|, i requires 0 <= i < |us| => ImageOf(us[i]))
  }

  // ------------------------------------------------------------------ create

  datatype CreateRequest = CreateRequest(
    title: Field, description: Field, date: Field, time: Field, venue: Field,
    department: Field, categories: Field, organizers: Field, addedBy: Field,
    contactEmail: Field, contactPhone: Field, googleForm: Field, volunteerForm: Field,
    userRole: Field)

  /** The fields both creating handlers refuse to go without (400): all seven are truthy. */
  predicate RequiredPresent(title: Field, description: Field, date: Field, time: Field, venue: Field,
                            addedBy: Field, userRole: Field) {
    Truthy(title) && Truthy(description) && Truthy(date) && Truthy(time)
    && Truthy(venue) && Truthy(addedBy) && Truthy(userRole)
  }

  predicate MissingRequired(req: CreateRequest) {
    !RequiredPresent(req.title, req.description, req.date, req.time, req.venue, req.addedBy, req.userRole)
  }

  /** The document POST /add saves, once the date has been read as `when`. */
  function CreatedEvent(req: CreateRequest, files: Uploads, parse: JsonParser, when: int): (e: Event)
    requires !MissingRequired(req)
    ensures WellFormed(e) && e.date == when && e.updatedBy == None
    ensures e.title == req.title.value && e.description == req.description.value
    ensures e.time == req.time.value && e.venue == req.venue.value && e.addedBy == req.addedBy.value
    ensures e.contactEmail == req.contactEmail && e.contactPhone == req.contactPhone
    ensures e.googleForm == req.googleForm && e.volunteerForm == req.volunteerForm
    ensures e.mainImage == if |files.mainImage| > 0 then Some(ImageOf(files.mainImage[0])) else None
    ensures e.qrImage == if |files.qrImage| > 0 then Some(ImageOf(files.qrImage[0])) else None
    ensures e.images == ImagesOf(files.images)
    ensures e.organizers == SplitOrganizers(req.organizers)
    ensures e.department == SafeParseJSON(parse, req.department)
    ensures e.categories == SafeParseJSON(parse, req.categories)
  {
    Event(req.title.value, req.description.value,
          if |files.mainImage| > 0 then Some(ImageOf(files.mainImage[0])) else None,
          ImagesOf(files.images),
          SafeParseJSON(parse, req.department), SafeParseJSON(parse, req.categories),
          when, req.time.value, req.venue.value,
          req.contactEmail, req.contactPhone, req.googleForm, req.volunteerForm,
          if |files.qrImage| > 0 then Some(ImageOf(files.qrImage[0])) else None,
          SplitOrganizers(req.organizers), req.addedBy.value, None)
  }

  /**
   * POST /add: the reply and the collection afterwards, the new document
   * getting id `newId`. `files` is None when the request is not multipart.
   */
  function CreateOutcome(events: Events, newId: EventId, req: CreateRequest, files: Option<Uploads>,
                         parse: JsonParser, parseDate: DateParser)
    : (r: (Result<(EventId, Event), Failure>, Events))
    requires newId !in events
    ensures MissingRequired(req) ==> r == (Err(BadRequest("Required fields are missing.")), events)
    ensures r.0.Ok? <==> !MissingRequired(req) && files.Some? && parseDate(req.date.value).Some?
    ensures r.0.Err? ==> r.1 == events
    ensures r.0.Err? && !MissingRequired(req) ==> r.0.error == InternalError("Error creating event")
    ensures r.0.Ok? ==> r.0.value.0 == newId && r.1 == events[newId := r.0.value.1]
                        && r.0.value.1 == CreatedEvent(req, files.value, parse, parseDate(req.date.value).value)
    ensures AllWellFormed(events) ==> AllWellFormed(r.1)
  {
    if MissingRequired(req) then (Err(BadRequest("Required fields are missing.")), events)
    else if files.None? then (Err(InternalError("Error creating event")), events)
    else match parseDate(req.date.value)
      case None => (Err(InternalError("Error creating event")), events)
      case Some(when) =>
        var e := CreatedEvent(req, files.value, parse, when);
        (Ok((newId, e)), events[newId := e])
  }

  /** The role sent with a creation changes nothing that is stored: `verifiedBy` is discarded. */
  lemma CreateIgnoresUserRole(events: Events, newId: EventId, req: CreateRequest, role: string,
                              files: Option<Uploads>, parse: JsonParser, parseDate: DateParser)
    requires newId !in events && role != ""
    requires Truthy(req.userRole)
    ensures CreateOutcome(events, newId, req.(userRole := Some(role)), files, parse, parseDate)
            == CreateOutcome(events, newId, req, files, parse, parseDate)
  {
    if !MissingRequired(req) && files.Some? && parseDate(req.date.value).Some? {
      var when := parseDate(req.date.value).value;
      assert CreatedEvent(req.(userRole := Some(role)), files.value, parse, when)
             == CreatedEvent(req, files.value, parse, when);
    }
  }

  // ------------------------------------------------------------------ update

  datatype UpdateRequest = UpdateRequest(
    title: Field, description: Field, date: Field, time: Field, venue: Field,
    organizers: Field, contactEmail: Field, contactPhone: Field, googleForm: Field,
    volunteerForm: Field, department: Field, categories: Field, updatedBy: Field)

  /**
   * `updatedData`: the update document. Absent body fields are left out of it
   * (None); the three lists and `updatedBy` are always set; an image slot is
   * set only when a file was uploaded for it.
   */
  datatype Patch = Patch(
    title: Option<string>, description: Option<string>, date: Option<int>,
    time: Option<string>, venue: Option<string>,
    contactEmail: Option<string>, contactPhone: Option<string>,
    googleForm: Option<string>, volunteerForm: Option<string>,
    department: seq<string>, categories: seq<string>, organizers: seq<string>,
    updatedBy: string,
    mainImage: Option<Image>, qrImage: Option<Image>, images: Option<seq<Image>>)

  /** `updatedBy || "Unknown"`. */
  function UpdatedByOrUnknown(updatedBy: Field): (r: string)
    ensures r != ""
    ensures Truthy(updatedBy) ==> r == updatedBy.value
    ensures !Truthy(updatedBy) ==> r == "Unknown"
  {
    if Truthy(updatedBy) then updatedBy.value else "Unknown"
  }

  /**
   * The update validators and casts that fail before the collection is
   * searched: an empty required string, or a date that is empty or invalid.
   */
  predicate UpdateRejected(req: UpdateRequest, parseDate: DateParser) {
    req.title == Some("") || req.description == Some("") || req.time == Some("") || req.venue == Some("")
    || (req.date.Some? && (req.date.value == "" || parseDate(req.date.value).None?))
  }

  function PatchOf(req: UpdateRequest, files: Uploads, parse: JsonParser, parseDate: DateParser): (p: Patch)
    requires !UpdateRejected(req, parseDate)
    ensures p.title == req.title && p.description == req.description
    ensures p.time == req.time && p.venue == req.venue
    ensures p.date.Some? <==> req.date.Some?
    ensures p.date.Some? ==> p.date == parseDate(req.date.value)
    ensures p.contactEmail == req.contactEmail && p.contactPhone == req.contactPhone
    ensures p.googleForm == req.googleForm && p.volunteerForm == req.volunteerForm
    ensures p.department == SafeParseJSON(parse, req.department)
    ensures p.categories == SafeParseJSON(parse, req.categories)
    ensures p.organizers == SplitOrganizers(req.organizers)
    ensures p.updatedBy == UpdatedByOrUnknown(req.updatedBy)
    ensures p.mainImage == if |files.mainImage| > 0 then Some(ImageOf(files.mainImage[0])) else None
    ensures p.qrImage == if |files.qrImage| > 0 then Some(ImageOf(files.qrImage[0])) else None
    ensures p.images == if |files.images| > 0 then Some(ImagesOf(files.images)) else None
  {
    Patch(req.title, req.description,
          if req.date.Some? then parseDate(req.date.value) else None,
          req.time, req.venue, req.contactEmail, req.contactPhone, req.googleForm, req.volunteerForm,
          SafeParseJSON(parse, req.department), SafeParseJSON(parse, req.categories),
          SplitOrganizers(req.organizers), UpdatedByOrUnknown(req.updatedBy),
          if |files.mainImage| > 0 then Some(ImageOf(files.mainImage[0])) else None,
          if |files.qrImage| > 0 then Some(ImageOf(files.qrImage[0])) else None,
          if |files.images| > 0 then Some(ImagesOf(files.images)) else None)
  }

  /** `$set` of the update document: the fields it holds replace the stored ones, the rest stay. */
  function Apply(e: Event, p: Patch): (r: Event)
    ensures r.addedBy == e.addedBy
    ensures r.updatedBy == Some(p.updatedBy)
    ensures r.title == p.title.GetOr(e.title) && r.description == p.description.GetOr(e.description)
    ensures r.time == p.time.GetOr(e.time) && r.venue == p.venue.GetOr(e.venue)
    ensures r.date == p.date.GetOr(e.date)
    ensures r.contactEmail == (if p.contactEmail.Some? then p.contactEmail else e.contactEmail)
    ensures r.contactPhone == (if p.contactPhone.Some? then p.contactPhone else e.contactPhone)
    ensures r.googleForm == (if p.googleForm.Some? then p.googleForm else e.googleForm)
    ensures r.volunteerForm == (if p.volunteerForm.Some? then p.volunteerForm else e.volunteerForm)
    ensures r.department == p.department && r.categories == p.categories && r.organizers == p.organizers
    ensures r.mainImage == (if p.mainImage.Some? then p.mainImage else e.mainImage)
    ensures r.qrImage == (if p.qrImage.Some? then p.qrImage else e.qrImage)
    ensures r.images == p.images.GetOr(e.images)
  {
    Event(p.title.GetOr(e.title), p.description.GetOr(e.description),
          if p.mainImage.Some? then p.mainImage else e.mainImage,
          p.images.GetOr(e.images), p.department, p.categories,
          p.date.GetOr(e.date), p.time.GetOr(e.time), p.venue.GetOr(e.venue),
          if p.contactEmail.Some? then p.contactEmail else e.contactEmail,
          if p.contactPhone.Some? then p.contactPhone else e.contactPhone,
          if p.googleForm.Some? then p.googleForm else e.googleForm,
          if p.volunteerForm.Some? then p.volunteerForm else e.volunteerForm,
          if p.qrImage.Some? then p.qrImage else e.qrImage,
          p.organizers, e.addedBy, Some(p.updatedBy))
  }

  /** PUT /update/:id: the reply (the updated document) and the collection afterwards. */
  function UpdateOutcome(events: Events, id: EventId, req: UpdateRequest, files: Option<Uploads>,
                         parse: JsonParser, parseDate: DateParser)
    : (r: (Result<Event, Failure>, Events))
    ensures r.0.Err? ==> r.1 == events
    ensures files.None? || UpdateRejected(req, parseDate) ==> r.0 == Err(InternalError("Internal Server Error"))
    ensures files.Some? && !UpdateRejected(req, parseDate) && id !in events ==>
              r.0 == Err(NotFound("Event not found"))
    ensures r.0.Ok? <==> files.Some? && !UpdateRejected(req, parseDate) && id in events
    ensures r.0.Ok? ==>
              var (old_, new_) := (events[id], r.0.value);
              && r.1 == events[id := new_] && r.1.Keys == events.Keys
              && new_ == Apply(old_, PatchOf(req, files.value, parse, parseDate))
              && new_.department == SafeParseJSON(parse, req.department)
              && new_.categories == SafeParseJSON(parse, req.categories)
              && new_.addedBy == old_.addedBy
              && new_.updatedBy == Some(UpdatedByOrUnknown(req.updatedBy))
              && new_.organizers == SplitOrganizers(req.organizers)
              && new_.title == req.title.GetOr(old_.title)
              && (|files.value.mainImage| == 0 ==> new_.mainImage == old_.mainImage)
              && (|files.value.mainImage| > 0 ==> new_.mainImage == Some(ImageOf(files.value.mainImage[0])))
              && (|files.value.qrImage| == 0 ==> new_.qrImage == old_.qrImage)
              && (|files.value.qrImage| > 0 ==> new_.qrImage == Some(ImageOf(files.value.qrImage[0])))
              && (|files.value.images| == 0 ==> new_.images == old_.images)
              && (|files.value.images| > 0 ==> new_.images == ImagesOf(files.value.images))
    ensures AllWellFormed(events) ==> AllWellFormed(r.1)
  {
    if files.None? || UpdateRejected(req, parseDate) then (Err(InternalError("Internal Server Error")), events)
    else if id !in events then (Err(NotFound("Event not found")), events)
    else
      var e := Apply(events[id], PatchOf(req, files.value, parse, parseDate));
      (Ok(e), events[id := e])
  }

  /** An update that uploads no file keeps all three image slots. */
  lemma UpdateWithoutFilesKeepsImages(events: Events, id: EventId, req: UpdateRequest,
                                      parse: JsonParser, parseDate: DateParser)
    requires id in events && !UpdateRejected(req, parseDate)
    ensures var r := UpdateOutcome(events, id, req, Some(Uploads([], [], [])), parse, parseDate);
            r.0.Ok? && r.0.value.mainImage == events[id].mainImage
            && r.0.value.qrImage == events[id].qrImage && r.0.value.images == events[id].images
  {
  }

  // ------------------------------------------------------------------ delete

  /** DELETE /delete/:id: 404 for an unknown id, else the document is removed. */
  function DeleteOutcome(events: Events, id: EventId): (r: (Result<(), Failure>, Events))
    ensures r.0.Ok? <==> id in events
    ensures r.0.Err? ==> r == (Err(NotFound("Event not found")), events)
    ensures r.0.Ok? ==> r.1.Keys == events.Keys - {id}
                        && forall k :: k in r.1 ==> r.1[k] == events[k]
    ensures AllWellFormed(events) ==> AllWellFormed(r.1)
  {
    if id in events then (Ok(()), events - {id}) else (Err(NotFound("Event not found")), events)
  }

  /** Deleting twice: the second attempt answers 404 and changes nothing more. */
  lemma DeleteTwice(events: Events, id: EventId)
    ensures var once := DeleteOutcome(events, id);
            DeleteOutcome(once.1, id) == (Err(NotFound("Event not found")), once.1)
  {
  }

  // ------------------------------------------------------------------ images

  /**
   * The `image` the image route picks: the main or QR slot, or the side image
   * whose position the index names (`event.images[index]`, defined only for a
   * canonical array index within the list).
   */
  function Slot(e: Event, kind: string, index: Option<string>): (r: Option<Image>)
    ensures kind == "main" ==> r == e.mainImage
    ensures kind == "qr" ==> r == e.qrImage
    ensures kind == "side" ==> (r.Some? <==> index.Some? && JsString.ParseIndex(index.value).Some?
                                             && JsString.ParseIndex(index.value).value < |e.images|)
    ensures r.Some? && kind == "side" ==> r.value == e.images[JsString.ParseIndex(index.value).value]
    ensures kind != "main" && kind != "qr" && kind != "side" ==> r == None
  {
    if kind == "main" then e.mainImage
    else if kind == "qr" then e.qrImage
    else if kind == "side" && index.Some? then
      match JsString.ParseIndex(index.value)
      case Some(n) => if n < |e.images| then Some(e.images[n]) else None
      case None => None
    else None
  }

  /**
   * GET /image/:id/:type/:index?: the content type and bytes of the picked
   * image. A missing event, slot or data gives 404; a stored image without a
   * content type makes `res.contentType` throw, which the handler answers with 500.
   */
  function ImageFor(events: Events, id: EventId, kind: string, index: Option<string>)
    : (r: Result<(string, Bytes), Failure>)
    ensures id !in events ==> r == Err(NotFound("Event not found"))
    ensures id in events && (Slot(events[id], kind, index).None? || Slot(events[id], kind, index).value.data.None?)
            ==> r == Err(NotFound("Image not found"))
    ensures r.Ok? <==> id in events && Slot(events[id], kind, index).Some?
                       && Slot(events[id], kind, index).value.data.Some?
                       && Slot(events[id], kind, index).value.contentType.Some?
    ensures r.Ok? ==> r.value == (Slot(events[id], kind, index).value.contentType.value,
                                  Slot(events[id], kind, index).value.data.value)
  {
    if id !in events then Err(NotFound("Event not found"))
    else match Slot(events[id], kind, index)
      case None => Err(NotFound("Image not found"))
      case Some(img) =>
        if img.data.None? then Err(NotFound("Image not found"))
        else if img.contentType.None? then Err(InternalError("Error fetching image"))
        else Ok((img.contentType.value, img.data.value))
  }

  /** Side image `n` is addressed by the decimal spelling of `n`, and by no other index text. */
  lemma SideImageAddress(e: Event, n: nat, index: string)
    ensures n < |e.images| ==> Slot(e, "side", Some(JsString.DecimalDigits(n))) == Some(e.images[n])
    ensures Slot(e, "side", Some(index)).Some? ==>
              index == JsString.DecimalDigits(JsString.ParseIndex(index).value)
  {
    JsString.IndexRoundTrip(n);
    if Slot(e, "side", Some(index)).Some? {
      JsString.ParseIndexCanonical(index, JsString.ParseIndex(index).value);
    }
  }

  // ------------------------------------------------------------------ the store

  /** The `events` collection and the mounted handlers acting on it. */
  class EventStore {
    var events: Events
    /** The id the next saved document receives. */
    var nextId: EventId

    ghost predicate Valid()
      reads this
    {
      AllWellFormed(events) && forall id :: id in events ==> id < nextId
    }

    constructor ()
      ensures Valid() && events == map[]
    {
      events := map[];
      nextId := 0;
    }

    /** POST /add: check the fields, build the document, attach the uploaded images, save. */
    method Create(req: CreateRequest, files: Option<Uploads>, parse: JsonParser, parseDate: DateParser)
      returns (r: Result<(EventId, Event), Failure>)
      requires Valid()
      modifies this
      ensures Valid()
      ensures (r, events) == CreateOutcome(old(events), old(nextId), req, files, parse, parseDate)
    {
      if !Truthy(req.title) || !Truthy(req.description) || !Truthy(req.date) || !Truthy(req.time)
         || !Truthy(req.venue) || !Truthy(req.addedBy) || !Truthy(req.userRole) {
        return Err(BadRequest("Required fields are missing."));
      }
      var when := parseDate(req.date.value);
      // computed for a field the schema does not declare, so never stored
      var verifiedBy := VerifiedByFor(req.userRole.value);
      var e := Event(req.title.value, req.description.value, None, [],
                     SafeParseJSON(parse, req.department), SafeParseJSON(parse, req.categories),
                     when.GetOr(0), req.time.value, req.venue.value,
                     req.contactEmail, req.contactPhone, req.googleForm, req.volunteerForm,
                     None, SplitOrganizers(req.organizers), req.addedBy.value, None);
      if files.None? {
        return Err(InternalError("Error creating event"));
      }
      var uploads := files.value;
      if |uploads.mainImage| > 0 {
        e := e.(mainImage := Some(ImageOf(uploads.mainImage[0])));
      }
      if |uploads.qrImage| > 0 {
        e := e.(qrImage := Some(ImageOf(uploads.qrImage[0])));
      }
      if |uploads.images| > 0 {
        e := e.(images := ImagesOf(uploads.images));
      }
      if when.None? {
        return Err(InternalError("Error creating event"));
      }
      var id := nextId;
      events := events[id := e];
      nextId := nextId + 1;
      r := Ok((id, e));
    }

    /** The image fields the update document gains, one per non-empty upload group. */
    static method AttachUploads(patch: Patch, uploads: Uploads) returns (p: Patch)
      ensures p == patch.(mainImage := if |uploads.mainImage| > 0 then Some(ImageOf(uploads.mainImage[0])) else patch.mainImage,
                          qrImage := if |uploads.qrImage| > 0 then Some(ImageOf(uploads.qrImage[0])) else patch.qrImage,
                          images := if |uploads.images| > 0 then Some(ImagesOf(uploads.images)) else patch.images)
    {
      p := patch;
      if |uploads.mainImage| > 0 {
        p := p.(mainImage := Some(ImageOf(uploads.mainImage[0])));
      }
      if |uploads.qrImage| > 0 {
        p := p.(qrImage := Some(ImageOf(uploads.qrImage[0])));
      }
      if |uploads.images| > 0 {
        p := p.(images := Some(ImagesOf(uploads.images)));
      }
    }

    /** PUT /update/:id: build the update document, then find, validate and update in one step. */
    method Update(id: EventId, req: UpdateRequest, files: Option<Uploads>, parse: JsonParser, parseDate: DateParser)
      returns (r: Result<Event, Failure>)
      requires Valid()
      modifies this
      ensures Valid() && nextId == old(nextId)
      ensures (r, events) == UpdateOutcome(old(events), id, req, files, parse, parseDate)
    {
      var patch := Patch(req.title, req.description, None, req.time, req.venue,
                         req.contactEmail, req.contactPhone, req.googleForm, req.volunteerForm,
                         SafeParseJSON(parse, req.department), SafeParseJSON(parse, req.categories),
                         SplitOrganizers(req.organizers), UpdatedByOrUnknown(req.updatedBy),
                         None, None, None);
      if files.None? {
        return Err(InternalError("Internal Server Error"));
      }
      var uploads := files.value;
      patch := AttachUploads(patch, uploads);
      var images := patch;
      if UpdateRejected(req, parseDate) {
        return Err(InternalError("Internal Server Error"));
      }
      if req.date.Some? {
        patch := patch.(date := parseDate(req.date.value));
      }
      assert patch == images.(date := if req.date.Some? then parseDate(req.date.value) else None);
      if id !in events {
        return Err(NotFound("Event not found"));
      }
      assert patch == PatchOf(req, uploads, parse, parseDate);
      var updated := Apply(events[id], patch);
      assert UpdateOutcome(events, id, req, files, parse, parseDate) == (Ok(updated), events[id := updated]);
      events := events[id := updated];
      r := Ok(updated);
    }

    /** DELETE /delete/:id (both routers). */
    method Delete(id: EventId) returns (r: Result<(), Failure>)
      requires Valid()
      modifies this
      ensures Valid() && nextId == old(nextId)
      ensures (r, events) == DeleteOutcome(old(events), id)
    {
      if id !in events {
        return Err(NotFound("Event not found"));
      }
      events := events - {id};
      r := Ok(());
    }

    /** GET /:id. */
    method GetById(id: EventId) returns (r: Result<Event, Failure>)
      ensures r.Ok? <==> id in events
      ensures r.Ok? ==> r.value == events[id]
      ensures r.Err? ==> r.error == NotFound("Event not found")
    {
      if id !in events {
        return Err(NotFound("Event not found"));
      }
      r := Ok(events[id]);
    }

    /**
     * GET / and GET /faculty: every stored event exactly once, in the order the
     * collection yields them. The mounted GET / reads no query parameter, and
     * its `-verifiedBy` projection removes nothing, since no document has that field.
     */
    method ListAll() returns (r: seq<(EventId, Event)>)
      ensures forall i :: 0 <= i < |r| ==> r[i].0 in events && r[i].1 == events[r[i].0]
      ensures forall id :: id in events ==> exists i :: 0 <= i < |r| && r[i].0 == id
      ensures forall i, j :: 0 <= i < j < |r| ==> r[i].0 != r[j].0
      ensures |r| == |events|
    {
      var todo := events.Keys;
      r := [];
      while todo != {}
        invariant todo <= events.Keys
        invariant forall i :: 0 <= i < |r| ==> r[i].0 in events && r[i].0 !in todo && r[i].1 == events[r[i].0]
        invariant forall id :: id in events && id !in todo ==> exists i :: 0 <= i < |r| && r[i].0 == id
        invariant forall i, j :: 0 <= i < j < |r| ==> r[i].0 != r[j].0
        invariant |r| + |todo| == |events|
        decreases todo
      {
        var id :| id in todo;
        ghost var before := r;
        r := r + [(id, events[id])];
        assert r[|r| - 1].0 == id;
        assert forall i :: 0 <= i < |before| ==> r[i] == before[i];
        todo := todo - {id};
      }
    }
  }
}
