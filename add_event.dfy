/**
 * The event management page (Frontend/src/components/AddEvent/AddEvent.jsx):
 * the select options, the submit validation chain, the multipart body sent
 * to POST /events/add, the form reset after a successful add, and the list
 * tab's search filter and columns. The server's answer is a parameter.
 */
module AddEvent {
  import opened Wrappers
  import opened EventModel
  import JsString
  import EventRoutes
  import EventCard

  // ------------------------------------------------------------------ options and files

  /** An entry of a react-select list. */
  datatype SelectOption = SelectOption(value: string, caption: string)

  const DepartmentOptions: seq<SelectOption> := [
    SelectOption("CSE", "Computer Science and Engineering (CSE)"),
    SelectOption("CSM", "Computer Science (AI & ML) (CSM)"),
    SelectOption("CSD", "Computer Science (Data Science) (CSD)"),
    SelectOption("INF", "Information Technology (INF)"),
    SelectOption("ECE", "Electronics and Communication Engineering (ECE)"),
    SelectOption("MEC", "Mechanical Engineering (MEC)"),
    SelectOption("EEE", "Electrical & Electronics Engineering (EEE)"),
    SelectOption("CIV", "Civil Engineering (CIV)"),
    SelectOption("MBA", "Business Administration (MBA)"),
    SelectOption("FED", "Freshman Engineering (FED)")
  ]

  const CategoryOptions: seq<SelectOption> := [
    SelectOption("Cultural", "Cultural Events"),
    SelectOption("Technical", "Technical Events"),
    SelectOption("Sports", "Sports"),
    SelectOption("Workshops", "Workshops & Seminars"),
    SelectOption("Competitions", "Competitions & Hackathons")
  ]

  /** A file chosen in a file input: its MIME type and its bytes. */
  datatype File = File(mimeType: string, content: Bytes)

  /** isImageFile: the MIME type starts with "image/". */
  predicate IsImageFile(f: File) {
    JsString.StartsWith(f.mimeType, "image/")
  }

  /** The selected options' `.value`s, in selection order. */
  function Values(opts: seq<SelectOption>): (r: seq<string>)
    ensures |r| == |opts| && forall i :: 0 <= i < |opts| ==> r[i] == opts[i].value
  {
    seq(|opts|, i requires 0 <= i < |opts| => opts[i].value)
  }

  /** `JSON.stringify` of a list of strings (no character needs escaping in the model). */
  function JsonStringList(xs: seq<string>): (r: string)
    ensures |r| >= 2 && r[0] == '[' && r[|r| - 1] == ']'
    ensures r[1..|r| - 1] == JsString.Join(Quoted(xs), ",")
  {
    "[" + JsString.Join(Quoted(xs), ",") + "]"
  }

  function Quoted(xs: seq<string>): (r: seq<string>)
    ensures |r| == |xs| && forall i :: 0 <= i < |xs| ==> r[i] == "\"" + xs[i] + "\""
  {
    seq(|xs|, i requires 0 <= i < |xs| => "\"" + xs[i] + "\"")
  }

  // ------------------------------------------------------------------ the form

  /** The `eventData` state of the form. */
  datatype EventForm = EventForm(
    title: string, description: string, date: string, time: string, venue: string,
    department: seq<SelectOption>, categories: seq<SelectOption>, organizers: string,
    contactEmail: string, contactPhone: string, googleForm: string, volunteerForm: string,
    addedBy: string, updatedBy: string, userRole: string)

  /** The initial form, from the stored user name and role. */
  function InitialForm(userName: Option<string>, userRole: Option<string>): (f: EventForm)
    ensures f.title == "" && f.department == [] && f.categories == []
    ensures f.addedBy == JsString.OrElse(userName, "Unknown") && f.updatedBy == f.addedBy
    ensures f.userRole == JsString.OrElse(userRole, "student")
    ensures f.addedBy != "" && f.userRole != ""
  {
    EventForm("", "", "", "", "", [], [], "", "", "", "", "",
              JsString.OrElse(userName, "Unknown"), JsString.OrElse(userName, "Unknown"), JsString.OrElse(userRole, "student"))
  }

  /** After a successful add: every content field empty, the author and role kept. */
  function ResetForm(f: EventForm): (r: EventForm)
    ensures r.addedBy == f.addedBy && r.updatedBy == f.updatedBy && r.userRole == f.userRole
    ensures r.title == "" && r.description == "" && r.date == "" && r.time == "" && r.venue == ""
    ensures r.department == [] && r.categories == [] && r.organizers == ""
    ensures r.contactEmail == "" && r.contactPhone == "" && r.googleForm == "" && r.volunteerForm == ""
  {
    EventForm("", "", "", "", "", [], [], "", "", "", "", "", f.addedBy, f.updatedBy, f.userRole)
  }

  // ------------------------------------------------------------------ validation

  /** Why a submission is refused, in the order the checks run. */
  datatype Rejection = MissingFields | DuplicateTitle | MainImageNotImage | QrImageNotImage | SideImageNotImage

  function Message(r: Rejection): string {
    match r
    case MissingFields => "Please fill in all required fields and upload a main image."
    case DuplicateTitle => "An event with this title already exists."
    case MainImageNotImage => "Main image must be an image file."
    case QrImageNotImage => "QR image must be an image file."
    case SideImageNotImage => "Side images must be valid image files."
  }

  predicate FieldsMissing(f: EventForm, mainImage: Option<File>) {
    f.title == "" || f.description == "" || f.date == "" || f.time == "" || f.venue == "" || mainImage.None?
  }

  /** Two titles clash when they agree after trimming and lower-casing. */
  predicate SameTitle(a: string, b: string) {
    JsString.ToLower(JsString.Trim(a)) == JsString.ToLower(JsString.Trim(b))
  }

  predicate TitleTaken(events: seq<Event>, title: string) {
    exists i :: 0 <= i < |events| && SameTitle(events[i].title, title)
  }

  predicate SomeSideNotImage(sides: seq<File>) {
    exists i :: 0 <= i < |sides| && !IsImageFile(sides[i])
  }

  /**
   * The checks of handleSubmit, in order; only the first failure is reported.
   * The QR image is checked only when one was chosen.
   */
  function Validate(f: EventForm, events: seq<Event>, mainImage: Option<File>, qrImage: Option<File>,
                    sides: seq<File>): (r: Option<Rejection>)
    ensures r == Some(MissingFields) <==> FieldsMissing(f, mainImage)
    ensures r == Some(DuplicateTitle) <==> !FieldsMissing(f, mainImage) && TitleTaken(events, f.title)
    ensures r == Some(MainImageNotImage) <==>
              !FieldsMissing(f, mainImage) && !TitleTaken(events, f.title) && !IsImageFile(mainImage.value)
    ensures r == Some(QrImageNotImage) <==>
              !FieldsMissing(f, mainImage) && !TitleTaken(events, f.title) && IsImageFile(mainImage.value)
              && qrImage.Some? && !IsImageFile(qrImage.value)
    ensures r == Some(SideImageNotImage) <==>
              !FieldsMissing(f, mainImage) && !TitleTaken(events, f.title) && IsImageFile(mainImage.value)
              && (qrImage.None? || IsImageFile(qrImage.value)) && SomeSideNotImage(sides)
    ensures r.None? ==> !FieldsMissing(f, mainImage) && !TitleTaken(events, f.title) && IsImageFile(mainImage.value)
                        && (qrImage.None? || IsImageFile(qrImage.value)) && !SomeSideNotImage(sides)
  {
    if FieldsMissing(f, mainImage) then Some(MissingFields)
    else if TitleTaken(events, f.title) then Some(DuplicateTitle)
    else if !IsImageFile(mainImage.value) then Some(MainImageNotImage)
    else if qrImage.Some? && !IsImageFile(qrImage.value) then Some(QrImageNotImage)
    else if SomeSideNotImage(sides) then Some(SideImageNotImage)
    else None
  }

  /** A form just reset can not be submitted again: its title and main image are gone. */
  lemma ResetFormIsRefused(f: EventForm, events: seq<Event>, qrImage: Option<File>, sides: seq<File>)
    ensures Validate(ResetForm(f), events, None, qrImage, sides) == Some(MissingFields)
  {
  }

  /** A title differing only in case and surrounding spaces from a listed one is refused. */
  lemma RetypedTitleIsDuplicate(f: EventForm, events: seq<Event>, i: nat, mainImage: File,
                                qrImage: Option<File>, sides: seq<File>)
    requires i < |events| && !FieldsMissing(f, Some(mainImage))
    requires JsString.ToLower(JsString.Trim(f.title)) == JsString.ToLower(JsString.Trim(events[i].title))
    ensures Validate(f, events, Some(mainImage), qrImage, sides) == Some(DuplicateTitle)
  {
    assert SameTitle(events[i].title, f.title);
  }

  // ------------------------------------------------------------------ the request

  /** A FormData value: text or a file. */
  datatype FormValue = Text(text: string) | FileValue(file: File)

  /** The text fields of the form in the order handleSubmit appends them. */
  const TextFieldNames: seq<string> := [
    "title", "description", "date", "time", "venue", "organizers", "contactEmail", "contactPhone",
    "googleForm", "volunteerForm", "addedBy", "updatedBy", "userRole"]

  /** `eventData[name]` for a text field of the form. */
  function FormText(f: EventForm, name: string): string {
    match name
    case "title" => f.title
    case "description" => f.description
    case "date" => f.date
    case "time" => f.time
    case "venue" => f.venue
    case "organizers" => f.organizers
    case "contactEmail" => f.contactEmail
    case "contactPhone" => f.contactPhone
    case "googleForm" => f.googleForm
    case "volunteerForm" => f.volunteerForm
    case "addedBy" => f.addedBy
    case "updatedBy" => f.updatedBy
    case "userRole" => f.userRole
    case _ => ""
  }

  /**
   * The thirteen text fields, each under its own name with the form's text,
   * then the two selections as JSON lists of their values.
   */
  function TextEntries(f: EventForm): (r: seq<(string, FormValue)>)
    ensures |r| == 15
    ensures forall i :: 0 <= i < |TextFieldNames| ==> r[i] == (TextFieldNames[i], Text(FormText(f, TextFieldNames[i])))
    ensures r[13] == ("department", Text(JsonStringList(Values(f.department))))
    ensures r[14] == ("categories", Text(JsonStringList(Values(f.categories))))
  {
    [("title", Text(f.title)), ("description", Text(f.description)), ("date", Text(f.date)),
     ("time", Text(f.time)), ("venue", Text(f.venue)), ("organizers", Text(f.organizers)),
     ("contactEmail", Text(f.contactEmail)), ("contactPhone", Text(f.contactPhone)),
     ("googleForm", Text(f.googleForm)), ("volunteerForm", Text(f.volunteerForm)),
     ("addedBy", Text(f.addedBy)), ("updatedBy", Text(f.updatedBy)), ("userRole", Text(f.userRole)),
     ("department", Text(JsonStringList(Values(f.department)))),
     ("categories", Text(JsonStringList(Values(f.categories))))]
  }

  /**
   * The multipart body: the text entries, the main image, the QR image when
   * there is one, then one "images" entry per side image in the order they
   * were chosen.
   */
  predicate IsAddBody(body: seq<(string, FormValue)>, f: EventForm, mainImage: File, qrImage: Option<File>,
                      sides: seq<File>) {
    && |body| == 16 + (if qrImage.Some? then 1 else 0) + |sides|
    && body[..15] == TextEntries(f)
    && body[15] == ("mainImage", FileValue(mainImage))
    && (qrImage.Some? ==> body[16] == ("qrImage", FileValue(qrImage.value)))
    && forall i :: 0 <= i < |sides| ==> body[|body| - |sides| + i] == ("images", FileValue(sides[i]))
  }

  /** The body of handleSubmit, built by successive appends. */
  method BuildFormData(f: EventForm, mainImage: File, qrImage: Option<File>, sides: seq<File>)
    returns (body: seq<(string, FormValue)>)
    ensures IsAddBody(body, f, mainImage, qrImage, sides)
  {
    body := TextEntries(f);
    body := body + [("mainImage", FileValue(mainImage))];
    if qrImage.Some? {
      body := body + [("qrImage", FileValue(qrImage.value))];
    }
    var fixed := |body|;
    for k := 0 to |sides|
      invariant |body| == fixed + k
      invariant body[..15] == TextEntries(f)
      invariant body[15] == ("mainImage", FileValue(mainImage))
      invariant qrImage.Some? ==> body[16] == ("qrImage", FileValue(qrImage.value))
      invariant forall i :: 0 <= i < k ==> body[fixed + i] == ("images", FileValue(sides[i]))
    {
      body := body + [("images", FileValue(sides[k]))];
    }
  }

  /** The body fields as the add handler reads them from `req.body`: every text field is present. */
  function RequestOf(f: EventForm): (req: EventRoutes.CreateRequest)
    ensures req.title == Some(f.title) && req.organizers == Some(f.organizers)
    ensures req.department == Some(JsonStringList(Values(f.department)))
    ensures req.categories == Some(JsonStringList(Values(f.categories)))
  {
    EventRoutes.CreateRequest(
      Some(f.title), Some(f.description), Some(f.date), Some(f.time), Some(f.venue),
      Some(JsonStringList(Values(f.department))), Some(JsonStringList(Values(f.categories))),
      Some(f.organizers), Some(f.addedBy), Some(f.contactEmail), Some(f.contactPhone),
      Some(f.googleForm), Some(f.volunteerForm), Some(f.userRole))
  }

  function UploadOf(file: File): (u: EventRoutes.Upload)
    ensures u.buffer == file.content && u.mimetype == file.mimeType
  {
    EventRoutes.Upload(file.content, file.mimeType)
  }

  /** The files as multer groups them by field name. */
  function UploadsOf(mainImage: File, qrImage: Option<File>, sides: seq<File>): (u: EventRoutes.Uploads)
    ensures u.mainImage == [UploadOf(mainImage)]
    ensures u.qrImage == if qrImage.Some? then [UploadOf(qrImage.value)] else []
    ensures |u.images| == |sides| && forall i :: 0 <= i < |sides| ==> u.images[i] == UploadOf(sides[i])
  {
    EventRoutes.Uploads([UploadOf(mainImage)],
                        if qrImage.Some? then [UploadOf(qrImage.value)] else [],
                        seq(|sides|, i requires 0 <= i < |sides| => UploadOf(sides[i])))
  }

  /**
   * A submission the page lets through, from a form whose author and role are
   * set (as InitialForm guarantees), is created by the server when its date
   * parses and the server's JSON parser reads back the two lists: the stored
   * event has the form's title, selections in order, organizers and images.
   */
  lemma AcceptedFormIsCreated(events: Events, newId: EventId, f: EventForm, listed: seq<Event>,
                              mainImage: File, qrImage: Option<File>, sides: seq<File>,
                              parse: EventRoutes.JsonParser, parseDate: EventRoutes.DateParser)
    requires newId !in events
    requires Validate(f, listed, Some(mainImage), qrImage, sides).None?
    requires f.addedBy != "" && f.userRole != ""
    requires parse(JsonStringList(Values(f.department))) == Some(Values(f.department))
    requires parse(JsonStringList(Values(f.categories))) == Some(Values(f.categories))
    requires parseDate(f.date).Some?
    ensures var out := EventRoutes.CreateOutcome(events, newId, RequestOf(f), Some(UploadsOf(mainImage, qrImage, sides)),
                                                 parse, parseDate);
            && out.0.Ok?
            && out.0.value.1.title == f.title
            && out.0.value.1.department == Values(f.department)
            && out.0.value.1.categories == Values(f.categories)
            && out.0.value.1.organizers == EventRoutes.SplitOrganizers(Some(f.organizers))
            && out.0.value.1.mainImage == Some(Image(Some(mainImage.content), Some(mainImage.mimeType)))
            && (out.0.value.1.qrImage.Some? <==> qrImage.Some?)
            && |out.0.value.1.images| == |sides|
  {
    var req := RequestOf(f);
    assert !EventRoutes.MissingRequired(req);
  }

  // ------------------------------------------------------------------ the list tab

  /** fetchEvents: the unprojected list for faculty, the public one otherwise. */
  function Endpoint(userRole: Option<string>): (path: string)
    ensures path == "/events/faculty" <==> userRole == Some("faculty")
    ensures path == "/events" <==> userRole != Some("faculty")
  {
    if userRole == Some("faculty") then "/events/faculty" else "/events"
  }

  /** The list tab's rows: the events whose lower-cased title contains the lower-cased search. */
  function SearchList(events: seq<Event>, q: string): (r: seq<Event>)
    ensures |r| <= |events|
    ensures forall e :: e in r <==> e in events && JsString.Includes(JsString.ToLower(e.title), JsString.ToLower(q))
  {
    if |events| == 0 then []
    else
      var rest := SearchList(events[1..], q);
      assert forall e :: e in events <==> e == events[0] || e in events[1..];
      if JsString.Includes(JsString.ToLower(events[0].title), JsString.ToLower(q)) then [events[0]] + rest else rest
  }

  /** Searching a list in two parts is searching each part: order and repeats are kept. */
  lemma {:induction false} SearchListAppend(a: seq<Event>, b: seq<Event>, q: string)
    ensures SearchList(a + b, q) == SearchList(a, q) + SearchList(b, q)
    decreases |a|
  {
    if |a| > 0 {
      assert (a + b)[1..] == a[1..] + b;
      SearchListAppend(a[1..], b, q);
    } else {
      assert a + b == b;
    }
  }

  /** A single event is kept exactly when its lower-cased title contains the lower-cased search. */
  lemma SearchListOne(e: Event, q: string)
    ensures SearchList([e], q) == if JsString.Includes(JsString.ToLower(e.title), JsString.ToLower(q)) then [e] else []
  {
    assert [e][1..] == [];
  }

  /** The list tab's search and the home page's title search keep the same events. */
  lemma ListSearchIsCardSearch(events: seq<Event>, q: string, e: Event)
    requires e in events
    ensures e in SearchList(events, q) <==> EventCard.Shown(e, EventCard.CardFilters(q, "", ""))
  {
    if q == "" {
      assert JsString.ToLower(q) == "";
      assert JsString.ToLower(q) <= JsString.ToLower(e.title);
    }
  }

  /** The "Updated By" column: the last editor, or the author when there is none. */
  function UpdatedByCell(e: Event): (cell: string)
    ensures e.updatedBy.Some? && e.updatedBy.value != "" ==> cell == e.updatedBy.value
    ensures e.updatedBy.None? || e.updatedBy.value == "" ==> cell == e.addedBy
    ensures WellFormed(e) ==> cell != ""
  {
    if e.updatedBy.Some? && e.updatedBy.value != "" then e.updatedBy.value else e.addedBy
  }

  // ------------------------------------------------------------------ the page

  /** The answer to the add request: accepted, refused with a message, or a failed fetch. */
  datatype AddReply = Added | Refused(message: string) | FetchFailed(errorMessage: Option<string>)

  /** The alert shown for the answer to the add request. */
  function ReplyAlert(reply: AddReply): string {
    match reply
    case Added => "Event added successfully!"
    case Refused(message) => "Failed to add event: " + message
    case FetchFailed(errorMessage) => JsString.OrElse(errorMessage, "Server error. Try again later.")
  }

  /** The page state handleSubmit reads and writes. */
  class AddEventPage {
    var form: EventForm
    var mainImage: Option<File>
    var qrImage: Option<File>
    var sideImages: seq<File>
    /** The events fetched for the list tab. */
    var events: seq<Event>
    var activeTab: string
    var isSubmitting: bool
    /** The last alert shown. */
    var alert: Option<string>

    constructor (userName: Option<string>, userRole: Option<string>)
      ensures form == InitialForm(userName, userRole)
      ensures mainImage == None && qrImage == None && sideImages == [] && events == []
      ensures activeTab == "form" && !isSubmitting && alert == None
    {
      form := InitialForm(userName, userRole);
      mainImage := None;
      qrImage := None;
      sideImages := [];
      events := [];
      activeTab := "form";
      isSubmitting := false;
      alert := None;
    }

    /**
     * handleSubmit: a refused check shows its message and sends nothing; an
     * accepted form is sent, and an accepted add resets the form and images
     * and switches to the list tab.
     */
    method HandleSubmit(reply: AddReply) returns (sent: Option<seq<(string, FormValue)>>)
      modifies this`form, this`mainImage, this`qrImage, this`sideImages, this`activeTab, this`isSubmitting, this`alert
      ensures var v := Validate(old(form), old(events), old(mainImage), old(qrImage), old(sideImages));
              v.Some? ==> sent.None? && alert == Some(Message(v.value)) && form == old(form)
                          && mainImage == old(mainImage) && qrImage == old(qrImage) && sideImages == old(sideImages)
                          && activeTab == old(activeTab) && isSubmitting == old(isSubmitting)
      ensures sent.Some? <==> Validate(old(form), old(events), old(mainImage), old(qrImage), old(sideImages)).None?
      ensures sent.Some? ==> old(mainImage).Some? && !isSubmitting
                             && IsAddBody(sent.value, old(form), old(mainImage).value, old(qrImage), old(sideImages))
      ensures sent.Some? && reply.Added? ==>
                form == ResetForm(old(form)) && mainImage == None && qrImage == None && sideImages == []
                && activeTab == "list" && alert == Some("Event added successfully!")
      ensures sent.Some? && !reply.Added? ==>
                form == old(form) && activeTab == old(activeTab)
                && mainImage == old(mainImage) && qrImage == old(qrImage) && sideImages == old(sideImages)
      ensures sent.Some? && reply.Refused? ==> alert == Some("Failed to add event: " + reply.message)
      ensures sent.Some? && reply.FetchFailed? ==>
                alert == Some(JsString.OrElse(reply.errorMessage, "Server error. Try again later."))
      ensures events == old(events)
    {
      var v := Validate(form, events, mainImage, qrImage, sideImages);
      if v.Some? {
        alert := Some(Message(v.value));
        return None;
      }
      var body := Send(reply);
      sent := Some(body);
    }

    /** The rest of handleSubmit once every check passed: build the body, send it, act on the answer. */
    method Send(reply: AddReply) returns (body: seq<(string, FormValue)>)
      requires mainImage.Some?
      modifies this`form, this`mainImage, this`qrImage, this`sideImages, this`activeTab, this`isSubmitting, this`alert
      ensures IsAddBody(body, old(form), old(mainImage).value, old(qrImage), old(sideImages))
      ensures !isSubmitting && events == old(events)
      ensures reply.Added? ==>
                form == ResetForm(old(form)) && mainImage == None && qrImage == None && sideImages == []
                && activeTab == "list" && alert == Some("Event added successfully!")
      ensures !reply.Added? ==>
                form == old(form) && activeTab == old(activeTab)
                && mainImage == old(mainImage) && qrImage == old(qrImage) && sideImages == old(sideImages)
      ensures reply.Refused? ==> alert == Some("Failed to add event: " + reply.message)
      ensures reply.FetchFailed? ==> alert == Some(JsString.OrElse(reply.errorMessage, "Server error. Try again later."))
    {
      isSubmitting := true;
      body := BuildFormData(form, mainImage.value, qrImage, sideImages);
      alert := Some(ReplyAlert(reply));
      if reply.Added? {
        form := ResetForm(form);
        mainImage := None;
        qrImage := None;
        sideImages := [];
        activeTab := "list";
      }
      isSubmitting := false;
    }
  }
}
