/**
 * The event editing page (Frontend/src/components/AddEvent/UpdateEvent.jsx):
 * the form loaded from a stored event, the submit checks, and the multipart
 * body sent to PUT /events/update/:id. The stored user name and the
 * server's answer are parameters.
 */
module UpdateEvent {
  import opened Wrappers
  import opened EventModel
  import JsString
  import EventRoutes
  import AddEvent
  import Http

  type File = AddEvent.File
  type SelectOption = AddEvent.SelectOption
  type FormValue = AddEvent.FormValue

  // ------------------------------------------------------------------ loading

  /** `opts.find(opt => opt.value === v)`: the first option with that value, or undefined. */
  function FindOption(opts: seq<SelectOption>, v: string): (r: Option<SelectOption>)
    ensures r.Some? ==> r.value in opts && r.value.value == v
    ensures r.None? <==> forall o :: o in opts ==> o.value != v
  {
    if |opts| == 0 then None
    else if opts[0].value == v then Some(opts[0])
    else
      assert forall o :: o in opts <==> o == opts[0] || o in opts[1..];
      FindOption(opts[1..], v)
  }

  /** Each stored value mapped to its option record; an unknown value maps to undefined. */
  function LoadOptions(opts: seq<SelectOption>, values: seq<string>): (r: seq<Option<SelectOption>>)
    ensures |r| == |values| && forall i :: 0 <= i < |values| ==> r[i] == FindOption(opts, values[i])
  {
    seq(|values|, i requires 0 <= i < |values| => FindOption(opts, values[i]))
  }

  /** The editable state, `eventData`, once loaded. */
  datatype UpdateForm = UpdateForm(
    title: string, description: string, date: string, time: string, venue: string,
    department: seq<Option<SelectOption>>, categories: seq<Option<SelectOption>>, organizers: string,
    contactEmail: Option<string>, contactPhone: Option<string>,
    googleForm: Option<string>, volunteerForm: Option<string>)

  /**
   * fetchEventDetails: the stored event as the form holds it; `dateText` is
   * the date as the JSON reply spells it.
   */
  function LoadForm(e: Event, dateText: string): (f: UpdateForm)
    ensures f.title == e.title && f.description == e.description && f.date == dateText
    ensures f.time == e.time && f.venue == e.venue
    ensures f.department == LoadOptions(AddEvent.DepartmentOptions, e.department)
    ensures f.categories == LoadOptions(AddEvent.CategoryOptions, e.categories)
    ensures f.organizers == JsString.Join(e.organizers, ", ")
    ensures f.contactEmail == e.contactEmail && f.contactPhone == e.contactPhone
    ensures f.googleForm == e.googleForm && f.volunteerForm == e.volunteerForm
  {
    UpdateForm(e.title, e.description, dateText, e.time, e.venue,
               LoadOptions(AddEvent.DepartmentOptions, e.department),
               LoadOptions(AddEvent.CategoryOptions, e.categories),
               JsString.Join(e.organizers, ", "),
               e.contactEmail, e.contactPhone, e.googleForm, e.volunteerForm)
  }

  /** `selected.map(d => d.value)`: the values, or None when an entry is undefined (a TypeError). */
  function OptionValues(xs: seq<Option<SelectOption>>): (r: Option<seq<string>>)
    ensures r.Some? <==> forall i :: 0 <= i < |xs| ==> xs[i].Some?
    ensures r.Some? ==> |r.value| == |xs| && forall i :: 0 <= i < |xs| ==> r.value[i] == xs[i].value.value
  {
    if forall i :: 0 <= i < |xs| ==> xs[i].Some? then
      Some(seq(|xs|, i requires 0 <= i < |xs| => xs[i].value.value))
    else None
  }

  /** Stored selections that are all among the options come back unchanged when sent again. */
  lemma KnownSelectionsRoundTrip(opts: seq<SelectOption>, values: seq<string>)
    requires forall v :: v in values ==> exists o :: o in opts && o.value == v
    ensures OptionValues(LoadOptions(opts, values)) == Some(values)
  {
    var loaded := LoadOptions(opts, values);
    forall i | 0 <= i < |values|
      ensures loaded[i].Some? && loaded[i].value.value == values[i]
    {
      assert values[i] in values;
      var o :| o in opts && o.value == values[i];
    }
    assert OptionValues(loaded).value == values;
  }

  /** A stored value that is not an option makes the page unable to send the form. */
  lemma UnknownSelectionBlocksSubmit(opts: seq<SelectOption>, values: seq<string>, i: nat)
    requires i < |values| && forall o :: o in opts ==> o.value != values[i]
    ensures OptionValues(LoadOptions(opts, values)).None?
  {
    assert LoadOptions(opts, values)[i].None?;
  }

  // ------------------------------------------------------------------ submit checks

  /** The fields that must not be blank. */
  datatype RequiredField = Title | Description | Date | Time | Venue

  /** The field's name, as the alert spells it. */
  function FieldName(field: RequiredField): string {
    match field
    case Title => "title"
    case Description => "description"
    case Date => "date"
    case Time => "time"
    case Venue => "venue"
  }

  /** The required fields in the order they are checked. */
  const RequiredFields: seq<RequiredField> := [Title, Description, Date, Time, Venue]

  /** `!value?.trim()`. */
  predicate Blank(s: string) {
    JsString.Trim(s) == ""
  }

  /** `eventData[field]` for a required field. */
  function FieldText(f: UpdateForm, field: RequiredField): string {
    match field
    case Title => f.title
    case Description => f.description
    case Date => f.date
    case Time => f.time
    case Venue => f.venue
  }

  /** No required field is blank. */
  predicate RequiredFilled(f: UpdateForm) {
    forall k :: 0 <= k < |RequiredFields| ==> !Blank(FieldText(f, RequiredFields[k]))
  }

  /** The required-field loop: the first blank field in order, or none. */
  method FirstBlankField(f: UpdateForm) returns (r: Option<RequiredField>)
    ensures r.None? <==> RequiredFilled(f)
    ensures r.Some? ==> exists k :: 0 <= k < |RequiredFields| && r.value == RequiredFields[k]
                                    && Blank(FieldText(f, RequiredFields[k]))
                                    && forall j :: 0 <= j < k ==> !Blank(FieldText(f, RequiredFields[j]))
  {
    for k := 0 to |RequiredFields|
      invariant forall j :: 0 <= j < k ==> !Blank(FieldText(f, RequiredFields[j]))
    {
      if Blank(FieldText(f, RequiredFields[k])) {
        return Some(RequiredFields[k]);
      }
    }
    return None;
  }

  /** Filled required fields are the five fields each with a non-blank text. */
  lemma RequiredFilledFields(f: UpdateForm)
    ensures RequiredFilled(f) <==>
              !Blank(f.title) && !Blank(f.description) && !Blank(f.date) && !Blank(f.time) && !Blank(f.venue)
  {
    assert FieldText(f, RequiredFields[0]) == f.title;
    assert FieldText(f, RequiredFields[1]) == f.description;
    assert FieldText(f, RequiredFields[2]) == f.date;
    assert FieldText(f, RequiredFields[3]) == f.time;
    assert FieldText(f, RequiredFields[4]) == f.venue;
    if !Blank(f.title) && !Blank(f.description) && !Blank(f.date) && !Blank(f.time) && !Blank(f.venue) {
      forall k | 0 <= k < |RequiredFields| ensures !Blank(FieldText(f, RequiredFields[k])) {
        if k == 0 {
        } else if k == 1 {
        } else if k == 2 {
        } else if k == 3 {
        } else {
          assert k == 4;
        }
      }
    }
  }

  /** `message` is the alert for the first blank required field of `f`. */
  predicate NamesFirstBlank(f: UpdateForm, message: string) {
    exists k :: 0 <= k < |RequiredFields| && Blank(FieldText(f, RequiredFields[k]))
                && (forall j :: 0 <= j < k ==> !Blank(FieldText(f, RequiredFields[j])))
                && message == "Please fill in the " + FieldName(RequiredFields[k]) + " field."
  }

  /** The alert for the first blank field names that field. */
  lemma FirstBlankAlert(f: UpdateForm, field: RequiredField)
    requires exists k :: 0 <= k < |RequiredFields| && field == RequiredFields[k]
                         && Blank(FieldText(f, RequiredFields[k]))
                         && forall j :: 0 <= j < k ==> !Blank(FieldText(f, RequiredFields[j]))
    ensures NamesFirstBlank(f, "Please fill in the " + FieldName(field) + " field.")
  {
    var k :| 0 <= k < |RequiredFields| && field == RequiredFields[k]
             && Blank(FieldText(f, RequiredFields[k]))
             && forall j :: 0 <= j < k ==> !Blank(FieldText(f, RequiredFields[j]));
    assert FieldName(RequiredFields[k]) == FieldName(field);
  }

  /** The image checks: each replacement provided must be an image; none is required. */
  function ImageProblem(mainImage: Option<File>, qrImage: Option<File>, sides: seq<File>): (r: Option<string>)
    ensures r.None? <==> (mainImage.None? || AddEvent.IsImageFile(mainImage.value))
                         && (qrImage.None? || AddEvent.IsImageFile(qrImage.value))
                         && !AddEvent.SomeSideNotImage(sides)
    ensures mainImage.Some? && !AddEvent.IsImageFile(mainImage.value) ==> r == Some("Main image must be an image file.")
    ensures ((mainImage.None? || AddEvent.IsImageFile(mainImage.value)) && qrImage.Some? && !AddEvent.IsImageFile(qrImage.value))
              ==> r == Some("QR image must be an image file.")
    ensures ((mainImage.None? || AddEvent.IsImageFile(mainImage.value)) && (qrImage.None? || AddEvent.IsImageFile(qrImage.value))
             && AddEvent.SomeSideNotImage(sides))
              ==> r == Some("Side images must be valid image files.")
  {
    if mainImage.Some? && !AddEvent.IsImageFile(mainImage.value) then Some("Main image must be an image file.")
    else if qrImage.Some? && !AddEvent.IsImageFile(qrImage.value) then Some("QR image must be an image file.")
    else if AddEvent.SomeSideNotImage(sides) then Some("Side images must be valid image files.")
    else None
  }

  // ------------------------------------------------------------------ the request

  /** The five required fields as sent: every one but the date and the time trimmed. */
  function RequiredEntries(f: UpdateForm): (r: seq<(string, FormValue)>)
    ensures |r| == 5
    ensures r[0] == ("title", AddEvent.Text(JsString.Trim(f.title)))
    ensures r[1] == ("description", AddEvent.Text(JsString.Trim(f.description)))
    ensures r[2] == ("date", AddEvent.Text(f.date)) && r[3] == ("time", AddEvent.Text(f.time))
    ensures r[4] == ("venue", AddEvent.Text(JsString.Trim(f.venue)))
  {
    [("title", AddEvent.Text(JsString.Trim(f.title))),
     ("description", AddEvent.Text(JsString.Trim(f.description))),
     ("date", AddEvent.Text(f.date)), ("time", AddEvent.Text(f.time)),
     ("venue", AddEvent.Text(JsString.Trim(f.venue)))]
  }

  /** The organizers trimmed, then the four links, an unset one sent as the empty string. */
  function OptionalEntries(f: UpdateForm): (r: seq<(string, FormValue)>)
    ensures |r| == 5
    ensures r[0] == ("organizers", AddEvent.Text(JsString.Trim(f.organizers)))
    ensures r[1] == ("contactEmail", AddEvent.Text(f.contactEmail.GetOr("")))
    ensures r[2] == ("contactPhone", AddEvent.Text(f.contactPhone.GetOr("")))
    ensures r[3] == ("googleForm", AddEvent.Text(f.googleForm.GetOr("")))
    ensures r[4] == ("volunteerForm", AddEvent.Text(f.volunteerForm.GetOr("")))
  {
    [("organizers", AddEvent.Text(JsString.Trim(f.organizers))),
     ("contactEmail", AddEvent.Text(f.contactEmail.GetOr(""))),
     ("contactPhone", AddEvent.Text(f.contactPhone.GetOr(""))),
     ("googleForm", AddEvent.Text(f.googleForm.GetOr(""))),
     ("volunteerForm", AddEvent.Text(f.volunteerForm.GetOr("")))]
  }

  /**
   * The text fields in the order they are appended: the required ones, the
   * optional ones, the editor's stored name (or "Unknown"), then the two
   * selections as JSON lists.
   */
  function UpdateTextEntries(f: UpdateForm, userName: Option<string>, department: seq<string>,
                             categories: seq<string>): (r: seq<(string, FormValue)>)
    ensures |r| == 13
    ensures r[..5] == RequiredEntries(f) && r[5..10] == OptionalEntries(f)
    ensures r[10] == ("updatedBy", AddEvent.Text(JsString.OrElse(userName, "Unknown")))
    ensures r[11] == ("department", AddEvent.Text(AddEvent.JsonStringList(department)))
    ensures r[12] == ("categories", AddEvent.Text(AddEvent.JsonStringList(categories)))
  {
    RequiredEntries(f) + OptionalEntries(f)
    + [("updatedBy", AddEvent.Text(JsString.OrElse(userName, "Unknown"))),
       ("department", AddEvent.Text(AddEvent.JsonStringList(department))),
       ("categories", AddEvent.Text(AddEvent.JsonStringList(categories)))]
  }

  /** Every loaded selection is an option, so both `.map(d => d.value)` calls succeed. */
  predicate SelectionsReadable(f: UpdateForm) {
    OptionValues(f.department).Some? && OptionValues(f.categories).Some?
  }

  /**
   * The multipart body once both selections could be read: the text entries,
   * then the main and QR replacements when chosen, then one "images" entry
   * per side image in the order they were chosen.
   */
  predicate IsUpdateBody(body: seq<(string, FormValue)>, f: UpdateForm, userName: Option<string>,
                         mainImage: Option<File>, qrImage: Option<File>, sides: seq<File>)
    requires SelectionsReadable(f)
  {
    var files := (if mainImage.Some? then 1 else 0) + (if qrImage.Some? then 1 else 0);
    && |body| == 13 + files + |sides|
    && body[..13] == UpdateTextEntries(f, userName, OptionValues(f.department).value, OptionValues(f.categories).value)
    && (mainImage.Some? ==> body[13] == ("mainImage", AddEvent.FileValue(mainImage.value)))
    && (qrImage.Some? ==> body[12 + files] == ("qrImage", AddEvent.FileValue(qrImage.value)))
    && forall i :: 0 <= i < |sides| ==> body[13 + files + i] == ("images", AddEvent.FileValue(sides[i]))
  }

  /**
   * The body built by successive appends, or None when a loaded selection is
   * undefined and reading its `.value` throws before the request.
   */
  method BuildFormData(f: UpdateForm, userName: Option<string>, mainImage: Option<File>,
                       qrImage: Option<File>, sides: seq<File>)
    returns (body: Option<seq<(string, FormValue)>>)
    ensures body.None? <==> !SelectionsReadable(f)
    ensures body.Some? ==> IsUpdateBody(body.value, f, userName, mainImage, qrImage, sides)
  {
    var department := OptionValues(f.department);
    var categories := OptionValues(f.categories);
    if department.None? || categories.None? {
      return None;
    }
    var entries := UpdateTextEntries(f, userName, department.value, categories.value);
    if mainImage.Some? {
      entries := entries + [("mainImage", AddEvent.FileValue(mainImage.value))];
    }
    if qrImage.Some? {
      entries := entries + [("qrImage", AddEvent.FileValue(qrImage.value))];
    }
    var fixed := |entries|;
    for k := 0 to |sides|
      invariant |entries| == fixed + k
      invariant entries[..13] == UpdateTextEntries(f, userName, department.value, categories.value)
      invariant mainImage.Some? ==> entries[13] == ("mainImage", AddEvent.FileValue(mainImage.value))
      invariant qrImage.Some? ==> entries[fixed - 1] == ("qrImage", AddEvent.FileValue(qrImage.value))
      invariant forall i :: 0 <= i < k ==> entries[fixed + i] == ("images", AddEvent.FileValue(sides[i]))
    {
      entries := entries + [("images", AddEvent.FileValue(sides[k]))];
    }
    body := Some(entries);
  }

  /** The body fields as the update handler reads them, once the lists could be serialised. */
  function RequestOf(f: UpdateForm, userName: Option<string>): (req: Option<EventRoutes.UpdateRequest>)
    ensures req.None? <==> !SelectionsReadable(f)
    ensures req.Some? ==> req.value.title == Some(JsString.Trim(f.title))
                          && req.value.description == Some(JsString.Trim(f.description))
                          && req.value.date == Some(f.date) && req.value.time == Some(f.time)
                          && req.value.venue == Some(JsString.Trim(f.venue))
                          && req.value.organizers == Some(JsString.Trim(f.organizers))
                          && req.value.updatedBy == Some(JsString.OrElse(userName, "Unknown"))
    ensures req.Some? ==> req.value.contactEmail == Some(f.contactEmail.GetOr(""))
                          && req.value.contactPhone == Some(f.contactPhone.GetOr(""))
                          && req.value.googleForm == Some(f.googleForm.GetOr(""))
                          && req.value.volunteerForm == Some(f.volunteerForm.GetOr(""))
    ensures req.Some? ==> req.value.department == Some(AddEvent.JsonStringList(OptionValues(f.department).value))
                          && req.value.categories == Some(AddEvent.JsonStringList(OptionValues(f.categories).value))
  {
    match (OptionValues(f.department), OptionValues(f.categories))
    case (Some(d), Some(c)) =>
      Some(EventRoutes.UpdateRequest(
        Some(JsString.Trim(f.title)), Some(JsString.Trim(f.description)), Some(f.date), Some(f.time),
        Some(JsString.Trim(f.venue)), Some(JsString.Trim(f.organizers)),
        Some(f.contactEmail.GetOr("")), Some(f.contactPhone.GetOr("")),
        Some(f.googleForm.GetOr("")), Some(f.volunteerForm.GetOr("")),
        Some(AddEvent.JsonStringList(d)), Some(AddEvent.JsonStringList(c)),
        Some(JsString.OrElse(userName, "Unknown"))))
    case _ => None
  }

  /** The replacement files as multer groups them; an empty group leaves that slot alone. */
  function UploadsOf(mainImage: Option<File>, qrImage: Option<File>, sides: seq<File>): (u: EventRoutes.Uploads)
    ensures u.mainImage == if mainImage.Some? then [AddEvent.UploadOf(mainImage.value)] else []
    ensures u.qrImage == if qrImage.Some? then [AddEvent.UploadOf(qrImage.value)] else []
    ensures |u.images| == |sides| && forall i :: 0 <= i < |sides| ==> u.images[i] == AddEvent.UploadOf(sides[i])
  {
    EventRoutes.Uploads(if mainImage.Some? then [AddEvent.UploadOf(mainImage.value)] else [],
                        if qrImage.Some? then [AddEvent.UploadOf(qrImage.value)] else [],
                        seq(|sides|, i requires 0 <= i < |sides| => AddEvent.UploadOf(sides[i])))
  }

  /** What the update handler answers for a submission of the page. */
  function Submitted(events: Events, id: EventId, f: UpdateForm, userName: Option<string>,
                     mainImage: Option<File>, qrImage: Option<File>, sides: seq<File>,
                     parse: EventRoutes.JsonParser, parseDate: EventRoutes.DateParser): Result<Event, Http.Failure>
    requires RequestOf(f, userName).Some?
  {
    EventRoutes.UpdateOutcome(events, id, RequestOf(f, userName).value,
                              Some(UploadsOf(mainImage, qrImage, sides)), parse, parseDate).0
  }

  /**
   * A submission the page lets through is applied by the server when the
   * event exists and its date parses: the trimmed title, the editor's name
   * and the organizers land in the stored event.
   */
  lemma AcceptedUpdateIsApplied(events: Events, id: EventId, f: UpdateForm, userName: Option<string>,
                                mainImage: Option<File>, qrImage: Option<File>, sides: seq<File>,
                                parse: EventRoutes.JsonParser, parseDate: EventRoutes.DateParser)
    requires id in events
    requires RequiredFilled(f)
    requires RequestOf(f, userName).Some? && parseDate(f.date).Some?
    ensures var out := Submitted(events, id, f, userName, mainImage, qrImage, sides, parse, parseDate);
            && out.Ok?
            && out.value.title == JsString.Trim(f.title)
            && out.value.updatedBy == Some(JsString.OrElse(userName, "Unknown"))
            && out.value.organizers == EventRoutes.SplitOrganizers(Some(JsString.Trim(f.organizers)))
  {
    FilledFormPassesValidators(f, userName, parseDate);
  }

  /** A form whose required fields are filled and whose date parses passes the update validators. */
  lemma FilledFormPassesValidators(f: UpdateForm, userName: Option<string>, parseDate: EventRoutes.DateParser)
    requires RequiredFilled(f)
    requires RequestOf(f, userName).Some? && parseDate(f.date).Some?
    ensures !EventRoutes.UpdateRejected(RequestOf(f, userName).value, parseDate)
  {
    RequiredFilledFields(f);
  }

  /** An accepted submission keeps every image slot it does not replace. */
  lemma AcceptedUpdateKeepsImages(events: Events, id: EventId, f: UpdateForm, userName: Option<string>,
                                  mainImage: Option<File>, qrImage: Option<File>, sides: seq<File>,
                                  parse: EventRoutes.JsonParser, parseDate: EventRoutes.DateParser)
    requires id in events
    requires RequiredFilled(f)
    requires RequestOf(f, userName).Some? && parseDate(f.date).Some?
    ensures var out := Submitted(events, id, f, userName, mainImage, qrImage, sides, parse, parseDate);
            && out.Ok?
            && (mainImage.None? ==> out.value.mainImage == events[id].mainImage)
            && (qrImage.None? ==> out.value.qrImage == events[id].qrImage)
            && (|sides| == 0 ==> out.value.images == events[id].images)
  {
    AcceptedUpdateIsApplied(events, id, f, userName, mainImage, qrImage, sides, parse, parseDate);
  }

  // ------------------------------------------------------------------ organizers round trip

  /** Each piece with one space in front. */
  function Spaced(ys: seq<string>): (r: seq<string>)
    ensures |r| == |ys| && forall i :: 0 <= i < |ys| ==> r[i] == " " + ys[i]
  {
    seq(|ys|, i requires 0 <= i < |ys| => " " + ys[i])
  }

  /** Joining on ", " is joining the space-prefixed pieces on ",", with one space in front. */
  lemma {:induction false} JoinSpaced(ys: seq<string>)
    requires |ys| >= 1
    ensures JsString.Join(Spaced(ys), ",") == " " + JsString.Join(ys, ", ")
  {
    if |ys| > 1 {
      JoinSpaced(ys[1..]);
      assert Spaced(ys)[1..] == Spaced(ys[1..]);
    }
  }

  /** Joining a list with a head and a non-empty tail puts the separator after the head. */
  lemma JoinCons(x: string, ys: seq<string>, sep: string)
    requires |ys| >= 1
    ensures JsString.Join([x] + ys, sep) == x + sep + JsString.Join(ys, sep)
  {
    assert ([x] + ys)[1..] == ys;
  }

  /** Moving the space of ", " to the front of what follows. */
  lemma ConcatShift(a: string, rest: string)
    ensures a + ", " + rest == a + "," + (" " + rest)
  {
    assert ", " == "," + " ";
  }

  /** `xs.join(", ")` is the first piece and the others with their leading space, joined on ",". */
  lemma CommaSpaceJoin(xs: seq<string>)
    requires |xs| >= 1
    ensures JsString.Join(xs, ", ") == JsString.Join([xs[0]] + Spaced(xs[1..]), ",")
  {
    if |xs| > 1 {
      var tail := xs[1..];
      assert xs == [xs[0]] + tail;
      JoinCons(xs[0], tail, ", ");
      JoinCons(xs[0], Spaced(tail), ",");
      JoinSpaced(tail);
      ConcatShift(xs[0], JsString.Join(tail, ", "));
    } else {
      assert [xs[0]] + Spaced(xs[1..]) == [xs[0]];
    }
  }

  /** A join of non-empty pieces starts with the first piece's first character and ends with the last one's last. */
  lemma {:induction false} JoinEnds(xs: seq<string>, sep: string)
    requires |xs| >= 1 && forall i :: 0 <= i < |xs| ==> xs[i] != ""
    ensures JsString.Join(xs, sep) != ""
    ensures JsString.Join(xs, sep)[0] == xs[0][0]
    ensures JsString.Join(xs, sep)[|JsString.Join(xs, sep)| - 1] == xs[|xs| - 1][|xs[|xs| - 1]| - 1]
  {
    if |xs| > 1 {
      JoinEnds(xs[1..], sep);
      var rest := JsString.Join(xs[1..], sep);
      assert JsString.Join(xs, sep) == xs[0] + sep + rest;
    }
  }

  /** An organizer name as the round trip needs it: non-empty, comma-free and already trimmed. */
  predicate CleanName(x: string) {
    x != "" && ',' !in x && JsString.Trim(x) == x
  }

  predicate AllClean(xs: seq<string>) {
    forall i :: 0 <= i < |xs| ==> CleanName(xs[i])
  }

  /** Clean names joined with ", " neither start nor end with white space. */
  lemma JoinIsTrimmed(xs: seq<string>)
    requires |xs| >= 1 && AllClean(xs)
    ensures JsString.Trim(JsString.Join(xs, ", ")) == JsString.Join(xs, ", ")
  {
    CleanEnds(xs);
    JoinEnds(xs, ", ");
    JsString.TrimOfClean(JsString.Join(xs, ", "));
  }

  /** Clean names are non-empty, and the first and last of them start and end without white space. */
  lemma CleanEnds(xs: seq<string>)
    requires |xs| >= 1 && AllClean(xs)
    ensures forall i :: 0 <= i < |xs| ==> xs[i] != ""
    ensures !JsString.IsSpace(xs[0][0]) && !JsString.IsSpace(xs[|xs| - 1][|xs[|xs| - 1]| - 1])
  {
    forall i | 0 <= i < |xs| ensures xs[i] != "" {
      assert CleanName(xs[i]);
    }
    JsString.TrimmedEnds(xs[0]);
    JsString.TrimmedEnds(xs[|xs| - 1]);
  }

  /** The "," pieces of a ", " join of clean names hold no comma. */
  lemma SpacedPiecesCommaFree(xs: seq<string>)
    requires |xs| >= 1 && AllClean(xs)
    ensures var pieces := [xs[0]] + Spaced(xs[1..]);
            forall i :: 0 <= i < |pieces| ==> ',' !in pieces[i]
  {
    var pieces := [xs[0]] + Spaced(xs[1..]);
    forall i | 0 <= i < |pieces| ensures ',' !in pieces[i] {
      if i > 0 {
        assert pieces[i] == " " + xs[i];
        assert CleanName(xs[i]);
      } else {
        assert CleanName(xs[0]);
      }
    }
  }

  /** Trimming each "," piece of a ", " join of clean names gives the names. */
  lemma TrimSpacedPieces(xs: seq<string>)
    requires |xs| >= 1 && AllClean(xs)
    ensures EventRoutes.TrimAll([xs[0]] + Spaced(xs[1..])) == xs
  {
    var pieces := [xs[0]] + Spaced(xs[1..]);
    var trimmed := EventRoutes.TrimAll(pieces);
    forall i | 0 <= i < |xs| ensures trimmed[i] == xs[i] {
      if i > 0 {
        assert pieces[i] == " " + xs[i];
        JsString.TrimAfterSpaces(" ", xs[i]);
      }
    }
  }

  /**
   * Loading joins the organizers with ", "; saving trims that text and the
   * server splits it on "," and trims each piece. For clean names this gives
   * the stored list back, the empty list included.
   */
  lemma OrganizersRoundTrip(xs: seq<string>)
    requires AllClean(xs)
    ensures EventRoutes.SplitOrganizers(Some(JsString.Trim(JsString.Join(xs, ", ")))) == xs
  {
    if |xs| == 0 {
      assert JsString.Trim("") == "";
    } else {
      var joined := JsString.Join(xs, ", ");
      var pieces := [xs[0]] + Spaced(xs[1..]);
      JoinIsTrimmed(xs);
      JoinEnds(xs, ", ");
      CommaSpaceJoin(xs);
      SpacedPiecesCommaFree(xs);
      JsString.SplitJoin(pieces, ',');
      assert JsString.Split(joined, ",") == pieces;
      TrimSpacedPieces(xs);
    }
  }

  /** Editing an event without touching its organizers saves the same organizers. */
  lemma UnchangedOrganizersSurvive(e: Event, dateText: string)
    requires AllClean(e.organizers)
    ensures EventRoutes.SplitOrganizers(Some(JsString.Trim(LoadForm(e, dateText).organizers))) == e.organizers
  {
    OrganizersRoundTrip(e.organizers);
  }

  /**
   * The clean-name premise above is needed: a blank organizer text sent by the
   * add form is stored as one empty name, and an edit that leaves it alone
   * saves no organizers at all, because the loaded text "" is falsy.
   */
  lemma BlankOrganizerIsStored()
    ensures EventRoutes.SplitOrganizers(Some(" ")) == [""]
  {
    var rest := JsString.Split(" "[1..], ",");
    assert " "[..1] != "," && " "[1..] == "" && rest == [""];
    assert [" "[0]] + rest[0] == " " && rest[1..] == [];
    assert JsString.Trim(" ") == "";
  }

  lemma BlankOrganizerIsDropped(e: Event, dateText: string)
    requires e.organizers == [""]
    ensures EventRoutes.SplitOrganizers(Some(JsString.Trim(LoadForm(e, dateText).organizers))) == []
  {
    assert JsString.Join(e.organizers, ", ") == "";
  }

  // ------------------------------------------------------------------ the page

  /** The alert shown for the answer to the update request. */
  function ReplyAlert(reply: AddEvent.AddReply): string {
    match reply
    case Added => "Event updated successfully!"
    case Refused(message) => "Failed to update event: " + message
    case FetchFailed(errorMessage) => JsString.OrElse(errorMessage, "Server error. Try again later.")
  }

  /** The page state handleSubmit reads and writes. */
  class UpdateEventPage {
    var form: UpdateForm
    var mainImage: Option<File>
    var qrImage: Option<File>
    var sideImages: seq<File>
    var isSubmitting: bool
    /** Whether the page has navigated back home. */
    var leftPage: bool
    /** The last alert shown. */
    var alert: Option<string>

    /** The page once fetchEventDetails has loaded the event. */
    constructor (e: Event, dateText: string)
      ensures form == LoadForm(e, dateText)
      ensures mainImage == None && qrImage == None && sideImages == []
      ensures !isSubmitting && !leftPage && alert == None
    {
      form := LoadForm(e, dateText);
      mainImage := None;
      qrImage := None;
      sideImages := [];
      isSubmitting := false;
      leftPage := false;
      alert := None;
    }

    /**
     * handleSubmit: the first blank required field, or else the first
     * non-image replacement, is reported and nothing is sent. An undefined
     * selection throws after `isSubmitting` is set and before the request, so
     * the flag stays set. Otherwise the body is sent, and a success navigates
     * home. The form and the chosen files are never changed.
     */
    method HandleSubmit(userName: Option<string>, reply: AddEvent.AddReply)
      returns (sent: Option<seq<(string, FormValue)>>)
      modifies this`alert, this`isSubmitting, this`leftPage
      ensures !RequiredFilled(form) ==>
                && sent.None? && isSubmitting == old(isSubmitting) && leftPage == old(leftPage)
                && alert.Some? && NamesFirstBlank(form, alert.value)
      ensures RequiredFilled(form) && ImageProblem(mainImage, qrImage, sideImages).Some? ==>
                && sent.None? && isSubmitting == old(isSubmitting) && leftPage == old(leftPage)
                && alert == ImageProblem(mainImage, qrImage, sideImages)
      ensures sent.Some? <==> RequiredFilled(form) && ImageProblem(mainImage, qrImage, sideImages).None?
                              && SelectionsReadable(form)
      ensures RequiredFilled(form) && ImageProblem(mainImage, qrImage, sideImages).None? && !SelectionsReadable(form)
              ==> isSubmitting && alert == old(alert) && leftPage == old(leftPage)
      ensures sent.Some? ==> !isSubmitting && SelectionsReadable(form)
                             && IsUpdateBody(sent.value, form, userName, mainImage, qrImage, sideImages)
      ensures sent.Some? ==> leftPage == (reply.Added? || old(leftPage)) && alert == Some(ReplyAlert(reply))
    {
      var passed := Check();
      if !passed {
        return None;
      }
      sent := Send(userName, reply);
    }

    /** The checks of handleSubmit: the first failure, if any, is alerted. */
    method Check() returns (passed: bool)
      modifies this`alert
      ensures passed <==> RequiredFilled(form) && ImageProblem(mainImage, qrImage, sideImages).None?
      ensures passed ==> alert == old(alert)
      ensures !RequiredFilled(form) ==> alert.Some? && NamesFirstBlank(form, alert.value)
      ensures RequiredFilled(form) && ImageProblem(mainImage, qrImage, sideImages).Some? ==>
                alert == ImageProblem(mainImage, qrImage, sideImages)
    {
      var blank := FirstBlankField(form);
      if blank.Some? {
        FirstBlankAlert(form, blank.value);
        alert := Some("Please fill in the " + FieldName(blank.value) + " field.");
        return false;
      }
      var problem := ImageProblem(mainImage, qrImage, sideImages);
      if problem.Some? {
        alert := problem;
        return false;
      }
      return true;
    }

    /** The rest of handleSubmit once the checks passed: build the body, send it, act on the answer. */
    method Send(userName: Option<string>, reply: AddEvent.AddReply) returns (sent: Option<seq<(string, FormValue)>>)
      modifies this`alert, this`isSubmitting, this`leftPage
      ensures sent.Some? <==> SelectionsReadable(form)
      ensures sent.None? ==> isSubmitting && alert == old(alert) && leftPage == old(leftPage)
      ensures sent.Some? ==> !isSubmitting && IsUpdateBody(sent.value, form, userName, mainImage, qrImage, sideImages)
      ensures sent.Some? ==> leftPage == (reply.Added? || old(leftPage)) && alert == Some(ReplyAlert(reply))
    {
      isSubmitting := true;
      var body := BuildFormData(form, userName, mainImage, qrImage, sideImages);
      if body.None? {
        return None;
      }
      sent := body;
      alert := Some(ReplyAlert(reply));
      if reply.Added? {
        leftPage := true;
      }
      isSubmitting := false;
    }
  }
}
