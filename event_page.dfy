/**
 * The single-event page (Frontend/src/components/EventPage/EventPage.jsx):
 * the images default applied to the fetched record, the gallery index moved
 * by the arrow buttons and by the auto-advance timer, and the registration
 * buttons. Timers are modelled as a `Tick` the environment may call.
 */
module EventPage {
  import opened Wrappers
  import opened EventModel
  import JsString
  import EventRoutes
  import EventCard

  /** The `images` member of the fetched JSON: an array, or anything else. */
  datatype ImagesField = ImageArray(items: seq<Image>) | NotAnArray

  /** A non-array `images` value is replaced by the empty list. */
  function NormalizeImages(field: ImagesField): (r: seq<Image>)
    ensures field.NotAnArray? ==> r == []
    ensures field.ImageArray? ==> r == field.items
  {
    match field
    case ImageArray(items) => items
    case NotAnArray => []
  }

  /** The successor rule of handleNext and of the timer; `n` is the number of images. */
  function Next(i: int, n: int): (r: int)
    ensures 0 <= i < n ==> 0 <= r < n && r == (i + 1) % n
  {
    if i == n - 1 then 0 else i + 1
  }

  /** The predecessor rule of handlePrev. */
  function Prev(i: int, n: int): (r: int)
    ensures 0 <= i < n ==> 0 <= r < n && r == (i + n - 1) % n
  {
    if i == 0 then n - 1 else i - 1
  }

  /** On a non-empty gallery the two arrows undo each other. */
  lemma NextPrevInverse(i: int, n: int)
    requires 0 <= i < n
    ensures Prev(Next(i, n), n) == i
    ensures Next(Prev(i, n), n) == i
  {
  }

  /** The index after `k` successor steps. */
  function Advance(i: int, n: int, k: nat): (r: int)
    ensures 0 <= i < n ==> 0 <= r < n
  {
    if k == 0 then i else Next(Advance(i, n, k - 1), n)
  }

  /** Before the end of the list, `k` steps move the index by `k`. */
  lemma {:induction false} AdvanceWithin(i: int, n: int, k: nat)
    requires 0 <= i && i + k < n
    ensures Advance(i, n, k) == i + k
  {
    if k > 0 {
      AdvanceWithin(i, n, k - 1);
    }
  }

  /** Past the end of the list, the index wraps around to the front once. */
  lemma {:induction false} AdvanceWraps(i: int, n: int, k: nat)
    requires 0 <= i < n && n <= i + k < 2 * n
    ensures Advance(i, n, k) == i + k - n
  {
    if i + k - 1 == n - 1 {
      AdvanceWithin(i, n, k - 1);
    } else {
      AdvanceWraps(i, n, k - 1);
    }
  }

  /** After one full lap of `n` steps the gallery shows the image it started from. */
  lemma FullLap(i: int, n: int)
    requires 0 <= i < n
    ensures Advance(i, n, n) == i
  {
    AdvanceWraps(i, n, n);
  }

  /** Steps compose: `a` steps and then `b` more are `a + b` steps. */
  lemma {:induction false} AdvanceAdd(i: int, n: int, a: nat, b: nat)
    ensures Advance(i, n, a + b) == Advance(Advance(i, n, a), n, b)
  {
    if b > 0 {
      AdvanceAdd(i, n, a, b - 1);
    }
  }

  /** The position is periodic in the number of steps, with period `n`. */
  lemma Periodic(i: int, n: int, k: nat)
    requires 0 <= i < n
    ensures Advance(i, n, k + n) == Advance(i, n, k)
  {
    AdvanceAdd(i, n, k, n);
    FullLap(Advance(i, n, k), n);
  }

  /**
   * The side image the gallery asks the server for at index `i`: the URL
   * carries the decimal spelling of `i`, and for an index in range that is
   * exactly the event's `i`-th image.
   */
  function GalleryImage(e: Event, i: nat): (r: Option<Image>)
    ensures i < |e.images| ==> r == Some(e.images[i])
    ensures i >= |e.images| ==> r == None
  {
    EventRoutes.SideImageAddress(e, i, JsString.DecimalDigits(i));
    JsString.IndexRoundTrip(i);
    EventRoutes.Slot(e, "side", Some(JsString.DecimalDigits(i)))
  }

  /** The registration area below the details. */
  datatype PageButtons = Closed | Open(form: Option<string>, volunteer: Option<string>)

  /** `link?.trim()` is truthy. */
  predicate LinkShown(link: Option<string>) {
    link.Some? && JsString.Trim(link.value) != ""
  }

  /**
   * A past event (its instant before now) shows "Registrations Closed";
   * otherwise each of the two links appears only when its trimmed text is
   * not empty, and it points at the untrimmed link.
   */
  function Buttons(e: Event, now: int): (r: PageButtons)
    ensures r == Closed <==> e.date < now
    ensures r.Open? ==> (r.form.Some? <==> LinkShown(e.googleForm))
    ensures r.Open? ==> (r.volunteer.Some? <==> LinkShown(e.volunteerForm))
    ensures r.Open? && r.form.Some? ==> r.form == e.googleForm
    ensures r.Open? && r.volunteer.Some? ==> r.volunteer == e.volunteerForm
  {
    if e.date < now then Closed
    else Open(if LinkShown(e.googleForm) then e.googleForm else None,
              if LinkShown(e.volunteerForm) then e.volunteerForm else None)
  }

  /** The page and the list card agree on when registrations are closed. */
  lemma PageAndCardAgreeOnClosing(e: Event, now: int)
    ensures Buttons(e, now) == Closed <==> EventCard.Action(e, now) == EventCard.RegistrationsClosed
  {
  }

  /**
   * They disagree on a blank link: a form link of one space gives the card a
   * register link, but no form button on the page.
   */
  lemma BlankLinkDisagreement(e: Event, now: int)
    requires e.date >= now && e.googleForm == Some(" ")
    ensures EventCard.Action(e, now) == EventCard.RegisterNow(" ")
    ensures Buttons(e, now).Open? && Buttons(e, now).form.None?
  {
    JsString.TrimAfterSpaces(" ", "");
  }

  /** The page state that the gallery uses. */
  class GalleryState {
    /** The fetched event's images after the default. */
    var images: seq<Image>
    var currentIndex: int
    /** Whether the auto-advance interval is running. */
    var autoAdvance: bool

    constructor ()
      ensures images == [] && currentIndex == 0 && !autoAdvance
    {
      images := [];
      currentIndex := 0;
      autoAdvance := false;
    }

    /** The fetched event arrives: its images default, and the timer starts only for several images. */
    method Load(field: ImagesField)
      modifies this
      ensures images == NormalizeImages(field)
      ensures autoAdvance <==> |images| > 1
      ensures currentIndex == old(currentIndex)
    {
      images := NormalizeImages(field);
      autoAdvance := |images| > 1;
    }

    /** The right arrow: the timer stops and the index moves to its successor. */
    method HandleNext()
      modifies this
      ensures currentIndex == Next(old(currentIndex), |images|)
      ensures images == old(images) && !autoAdvance
      ensures 0 <= old(currentIndex) < |images| ==> 0 <= currentIndex < |images|
    {
      autoAdvance := false;
      currentIndex := if currentIndex == |images| - 1 then 0 else currentIndex + 1;
    }

    /** The left arrow: the timer stops and the index moves to its predecessor. */
    method HandlePrev()
      modifies this
      ensures currentIndex == Prev(old(currentIndex), |images|)
      ensures images == old(images) && !autoAdvance
      ensures 0 <= old(currentIndex) < |images| ==> 0 <= currentIndex < |images|
    {
      autoAdvance := false;
      currentIndex := if currentIndex == 0 then |images| - 1 else currentIndex - 1;
    }

    /** One firing of the interval: it advances like the right arrow, and only while it runs. */
    method Tick()
      modifies this
      ensures autoAdvance ==> currentIndex == Next(old(currentIndex), |images|)
      ensures !autoAdvance ==> currentIndex == old(currentIndex)
      ensures images == old(images) && autoAdvance == old(autoAdvance)
    {
      if autoAdvance {
        currentIndex := if currentIndex == |images| - 1 then 0 else currentIndex + 1;
      }
    }
  }
}
