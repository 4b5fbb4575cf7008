/**
 * The event list component (Frontend/src/components/EventComponent/Event.jsx):
 * which events get a card, what the card shows for the time, and which action
 * it offers. The current instant is a parameter.
 */
module EventCard {
  import opened Wrappers
  import opened EventModel
  import JsString

  /** The text filters App passes down; an empty string is no filter. */
  datatype CardFilters = CardFilters(searchQuery: string, department: string, category: string)

  /** The filter chain of one card: each set filter must hold. */
  predicate Shown(e: Event, f: CardFilters) {
    && (f.searchQuery == "" || JsString.Includes(JsString.ToLower(e.title), JsString.ToLower(f.searchQuery)))
    && (f.department == "" || f.department in e.department)
    && (f.category == "" || f.category in e.categories)
  }

  /** A title search ignores letter case on both sides. */
  lemma SearchIgnoresCase(e: Event, q: string)
    ensures Shown(e, CardFilters(q, "", "")) <==> Shown(e, CardFilters(JsString.ToLower(q), "", ""))
  {
    var lq := JsString.ToLower(q);
    assert JsString.ToLower(lq) == lq;
  }

  /** The non-null entries of the list that pass the filters, in their order. */
  function Kept(xs: seq<Option<(EventId, Event)>>, f: CardFilters): (r: seq<(EventId, Event)>)
    ensures |r| <= |xs|
    ensures forall x :: x in r ==> Some(x) in xs && Shown(x.1, f)
    ensures forall x :: Some(x) in xs && Shown(x.1, f) ==> x in r
  {
    if |xs| == 0 then []
    else
      var rest := Kept(xs[1..], f);
      assert forall x :: Some(x) in xs[1..] ==> Some(x) in xs;
      assert forall y :: y in xs ==> y == xs[0] || y in xs[1..];
      match xs[0]
      case None => rest
      case Some(x) => if Shown(x.1, f) then [x] + rest else rest
  }

  /** Filtering commutes with concatenation: shown events keep their relative order. */
  lemma {:induction false} KeptAppend(a: seq<Option<(EventId, Event)>>, b: seq<Option<(EventId, Event)>>, f: CardFilters)
    ensures Kept(a + b, f) == Kept(a, f) + Kept(b, f)
    decreases |a|
  {
    if |a| > 0 {
      assert (a + b)[1..] == a[1..] + b;
      KeptAppend(a[1..], b, f);
    } else {
      assert a + b == b;
    }
  }

  /** `time ? time.split(" - ") : ["N/A", "N/A"]`: the start, and the end if there is one. */
  function SplitTime(time: string): (r: (string, Option<string>))
    ensures time == "" ==> r == ("N/A", Some("N/A"))
    ensures time != "" ==> r.0 == JsString.Split(time, " - ")[0]
    ensures time != "" ==> (r.1.None? <==> |JsString.Split(time, " - ")| == 1)
    ensures time != "" && |JsString.Split(time, " - ")| >= 2 ==> r.1 == Some(JsString.Split(time, " - ")[1])
  {
    if time == "" then ("N/A", Some("N/A"))
    else
      var pieces := JsString.Split(time, " - ");
      (pieces[0], if |pieces| >= 2 then Some(pieces[1]) else None)
  }

  /** A time without " - " is all start and no end. */
  lemma TimeWithoutSeparator(time: string)
    requires time != "" && !JsString.Includes(time, " - ")
    ensures SplitTime(time) == (time, None)
  {
    JsString.SplitNoOccurrence(time, " - ");
  }

  /** When the time holds exactly one " - ", start and end put back together give the time. */
  lemma TimeRoundTrip(time: string)
    requires time != "" && |JsString.Split(time, " - ")| == 2
    ensures SplitTime(time).1.Some?
    ensures SplitTime(time).0 + " - " + SplitTime(time).1.value == time
  {
    var pieces := JsString.Split(time, " - ");
    JsString.JoinSplit(time, " - ");
    assert pieces[1..] == [pieces[1]];
  }

  /** The action a card offers. */
  datatype CardAction = RegistrationsClosed | RegisterNow(link: string) | NoRegistration

  /** Past is the instant, not the day: an event earlier today is already closed. */
  function Action(e: Event, now: int): (a: CardAction)
    ensures a == RegistrationsClosed <==> e.date < now
    ensures a.RegisterNow? <==> e.date >= now && e.googleForm.Some? && e.googleForm.value != ""
    ensures a.RegisterNow? ==> a.link == e.googleForm.value
  {
    if e.date < now then RegistrationsClosed
    else if e.googleForm.Some? && e.googleForm.value != "" then RegisterNow(e.googleForm.value)
    else NoRegistration
  }

  /** One rendered card. */
  datatype Card = Card(id: EventId, title: string, start: string, end: Option<string>, venue: string, action: CardAction)

  function CardOf(x: (EventId, Event), now: int): (c: Card)
    ensures c.id == x.0 && c.title == x.1.title && c.action == Action(x.1, now)
  {
    var (start, end) := SplitTime(x.1.time);
    Card(x.0, x.1.title, start, end, x.1.venue, Action(x.1, now))
  }

  function CardsOf(xs: seq<(EventId, Event)>, now: int): (r: seq<Card>)
    ensures |r| == |xs| && forall i :: 0 <= i < |xs| ==> r[i] == CardOf(xs[i], now)
  {
    seq(|xs|, i requires 0 <= i < |xs| => CardOf(xs[i], now))
  }

  /** What the component renders. */
  datatype Rendered = NoEventsAvailable | Cards(cards: seq<Card>)

  /**
   * An absent or empty list renders the "No Events Available" notice; a
   * non-empty list renders one card per shown event, possibly none at all.
   */
  function Render(eventData: Option<seq<Option<(EventId, Event)>>>, f: CardFilters, now: int): (r: Rendered)
    ensures r == NoEventsAvailable <==> eventData.None? || |eventData.value| == 0
    ensures r.Cards? ==> r.cards == CardsOf(Kept(eventData.value, f), now)
  {
    if eventData.None? || |eventData.value| == 0 then NoEventsAvailable
    else Cards(CardsOf(Kept(eventData.value, f), now))
  }

  /** A non-empty list whose entries are all filtered out renders no card and no notice. */
  lemma AllFilteredShowsNothing(xs: seq<Option<(EventId, Event)>>, f: CardFilters, now: int)
    requires |xs| > 0
    requires forall i :: 0 <= i < |xs| ==> xs[i].None? || !Shown(xs[i].value.1, f)
    ensures Render(Some(xs), f, now) == Cards([])
  {
    NothingKept(xs, f);
  }

  /** No entry passes the filters, so nothing is kept. */
  lemma {:induction false} NothingKept(xs: seq<Option<(EventId, Event)>>, f: CardFilters)
    requires forall i :: 0 <= i < |xs| ==> xs[i].None? || !Shown(xs[i].value.1, f)
    ensures Kept(xs, f) == []
    decreases |xs|
  {
    if |xs| > 0 {
      NothingKept(xs[1..], f);
    }
  }
}
