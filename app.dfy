/**
 * The application shell (Frontend/src/App.jsx): the protected-route gate, the
 * stored-token check, the event list pipeline (query, classification by
 * calendar day, newest-first sort, event-type filter) and which action buttons
 * appear. The clock and the local time zone's offset are parameters.
 */
module App {
  import opened Wrappers
  import opened EventModel
  import Auth
  import UserModel
  import EventController

  // ------------------------------------------------------------------ routes and session

  /** What a protected route renders. */
  datatype View = LoadingView | ElementView | RedirectToSignin

  /** ProtectedRoute: loading while the session is unknown, the page when signed in, else a redirect. */
  function ProtectedRoute(isAuthenticated: Option<bool>): (v: View)
    ensures v == LoadingView <==> isAuthenticated.None?
    ensures v == ElementView <==> isAuthenticated == Some(true)
    ensures v == RedirectToSignin <==> isAuthenticated == Some(false)
  {
    match isAuthenticated
    case None => LoadingView
    case Some(b) => if b then ElementView else RedirectToSignin
  }

  /** The session state App keeps. */
  class Session {
    /** null until the first check. */
    var isAuthenticated: Option<bool>
    var userEmail: string

    constructor ()
      ensures isAuthenticated == None && userEmail == ""
    {
      isAuthenticated := None;
      userEmail := "";
    }

    /** checkAuth: signed in exactly when a non-empty token is stored. */
    method CheckAuth(token: Option<string>, email: Option<string>)
      modifies this
      ensures isAuthenticated == Some(token.Some? && token.value != "")
      ensures isAuthenticated == Some(true) ==> userEmail == email.GetOr("")
      ensures isAuthenticated == Some(false) ==> userEmail == old(userEmail)
    {
      if token.Some? && token.value != "" {
        isAuthenticated := Some(true);
        userEmail := email.GetOr("");
      } else {
        isAuthenticated := Some(false);
      }
    }
  }

  // ------------------------------------------------------------------ the list query

  /** The filter state shared with the filter bar. */
  datatype FilterState = FilterState(searchQuery: string, department: string, category: string, eventType: string)

  const InitialFilters: FilterState := FilterState("", "", "", "all")

  /** The value of the first query parameter with this name. */
  function Param(query: seq<(string, string)>, name: string): (r: Option<string>)
    ensures r.Some? ==> (name, r.value) in query
    ensures r.None? ==> forall i :: 0 <= i < |query| ==> query[i].0 != name
  {
    if |query| == 0 then None
    else if query[0].0 == name then Some(query[0].1)
    else Param(query[1..], name)
  }

  /** fetchEvents' URLSearchParams: one parameter per non-empty text filter; the event type is never sent. */
  method BuildQuery(f: FilterState) returns (query: seq<(string, string)>)
    ensures Param(query, "title") == (if f.searchQuery != "" then Some(f.searchQuery) else None)
    ensures Param(query, "department") == (if f.department != "" then Some(f.department) else None)
    ensures Param(query, "category") == (if f.category != "" then Some(f.category) else None)
    ensures Param(query, "eventType") == None
    ensures forall i :: 0 <= i < |query| ==> query[i].1 != ""
    ensures |query| <= 3
  {
    query := [];
    if f.searchQuery != "" {
      query := query + [("title", f.searchQuery)];
    }
    if f.department != "" {
      query := query + [("department", f.department)];
    }
    if f.category != "" {
      query := query + [("category", f.category)];
    }
  }

  // ------------------------------------------------------------------ classification

  const MsPerDay: int := 24 * 60 * 60 * 1000

  /** The local calendar day of an instant, in a time zone `offset` milliseconds ahead of UTC. */
  function LocalDay(ms: int, offset: int): int {
    (ms + offset) / MsPerDay
  }

  /** A later instant never falls on an earlier day. */
  lemma LocalDayMonotone(a: int, b: int, offset: int)
    requires a <= b
    ensures LocalDay(a, offset) <= LocalDay(b, offset)
  {
    var qa, qb := (a + offset) / MsPerDay, (b + offset) / MsPerDay;
    var ra, rb := (a + offset) % MsPerDay, (b + offset) % MsPerDay;
    assert a + offset == MsPerDay * qa + ra && b + offset == MsPerDay * qb + rb;
    assert MsPerDay * (qa - qb) < MsPerDay;
  }

  datatype EventType = Past | Ongoing | Upcoming

  function EventTypeName(t: EventType): string {
    match t
    case Past => "past"
    case Ongoing => "ongoing"
    case Upcoming => "upcoming"
  }

  /** An event's type: its calendar day before, on or after today's. */
  function Classify(date: int, now: int, offset: int): (t: EventType)
    ensures t == Past <==> LocalDay(date, offset) < LocalDay(now, offset)
    ensures t == Ongoing <==> LocalDay(date, offset) == LocalDay(now, offset)
    ensures t == Upcoming <==> LocalDay(date, offset) > LocalDay(now, offset)
  {
    var day, today := LocalDay(date, offset), LocalDay(now, offset);
    if day < today then Past else if day == today then Ongoing else Upcoming
  }

  /** The order of the types along time: past, then ongoing, then upcoming. */
  function Rank(t: EventType): nat {
    match t
    case Past => 0
    case Ongoing => 1
    case Upcoming => 2
  }

  /** A later date never gets an earlier type. */
  lemma ClassifyMonotone(a: int, b: int, now: int, offset: int)
    requires a <= b
    ensures Rank(Classify(a, now, offset)) <= Rank(Classify(b, now, offset))
  {
    LocalDayMonotone(a, b, offset);
  }

  /**
   * The client's "ongoing" is a whole local day; the unmounted controller's is
   * the single instant of UTC midnight. One millisecond after that midnight,
   * with no offset, the two disagree.
   */
  lemma OngoingIsWiderThanTheServerFilter(now: int)
    ensures var t := EventController.StartOfUtcDay(now) + 1;
            Classify(t, now, 0) == Ongoing
            && !EventController.DateSatisfies(EventController.OnInstant(EventController.StartOfUtcDay(now)), t)
            && EventController.DateSatisfies(EventController.After(EventController.StartOfUtcDay(now)), t)
  {
    var q := now / MsPerDay;
    var start := EventController.StartOfUtcDay(now);
    assert now == MsPerDay * q + now % MsPerDay;
    assert start == MsPerDay * q;
    assert (MsPerDay * q + 1) / MsPerDay == q;
  }

  /** An event as the list receives it, with the type the pipeline writes into it. */
  datatype Listed = Listed(id: EventId, event: Event, eventType: Option<EventType>)

  /** Every event of the list with its type written in. */
  function Classified(xs: seq<Listed>, now: int, offset: int): (r: seq<Listed>)
    ensures |r| == |xs|
    ensures forall i :: 0 <= i < |xs| ==>
              r[i].id == xs[i].id && r[i].event == xs[i].event
              && r[i].eventType == Some(Classify(xs[i].event.date, now, offset))
  {
    seq(|xs|, i requires 0 <= i < |xs| => xs[i].(eventType := Some(Classify(xs[i].event.date, now, offset))))
  }

  /** The `data.map` that writes each event's type into it. */
  method ClassifyAll(a: array<Listed>, now: int, offset: int)
    modifies a
    ensures a[..] == Classified(old(a[..]), now, offset)
  {
    for i := 0 to a.Length
      invariant forall k :: 0 <= k < i ==>
                  a[k] == old(a[k]).(eventType := Some(Classify(old(a[k]).event.date, now, offset)))
      invariant forall k :: i <= k < a.Length ==> a[k] == old(a[k])
    {
      a[i] := a[i].(eventType := Some(Classify(a[i].event.date, now, offset)));
    }
  }

  // ------------------------------------------------------------------ sort

  /** Ordered by date, newest first. */
  predicate NewestFirst(s: seq<Listed>) {
    forall i, j :: 0 <= i < j < |s| ==> DateOf(s[i]) >= DateOf(s[j])
  }

  /** `sort((a, b) => b.date - a.date)`, as an insertion sort in place. */
  method SortNewestFirst(a: array<Listed>)
    modifies a
    ensures NewestFirst(a[..])
    ensures multiset(a[..]) == multiset(old(a[..]))
  {
    for i := 0 to a.Length
      invariant NewestFirst(a[..i])
      invariant multiset(a[..]) == multiset(old(a[..]))
    {
      InsertIntoSorted(a, i);
    }
    assert a[..a.Length] == a[..];
  }

  /** Moves `a[i]` left past every older event, extending the sorted prefix by one. */
  method InsertIntoSorted(a: array<Listed>, i: nat)
    requires i < a.Length && NewestFirst(a[..i])
    modifies a
    ensures NewestFirst(a[..i + 1])
    ensures multiset(a[..]) == multiset(old(a[..]))
  {
    var j := i;
    while j > 0 && DateOf(a[j - 1]) < DateOf(a[j])
      invariant 0 <= j <= i
      invariant multiset(a[..]) == multiset(old(a[..]))
      invariant forall k, l :: 0 <= k < l <= i && k != j && l != j ==> DateOf(a[k]) >= DateOf(a[l])
      invariant forall l :: j < l <= i ==> DateOf(a[j]) > DateOf(a[l])
    {
      Swap(a, j - 1, j);
      j := j - 1;
    }
  }

  function DateOf(x: Listed): int {
    x.event.date
  }

  /** Exchanges two entries. */
  method Swap(a: array<Listed>, i: nat, j: nat)
    requires i < a.Length && j < a.Length
    modifies a
    ensures a[..] == old(a[..])[i := old(a[j])][j := old(a[i])]
    ensures multiset(a[..]) == multiset(old(a[..]))
  {
    a[i], a[j] := a[j], a[i];
  }

  /** In a newest-first list the types run upcoming, then ongoing, then past. */
  lemma NewestFirstGroupsTypes(xs: seq<Listed>, now: int, offset: int)
    requires NewestFirst(xs)
    ensures forall i, j :: 0 <= i < j < |xs| ==>
              Rank(Classify(xs[i].event.date, now, offset)) >= Rank(Classify(xs[j].event.date, now, offset))
  {
    forall i, j | 0 <= i < j < |xs|
      ensures Rank(Classify(xs[i].event.date, now, offset)) >= Rank(Classify(xs[j].event.date, now, offset))
    {
      ClassifyMonotone(xs[j].event.date, xs[i].event.date, now, offset);
    }
  }

  // ------------------------------------------------------------------ event-type filter

  predicate HasType(x: Listed, name: string) {
    x.eventType.Some? && EventTypeName(x.eventType.value) == name
  }

  /** `filter(event => event.eventType === name)`, keeping the order. */
  function OfType(xs: seq<Listed>, name: string): (r: seq<Listed>)
    ensures |r| <= |xs|
    ensures forall x :: x in r ==> x in xs && HasType(x, name)
    ensures forall x :: x in xs && HasType(x, name) ==> x in r
  {
    if |xs| == 0 then []
    else if HasType(xs[0], name) then [xs[0]] + OfType(xs[1..], name)
    else OfType(xs[1..], name)
  }

  /** Filtering a concatenation filters each part: the kept events stay in order, with their repeats. */
  lemma {:induction false} OfTypeAppend(xs: seq<Listed>, ys: seq<Listed>, name: string)
    ensures OfType(xs + ys, name) == OfType(xs, name) + OfType(ys, name)
    decreases |xs|
  {
    if |xs| == 0 {
      assert xs + ys == ys;
    } else {
      assert (xs + ys)[1..] == xs[1..] + ys;
      OfTypeAppend(xs[1..], ys, name);
    }
  }

  /** A single event is kept exactly when it has the type. */
  lemma OfTypeOne(x: Listed, name: string)
    ensures OfType([x], name) == if HasType(x, name) then [x] else []
  {
    assert [x][1..] == [];
  }

  /** Filtering a newest-first list leaves it newest first. */
  lemma {:induction false} OfTypeKeepsOrder(xs: seq<Listed>, name: string)
    requires NewestFirst(xs)
    ensures NewestFirst(OfType(xs, name))
    decreases |xs|
  {
    if |xs| > 0 {
      assert NewestFirst(xs[1..]);
      OfTypeKeepsOrder(xs[1..], name);
      var rest := OfType(xs[1..], name);
      if HasType(xs[0], name) {
        var r := [xs[0]] + rest;
        forall i, j | 0 <= i < j < |r| ensures r[i].event.date >= r[j].event.date {
          if i == 0 {
            assert r[j] in rest;
            assert r[j] in xs[1..];
          } else {
            assert r[i] == rest[i - 1] && r[j] == rest[j - 1];
          }
        }
      }
    }
  }

  /** The list App shows: "all" keeps every event, another value only the events of that type. */
  function SelectByType(xs: seq<Listed>, eventType: string): (r: seq<Listed>)
    ensures eventType == "all" ==> r == xs
    ensures eventType != "all" ==> forall x :: x in r <==> x in xs && HasType(x, eventType)
  {
    if eventType == "all" then xs else OfType(xs, eventType)
  }

  /** fetchEvents after the response: classify in place, sort in place, then filter by type. */
  method ShowEvents(a: array<Listed>, eventType: string, now: int, offset: int) returns (shown: seq<Listed>)
    modifies a
    ensures NewestFirst(shown)
    ensures multiset(a[..]) == multiset(Classified(old(a[..]), now, offset))
    ensures eventType == "all" ==> shown == a[..]
    ensures eventType != "all" ==> shown == OfType(a[..], eventType)
    ensures forall x :: x in shown <==> x in Classified(old(a[..]), now, offset) && (eventType == "all" || HasType(x, eventType))
    ensures forall x :: x in shown ==> x.eventType == Some(Classify(x.event.date, now, offset))
  {
    ghost var classified := Classified(old(a[..]), now, offset);
    ClassifyAll(a, now, offset);
    SortNewestFirst(a);
    assert forall x :: x in a[..] <==> x in classified by {
      assert forall x :: x in a[..] <==> x in multiset(a[..]);
      assert forall x :: x in classified <==> x in multiset(classified);
    }
    if eventType != "all" {
      OfTypeKeepsOrder(a[..], eventType);
    }
    shown := SelectByType(a[..], eventType);
  }

  // ------------------------------------------------------------------ buttons

  /** The filter bar and the buttons under it are hidden on these pages. */
  function HideFilterBar(path: string): (hidden: bool)
    ensures hidden <==> path == "/signin" || path == "/signup" || path == "/team"
  {
    path in ["/signin", "/signup", "/team"]
  }

  datatype Button = AddEventButton | AddStudentButton | DesignedByButton

  /** The buttons shown under the filter bar, left group first. */
  function Buttons(path: string, isAuthenticated: Option<bool>, role: Option<string>, canAddEvent: bool)
    : (r: seq<Button>)
    ensures HideFilterBar(path) <==> r == []
    ensures AddStudentButton in r <==> !HideFilterBar(path) && isAuthenticated == Some(true) && role == Some("faculty")
    ensures AddEventButton in r <==>
              !HideFilterBar(path) && isAuthenticated == Some(true)
              && (role == Some("faculty") || (role == Some("student") && canAddEvent))
  {
    if HideFilterBar(path) then []
    else
      var left :=
        if isAuthenticated == Some(true) && role == Some("faculty") then [AddEventButton, AddStudentButton]
        else if isAuthenticated == Some(true) && role == Some("student") && canAddEvent then [AddEventButton]
        else [];
      left + [DesignedByButton]
  }

  /**
   * With the role and flag the server reports for a signed-in user, a student
   * sees "Add Event" exactly when a faculty member has verified them.
   */
  lemma StudentAddsEventsOnceVerified(users: Auth.Store, id: UserModel.UserId, path: string)
    requires Auth.StoreInvariant(users) && id in users && users[id].role == UserModel.Student
    requires !HideFilterBar(path)
    ensures var p := Auth.GetUserReply(users, id).value;
            AddEventButton in Buttons(path, Some(true), Some(UserModel.RoleName(p.role)), p.canAddEvent)
            <==> users[id].isFacultyVerified
  {
    assert Auth.UserConsistent(users, users[id]);
  }
}
