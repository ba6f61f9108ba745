/** The class timetable page: it fetches every class, colours the ones the signed-in
    user takes part in, shows them on a weekly calendar, counts the coloured ones that
    fall in the current Sunday-to-Saturday week, and picks a day or week layout from
    the window width. */
module ClassTimetable {
  import opened Wrappers
  import opened LocalTime
  import JsNumber

  type UserId = string

  /** One entry of a participant list as JavaScript holds it: a user id, or `None` for `null`. */
  type Participant = Option<UserId>

  /** A calendar event as the class converter hands it over. `start` and `end` are local
      wall-clock instants (see `LocalTime`); `backColor` is absent (`None`) until the
      page colours the event. */
  datatype Event = Event(
    id: int,
    text: string,
    start: int,
    end: int,
    participantList: seq<Participant>,
    backColor: Option<string>)

  /** The colour of a class the user takes part in. */
  const HIGHLIGHT: string := "#FE3434"
  /** The colour of every other class. */
  const PLAIN: string := "#E8EAED"
  /** The widest window, in CSS pixels, that still gets the one-day layout. */
  const MOBILE_MAX_WIDTH: int := 768

  datatype ViewType = Day | Week

  /** The bounds the page counts classes between, both inclusive. */
  datatype WeekWindow = WeekWindow(startOfWeek: int, endOfWeek: int)

  // ---------------------------------------------------------------------------
  // Colouring

  /** `{ ...event, backColor: ... }` for one event. */
  function Coloured(e: Event, userId: Option<UserId>): Event
  {
    e.(backColor := Some(if userId in e.participantList then HIGHLIGHT else PLAIN))
  }

  /** `events.map(...)`: every event keeps all its fields and gets the highlight colour
      exactly when the stored user id (`None` when no user is stored) is in its
      participant list, the plain colour otherwise. */
  function Colour(events: seq<Event>, userId: Option<UserId>): (r: seq<Event>)
    ensures |r| == |events|
    ensures forall i :: 0 <= i < |r| ==> r[i].(backColor := events[i].backColor) == events[i]
    ensures forall i :: 0 <= i < |r| ==>
      (r[i].backColor == Some(HIGHLIGHT) <==> userId in events[i].participantList)
    ensures forall i :: 0 <= i < |r| ==>
      (r[i].backColor == Some(PLAIN) <==> userId !in events[i].participantList)
  {
    if events == [] then []
    else
      assert HIGHLIGHT[1] != PLAIN[1];
      [Coloured(events[0], userId)] + Colour(events[1..], userId)
  }

  /** Every event carries one of the two colours. */
  predicate AllColoured(events: seq<Event>)
  {
    forall i :: 0 <= i < |events| ==>
      events[i].backColor == Some(HIGHLIGHT) || events[i].backColor == Some(PLAIN)
  }

  /** Colouring again, for the same or another user, only replaces the colours:
      the result is what colouring the original events would give. */
  lemma {:induction false} RecolourOverrides(events: seq<Event>, u1: Option<UserId>, u2: Option<UserId>)
    ensures Colour(Colour(events, u1), u2) == Colour(events, u2)
  {
    if events != [] {
      var c := Colour(events, u1);
      assert c[1..] == Colour(events[1..], u1);
      RecolourOverrides(events[1..], u1, u2);
    }
  }

  /** With no stored user the id looked up is `null`: a class is highlighted only when
      its participant list holds a `null` entry, so lists of real ids are all plain. */
  lemma AnonymousSeesPlain(events: seq<Event>)
    requires forall i :: 0 <= i < |events| ==> None !in events[i].participantList
    ensures AllColoured(Colour(events, None))
    ensures forall i :: 0 <= i < |events| ==> Colour(events, None)[i].backColor == Some(PLAIN)
  {
  }

  // ---------------------------------------------------------------------------
  // The current week

  /** The week around `today` as the page computes it: `today` moved back to Sunday and
      forward to Saturday by calendar days, keeping the time of day. */
  function ComputeWeekWindow(today: int): (w: WeekWindow)
    ensures w.startOfWeek <= today <= w.endOfWeek
    ensures w.endOfWeek - w.startOfWeek == 6 * DAY
    ensures DayOfWeek(w.startOfWeek) == 0 && DayOfWeek(w.endOfWeek) == 6
    ensures TimeOfDay(w.startOfWeek) == TimeOfDay(today) == TimeOfDay(w.endOfWeek)
    ensures WeekNumber(w.startOfWeek) == WeekNumber(today) == WeekNumber(w.endOfWeek)
  {
    var dow := DayOfWeek(today);
    AddDaysParts(today, -dow);
    AddDaysParts(today, 6 - dow);
    WeekParts(today, WeekNumber(today), dow);
    WeekParts(AddDays(today, -dow), WeekNumber(today), 0);
    WeekParts(AddDays(today, 6 - dow), WeekNumber(today), 6);
    WeekWindow(AddDays(today, -dow), AddDays(today, 6 - dow))
  }

  predicate InWindow(t: int, w: WeekWindow)
  {
    w.startOfWeek <= t <= w.endOfWeek
  }

  /** Which instants the window holds: those of the same Sunday-to-Saturday week as
      `today`, except the part of Sunday before today's time of day and the part of
      Saturday after it. */
  lemma WindowMembership(today: int, t: int)
    ensures InWindow(t, ComputeWeekWindow(today)) <==>
      WeekNumber(t) == WeekNumber(today)
      && (DayOfWeek(t) == 0 ==> TimeOfDay(t) >= TimeOfDay(today))
      && (DayOfWeek(t) == 6 ==> TimeOfDay(t) <= TimeOfDay(today))
  {
    var w := ComputeWeekWindow(today);
    var k := WeekNumber(today);
    var first, last := 7 * k - 4, 7 * k + 2;
    WeekParts(w.startOfWeek, k, 0);
    WeekParts(w.endOfWeek, k, 6);
    assert DayNumber(w.startOfWeek) == first && DayNumber(w.endOfWeek) == last;
    Order(w.startOfWeek, t);
    Order(t, w.endOfWeek);
    var d := DayNumber(t);
    WeekParts(t, WeekNumber(t), DayOfWeek(t));
    if first <= d <= last {
      WeekParts(t, k, d - first);
    }
  }

  /** Wednesday 2023-08-02 at 15:00, as a local instant (day 19571 after 1970-01-01). */
  const WEDNESDAY_AFTERNOON: int := 19571 * DAY + 15 * 3_600_000

  /** The window the page computes on a Wednesday afternoon leaves out a class at 10:00 on
      the Sunday and one at 18:00 on the Saturday of that same week. */
  lemma WindowMissesWeekEnds()
    ensures var w := ComputeWeekWindow(WEDNESDAY_AFTERNOON);
      var sunday := 19568 * DAY + 10 * 3_600_000;
      var saturday := 19574 * DAY + 18 * 3_600_000;
      WeekNumber(sunday) == WeekNumber(WEDNESDAY_AFTERNOON) && DayOfWeek(sunday) == 0
      && WeekNumber(saturday) == WeekNumber(WEDNESDAY_AFTERNOON) && DayOfWeek(saturday) == 6
      && !InWindow(sunday, w) && !InWindow(saturday, w)
  {
    var sunday := 19568 * DAY + 10 * 3_600_000;
    var saturday := 19574 * DAY + 18 * 3_600_000;
    DayParts(WEDNESDAY_AFTERNOON, 19571, 15 * 3_600_000);
    DayParts(sunday, 19568, 10 * 3_600_000);
    DayParts(saturday, 19574, 18 * 3_600_000);
    WeekParts(WEDNESDAY_AFTERNOON, 2796, 3);
    WeekParts(sunday, 2796, 0);
    WeekParts(saturday, 2796, 6);
    WindowMembership(WEDNESDAY_AFTERNOON, sunday);
    WindowMembership(WEDNESDAY_AFTERNOON, saturday);
  }

  /** The whole calendar week around `today`: from Sunday 00:00 to the last millisecond
      of Saturday. */
  function CalendarWeekWindow(today: int): WeekWindow
  {
    var sunday := AddDays(today, -DayOfWeek(today)) - TimeOfDay(today);
    WeekWindow(sunday, sunday + 7 * DAY - 1)
  }

  /** An instant is in the calendar week window exactly when it falls in the same
      Sunday-to-Saturday week as `today`. */
  lemma CalendarWeekMembership(today: int, t: int)
    ensures InWindow(t, CalendarWeekWindow(today)) <==> WeekNumber(t) == WeekNumber(today)
  {
    var k := WeekNumber(today);
    var dow := DayOfWeek(today);
    var w := CalendarWeekWindow(today);
    AddDaysParts(today, -dow);
    WeekParts(today, k, dow);
    assert w.startOfWeek == (7 * k - 4) * DAY;
    assert w.endOfWeek == (7 * k + 3) * DAY - 1;
    var d := DayNumber(t);
    DayParts(t, d, TimeOfDay(t));
    WeekParts(t, WeekNumber(t), DayOfWeek(t));
    if d < 7 * k - 4 {
      assert t < (7 * k - 4) * DAY;
    } else if d > 7 * k + 2 {
      assert t >= (7 * k + 3) * DAY;
    } else {
      assert (7 * k - 4) * DAY <= t < (7 * k + 3) * DAY;
      WeekParts(t, k, d - (7 * k - 4));
    }
  }

  // ---------------------------------------------------------------------------
  // Counting this week's classes

  predicate IsHighlighted(e: Event)
  {
    e.backColor == Some(HIGHLIGHT)
  }

  /** `xs` is `ys` with some elements left out, the rest in their order. */
  ghost predicate IsSubsequence<T>(xs: seq<T>, ys: seq<T>)
    decreases |ys|
  {
    if xs == [] then true
    else if ys == [] then false
    else (xs[0] == ys[0] && IsSubsequence(xs[1..], ys[1..])) || IsSubsequence(xs, ys[1..])
  }

  /** `classesData.filter(...)`: the highlighted classes that start inside the window
      (both ends included), in their order in `events`. */
  function ClassesThisWeek(events: seq<Event>, w: WeekWindow): (r: seq<Event>)
    ensures |r| <= |events|
    ensures IsSubsequence(r, events)
    ensures forall e :: e in r <==> e in events && IsHighlighted(e) && InWindow(e.start, w)
    ensures forall x :: (multiset(r)[x] ==
      if IsHighlighted(x) && InWindow(x.start, w) then multiset(events)[x] else 0)
  {
    if events == [] then []
    else
      var rest := ClassesThisWeek(events[1..], w);
      assert events == [events[0]] + events[1..];
      if IsHighlighted(events[0]) && InWindow(events[0].start, w) then
        var r := [events[0]] + rest;
        assert r[1..] == rest;
        r
      else
        rest
  }

  /** How many of `events` the user takes part in and start inside the window: the
      count stated on the events as fetched, before any colouring. */
  function CountMine(events: seq<Event>, userId: Option<UserId>, w: WeekWindow): nat
  {
    if events == [] then 0
    else
      (if userId in events[0].participantList && InWindow(events[0].start, w) then 1 else 0)
      + CountMine(events[1..], userId, w)
  }

  /** Counting the highlighted classes after colouring counts exactly the user's own
      classes of the week. */
  lemma {:induction false} CountAfterColouring(events: seq<Event>, userId: Option<UserId>, w: WeekWindow)
    ensures |ClassesThisWeek(Colour(events, userId), w)| == CountMine(events, userId, w)
  {
    if events != [] {
      var c := Colour(events, userId);
      assert c[1..] == Colour(events[1..], userId);
      CountAfterColouring(events[1..], userId, w);
    }
  }

  /** With no stored user and participant lists of real ids, no class is counted. */
  lemma AnonymousCountsNothing(events: seq<Event>, w: WeekWindow)
    requires forall i :: 0 <= i < |events| ==> None !in events[i].participantList
    ensures ClassesThisWeek(Colour(events, None), w) == []
  {
  }

  // ---------------------------------------------------------------------------
  // Navigation

  /** The detail page path a click on the event with id `id` navigates to; the detail
      page's `parseInt` reads the id back from the part after the prefix. */
  function ClassPath(id: int): (path: string)
    ensures |path| > 7 && path[..7] == "/class/"
    ensures JsNumber.ParseInt(path[7..]) == Some(id)
  {
    var path := "/class/" + JsNumber.IntToString(id);
    assert path[7..] == JsNumber.IntToString(id);
    JsNumber.ParseIntRoundTrip(id);
    path
  }

  // ---------------------------------------------------------------------------
  // The page state

  /** The component's state: the coloured classes (`None` before they arrive and after a
      failed fetch), the number of this week's highlighted classes, and the layout. */
  class TimetablePage {
    var classesData: Option<seq<Event>>
    var numberOfClass: nat
    var viewType: ViewType

    /** Whatever the page holds has been coloured. */
    ghost predicate Valid()
      reads this
    {
      classesData.Some? ==> AllColoured(classesData.value)
    }

    /** The state of a freshly mounted page. */
    constructor ()
      ensures Valid()
      ensures classesData == None && numberOfClass == 0 && viewType == Week
    {
      classesData := None;
      numberOfClass := 0;
      viewType := Week;
    }

    /** The fetch handler: `response` is the converted class list, or `None` when the
        request failed; `userId` is the stored user's id, `None` when no user is stored. */
    method GetClasses(response: Option<seq<Event>>, userId: Option<UserId>)
      modifies this`classesData
      ensures Valid()
      ensures response.Some? ==> classesData == Some(Colour(response.value, userId))
      ensures response.None? ==> classesData == None
    {
      match response
      case Some(events) =>
        var colouredEvents := Colour(events, userId);
        classesData := Some(colouredEvents);
      case None =>
        classesData := None;
    }

    /** The resize handler: the one-day layout up to `MOBILE_MAX_WIDTH`, the week layout above. */
    method HandleWindowResize(innerWidth: int)
      requires Valid()
      modifies this`viewType
      ensures Valid()
      ensures (viewType == Day) <==> innerWidth <= MOBILE_MAX_WIDTH
    {
      if innerWidth <= MOBILE_MAX_WIDTH {
        viewType := Day;
      } else {
        viewType := Week;
      }
    }

    /** The handler that runs when the class data changes: with data present and the
        calendar mounted it recounts this week's highlighted classes around `today`;
        otherwise the count stays as it was. */
    method UpdateCalendar(today: int, calendarMounted: bool)
      requires Valid()
      modifies this`numberOfClass
      ensures Valid()
      ensures classesData.Some? && calendarMounted ==>
        numberOfClass == |ClassesThisWeek(classesData.value, ComputeWeekWindow(today))|
        && numberOfClass <= |classesData.value|
      ensures !(classesData.Some? && calendarMounted) ==> numberOfClass == old(numberOfClass)
    {
      if classesData.Some? && calendarMounted {
        var startOfWeek := today;
        startOfWeek := AddDays(startOfWeek, -DayOfWeek(today));
        var endOfWeek := today;
        endOfWeek := AddDays(endOfWeek, 6 - DayOfWeek(today));
        var classesThisWeek := ClassesThisWeek(classesData.value, WeekWindow(startOfWeek, endOfWeek));
        numberOfClass := |classesThisWeek|;
      }
    }
  }

  /** One visit to the page: mount (the data handler finds nothing yet), the initial
      layout check, the fetch, and the data handler once the fetch has settled. Returns
      what the page then holds. */
  method MountAndLoad(innerWidth: int, response: Option<seq<Event>>, userId: Option<UserId>, today: int)
    returns (shown: Option<seq<Event>>, count: nat, view: ViewType)
    ensures (view == Day) <==> innerWidth <= MOBILE_MAX_WIDTH
    ensures response.None? ==> shown == None && count == 0
    ensures response.Some? ==>
      shown == Some(Colour(response.value, userId))
      && count == CountMine(response.value, userId, ComputeWeekWindow(today))
  {
    var page := new TimetablePage();
    page.UpdateCalendar(today, true);
    page.HandleWindowResize(innerWidth);
    page.GetClasses(response, userId);
    page.UpdateCalendar(today, true);
    shown, count, view := page.classesData, page.numberOfClass, page.viewType;
    if response.Some? {
      CountAfterColouring(response.value, userId, ComputeWeekWindow(today));
    }
  }
}
