/** The class detail page: it looks a class up by the numeric id in its route among
    five fixed classes and shows its title, description, time range and trainer.
    The locale formatting of a date and of a time of day is left to the two
    formatter functions the page is given. */
module ClassDetails {
  import opened Wrappers
  import JsNumber
  import ClassTimetable

  /** One class of the page's table; `start` and `end` are local date-times written
      as `YYYY-MM-DDTHH:MM:SS`. */
  datatype ClassRecord = ClassRecord(
    id: int,
    title: string,
    description: string,
    trainer: string,
    start: string,
    end: string)

  /** The classes the page knows about. */
  const EVENTS: seq<ClassRecord> := [
    ClassRecord(1, "Yoga", "Yoga class for beginners", "John Doe",
      "2023-08-02T12:00:00", "2023-08-02T13:00:00"),
    ClassRecord(2, "Pilates", "Pilates workout for core strength", "Jane Smith",
      "2023-08-02T13:00:00", "2023-08-02T14:00:00"),
    ClassRecord(3, "Boxing", "Boxing training for all levels", "Mike Johnson",
      "2023-08-05T09:00:00", "2023-08-05T10:00:00"),
    ClassRecord(4, "Hit Fit", "High-Intensity Training (HIT) session", "Sarah Williams",
      "2023-08-04T13:00:00", "2023-08-04T14:00:00"),
    ClassRecord(5, "Strength Training", "Strength training with weights", "Alex Davis",
      "2023-08-01T13:00:00", "2023-08-01T14:00:00")
  ]

  const SITE_SUFFIX: string := " - Roids Fitness Gym"

  /** `event.id === id` where `id` is the parsed route id; `NaN` (`None`) equals nothing. */
  predicate Matches(e: ClassRecord, id: Option<int>)
  {
    id == Some(e.id)
  }

  /** The position of the first class whose id is `id`. */
  function FindIndex(events: seq<ClassRecord>, id: Option<int>): (r: Option<nat>)
    ensures r.Some? ==> r.value < |events| && Matches(events[r.value], id)
    ensures r.Some? ==> forall j :: 0 <= j < r.value ==> !Matches(events[j], id)
    ensures r.None? ==> forall j :: 0 <= j < |events| ==> !Matches(events[j], id)
  {
    if events == [] then None
    else if Matches(events[0], id) then Some(0)
    else
      match FindIndex(events[1..], id)
      case None => None
      case Some(i) => Some(i + 1)
  }

  /** `events.find(...)`: the first class whose id is `id`, or `undefined` (`None`). */
  function Find(events: seq<ClassRecord>, id: Option<int>): (r: Option<ClassRecord>)
    ensures r.Some? ==> r.value in events && id == Some(r.value.id)
    ensures r.Some? ==> exists i :: (0 <= i < |events| && events[i] == r.value
      && forall j :: 0 <= j < i ==> !Matches(events[j], id))
    ensures r.None? <==> forall e :: e in events ==> !Matches(e, id)
  {
    match FindIndex(events, id)
    case None => None
    case Some(i) => Some(events[i])
  }

  /** The table holds five classes with the distinct ids 1 to 5, in that order. */
  lemma TableIds()
    ensures |EVENTS| == 5
    ensures forall i :: 0 <= i < |EVENTS| ==> EVENTS[i].id == i + 1
    ensures forall i, j :: 0 <= i < j < |EVENTS| ==> EVENTS[i].id != EVENTS[j].id
  {
  }

  /** Looking up an id finds a class exactly when the id is 1 to 5, and then it finds the
      class with that id; `NaN` finds nothing. */
  lemma TableLookup(id: Option<int>)
    ensures Find(EVENTS, id).Some? <==> id.Some? && 1 <= id.value <= 5
    ensures Find(EVENTS, id).Some? ==> Find(EVENTS, id) == Some(EVENTS[id.value - 1])
  {
    TableIds();
    if id.Some? && 1 <= id.value <= 5 {
      assert Matches(EVENTS[id.value - 1], id);
    }
  }

  /** The single-string form of a time range: the start's date, the start's time and
      the end's time. */
  function FormatRange(
    formatDate: string -> string, formatTime: string -> string, start: string, end: string): string
  {
    formatDate(start) + ", " + formatTime(start) + " - " + formatTime(end)
  }

  /** What the page shows. */
  datatype DetailsPage = DetailsPage(
    documentTitle: string,
    heading: string,
    description: string,
    timeLine: string,
    trainerLine: string)

  /** A rendered page, or the `TypeError` the page raises when it reads `start` of an
      `undefined` class. */
  datatype Rendering = Page(page: DetailsPage) | TypeError

  /** The page for one class. */
  function RenderDetails(
    event: ClassRecord, formatDate: string -> string, formatTime: string -> string): DetailsPage
  {
    var formattedDate := formatDate(event.start);
    var formattedTimeRange := formatTime(event.start) + " - " + formatTime(event.end);
    DetailsPage(
      event.title + SITE_SUFFIX,
      event.title,
      event.description,
      "Time: " + formattedDate + ", " + formattedTimeRange,
      "Trainer: " + event.trainer)
  }

  /** The page for the route parameter `routeId`: when the parsed id is 1 to 5, every
      text on it comes from the table's class with that id, and the time line is
      "Time: " followed by that one class's formatted range; any other id gives a
      `TypeError`. */
  function ClassDetailsPage(
    routeId: string, formatDate: string -> string, formatTime: string -> string): (r: Rendering)
    ensures r.TypeError? <==> !(JsNumber.ParseInt(routeId).Some? && 1 <= JsNumber.ParseInt(routeId).value <= 5)
    ensures r.Page? ==>
      var e := EVENTS[JsNumber.ParseInt(routeId).value - 1];
      && r.page.documentTitle == e.title + SITE_SUFFIX
      && r.page.heading == e.title
      && r.page.description == e.description
      && r.page.timeLine == "Time: " + FormatRange(formatDate, formatTime, e.start, e.end)
      && r.page.trainerLine == "Trainer: " + e.trainer
  {
    var id := JsNumber.ParseInt(routeId);
    TableLookup(id);
    match Find(EVENTS, id)
    case None => TypeError
    case Some(event) =>
      TimeLineIsRange(formatDate(event.start), formatTime(event.start), formatTime(event.end));
      Page(RenderDetails(event, formatDate, formatTime))
  }

  /** The time line's pieces, joined as the page joins them, read as "Time: " and a range. */
  lemma TimeLineIsRange(date: string, from: string, to: string)
    ensures "Time: " + date + ", " + (from + " - " + to) == "Time: " + (date + ", " + from + " - " + to)
  {
  }

  /** A route parameter that `parseInt` reads as `n` shows the table's class `n` when
      `n` is 1 to 5, and fails with a `TypeError` otherwise. */
  lemma PageOfParsedId(routeId: string, n: int, formatDate: string -> string, formatTime: string -> string)
    requires JsNumber.ParseInt(routeId) == Some(n)
    ensures ClassDetailsPage(routeId, formatDate, formatTime)
      == if 1 <= n <= 5 then Page(RenderDetails(EVENTS[n - 1], formatDate, formatTime)) else TypeError
  {
    if 1 <= n <= 5 {
      TableLookup(Some(n));
    }
  }

  /** Clicking a timetable event opens the page of the table's class with that id when
      the id is 1 to 5, and fails with a `TypeError` for every other id. */
  lemma OpenFromTimetable(n: int, formatDate: string -> string, formatTime: string -> string)
    ensures ClassDetailsPage(ClassTimetable.ClassPath(n)[7..], formatDate, formatTime)
      == if 1 <= n <= 5 then Page(RenderDetails(EVENTS[n - 1], formatDate, formatTime)) else TypeError
  {
    PageOfParsedId(ClassTimetable.ClassPath(n)[7..], n, formatDate, formatTime);
  }
}
