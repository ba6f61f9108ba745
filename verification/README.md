# Roids Fitness gym client: class timetable and class details

A Dafny model of the two pages of the gym's web client that hold logic.

- **Class timetable** (`src/pages/ClassTimetable.jsx`). The page fetches every class. It colours red (`#FE3434`) the classes whose participant list holds the stored user's id, and grey (`#E8EAED`) all other classes. It shows them on a calendar. It counts the red classes that start inside the current Sunday-to-Saturday window around "today" and stores that count in `numberOfClass`. It picks the one-day layout for windows up to 768 pixels wide and the week layout otherwise. A click on a class opens `/class/<id>`.
- **Class details** (`src/pages/ClassDetails.jsx`). The page looks a class up in a fixed table of five classes, using the id that `parseInt` reads from the route. It shows the class's title, description, trainer and a "Time:" line. That line is built from the locale-formatted date of the start, the start time and the end time.

Modules:

- `Wrappers` (wrappers.dfy): `Option`. `None` stands for `null`, `undefined` or `NaN`.
- `LocalTime` (local_time.dfy): instants are integers counting local wall-clock milliseconds from 1970-01-01 00:00. The module gives the day number, the time of day, `getDay()` (0 is Sunday) and the week number. `AddDays` is the shift `setDate(getDate() + n)` makes.
- `JsNumber` (js_number.dfy): `parseInt` with no radix argument, and the decimal text of an integer as a template literal writes it.
- `ClassTimetable` (class_timetable.dfy): events, colouring, the week window, the weekly filter and the page state. The page state is the class `TimetablePage`. It has the fields `classesData`, `numberOfClass` and `viewType`, and one method per effect handler.
- `ClassDetails` (class_details.dfy): the fixed table, the lookup and the rendered texts. The two locale formatters are function parameters.

Behaviour of the code worth knowing:

- The week window keeps today's time of day. It runs from Sunday at that time to Saturday at that time, so the two ends are exactly 6 days apart. It does not start and end at midnight and does not span 7 days. `WindowMembership` states exactly which instants the window holds (see "## Findings").
- With no stored user, the id looked up is `null`. A class whose participant list holds a `null` entry is then red.
- A failed fetch sets `classesData` to null. It leaves `numberOfClass` as it was and does not clear the calendar.
- A route id that matches no class does not render a "not found" page. The page reads `start` of `undefined`, which the model returns as `TypeError`.
- There is no sign-up gate, cutoff offset or sign-up call. The "Sign up" button has no handler.

## Model

| member | source | states |
|---|---|---|
| `ClassTimetable.Colour` | src/pages/ClassTimetable.jsx:36-41 | Same length and order as the input. Each output event equals its input event except for `backColor`. `backColor` is `#FE3434` exactly when the user id is in the event's participant list, and `#E8EAED` exactly when it is not. |
| `ClassTimetable.RecolourOverrides` | src/pages/ClassTimetable.jsx:36-41 | The spread overrides any earlier `backColor`: colouring coloured events for a user gives the same result as colouring the originals for that user. |
| `ClassTimetable.AnonymousSeesPlain` | src/pages/ClassTimetable.jsx:33-41 | With no stored user (id `null`), events whose participant lists hold no `null` are all coloured `#E8EAED`. |
| `ClassTimetable.ComputeWeekWindow` | src/pages/ClassTimetable.jsx:85-89 | `startOfWeek <= today <= endOfWeek`. The ends are exactly 6 days apart. The start is a Sunday and the end a Saturday of today's week. Both keep today's time of day. |
| `ClassTimetable.WindowMembership` | src/pages/ClassTimetable.jsx:85-98 | An instant is in the window exactly when it falls in today's Sunday-to-Saturday week, is not earlier in the day than today on the Sunday, and is not later in the day than today on the Saturday. |
| `ClassTimetable.ClassesThisWeek` | src/pages/ClassTimetable.jsx:94-99 | The result is an order-preserving subsequence of the events and is no longer than them. An event is in it exactly when it is an input event, is red, and starts inside the window, both ends included. Every occurrence of such an event is kept: each value occurs in the result as often as in the input if it is red and in the window, and never otherwise. |
| `ClassTimetable.CountAfterColouring` | src/pages/ClassTimetable.jsx:36-100 | The number of red in-window events after colouring equals the number of fetched events that list the user and start in the window. |
| `ClassTimetable.WindowMissesWeekEnds` | src/pages/ClassTimetable.jsx:84-99 | On Wednesday 2023-08-02 at 15:00, classes at 10:00 on the Sunday and at 18:00 on the Saturday of that same week fall outside the page's window. |
| `ClassTimetable.CalendarWeekMembership` | src/pages/ClassTimetable.jsx:84-89 | The corrected window, Sunday 00:00 to the end of Saturday, holds an instant exactly when it falls in the same Sunday-to-Saturday week as today. |
| `ClassTimetable.AnonymousCountsNothing` | src/pages/ClassTimetable.jsx:33-100 | With no stored user and participant lists without `null`, the weekly filter is empty. |
| `ClassTimetable.ClassPath` | src/pages/ClassTimetable.jsx:108-110 | The path a click navigates to is `/class/` followed by text from which `parseInt` reads back the event's id. |
| `ClassTimetable.TimetablePage.constructor` | src/pages/ClassTimetable.jsx:17-20 | A fresh page has no data, the count 0 and the week layout. |
| `ClassTimetable.TimetablePage.GetClasses` | src/pages/ClassTimetable.jsx:27-46 | A successful fetch stores the coloured events. A failure stores null. Nothing else changes, so the count keeps its value. |
| `ClassTimetable.TimetablePage.HandleWindowResize` | src/pages/ClassTimetable.jsx:60-66 | The layout is `Day` exactly when the width is at most 768, and `Week` otherwise. Nothing else changes. |
| `ClassTimetable.TimetablePage.UpdateCalendar` | src/pages/ClassTimetable.jsx:80-102 | With data present (and the calendar mounted), the count becomes the length of the weekly filter over today's window, so it is at most the number of classes. Otherwise the count is unchanged. |
| `ClassTimetable.MountAndLoad` | src/pages/ClassTimetable.jsx:17-102 | After one visit the layout follows the width rule. After a failed fetch the page holds no data and the count is 0. After a successful fetch it holds the coloured events and counts the user's classes that start in this week's window. |
| `LocalTime.AddDaysParts` | src/pages/ClassTimetable.jsx:87-89 | Moving a date by whole calendar days moves its day number by that many days and keeps its time of day. |
| `JsNumber.ParseIntRoundTrip` | src/pages/ClassDetails.jsx:52 | `parseInt` reads every integer back from its decimal text. |
| `JsNumber.ParseIntOfDecimal` | src/pages/ClassDetails.jsx:52 | `parseInt` still reads the integer when other text follows it (so `12x` reads 12), unless that text starts with a digit or, after the numeral `0`, with `x` or `X`. |
| `JsNumber.ParseIntSkipsWhiteSpace` | src/pages/ClassDetails.jsx:52 | Leading white space does not change what `parseInt` reads. |
| `ClassDetails.FindIndex` | src/pages/ClassDetails.jsx:52 | The found position holds a class with the parsed id, and no earlier class has that id. No position is found only when no class has that id. `NaN` matches nothing. |
| `ClassDetails.Find` | src/pages/ClassDetails.jsx:52 | The found class is in the table, its id equals the parsed id, and it is the first such class. The result is `undefined` exactly when no class has that id. |
| `ClassDetails.TableIds` | src/pages/ClassDetails.jsx:8-49 | The table holds five classes with ids 1 to 5 in order, all distinct. |
| `ClassDetails.TableLookup` | src/pages/ClassDetails.jsx:8-52 | A lookup finds a class exactly when the id is an integer from 1 to 5. It then finds the table's class with that id. `NaN` finds none. |
| `ClassDetails.ClassDetailsPage` | src/pages/ClassDetails.jsx:51-95 | The route renders a page exactly when `parseInt` of it is an id `k` from 1 to 5. The document title, heading, description and trainer line then come from the table's class `k`. The time line is `Time: ` followed by that class's date, `, `, its start time, ` - ` and its end time, with both times taken from that one class. Any other route gives the `TypeError` of reading `start` of `undefined`. |
| `ClassDetails.PageOfParsedId` | src/pages/ClassDetails.jsx:51-52 | A route that `parseInt` reads as `n` renders the table's class `n` when `n` is 1 to 5, and the `TypeError` for every other `n`. |
| `ClassDetails.OpenFromTimetable` | src/pages/ClassDetails.jsx:51-52 | Following the timetable's link for any id renders the detail page of the table's class with that id when the id is 1 to 5, and gives the `TypeError` for every other id. |

## Findings

| source | as written | input that shows it | evidently intended | confidence | as-written member | corrected member |
|---|---|---|---|---|---|---|
| src/pages/ClassTimetable.jsx:84-99 | The window runs from Sunday to Saturday at the current time of day, so part of Sunday and part of Saturday are not counted. | Today Wednesday 2023-08-02 15:00; a red class on Sunday 2023-07-30 10:00 or Saturday 2023-08-05 18:00 is not counted. | Count every class of the current Sunday-to-Saturday week, as the comment at line 84 says. | medium, not executed | `ClassTimetable.WindowMissesWeekEnds` | `ClassTimetable.CalendarWeekMembership` |

The page model (`UpdateCalendar`, `MountAndLoad`) keeps the window as written, so that it does what the page does. The corrected window `CalendarWeekWindow` stands beside it.

## Left out

- The HTTP fetch, the `REACT_APP_API_URL` lookup and the error logging. The fetched list is an input to `GetClasses`, and a failure is `None`.
- `convertClassData` (`src/services/ClassServices`) is not part of this model. Its output is taken as given: events with an id, a text, a start, an end and a participant list.
- The `localStorage` reads and `JSON.parse`. The stored user id is an `Option` input, and a stored value that fails to parse is not modelled. The check at line 120, which shows the count message only to a signed-in user, is a visibility condition and is not modelled.
- The DayPilot calendar and navigator, `control.update`, the `navigate` call itself, Helmet, the markup, and adding and removing the resize listener. `UpdateCalendar` takes a flag for whether the calendar reference is set. `MountAndLoad` passes `true`, as after the first render.
- The router that turns `/class/<id>` into the `id` parameter is not modelled. `OpenFromTimetable` takes the text after `/class/` as the parameter.
- `ClassTimetable.ComputeWeekWindow`: JavaScript `Date` parsing, and the gap between local wall-clock time and the UTC instants `Date` compares across daylight-saving changes. All instants are local wall-clock milliseconds.
- `ClassDetails.ClassDetailsPage`: `toLocaleDateString` and `toLocaleTimeString` with the `en-US` options are the `formatDate` and `formatTime` parameters. The model does not state what text they produce.
- `JsNumber.ParseIntRoundTrip`: JavaScript strings are UTF-16 code units, while Dafny characters are Unicode scalar values. Integers beyond 2^53 lose precision in a JavaScript number, and from 10^21 on a template literal writes them in exponent form. The model uses unbounded integers and plain decimal text.
- `includes` and `===` compare with JavaScript's type rules, so a numeric id does not equal the same id written as a string. The model has one id type: string for users, integer for classes.
- The sign-up flow (time cutoff, authentication, write call). The "Sign up" button at src/pages/ClassDetails.jsx:97-99 has no handler.
