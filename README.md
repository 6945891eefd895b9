# Attendia: a Dafny model of the student portal's frontend logic and its proxy

Attendia is a React app that shows a student their timetable, academic
planner, attendance, marks and a CGPA calculator. It reads all of them
through a small Express proxy (`backend/server.js`) in front of the campus
API. This project models, in Dafny, the decisions those pieces make:
- which data a page shows;
- what it caches in `localStorage`;
- which cookies it writes or removes;
- which message it shows on which failure;
- which status code the proxy answers with.

It proves the properties the code promises about each of them.

## How the model is built

- **JavaScript values** (`JsValues`) are one `Json` datatype:
  - `undefined` is the `None` of `Value = Option<Json>`;
  - objects keep their keys in insertion order;
  - `Truthy`, property reads on objects, arrays and strings, `String(v)` and `Object.entries` are functions over it.
- **Numbers.** `JsNumbers` models `parseInt`, `parseFloat` and `Number(text)` as partial functions from text to a `Number` (`Finite(real)`, `Infinite`, `NaN`), and `>=`, `>` and `<` on them.
- **JSON text.** `JsonText` models `JSON.stringify` as `Serialize`, and `JSON.parse` as `Decode`, which is proved to read back every value `Serialize` writes.
- **Requests.** An awaited `axios` request (`Http`) ends in `Ok(body)`, or in `Failed(error)`. The error is an HTTP status with a body, no response, or an `Error` thrown by the code itself.
- **Browser storage** (`WebStorage`):
  - `localStorage` is a class with a `map<string, string>` field;
  - the cookies `js-cookie` reads and writes are a `CookieJar` class.
- **Components.** Each stateful component is a class with the component's state fields:
  - `State()` takes a snapshot of those fields;
  - every handler is a method whose `ensures` equates the new state, and the new storage or cookies, with a step function of the old ones;
  - the properties are lemmas about those step functions.
- **Pure components** are functions returning what they render: `TimeTableBlock`, `PlannerBlock`, `AttendanceBlock`, `MarksGraphBlock` and `ProtectedRoute`.
- **Loops become methods.** The loops of `adaptApiResponse`, `calculateCGPA` and `checkLowAttendance` are methods with loop invariants, proved equal to the function that specifies them.
- **Parameters.** The proxy's answer, `navigator.onLine`, the component's "mounted" flag and the current date are parameters.
- **Failures while rendering.** The code throws on a property read on `null` and on `substring` of a non-string. Wherever the input can cause one of these, the model gives `None`. React's own refusal to render a plain object as text is not modelled (see "Left out").

Some notes on the behaviour as the code has it:

- **Slot key round trip.**
  - The timetable adapter keys each slot by `` `${start} - ${end}` ``, and `TimeTableBlock` splits the key at the first `" - "`.
  - The round trip gives back `start` and `end` exactly when:
    - neither contains `" - "`;
    - and `start` does not end in `" -"`.
  - A start of `"9 -"` splits into `"9"` and `"- 10"` (`TimeTableBlock.SplitJoinCounterexample`).
- **CGPA range.** The calculator's result lies between 0 and 10 only while every counted credit is non-negative. The credits field is a number input, which accepts `-1`, and a negative credit takes the result below 0 (`CgpaCalculator.NegativeCreditLeavesRange`).
- **Low-attendance filter.** The home page checks `attendancePercent` for truthiness before it parses it. So a numeric `0` is not reported as low, while a text `"0"` is (`HomePage.LowByPercent`, `HomePage.FalsyPercentNotLow`).
- **Toasts as values.**
  - On the home page the welcome toast is the fixed text "Welcome to ATTENDIA!". Each low-attendance warning is emitted as the course it is about, not as its message text; the message is `HomePage.Notice`.
  - On the login page each error toast repeats the error the form shows. The success toast is "Welcome back, <name>!" (`LoginPage.Notification`).
- **Login failure messages.**
  - The login page discards the message of an `Error` it throws itself (missing cookies, missing user information). Such a failure shows the default "Login failed. Please try again.".
  - A 401 from the proxy shows "Incorrect username or password".
  - Through the proxy, an upstream 401 reaches the page as a 401.
- **Login redirect and the route guard.** The login page's redirect home and `ProtectedRoute`'s admission are the same predicate on the cookies. A cookie holding the empty string is absent for both.
- **Caching differences.**
  - The timetable loader caches even the sample placeholder it falls back to.
  - The planner loader caches whatever the proxy answers.
  - The report loader caches only a profile that is there.
  - For the timetable and planner loaders every failure, a missing token included, falls back to the cache. The report loader sends a user without a token to `/login` without reading its cache; its other failures fall back to the cache.
- **Redirect timer.** The login page's timer is a separate step, `LoginPage.Page.RedirectTimer`.
- **Logout.** `handleLogout` makes eight separate `Cookies.remove` calls, with no loop. The model writes those eight straight-line removals as one loop over the list of names (`WebStorage.CookieJar.RemoveEach`). `localStorage` is left as it was.

## Model

| member | source | states |
|---|---|---|
| JsValues.FieldKeys | frontend/src/Pages/AcademicPlanner/index.jsx:105 | `Object.keys` lists the keys of an object's fields, one per field, in order |
| JsValues.LookupPresent | frontend/src/Pages/TimeTable/index.jsx:206 | a property read finds a value exactly when the key is among the object's keys |
| JsValues.PutLookup | frontend/src/Pages/TimeTable/index.jsx:151-158 | `obj[key] = v` makes `key` read `v`, leaves every other key as it was, and appends `key` to the key order only when it is new |
| JsValues.EntriesReadBack | frontend/src/components/MarksGraphBlock/index.jsx:10 | each pair `Object.entries` yields reads back from the object under its own name, for the first occurrence of that name |
| JsValues.NatToStringDigits | frontend/src/components/MarksGraphBlock/index.jsx:10 | the decimal text of a natural number is digits only, denotes that number and has no leading zero |
| JsValues.NatToStringInjective | frontend/src/Pages/MarksPage/index.jsx:86 | different indices have different decimal texts |
| JsValues.CanonicalIndexOfNat | frontend/src/components/MarksGraphBlock/index.jsx:10 | the decimal text of a number is read back as that array index |
| JsValues.Find | frontend/src/components/TimeTableBlock/index.jsx:7 | the separator search returns the first position where the separator occurs, and none exactly when it occurs nowhere |
| JsonText.ParseSerialize | frontend/src/Pages/AcademicPlanner/index.jsx:73-86 | parsing the text `JSON.stringify` writes for any value, followed by any delimiting rest, gives back that value and that rest |
| JsonText.DecodeSerialize | frontend/src/Pages/TimeTable/index.jsx:90-113 | `JSON.parse(JSON.stringify(v))` is `v` for every value the caches hold |
| JsonText.ParseQuoted | frontend/src/Pages/TimeTable/index.jsx:99 | a string written with its escapes reads back as the same string |
| JsonText.ParseInteger | frontend/src/Pages/TimeTable/index.jsx:99 | the text of any integer reads back as that number |
| JsNumbers.TrimStart | frontend/src/Pages/HomePage/index.jsx:138 | the leading white space `parseInt` skips is removed, and the rest is a suffix of the input that starts with a non-space |
| JsNumbers.TrimEnd | frontend/src/components/AttendanceBlock/index.jsx:57 | `Number(text)` drops trailing white space, keeping a prefix that ends in a non-space |
| JsNumbers.RadixPrefix | frontend/src/components/PlannerBlock/index.jsx:41 | `parseInt` reads the longest run of digits at the start, and stops at the first non-digit |
| JsNumbers.ParseIntOfIntString | frontend/src/components/PlannerBlock/index.jsx:41 | `parseInt` of the text of an integer `n` is `n` |
| JsNumbers.ParseFloatOfIntString | frontend/src/Pages/CGPACalculator/index.jsx:55 | `parseFloat` of the text of an integer `n` is `n` |
| JsNumbers.StringToNumberOfIntString | frontend/src/components/AttendanceBlock/index.jsx:57 | comparing the text of an integer with a number compares the integer itself |
| JsNumbers.ParseIntSkipsSpace | frontend/src/Pages/HomePage/index.jsx:138 | leading white space does not change what `parseInt` reads |
| JsNumbers.IntToStringEdges | frontend/src/Pages/HomePage/index.jsx:117 | the text of an integer is non-empty and has no white space at either end |
| Http.CatchMessage | frontend/src/Pages/AttendancePage/index.jsx:51-57 | the catch block throws exactly for an HTTP error whose body is `null`; otherwise its message is `data.error`, or `error.message`, or the fallback, and is never empty when the fallback is not |
| WebStorage.LocalStorage.constructor | frontend/src/Pages/TimeTable/index.jsx:46 | storage starts with the given entries, and is valid when it holds no cache entry |
| WebStorage.LocalStorage.Load | frontend/src/Pages/TimeTable/index.jsx:46-48 | `JSON.parse` of a non-empty cache entry gives the value whose text it holds, in the shape that key's page stores |
| WebStorage.LocalStorage.CacheOf | frontend/src/Pages/TimeTable/index.jsx:110-113 | a cache value is there exactly when the entry is non-empty, and it is the entry's parsed text |
| WebStorage.LocalStorage.SetItem | frontend/src/Pages/HomePage/index.jsx:41 | `setItem` changes that key's entry and nothing else |
| WebStorage.LocalStorage.Store | frontend/src/Pages/TimeTable/index.jsx:90 | `setItem(key, JSON.stringify(v))` writes text that reads back as `v`, changes only that entry, and keeps every cache readable |
| WebStorage.Cookie | frontend/src/components/ProtectedRoute/index.jsx:5-7 | `Cookies.get` is the cookie's text when it is set and `undefined` otherwise |
| WebStorage.NameSetSnoc | frontend/src/components/LowerMenuBlock/index.jsx:260-268 | the names removed after one more removal are the earlier ones and that name |
| WebStorage.CookieJar.constructor | frontend/src/components/ProtectedRoute/index.jsx:5-7 | the jar starts with the given cookies |
| WebStorage.CookieJar.Get | frontend/src/components/ProtectedRoute/index.jsx:5-7 | `Cookies.get` on the jar: the cookie's text exactly when it is set |
| WebStorage.CookieJar.Set | frontend/src/Pages/LoginPage/index.jsx:105-107 | `Cookies.set` stores `String(value)` under the name and changes no other cookie |
| WebStorage.CookieJar.Remove | frontend/src/Pages/LoginPage/index.jsx:27-30 | `Cookies.remove` drops that cookie and keeps every other |
| WebStorage.CookieJar.RemoveEach | frontend/src/components/LowerMenuBlock/index.jsx:260-268 | removing names one by one leaves exactly the cookies whose names are not among them |
| TimeTableBlock.Split | frontend/src/components/TimeTableBlock/index.jsx:7 | `split` gives at least one part; the parts joined with the separator give back the text, no part holds the separator, and there is more than one part exactly when the text holds it; with more than one, the first part ends at the first occurrence of the separator and the others are the split of the text after it |
| TimeTableBlock.Block | frontend/src/components/TimeTableBlock/index.jsx:6-10 | the block renders exactly when there is a first entry that is not `null`; its start is the key's first part and holds no `" - "`; there is an end exactly when the key holds `" - "`, and then the start ends at the first `" - "` of the key, the end is the key's second part (the text after that `" - "` up to the next one), start, `" - "` and end begin the key, and the end holds no `" - "`; without one the start is the whole key; name, type and room are that entry's `subject_name`, `subject_type` and `room_code` unchanged |
| TimeTableBlock.BlockReadsFirstEntry | frontend/src/components/TimeTableBlock/index.jsx:6 | only the first key is read: entries after it do not change the block |
| TimeTableBlock.SplitJoin | frontend/src/components/TimeTableBlock/index.jsx:7 | `${a} - ${b}` splits back into `a` and `b` exactly when neither holds `" - "` and `a` does not end in `" -"` |
| TimeTableBlock.SplitJoinWhen | frontend/src/components/TimeTableBlock/index.jsx:7 | under those conditions the split gives back `a` and `b` |
| TimeTableBlock.SplitJoinOnlyWhen | frontend/src/components/TimeTableBlock/index.jsx:7 | a split that gives back `a` and `b` implies those conditions |
| TimeTableBlock.SplitJoinCounterexample | frontend/src/components/TimeTableBlock/index.jsx:7 | without the last condition the round trip fails: `"9 - - 10"` splits into `"9"` and `"- 10"` |
| TimeTable.SampleShape | frontend/src/Pages/TimeTable/index.jsx:9-29 | the placeholder has day order `"1"` and a timetable, so it is displayable |
| TimeTable.EnvelopeReads | frontend/src/Pages/TimeTable/index.jsx:166-171 | the envelope reads back day order `"1"` and the wrapped timetable, and is displayable when that is an object |
| TimeTable.DayNameInjective | frontend/src/Pages/TimeTable/index.jsx:143 | different day numbers give different `Day<n>` keys |
| TimeTable.DayItems | frontend/src/Pages/TimeTable/index.jsx:147-149 | the day's items are exactly the records on that day; the filter throws exactly when a record is `null` |
| TimeTable.SlotRecordReads | frontend/src/Pages/TimeTable/index.jsx:154-158 | a kept slot reads its subject name, type and room, defaulting to "Unknown Subject", "N/A" and "N/A" |
| TimeTable.Adapt | frontend/src/Pages/TimeTable/index.jsx:135-174 | the adapter throws exactly for an array with a `null` record, and otherwise returns a displayable timetable |
| TimeTable.AdaptApiResponse | frontend/src/Pages/TimeTable/index.jsx:135-174 | the loops that fill the five day buckets compute `Adapt` |
| TimeTable.Bucket | frontend/src/Pages/TimeTable/index.jsx:151-158 | the slot map of one day; no contract of its own, its behaviour is stated in `TimeTable.BucketKeys`, `TimeTable.BucketLatest` and `TimeTable.BucketSkips` |
| TimeTable.Days | frontend/src/Pages/TimeTable/index.jsx:140-160 | the five day buckets; no contract of its own, its behaviour is stated in `TimeTable.DaysShape`, `TimeTable.DaysBucket` and `TimeTable.AdaptArray` |
| TimeTable.DaysShape | frontend/src/Pages/TimeTable/index.jsx:138-160 | the timetable has one entry per day, `Day1` to `Day<n>` in order, each the bucket of that day's records |
| TimeTable.DayAbsent | frontend/src/Pages/TimeTable/index.jsx:140-145 | no later day's key appears among the first days |
| TimeTable.AdaptArray | frontend/src/Pages/TimeTable/index.jsx:136-164 | an array payload gives day order `"1"` and a timetable whose keys are exactly `Day1` to `Day5` |
| TimeTable.DaysBucket | frontend/src/Pages/TimeTable/index.jsx:147-160 | `Day<d>` holds the bucket of exactly the records whose `day_order` is `d` as text or number |
| TimeTable.StrayDayOrders | frontend/src/Pages/TimeTable/index.jsx:147-149 | records with day order 0, 6, `"0"`, `"6"`, `"x"` or `"01"` land in no day |
| TimeTable.BucketKeys | frontend/src/Pages/TimeTable/index.jsx:151-158 | a bucket has a slot key exactly when some record with both times has that key; records without a time are dropped |
| TimeTable.BucketLatest | frontend/src/Pages/TimeTable/index.jsx:151-158 | a later record with the same slot key overwrites the earlier one, and leaves other keys alone |
| TimeTable.BucketSkips | frontend/src/Pages/TimeTable/index.jsx:152 | a record missing a start or end time changes nothing |
| TimeTable.AdaptOther | frontend/src/Pages/TimeTable/index.jsx:166-173 | an object without a truthy `timetable` is wrapped unchanged; anything else that is not an array gives the placeholder |
| TimeTable.SlotRoundTrip | frontend/src/Pages/TimeTable/index.jsx:153 | a slot built by the adapter renders in `TimeTableBlock` with its own start, end, name, type and room |
| TimeTable.ShowCache | frontend/src/Pages/TimeTable/index.jsx:46-55 | showing a parsed cache; no contract of its own, its behaviour is stated in `TimeTable.Page.Show` and `TimeTable.FetchFailure` |
| TimeTable.Fetch | frontend/src/Pages/TimeTable/index.jsx:65-133 | one call of `fetchTimetableData`; no contract of its own, its behaviour is stated in `TimeTable.Try`, `TimeTable.FetchCaches`, `TimeTable.ScalarAnswerCachesSample` and `TimeTable.FetchFailure` |
| TimeTable.Try | frontend/src/Pages/TimeTable/index.jsx:67-106 | the attempt succeeds exactly with a token and an answer the adapter accepts; a payload with a truthy `timetable` is taken verbatim, any other is the adapter's result, and the result is displayable |
| TimeTable.FetchCaches | frontend/src/Pages/TimeTable/index.jsx:85-106 | the cache is written exactly when the component is mounted and the attempt succeeded, with the value shown: the payload verbatim when it has a truthy `timetable`, and otherwise exactly what the adapter returns, the placeholder included |
| TimeTable.ScalarAnswerCachesSample | frontend/src/Pages/TimeTable/index.jsx:85-106 | an answer that is neither an array nor an object, such as a bare number, is replaced by the placeholder, which is shown and cached |
| TimeTable.FetchFailure | frontend/src/Pages/TimeTable/index.jsx:108-131 | on any failure, a missing token included, the cache is shown offline with the selected day set to its day order or `"1"` and the cached-data message; without a cache the placeholder is shown; the cache is not written |
| TimeTable.ClassSlots | frontend/src/Pages/TimeTable/index.jsx:206-207 | the filter keeps at most the slots it was given |
| TimeTable.ClassSlotsMeaning | frontend/src/Pages/TimeTable/index.jsx:206-207 | the rendered slots are exactly the day's entries whose `subject_name` is not "No class"; rendering throws exactly on a `null` entry |
| TimeTable.ClassSlotsAppend | frontend/src/Pages/TimeTable/index.jsx:206-207 | the filter keeps entry order: filtering two runs of entries is filtering each |
| TimeTable.Render | frontend/src/Pages/TimeTable/index.jsx:180-217 | what `renderTimeTableBlocks` shows; no contract of its own, its behaviour is stated in `TimeTable.RenderDay`, `TimeTable.FetchThenRender` and `TimeTable.RenderSample` |
| TimeTable.RenderDay | frontend/src/Pages/TimeTable/index.jsx:198-207 | a missing selected day renders "No schedule"; a present one renders its class slots |
| TimeTable.FetchThenRender | frontend/src/Pages/TimeTable/index.jsx:180-217 | after a load the page shows neither the loading note, nor the invalid-format note, nor an error screen |
| TimeTable.SampleDay1Slots | frontend/src/Pages/TimeTable/index.jsx:9-29 | every slot of the placeholder's first day is a class |
| TimeTable.RenderSample | frontend/src/Pages/TimeTable/index.jsx:180-217 | the placeholder renders its first day's slots |
| TimeTable.Page.constructor | frontend/src/Pages/TimeTable/index.jsx:31-38 | the page starts loading on day "1", with no data and no error, online |
| TimeTable.Page.Show | frontend/src/Pages/TimeTable/index.jsx:48-55 | showing the cache sets the data, the day from its day order and the offline flag |
| TimeTable.Page.FetchTimetableData | frontend/src/Pages/TimeTable/index.jsx:65-133 | the new state and storage are those of the load step, and every cache stays readable |
| TimeTable.Page.ComponentDidMount | frontend/src/Pages/TimeTable/index.jsx:43-59 | offline with a cache the page shows the cache and does not fetch; in every other case it fetches |
| TimeTable.Page.HandleDaySelect | frontend/src/Pages/TimeTable/index.jsx:176-178 | selecting a day changes the selected day and nothing else |
| AcademicPlanner.FailureMessage | frontend/src/Pages/AcademicPlanner/index.jsx:82-97 | the message is the answer's `message` when there is one, else `error.message`, else the default; it is never empty |
| AcademicPlanner.ShowCache | frontend/src/Pages/AcademicPlanner/index.jsx:31-38 | showing the parsed cache offline; no contract of its own, its behaviour is stated in `AcademicPlanner.Page.ComponentDidMount` and `AcademicPlanner.FetchFailure` |
| AcademicPlanner.Fetch | frontend/src/Pages/AcademicPlanner/index.jsx:52-99 | one call of `fetchPlannerData`; no contract of its own, its behaviour is stated in `AcademicPlanner.FetchSuccess`, `AcademicPlanner.FetchFailure` and `AcademicPlanner.FailureScreen` |
| AcademicPlanner.FetchSuccess | frontend/src/Pages/AcademicPlanner/index.jsx:65-79 | a successful answer is shown and cached as it is, with no shape check, and clears the error and the offline flag |
| AcademicPlanner.FetchFailure | frontend/src/Pages/AcademicPlanner/index.jsx:54-98 | on any failure, a missing token included, the cache is shown offline with the cached message; without a cache the data stays and the error is set; nothing is cached |
| AcademicPlanner.Months | frontend/src/Pages/AcademicPlanner/index.jsx:102-106 | the months are `Object.keys` of the planner data: an object's keys in order; the indices `"0"`, `"1"`, … of an array or a string, since the planner caches any answer; none for a number, a boolean or falsy data |
| AcademicPlanner.CurrentMonth | frontend/src/Pages/AcademicPlanner/index.jsx:126 | the current month is the month at the index, or "" outside the range |
| AcademicPlanner.PreviousIndex | frontend/src/Pages/AcademicPlanner/index.jsx:109-113 | the previous index is one less, and never below 0 |
| AcademicPlanner.NextIndex | frontend/src/Pages/AcademicPlanner/index.jsx:116-121 | the next index is one more, and never past the last month |
| AcademicPlanner.NextWithoutMonths | frontend/src/Pages/AcademicPlanner/index.jsx:116-121 | with no months the next index becomes -1 |
| AcademicPlanner.StepsStayInRange | frontend/src/Pages/AcademicPlanner/index.jsx:109-121 | from a valid index both steps stay in range |
| AcademicPlanner.Render | frontend/src/Pages/AcademicPlanner/index.jsx:129-142 | the error screen shows exactly when the page is not loading, an error is set and it is not offline |
| AcademicPlanner.FailureScreen | frontend/src/Pages/AcademicPlanner/index.jsx:80-142 | after a failure with a cache the planner shows offline; without one the error screen shows |
| AcademicPlanner.Page.constructor | frontend/src/Pages/AcademicPlanner/index.jsx:15-22 | the planner starts with its initial state |
| AcademicPlanner.Page.FetchPlannerData | frontend/src/Pages/AcademicPlanner/index.jsx:52-99 | the new state and storage are those of the load step, and every cache stays readable |
| AcademicPlanner.Page.ComponentDidMount | frontend/src/Pages/AcademicPlanner/index.jsx:24-49 | offline with a cache the parsed cache is shown and nothing is fetched; otherwise the month and day are set, then the planner is fetched |
| AcademicPlanner.Page.HandlePreviousMonth | frontend/src/Pages/AcademicPlanner/index.jsx:109-113 | only the month index changes, to the previous index |
| AcademicPlanner.Page.HandleNextMonth | frontend/src/Pages/AcademicPlanner/index.jsx:116-121 | only the month index changes, to the next index |
| PlannerBlock.Includes | frontend/src/components/PlannerBlock/index.jsx:63 | `Holiday.includes` is defined on arrays and strings, and on an array holds exactly when the parsed date is among its numbers |
| PlannerBlock.DayOrderLabel | frontend/src/components/PlannerBlock/index.jsx:78-80 | the label is "DO -" exactly when the day order is `"-"` |
| PlannerBlock.View | frontend/src/components/PlannerBlock/index.jsx:41-80 | a day is current exactly when its parsed date is today; the holiday colour comes before the current-day colour; the label is the event, else "Holiday", else "Regular Classes" |
| PlannerBlock.AllViews | frontend/src/components/PlannerBlock/index.jsx:40 | the day views render exactly when each does, one per day |
| PlannerBlock.Views | frontend/src/components/PlannerBlock/index.jsx:40 | one block per `Data` entry, in order |
| PlannerBlock.Block | frontend/src/components/PlannerBlock/index.jsx:21-85 | the month block; no contract of its own, its behaviour is stated in `PlannerBlock.NoRecordsExactly` and `PlannerBlock.OneViewPerDay` |
| PlannerBlock.NoRecordsExactly | frontend/src/components/PlannerBlock/index.jsx:22 | "No records" shows exactly when the month is empty or absent, or its `Data` is missing or empty |
| PlannerBlock.OneViewPerDay | frontend/src/components/PlannerBlock/index.jsx:40 | a month with days renders one view per day, in order |
| PlannerBlock.CurrentDay | frontend/src/components/PlannerBlock/index.jsx:41 | a day dated with the text of `n` is current exactly when `n` is today |
| PlannerBlock.HolidayColourWins | frontend/src/components/PlannerBlock/index.jsx:63-67 | a holiday has the holiday colour, even when it is today |
| PlannerBlock.HolidayStringMatchesDigits | frontend/src/components/PlannerBlock/index.jsx:63 | a `Holiday` given as text matches single digits of it, while an array matches whole numbers |
| LowerMenuBlock.Profile | frontend/src/components/LowerMenuBlock/index.jsx:84-96 | the profile is read exactly when the answer carries a truthy `userInfo`, and it is that `userInfo` |
| LowerMenuBlock.GetPdf | frontend/src/components/LowerMenuBlock/index.jsx:61-128 | one call of `handleGetPDF`; no contract of its own, its behaviour is stated in `LowerMenuBlock.NoTokenRedirects`, `LowerMenuBlock.OfflineUsesCache`, `LowerMenuBlock.CachesOnlyProfiles` and `LowerMenuBlock.FailureFallsBack` |
| LowerMenuBlock.NoTokenRedirects | frontend/src/components/LowerMenuBlock/index.jsx:62-68 | without a token the menu alerts and goes to `/login`, without reading the cache or fetching |
| LowerMenuBlock.OfflineUsesCache | frontend/src/components/LowerMenuBlock/index.jsx:74-82 | offline with a cache the report is built from the cache, offline, whatever the network would answer |
| LowerMenuBlock.CachesOnlyProfiles | frontend/src/components/LowerMenuBlock/index.jsx:92-98 | the cache is written only after an answer carrying `userInfo`, and holds exactly that |
| LowerMenuBlock.FailureFallsBack | frontend/src/components/LowerMenuBlock/index.jsx:102-124 | any failure with a cache reports from the cache and leaves it as it was; without a cache the error message is shown, except an HTTP error with a `null` body, which throws in the catch block: no message is shown and loading only stops |
| LowerMenuBlock.ReplaceSpaces | frontend/src/components/LowerMenuBlock/index.jsx:240 | `replace(/\s+/g, '_')` leaves no white space and never lengthens the text |
| LowerMenuBlock.ReplaceSpacesKeeps | frontend/src/components/LowerMenuBlock/index.jsx:240 | a name without white space is kept as it is |
| LowerMenuBlock.ReplaceSpacesRun | frontend/src/components/LowerMenuBlock/index.jsx:240 | each whole run of white space becomes one `_` |
| LowerMenuBlock.FileName | frontend/src/components/LowerMenuBlock/index.jsx:240-241 | without a name the file is `Student_Academic_Report.pdf`; a text name gives its text with each run of white space replaced by `_`, followed by `_Academic_Report.pdf`; the name step throws exactly for a truthy name that is not text |
| LowerMenuBlock.PrintableHasNoSpace | frontend/src/components/LowerMenuBlock/index.jsx:240 | visible ASCII text has no white space |
| LowerMenuBlock.FileNameHasNoSpace | frontend/src/components/LowerMenuBlock/index.jsx:240-241 | every file name ends in `_Academic_Report.pdf` and holds no white space |
| LowerMenuBlock.PercentageCell | frontend/src/components/LowerMenuBlock/index.jsx:191-193 | the cell is "N/A" exactly unless the total is above 0 |
| LowerMenuBlock.PercentageBounds | frontend/src/components/LowerMenuBlock/index.jsx:191-193 | marks between 0 and a positive total give a percentage between 0 and 100; a zero total gives "N/A" |
| LowerMenuBlock.PercentageWithoutTotal | frontend/src/components/LowerMenuBlock/index.jsx:191-193 | a missing or `null` total gives "N/A" |
| LowerMenuBlock.Menu.constructor | frontend/src/components/LowerMenuBlock/index.jsx:15-18 | the menu starts closed, not loading, online |
| LowerMenuBlock.Menu.ToggleMenu | frontend/src/components/LowerMenuBlock/index.jsx:57-59 | toggling flips `isOpen` and nothing else |
| LowerMenuBlock.Menu.HandleGetPdf | frontend/src/components/LowerMenuBlock/index.jsx:61-128 | the new state, storage and effects are those of the report step, and every cache stays readable |
| LowerMenuBlock.Menu.HandleLogout | frontend/src/components/LowerMenuBlock/index.jsx:257-271 | logout closes the menu, removes exactly the eight listed cookies and goes to `/login` |
| LowerMenuBlock.LogoutClearsSession | frontend/src/components/LowerMenuBlock/index.jsx:257-271 | after logout the route guard refuses, and every other cookie is kept |
| HomePage.WelcomeKey | frontend/src/Pages/HomePage/index.jsx:27-29 | the welcome key starts with `welcome_` |
| HomePage.WelcomeKeyIsNoCache | frontend/src/Pages/HomePage/index.jsx:27-41 | the welcome key never overwrites a cache entry |
| HomePage.WelcomeOnce | frontend/src/Pages/HomePage/index.jsx:31-41 | once the key is set the welcome does not show again, and no other entry changes |
| HomePage.IsLow | frontend/src/Pages/HomePage/index.jsx:110-119 | the filter's test; no contract of its own, its behaviour is stated in `HomePage.LowByPercent` and `HomePage.FalsyPercentNotLow` |
| HomePage.LowCourses | frontend/src/Pages/HomePage/index.jsx:110-119 | the low courses are exactly the courses the filter calls low |
| HomePage.LowCoursesAppend | frontend/src/Pages/HomePage/index.jsx:110-119 | the filter keeps each course on its own merits and in list order: the low courses of a concatenation are those of its parts, one after the other |
| HomePage.Required | frontend/src/Pages/HomePage/index.jsx:138 | `parseInt(margin) \|\| 0`: the parsed margin, or 0 when it does not parse or is 0 |
| HomePage.Notice | frontend/src/Pages/HomePage/index.jsx:145-147 | the notice begins "You need " exactly when classes are required |
| HomePage.FirstPerKey | frontend/src/Pages/HomePage/index.jsx:121-136 | every warned course is a low course |
| HomePage.OneWarningPerKey | frontend/src/Pages/HomePage/index.jsx:121-136 | one warning per course key: the warned keys are exactly the low keys, and no two warnings share one |
| HomePage.Warnings | frontend/src/Pages/HomePage/index.jsx:140-150 | one toast per warned course, in order |
| HomePage.WarnOncePerKey | frontend/src/Pages/HomePage/index.jsx:121-136 | the `forEach` with its `notifiedCourses` set emits the warnings of the first low course of each key |
| HomePage.Visit | frontend/src/Pages/HomePage/index.jsx:123-136 | one step of that loop keeps the set equal to the keys seen so far |
| HomePage.Check | frontend/src/Pages/HomePage/index.jsx:102-163 | one call of `checkLowAttendance`; no contract of its own, its behaviour is stated in `HomePage.WarnedExactlyOnce` and `HomePage.OneWarningPerKey` |
| HomePage.WarnedExactlyOnce | frontend/src/Pages/HomePage/index.jsx:102-163 | the check warns once per low key, and sets `isNotificationShowed` exactly when some course is low |
| HomePage.LowByPercent | frontend/src/Pages/HomePage/index.jsx:110-119 | a course given an integer percentage is low exactly when it is below 75; a numeric 0 never is, while the text "0" is |
| HomePage.FalsyPercentNotLow | frontend/src/Pages/HomePage/index.jsx:110-112 | a missing, `null`, numeric 0 or empty percentage is never low |
| HomePage.RequiredByMargin | frontend/src/Pages/HomePage/index.jsx:138-147 | a margin of `k` says "You need" exactly when `k > 0` |
| HomePage.Courses | frontend/src/Pages/HomePage/index.jsx:71-73 | the courses are taken exactly when the answer has a truthy `userInfo.courses` |
| HomePage.UserData | frontend/src/Pages/HomePage/index.jsx:48-99 | one call of `getUserData`; no contract of its own, its behaviour is stated in `HomePage.NoCredentials`, `HomePage.FetchedCourses` and `HomePage.FailureKeepsList` |
| HomePage.NoCredentials | frontend/src/Pages/HomePage/index.jsx:54-58 | a missing token or username sets the error and shows the failure toast, without fetching |
| HomePage.FetchedCourses | frontend/src/Pages/HomePage/index.jsx:74-83 | a successful load shows the courses, clears the error and runs the low-attendance check |
| HomePage.FailureKeepsList | frontend/src/Pages/HomePage/index.jsx:85-98 | a failed load keeps the course list and shows the error, except an HTTP error with a `null` body, which throws in the catch block: no message or toast is shown and the page stays loading |
| HomePage.Page.constructor | frontend/src/Pages/HomePage/index.jsx:15-20 | the page starts with its initial state |
| HomePage.Page.CheckLowAttendance | frontend/src/Pages/HomePage/index.jsx:102-163 | the check's new state and toasts are those of the check step |
| HomePage.Page.GetUserData | frontend/src/Pages/HomePage/index.jsx:48-99 | the load's new state and toasts are those of the load step |
| HomePage.Page.ComponentDidMount | frontend/src/Pages/HomePage/index.jsx:22-46 | the welcome shows and its key is set only when the key is absent, then the courses load |
| ListPage.Field | frontend/src/Pages/AttendancePage/index.jsx:39-46 | the list is taken exactly when the answer has a truthy `userInfo` field; otherwise the page's own error, or the request's |
| ListPage.Load | frontend/src/Pages/AttendancePage/index.jsx:19-64 | the load shared by the attendance and marks pages; no contract of its own, its behaviour is stated in `ListPage.LoadOutcomes` and `ListPage.Field` |
| ListPage.LoadOutcomes | frontend/src/Pages/AttendancePage/index.jsx:19-64 | no token sets only the error; success sets the list and ends loading; a failure keeps the list and shows the catch block's message, except an HTTP error with a `null` body, which throws in the catch block: no message is shown and the page stays loading |
| ListPage.Render | frontend/src/Pages/AttendancePage/index.jsx:75-85 | the empty note shows exactly when the page is not loading, has no error and the list is empty |
| ListPage.RenderAfterLoad | frontend/src/Pages/AttendancePage/index.jsx:39-85 | after a successful load the page shows exactly the loaded entries, with the empty note exactly when there is none |
| ListPage.RenderAfterFailure | frontend/src/Pages/AttendancePage/index.jsx:48-85 | after a failed load the old entries show under the error, except an HTTP error with a `null` body, which throws in the catch block and shows no error |
| AttendancePage.Fetch | frontend/src/Pages/AttendancePage/index.jsx:19-64 | one call of `getAttendanceDetails`; no contract of its own, its behaviour is stated in `ListPage.LoadOutcomes`, `AttendancePage.MissingCourses` and `AttendancePage.CoursesRender` |
| AttendancePage.MissingCourses | frontend/src/Pages/AttendancePage/index.jsx:44-46 | a profile without courses shows "Invalid response format - no attendance data found" and keeps the list |
| AttendancePage.Cards | frontend/src/Pages/AttendancePage/index.jsx:83-85 | one card per course, in order |
| AttendancePage.CoursesRender | frontend/src/Pages/AttendancePage/index.jsx:39-85 | loaded courses are shown one card each, with the empty note exactly when there is none |
| AttendancePage.Page.constructor | frontend/src/Pages/AttendancePage/index.jsx:9-13 | an empty list, not loading, no error |
| AttendancePage.Page.GetAttendanceDetails | frontend/src/Pages/AttendancePage/index.jsx:19-64 | the new state is that of the load step on `userInfo.courses` |
| MarksPage.Fetch | frontend/src/Pages/MarksPage/index.jsx:19-66 | one call of `getMarksData`; no contract of its own, its behaviour is stated in `ListPage.LoadOutcomes` and `MarksPage.RecordsRender` |
| MarksPage.CardKey | frontend/src/Pages/MarksPage/index.jsx:86 | a card without a course code is keyed `course-<index>` |
| MarksPage.CardKeysDiffer | frontend/src/Pages/MarksPage/index.jsx:86 | cards at different positions have different keys when their codes hold no dash |
| MarksPage.Cards | frontend/src/Pages/MarksPage/index.jsx:85-87 | one card per record, in order |
| MarksPage.RecordsRender | frontend/src/Pages/MarksPage/index.jsx:38-87 | loaded records are shown one card each, with the empty note exactly when there is none |
| MarksPage.Page.constructor | frontend/src/Pages/MarksPage/index.jsx:9-13 | an empty list, not loading, no error |
| MarksPage.Page.GetMarksData | frontend/src/Pages/MarksPage/index.jsx:19-66 | the new state is that of the load step on `userInfo.testPerformances` |
| AttendanceBlock.ShortCode | frontend/src/components/AttendanceBlock/index.jsx:6 | the short code is the first eight characters, or the whole code when it is shorter |
| AttendanceBlock.Block | frontend/src/components/AttendanceBlock/index.jsx:5-78 | the card renders exactly when the course code is text; title, category, percentage and the P/A/T cells are the course's fields unchanged |
| AttendanceBlock.MarginOrRequired | frontend/src/components/AttendanceBlock/index.jsx:17-45 | the margin shows, in green, exactly when `required === 0`; otherwise `required` shows in red |
| AttendanceBlock.TextZeroIsRequired | frontend/src/components/AttendanceBlock/index.jsx:17 | a text `"0"` counts as classes required |
| AttendanceBlock.BarColour | frontend/src/components/AttendanceBlock/index.jsx:55-57 | an integer percentage fills the bar in green exactly when it is at least 75, to that width |
| AttendanceBlock.MissingPercentIsRed | frontend/src/components/AttendanceBlock/index.jsx:55-57 | a missing percentage gives a red bar of width `undefined%` |
| AttendanceBlock.ShortCodeOf | frontend/src/components/AttendanceBlock/index.jsx:6 | codes of up to eight characters show in full, longer ones cut to eight |
| MarksGraphBlock.Chart | frontend/src/components/MarksGraphBlock/index.jsx:10-13 | one point per test, in order, named by its key with its `percentage` |
| MarksGraphBlock.Rows | frontend/src/components/MarksGraphBlock/index.jsx:149-156 | one `got/total` line per test, in order, under its name |
| MarksGraphBlock.Block | frontend/src/components/MarksGraphBlock/index.jsx:7-181 | the marks card; no contract of its own, its behaviour is stated in `MarksGraphBlock.BlockShape` and `MarksGraphBlock.ChartReadsTests` |
| MarksGraphBlock.BlockShape | frontend/src/components/MarksGraphBlock/index.jsx:7-181 | the card renders exactly when the tests can be listed; "No marks records available" shows exactly when there is no test, and the chart and the listing follow the same tests |
| MarksGraphBlock.ChartReadsTests | frontend/src/components/MarksGraphBlock/index.jsx:10-13 | each point carries the percentage of the test of its name |
| MarksGraphBlock.ArrayTests | frontend/src/components/MarksGraphBlock/index.jsx:10 | tests given as an array are named by their indices |
| MarksGraphBlock.ScalarTests | frontend/src/components/MarksGraphBlock/index.jsx:16 | a number as `tests` has no tests |
| CgpaCalculator.GradePoints | frontend/src/Pages/CGPACalculator/index.jsx:39-49 | a grade has points exactly when it is one of the nine grades, and they are at most 10 |
| CgpaCalculator.GradeTable | frontend/src/Pages/CGPACalculator/index.jsx:39-49 | O=10, A+=9, A=8, B+=7, B=6, C=5, F=Ab=I=0 |
| CgpaCalculator.Weights | frontend/src/Pages/CGPACalculator/index.jsx:54-58 | one contribution per course, in order |
| CgpaCalculator.Tally | frontend/src/Pages/CGPACalculator/index.jsx:51-62 | the two running totals; no contract of its own, its behaviour is stated in `CgpaCalculator.TallyBounded`, `CgpaCalculator.TwoCourses` and `CgpaCalculator.Totals` |
| CgpaCalculator.TallyBounded | frontend/src/Pages/CGPACalculator/index.jsx:54-62 | with non-negative credits the points total lies between 0 and 10 times the credit total |
| CgpaCalculator.Result | frontend/src/Pages/CGPACalculator/index.jsx:51-64 | the computed CGPA; no contract of its own, its behaviour is stated in `CgpaCalculator.ResultBounded`, `CgpaCalculator.WeightedAverage` and `CgpaCalculator.NonContributingKeepsResult` |
| CgpaCalculator.ResultBounded | frontend/src/Pages/CGPACalculator/index.jsx:64 | with non-negative credits the result lies between 0 and 10 |
| CgpaCalculator.CreditsOf | frontend/src/Pages/CGPACalculator/index.jsx:55-58 | a course whose credits are the text of an integer and whose grade is in the table counts with those credits |
| CgpaCalculator.TwoCourses | frontend/src/Pages/CGPACalculator/index.jsx:54-64 | two courses are summed in order |
| CgpaCalculator.NegativeCreditLeavesRange | frontend/src/Pages/CGPACalculator/index.jsx:82-85 | a negative credit, which the number input accepts, can take the result below 0 |
| CgpaCalculator.WeightedAverage | frontend/src/Pages/CGPACalculator/index.jsx:54-64 | credits `a` graded O and `b` graded A average to `(10a + 8b) / (a + b)` |
| CgpaCalculator.NonContributingKeepsResult | frontend/src/Pages/CGPACalculator/index.jsx:58 | a course without parseable credits or a known grade leaves the result as it was |
| CgpaCalculator.EmptyCourseCountsNot | frontend/src/Pages/CGPACalculator/index.jsx:9 | the empty course does not count |
| CgpaCalculator.Splice | frontend/src/Pages/CGPACalculator/index.jsx:34 | `splice(index, 1)` removes one course when the index is before the end |
| CgpaCalculator.SpliceRemovesOne | frontend/src/Pages/CGPACalculator/index.jsx:32-36 | removing row `i` drops exactly that course and keeps the others in order; the first course stays |
| CgpaCalculator.Calculator.constructor | frontend/src/Pages/CGPACalculator/index.jsx:9-10 | one empty course and no result |
| CgpaCalculator.Calculator.HandleCreditsChange | frontend/src/Pages/CGPACalculator/index.jsx:14-18 | only the credits of that course change |
| CgpaCalculator.Calculator.HandleGradeChange | frontend/src/Pages/CGPACalculator/index.jsx:20-24 | only the grade of that course changes |
| CgpaCalculator.Calculator.AddCourse | frontend/src/Pages/CGPACalculator/index.jsx:26-30 | one empty course is appended; the others are unchanged |
| CgpaCalculator.Calculator.RemoveCourse | frontend/src/Pages/CGPACalculator/index.jsx:32-36 | the courses become their splice at that index |
| CgpaCalculator.Calculator.CalculateCgpa | frontend/src/Pages/CGPACalculator/index.jsx:38-66 | the result is the credit-weighted average of the counted courses, or 0 without credits |
| CgpaCalculator.Totals | frontend/src/Pages/CGPACalculator/index.jsx:51-62 | the `forEach` computes the credit total and the credits-times-points total |
| CgpaCalculator.AddCourseKeepsResult | frontend/src/Pages/CGPACalculator/index.jsx:26-30 | adding a course does not change the result |
| ProtectedRoute.Guard | frontend/src/components/ProtectedRoute/index.jsx:11-15 | the route's choice; no contract of its own, its behaviour is stated in `ProtectedRoute.GuardAdmits` and the lemmas after it |
| ProtectedRoute.GuardAdmits | frontend/src/components/ProtectedRoute/index.jsx:11-15 | the route admits exactly a token with a username or a display name; the password plays no part |
| ProtectedRoute.TokenAndUsername | frontend/src/components/ProtectedRoute/index.jsx:11-15 | a token and a username are admitted |
| ProtectedRoute.TokenAndDisplayName | frontend/src/components/ProtectedRoute/index.jsx:11 | a token and a display name without a username are admitted |
| ProtectedRoute.NoToken | frontend/src/components/ProtectedRoute/index.jsx:11-12 | without a token the route goes to `/login` |
| LoginPage.Attempt | frontend/src/Pages/LoginPage/index.jsx:65-100 | a successful attempt has a truthy token |
| LoginPage.ErrorMessage | frontend/src/Pages/LoginPage/index.jsx:122-138 | the message shown is never empty |
| LoginPage.ErrorClasses | frontend/src/Pages/LoginPage/index.jsx:122-138 | 401 shows "Incorrect username or password"; another status shows `data.error` or the default; no response shows "Server not responding"; anything else the default |
| LoginPage.Page.constructor | frontend/src/Pages/LoginPage/index.jsx:10-17 | the form starts empty |
| LoginPage.Page.UsernameInput | frontend/src/Pages/LoginPage/index.jsx:33-37 | typing changes the username only |
| LoginPage.Page.PasswordInput | frontend/src/Pages/LoginPage/index.jsx:39-43 | typing changes the password only |
| LoginPage.Page.ClearAllCookies | frontend/src/Pages/LoginPage/index.jsx:26-31 | the four session cookies are removed, the others kept |
| LoginPage.Page.HandleLogin | frontend/src/Pages/LoginPage/index.jsx:45-142 | the new state and cookies are those of the login step, the toast is `LoginPage.Notification`'s, and the redirect timer is set exactly after a successful sign-in |
| LoginPage.Notification | frontend/src/Pages/LoginPage/index.jsx:45-140 | no toast for the fun username; a welcome exactly after a successful sign-in; otherwise an error toast with a non-empty text |
| LoginPage.ToastMatchesForm | frontend/src/Pages/LoginPage/index.jsx:58-140 | every error toast repeats the error the form then shows; a welcome names the user and comes with the new token cookie |
| LoginPage.Page.RedirectTimer | frontend/src/Pages/LoginPage/index.jsx:112-117 | the timer ends loading and redirects home |
| LoginPage.Submit | frontend/src/Pages/LoginPage/index.jsx:45-142 | one call of `handleLogin`; no contract of its own, its behaviour is stated in `LoginPage.FunUserFirst`, `LoginPage.MissingCredentials`, `LoginPage.MissingTokenOrUserInfo`, `LoginPage.FailureKeepsCookies` and `LoginPage.SuccessSetsCookies` |
| LoginPage.FunUserFirst | frontend/src/Pages/LoginPage/index.jsx:50-55 | the fun username goes to `/fun` before any validation or request |
| LoginPage.MissingCredentials | frontend/src/Pages/LoginPage/index.jsx:57-61 | an empty username or password sets the error with no request |
| LoginPage.MissingTokenOrUserInfo | frontend/src/Pages/LoginPage/index.jsx:81-100 | missing cookies or user information show the default message |
| LoginPage.FailureKeepsCookies | frontend/src/Pages/LoginPage/index.jsx:119-140 | a failed login keeps the cookies, ends loading and shows an error |
| LoginPage.SuccessSetsCookies | frontend/src/Pages/LoginPage/index.jsx:103-107 | a successful login clears the session cookies, then sets the token, the username and the display name |
| LoginPage.TimerGoesHome | frontend/src/Pages/LoginPage/index.jsx:112-117 | after the timer the page goes home |
| LoginPage.Render | frontend/src/Pages/LoginPage/index.jsx:144-159 | the page's redirect choice; no contract of its own, its behaviour is stated in `LoginPage.RedirectMatchesGuard` |
| LoginPage.RedirectMatchesGuard | frontend/src/Pages/LoginPage/index.jsx:152-157 | the page goes home exactly when `redirectToHome` is set or the route guard admits, and to `/fun` only otherwise |
| LoginPage.LoginBody | frontend/src/Pages/LoginPage/index.jsx:70-73 | the login request sends an object with the keys `username` and `password`, in that order, holding the typed values |
| LoginPage.ProxyNeverRequiresCredentials | backend/server.js:50-52 | the proxy never refuses the page's non-empty credentials as missing |
| LoginPage.ProxyErrorsShown | backend/server.js:75-94 | every error the proxy returns other than 401 is shown through its `error` field |
| LoginPage.Upstream401 | backend/server.js:79-87 | an upstream 401 reaches the page as 401 and shows "Incorrect username or password" |
| Server.Present | backend/server.js:83-87 | `JSON.stringify` drops the undefined fields and keeps the others |
| Server.TokenOf | backend/server.js:102 | the token is the query `token` when truthy, else the `x-csrf-token` header |
| Server.Credentials | backend/server.js:50-55 | the credentials are read exactly when both the username and the password are truthy |
| Server.MissingCredentials | backend/server.js:50-52 | a missing username or password on `/api/login` and `/api/auth` answers 400, whatever the campus API would say |
| Server.LoginSendsCredentials | backend/server.js:55-60 | the login answer depends only on what the campus API says to these credentials |
| Server.NoCookiesRefused | backend/server.js:64-67 | an upstream login without `Cookies` answers 400 |
| Server.LoginSucceeds | backend/server.js:69-74 | a login with cookies answers 200 with the message, the upstream `Response` and the cookies |
| Server.TokenChoice | backend/server.js:102-106 | a truthy query token wins over the header; otherwise the header decides |
| Server.ForwardSendsToken | backend/server.js:222-241 | the forwarded answer depends only on what the campus API says to this token |
| Server.StatusPassedThrough | backend/server.js:79-87 | an upstream HTTP error keeps its status on every endpoint |
| Server.FailureStatuses | backend/server.js:88-94 | no response gives 500 on login and user but 503 on timetable and planner; any other error gives 500 |
| Server.ForwardOutcome | backend/server.js:241-261 | timetable and planner answer 200 with the upstream body unchanged, or the mapped failure |
| Server.UserWrapsInfo | backend/server.js:123-126 | the user endpoint wraps the upstream body as `userInfo` |
| Server.FailureCarriesError | backend/server.js:75-94 | every failure body has an `error` field |
| Server.LoginErrorsCarryError | backend/server.js:41-96 | every non-200 login answer has an `error` field |
| Server.AuthErrorsCarryError | backend/server.js:148-215 | every non-200 auth answer has an `error` field |
| Server.UserErrorsCarryError | backend/server.js:99-143 | every non-200 user answer has an `error` field |

## Left out

- The network, the 10-second timeouts, `encodeURIComponent` and cookie expiry are left out. Every request's outcome is a parameter, and the proxy's calls to the campus API are a function parameter.
- Toasts, alerts and navigation are modelled as values: `HomePage.Toast`, `LoginPage.Toast`, `LowerMenuBlock.Effect` and the screens the pages render. How they are displayed, and for how long, is not modelled.
- React throws when a page renders a plain object or array as text, for example an object-valued `subject_name` or `error`. The rendered values are carried as they are, and that throw is not modelled.
- Console logging is left out.
- The PDF rendering of `generatePDF` is left out: `html2canvas`, `jsPDF`, the page-height loop and the report's HTML. Only the file name and the percentage cell are modelled.
- `handleShare`, `handleInstallApp` and the install prompt are browser APIs with no decision to model.
- The `_isMounted` flag is a boolean parameter. Two loads running at once, and their interleaving, are not modelled.
- `new Date()` is a parameter: today's date, month and day.
- `toFixed(2)` is not modelled. CGPA and percentages are exact reals, and JSON numbers are integers.
- `Number(text)` and `parseFloat` read their literals, hexadecimal, exponents and `Infinity` included, as exact reals. Rounding to a double is not modelled, and neither is the overflow of a huge literal such as `1e400` to `Infinity`.
- `JSON.stringify` escapes only quote and backslash. Control characters, integer-like key order and duplicate keys are not modelled.
- The CGPA model works on values: `handleCreditsChange` and `handleGradeChange` write into a course object shared with the previous state. The model does not capture that aliasing.
- The component classes, the toast library and the routes are not part of this model: `App.jsx`, `FeatureHeader`, `backend/test.js` and `backend/example.js`.
- `WebStorage.LocalStorage.Load`: it assumes `Valid`. Every non-empty cache entry must parse, and must have the shape its page writes (`WebStorage.Fits`). A fresh storage is valid (`WebStorage.LocalStorage.constructor`), and every write the pages make keeps it valid. Entries written by anything else are not modelled:
  - a corrupt entry, which makes `JSON.parse` throw;
  - a timetable entry that parses but has no truthy `timetable`, for which the page shows "Invalid timetable data format";
  - a cached `null`, for which the timetable page throws at `null.day_order` (frontend/src/Pages/TimeTable/index.jsx:46-50).
  `TimeTable.FetchThenRender` relies on this assumption.
- `CgpaCalculator.Contribution`: two inputs are treated differently from the source, and neither can come from the page's number input and grade `select`:
  - a credit whose `parseFloat` is `Infinity` is dropped here, while the source adds it, making the result `NaN` or `Infinity`;
  - a grade named after a member of `Object.prototype`, such as `"toString"`, passes the source's `!== undefined` test but is not in the model's table.
- `TimeTable.ClassSlots`: its own contract states only the length bound. What it keeps is stated in `TimeTable.ClassSlotsMeaning`.
- `HomePage.FirstPerKey`: its own contract states only that every warned course is low. That each key is warned once is stated in `HomePage.OneWarningPerKey`.
- `LoginPage.Attempt` and `LoginPage.ErrorMessage` state only that the token and the message are truthy. The outcome of each case is stated in the lemmas that follow them.
- `Server.Credentials`, `Server.Login` and `Server.Auth` require the request body to be an object or an array. Express 4's `express.json()` (backend/server.js:9) makes `req.body` `{}` when there is no JSON body, and its strict mode refuses a scalar. Under Express 5 `req.body` stays `undefined` without a JSON body. Then `req.body.username` (backend/server.js:44, 151) throws, and the handler answers 500. That case is not modelled.
- `AttendanceBlock.ShortCode`: a Dafny string is a sequence of Unicode code points, while `courseCode.substring(0, 8)` counts UTF-16 code units (frontend/src/components/AttendanceBlock/index.jsx:6). For a code holding a character outside the Basic Multilingual Plane the model keeps eight characters, while the source keeps eight code units and may cut a surrogate pair in half. Codes made only of BMP characters are cut the same way in both.
- `Server.Login`, `Server.User`, `Server.Auth`, `Server.Forward`, `Server.Timetable` and `Server.Planner` carry no contract of their own. Their behaviour is stated in the `Server` lemmas.
