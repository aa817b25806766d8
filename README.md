# Class schedule data layer — a Dafny model

This project models the client-side data layer of a React Native class-schedule app. The backend keeps the classes as one JSON collection. Each body is stored under a key the backend generates. The model covers four things:

- **Expansion.** A collection read by the `fetchClasses` request or by the live `useClasses` subscription becomes a list of `ClassDetails` records. Each record takes its key as `id` and copies six fields.
- **The day query.** The admin week editor keeps the records whose `date` string equals the day exactly. The home screen first normalises dates through moment. Both screens sort by start time. The start time `"H:MM"` is read as `H * 60 + MM` minutes, and JavaScript's stable sort keeps records with equal minutes in input order (section 23.1.3.30 of ECMA-262, 2023 edition).
- **Mutation bodies and paths.** The add form posts its fields plus the selected day. The edit form puts its fields plus the original record's date at `/classes/<id>.json`. The edit form is prefilled from the record.
- **Week arithmetic.** The admin screen shows one 7-day row, and the previous/next buttons move its offset by one week. The home screen shows three such rows. A swipe to page `ind` moves both the strip and the selected day by `ind - 1` weeks.

Modules follow the source: `ClassRecords` (the record and its stored body), `Sequences` (`filter`), `Times` (`split(":")`, `Number`, minutes), `DaySort` (the comparator and the order `sort` produces), `WeekGrid` (weeks over day numbers), `UseClasses` (hooks/useClasses.ts), `Http` (util/http.js), `Admin` (screens/Admin/EditScheduleWeekly.tsx) and `Home` (screens/Home/ClassSchedule.tsx). Component state is a class whose fields are the `useState` hooks. Its handlers are methods that modify those fields. Filters, `toMinutes`, `weekDates` and `weeks` are functions.

The model makes these choices:

- A stored field that is missing reads as `Undefined`, the JavaScript value `undefined`. `JSON.stringify` leaves such members out of a body.
- A collection is the sequence of its `(key, body)` pairs in key enumeration order. `for…in` and `Object.keys` enumerate in the same order.
- Days are integers. `format("YYYY-MM-DD")` is a function `iso` that each screen is built with. `startOf("week")` is fixed by one `anchor` day on which the locale's week begins.
- The sort is `Array.prototype.sort` with its stability guarantee. `StableSort` defines the resulting order. `StableSortUnique` proves that any sorted, stable order of the same records equals it. `SortInPlace` rewrites the array to exactly that order.
- The transport is a parameter. Each wrapper receives how the backend's reply settles and returns the request it sends and how its own promise settles.

`addClass` (util/http.js:57-65) catches every error and resolves normally. So `handleSubmit`'s catch branch (screens/Admin/EditScheduleWeekly.tsx:116-118) can never run. After a failed add, the form is still reset, the modal closed and the list re-fetched. `Admin.EditScheduleWeekly.HandleSubmit` states exactly this.

## Model

| member | source | states |
|---|---|---|
| ClassRecords.ToRecord | util/http.js:75-83 | the record's id is the key, and serialising its body again gives exactly the stored object's members among the six names |
| ClassRecords.SixMembers | hooks/useClasses.ts:24-30 | the members a record is read from: only the six names, each read as in the stored object |
| ClassRecords.JsonOfFields | util/http.js:75-83 | objects confined to the six names that agree on each of them are equal |
| ClassRecords.BodyJson | util/http.js:60 | the JSON object sent for a body holds each defined field under its name, omits the `undefined` ones and has no other member |
| ClassRecords.Member | util/http.js:77-82 | reading a member yields its string when the stored object has it and `undefined` otherwise |
| ClassRecords.WithId | screens/Admin/EditScheduleWeekly.tsx:99-102 | a record is its id plus its body: the id and the body are recovered unchanged |
| ClassRecords.PutMember | util/http.js:60 | serialising a body writes a defined member and leaves the object unchanged for an `undefined` one; other members are untouched |
| ClassRecords.StoredBodyRoundTrip | util/http.js:74-85 | a body stored under a key is read back as the record with that key as id and exactly the body's fields |
| ClassRecords.ToRecordDropsExtraMembers | util/http.js:75-83 | stored members other than the six never reach the record: bodies agreeing on the six give the same record |
| Sequences.Filter | screens/Admin/EditScheduleWeekly.tsx:59-60 | the result is no longer than the input and every kept element satisfies the predicate |
| Sequences.FilterCount | screens/Admin/EditScheduleWeekly.tsx:59-60 | each element satisfying the predicate is kept as often as it occurs; every other element is dropped |
| Sequences.FilterMembers | screens/Admin/EditScheduleWeekly.tsx:59-60 | an element is kept exactly when it occurs in the input and satisfies the predicate |
| Sequences.FilterAppend | screens/Home/ClassSchedule.tsx:47-49 | filtering keeps input order: it distributes over concatenation |
| Sequences.FilterAgree | screens/Home/ClassSchedule.tsx:47-49 | two predicates that agree on the input keep the same elements |
| Times.SplitColon | screens/Admin/EditScheduleWeekly.tsx:207 | `split(":")` always yields at least one piece |
| Times.SplitColonJoin | screens/Admin/EditScheduleWeekly.tsx:207 | the pieces contain no colon, and joining them with colons gives back the string |
| Times.SplitColonAfterPiece | screens/Home/ClassSchedule.tsx:62 | a colon-free prefix up to the first colon becomes the first piece |
| Times.SplitColonNoColon | screens/Home/ClassSchedule.tsx:62 | a colon-free string is a single piece |
| Times.DigitsValue | screens/Admin/EditScheduleWeekly.tsx:207 | `Number` of a digit string: the empty string is 0, one digit is its value, and a leading zero changes nothing |
| Times.ToMinutes | screens/Admin/EditScheduleWeekly.tsx:206-209 | at least 60 minutes per hour; when the minute piece is below 60, the hour and minute are recovered by division by 60 |
| Times.ToMinutesOfClock | screens/Admin/EditScheduleWeekly.tsx:206-209 | for digit strings `H` and `MM`, `"H:MM"` is a valid time and `toMinutes` gives `H * 60 + MM` |
| Times.UnpaddedHourComesFirst | screens/Home/ClassSchedule.tsx:61-64 | `"9:00"` is 540 minutes and `"10:00"` is 600: times compare as numbers, not as text |
| DaySort.CompareStart | screens/Admin/EditScheduleWeekly.tsx:205-211 | the comparator is negative, zero or positive exactly when the first start minute is smaller than, equal to or greater than the second |
| DaySort.Insert | screens/Admin/EditScheduleWeekly.tsx:205-211 | inserting a record adds exactly that record to the multiset of records |
| DaySort.StableSort | screens/Home/ClassSchedule.tsx:60-67 | the sorted list is a permutation of its input |
| DaySort.InsertSorted | screens/Admin/EditScheduleWeekly.tsx:205-211 | insertion into a list sorted by start minute keeps it sorted |
| DaySort.StableSortSorted | screens/Admin/EditScheduleWeekly.tsx:204-211 | the day list is nondecreasing in start minute |
| DaySort.InsertWithStart | screens/Admin/EditScheduleWeekly.tsx:205-211 | an inserted record goes before the records with its own start minute |
| DaySort.StableSortStable | screens/Home/ClassSchedule.tsx:60-67 | for every start minute, the records starting then keep their input order |
| DaySort.StableSortStableAll | screens/Home/ClassSchedule.tsx:60-67 | stability at every start minute at once |
| DaySort.SortedSameGroupsEqual | screens/Home/ClassSchedule.tsx:60-67 | two sorted lists with the same records in the same order at every start minute are equal |
| DaySort.StableSortUnique | screens/Home/ClassSchedule.tsx:60-67 | any sorted list with the input's records in input order at every start minute is exactly the sort's result |
| DaySort.SortInPlace | screens/Home/ClassSchedule.tsx:60 | `sort` rewrites the array in place to the stable start-time order of its old contents |
| DaySort.NewArray | screens/Home/ClassSchedule.tsx:47-50 | a fresh array holding exactly the given records, as `filter` returns |
| WeekGrid.StartOfWeek | screens/Admin/EditScheduleWeekly.tsx:53 | `startOf("week")` is a week-start day no later than the day and less than a week before it |
| WeekGrid.StartOfWeekUnique | screens/Admin/EditScheduleWeekly.tsx:53 | only one week-start day lies within the six days before a day or on it |
| WeekGrid.StartOfWeekShift | screens/Home/ClassSchedule.tsx:31 | adding whole weeks to a day moves the start of its week by the same amount |
| WeekGrid.OffsetShift | screens/Admin/EditScheduleWeekly.tsx:53 | changing the week offset by `n` moves the shown week's start by `7 * n` days |
| WeekGrid.WeekRow | screens/Admin/EditScheduleWeekly.tsx:55-57 | a row has seven days, day `i` being the start plus `i` |
| WeekGrid.WeekRowIsWeek | screens/Admin/EditScheduleWeekly.tsx:53-57 | a row started at a week start holds exactly the days whose week starts there |
| WeekGrid.WeekRowIsWeekAll | screens/Admin/EditScheduleWeekly.tsx:53-57 | the same, for every day at once |
| WeekGrid.WeekRowAtMostOne | screens/Home/ClassSchedule.tsx:97-98 | at most one day of a row equals the selected day, and one does exactly when the selected day lies in the row |
| WeekGrid.WeeksGrid | screens/Home/ClassSchedule.tsx:30-43 | three rows; row `r` is the 7-day row starting `7 * (r - 1)` days from the current week's start |
| WeekGrid.WeeksGridConsecutive | screens/Home/ClassSchedule.tsx:33-41 | read row by row, the grid is 21 consecutive days starting one week before the current week |
| UseClasses.Expand | hooks/useClasses.ts:23-31 | one record per key: as many records as keys, record `i` has key `i` as id and the body's six members as fields |
| UseClasses.SnapshotClasses | hooks/useClasses.ts:14 | a null snapshot gives the empty list; otherwise there is one record per key |
| UseClasses.ExpandAppend | hooks/useClasses.ts:23 | records come in key enumeration order |
| UseClasses.ExpandIdsDistinct | hooks/useClasses.ts:23 | distinct keys give pairwise distinct ids |
| UseClasses.ExpandDropsExtraMembers | hooks/useClasses.ts:24-30 | collections whose bodies agree on the six members expand to the same list |
| UseClasses.StoredBodyListed | hooks/useClasses.ts:23-31 | a body stored under a key is listed with that key as id and exactly its own fields |
| Http.ClassPath | util/http.js:96 | the path is `/classes/`, then the id, then `.json`, and the id can be read back from between them |
| Http.ClassPathInjective | util/http.js:95-101 | different ids address different paths |
| Http.FetchClasses | util/http.js:68-92 | the request is a GET of the collection; a failure rethrows the same error; otherwise the loop returns the hook's list: one record per key with the key as id, in key order |
| Http.AddClass | util/http.js:57-65 | posts the body unchanged to the collection and always resolves, whatever the reply |
| Http.UpdateClass | util/http.js:95-97 | puts the body unchanged at the record's path and settles as the request does |
| Http.DeleteClass | util/http.js:99-101 | deletes at the record's path and settles as the request does |
| Admin.WithField | screens/Admin/EditScheduleWeekly.tsx:88-90 | field `name` takes the new value and the other four keep theirs |
| Admin.SubmitBody | screens/Admin/EditScheduleWeekly.tsx:99-102 | the body's date is the given date and its other five fields are the form's |
| Admin.PrefillForm | screens/Admin/EditScheduleWeekly.tsx:76-86 | submitting the prefilled form unedited, with the record's date, sends the record minus its id |
| Admin.ClassesOnDate | screens/Admin/EditScheduleWeekly.tsx:59-60 | every kept record is dated the day, and a record is kept exactly when it is in the list with that date |
| Admin.ClassesOnDateExactly | screens/Admin/EditScheduleWeekly.tsx:59-60 | a record is kept exactly when it is in the list and its date string is the day, and it is kept as often as it occurs |
| Admin.ClassesOnDateInOrder | screens/Admin/EditScheduleWeekly.tsx:59-60 | the kept records stay in input order |
| Admin.DayList | screens/Admin/EditScheduleWeekly.tsx:204-211 | the day's records, dated the day and no others, a permutation of the filtered list, sorted by start minute and stable at every start minute |
| Admin.DayListExample | screens/Admin/EditScheduleWeekly.tsx:204-211 | records `a` at 9:00 and `b` at 10:15 on one day and `c` on the next give the day list `[a, b]` |
| Admin.EditScheduleWeekly.constructor | screens/Admin/EditScheduleWeekly.tsx:26-38 | the initial state: offset 0, no classes, nothing selected, empty form, modals closed |
| Admin.EditScheduleWeekly.StartOfShownWeek | screens/Admin/EditScheduleWeekly.tsx:53 | a week-start day no later than today moved by the offset, and less than a week before it |
| Admin.EditScheduleWeekly.ClassesForDate | screens/Admin/EditScheduleWeekly.tsx:59-60 | the state's classes dated exactly the given date string, and no others |
| Admin.EditScheduleWeekly.WeekDates | screens/Admin/EditScheduleWeekly.tsx:53-57 | seven consecutive days from `startOfWeek`, exactly the days of that week |
| Admin.EditScheduleWeekly.DayColumn | screens/Admin/EditScheduleWeekly.tsx:204-211 | a fresh array holding the day's records sorted stably by start time |
| Admin.EditScheduleWeekly.FetchAndSetClasses | screens/Admin/EditScheduleWeekly.tsx:40-47 | a successful fetch replaces the classes with the fetched list; a failure leaves them |
| Admin.EditScheduleWeekly.OpenModal | screens/Admin/EditScheduleWeekly.tsx:63-73 | selects the day, clears the form and opens the add modal |
| Admin.EditScheduleWeekly.OpenEditModal | screens/Admin/EditScheduleWeekly.tsx:76-86 | selects the record, copies it into the form and opens the edit modal |
| Admin.EditScheduleWeekly.HandleChange | screens/Admin/EditScheduleWeekly.tsx:88-90 | only field `name` of the form changes, to the typed text |
| Admin.EditScheduleWeekly.HandleSubmit | screens/Admin/EditScheduleWeekly.tsx:93-119 | with no selected day nothing is sent and nothing changes; otherwise the form plus the selected day is posted, and the form is reset, the modal closed and the list re-fetched whatever the reply |
| Admin.EditScheduleWeekly.HandleEditSubmit | screens/Admin/EditScheduleWeekly.tsx:122-140 | with no selection nothing is sent; otherwise the form plus the record's own date is put at the record's id; success closes and re-fetches, a rejection changes nothing |
| Admin.EditScheduleWeekly.CancelAdd | screens/Admin/EditScheduleWeekly.tsx:279 | the add modal closes; the form and the selected day stay |
| Admin.EditScheduleWeekly.CancelEdit | screens/Admin/EditScheduleWeekly.tsx:335-338 | the edit modal closes and the selection is cleared |
| Admin.EditScheduleWeekly.GoToPreviousWeek | screens/Admin/EditScheduleWeekly.tsx:173 | the offset drops by one and the shown week moves back seven days |
| Admin.EditScheduleWeekly.GoToNextWeek | screens/Admin/EditScheduleWeekly.tsx:174 | the offset grows by one and the shown week moves forward seven days |
| Home.NormaliseDate | screens/Home/ClassSchedule.tsx:48 | a date normalises to a day exactly when it is an ISO calendar date, and then to itself |
| Home.ClassesOnDay | screens/Home/ClassSchedule.tsx:47-49 | every kept record is dated the selected day, and a record is kept exactly when it is fetched with that date and the date is a calendar date |
| Home.ClassesOnDayExactly | screens/Home/ClassSchedule.tsx:45-51 | a fetched record is kept exactly when its date is the selected calendar day, and as often as it occurs |
| Home.ClassesOnDayInOrder | screens/Home/ClassSchedule.tsx:47-49 | the kept records stay in fetched order |
| Home.NormalisedFilterIsExact | screens/Home/ClassSchedule.tsx:45-51 | on ISO calendar dates the normalised filter keeps the same records as exact comparison |
| Home.ClassSchedule.constructor | screens/Home/ClassSchedule.tsx:23-25 | the initial state: today selected, offset 0, nothing fetched or filtered |
| Home.ClassSchedule.OnSnapshot | hooks/useClasses.ts:13-34 | each snapshot replaces the fetched list with its expansion |
| Home.ClassSchedule.FilterEffect | screens/Home/ClassSchedule.tsx:45-51 | a new filtered array holding the fetched records of the selected day |
| Home.ClassSchedule.SortClasses | screens/Home/ClassSchedule.tsx:60-67 | the state array itself is sorted in place into the stable start-time order and returned |
| Home.ClassSchedule.StartOfShownWeek | screens/Home/ClassSchedule.tsx:31 | a week-start day no later than today moved by `week` weeks, and less than a week before it |
| Home.ClassSchedule.Weeks | screens/Home/ClassSchedule.tsx:30-43 | three rows, for the weeks before, of and after the shown week |
| Home.ClassSchedule.IsActive | screens/Home/ClassSchedule.tsx:97-98 | an active cell formats as the selected date, so the classes listed are that cell's |
| Home.ClassSchedule.ActiveCellOnce | screens/Home/ClassSchedule.tsx:96-98 | in each row of the strip at most one cell is active, and one is exactly when the selected day lies in the row |
| Home.ClassSchedule.SelectDay | screens/Home/ClassSchedule.tsx:102-103 | tapping a day selects it |
| Home.ClassSchedule.OnIndexChanged | screens/Home/ClassSchedule.tsx:81-92 | index 1 changes nothing; any other index moves `week`, the strip and the selected day by `ind - 1` weeks, so the same cell stays highlighted |
| Home.ActiveAtMostOnce | screens/Home/ClassSchedule.tsx:96-98 | in each row at most one day is active, and one is exactly when the selected day lies in the row |
| Home.SwipeKeepsHighlight | screens/Home/ClassSchedule.tsx:86-89 | shifting the grid and the selected day by the same number of weeks keeps the highlighted cell |

## Left out

- Transport: axios requests and interceptors, Firebase `onValue` and its unsubscribe lifecycle. They are network I/O and foreign libraries. Each reply is a parameter of the method that receives it.
- Backend behaviour: key generation on POST, and what PUT or DELETE on a missing id does. The client cannot observe it.
- Size logging (`getSizeInKB`, the `kbSize` computation, `toFixed`) and all `console` output: floating-point formatting and logging.
- moment's calendar: `format("YYYY-MM-DD")` is the screen's `iso` parameter, and `startOf("week")` uses a locale anchor day. Time of day and daylight-saving shifts are not modelled.
- Home.NormaliseDate: only the `YYYY-MM-DD` form is modelled. moment parses other ISO 8601 forms itself (a date with a time, such as `2024-06-03T10:00`, renders as `2024-06-03`), tries RFC 2822 next and only then falls back to `Date`. An `undefined` date is the current time, so such a record would show on today's list. All of these are `Unmodelled` and match no day, so the filter keeps fewer records than the source there.
- DaySort.StableSort: defined only when every record's start time is digits, a colon and digits (`Times.ValidTime`). Outside digit strings the model does not follow `Number`, which also accepts signs, spaces, decimals and exponents, and an `undefined` start time makes `split` throw. The sorting methods require valid times of their whole input, although `sort` never calls the comparator on a list of one record, so the source renders such a day whatever its start time is.
- Times.ToMinutes: the hour and minute are exact integers, but `Number` and `hours * 60 + minutes` round to doubles. From 15 digits in the hour piece, or 16 in the minute piece, the total can exceed 2^53 and different times can round to the same double. For example, `"150119987579017:00"` and `"150119987579017:01"` compare equal in the source, so stability keeps their input order, while the model orders them by their exact values. Past about 308 digits, `Number` overflows to Infinity. When only one of the two times overflows, the difference is plus or minus Infinity and its sign is still consistent. When both overflow, Infinity minus Infinity is NaN and the comparator stops being meaningful.
- DaySort.SortInPlace: it states the order `sort` guarantees, not the engine's algorithm. The intermediate array states of the engine's sort are not modelled.
- Key order: JavaScript lists integer-like keys first, in ascending order. A collection is given already in enumeration order.
- Stored members that are not strings, and stored entries that are not objects (reading `.date` of `null` throws), are not modelled.
- Alert dialogs, `setTimeout` and `scrollTo` in the swiper, and the async ordering between a write and its re-fetch. A handler's re-fetch is modelled as running after its write with its own reply.
- `handleDelete` and its confirmation dialog callback. The request it sends is `Http.DeleteClass`.
- The `useEffect` that re-fetches when `weekOffset` changes (screens/Admin/EditScheduleWeekly.tsx:49-51) is `FetchAndSetClasses`, called separately. The Cancel buttons are `CancelAdd` and `CancelEdit`.
- App.js (navigation and auto-login), components/ClassScheduleCard.tsx, the style sheets and the JSX layout are presentation.
