# Admin dashboard list logic and capture-page state, in Dafny

This project models the in-memory logic of a React admin dashboard for a
face-analytics learning platform. Network calls, the face-analysis SDK and the
rendering are left out. What remains is modelled:

- **Users table** (`users.dfy`, module `Users`). Users are left-joined with their total
  session time by email. The list is then narrowed by a case-insensitive username
  search (contains, startsWith or endsWith) and by an account-status selector. It is
  shown thirty users to a page. A status toggle posts the flag's new value. Once the
  request resolves, the flag is flipped on every user with the same email, in the list
  captured at the click.
- **Sessions report** (`sessions.dfy`, module `Sessions`). Fetched sessions with an empty
  `session_for` become `"assignment"`, rewritten in place. A conjunctive filter works on
  email substring, minimum duration and session type. Chart labels and values come
  from the filtered list.
- **Sign-up form** (`signup.dfy`, module `Signup`). The submit handler checks the password
  confirmation first and the `@alexu.edu.eg` email suffix second. Only a form that passes
  both is posted, and the body holds exactly username, password and email.
- **Course browser** (`courses.dfy`, module `Courses`). Course rows are renamed. Semesters
  are de-duplicated in first-seen order. Each semester gets its own course list, and a
  two-level selection switches to a course's quiz report.
- **Capture page** (`capture.dfy`, module `MorphCast`). This covers the observation record,
  the name field with its typing flag, and the effect that stores the whole record
  under `"data/" + userName` when the age changes.
- **Gender adapter** (`gender.dfy`, module `Gender`). The SDK's reported value falls back to
  `""`. It is shown through case-insensitive male/female conditions, and the listener
  hands a record back to the page.

There are also shared modules. `Seqs` models `filter`, `slice` and `[...new Set(xs)]`.
`Text` models ASCII `toLowerCase`, `startsWith`, `endsWith`, `includes`, decimal
rendering and `Number()` on `<select>` strings. `Wrappers` holds `Option`.

Facts about the source that shape the model:

- React runs every effect after the first render, so the age effect (src/pages/MorphCast.jsx:45-51)
  also runs once on mount. The field is not being typed into then, so the initial record is
  stored under `"data/"` (`MorphCast.CapturePage.constructor`).
- The save gate is `!isTyping || userData.userName` (src/pages/MorphCast.jsx:34, 46). An age
  change therefore saves under `"data/"` with an empty name when the field is not being typed
  into (`MorphCast.AgeEffect`).
- On the page as it is put together, only the gender adapter receives `setUserData`
  (src/pages/MorphCast.jsx:91), and the age component gets no props (src/pages/MorphCast.jsx:93).
  The adapter always hands back the first render's record, whose age is empty. So after the
  mount the age never changes, and nothing more is stored (`Gender.WiredPageRun`).
  `MorphCast.CapturePage.SetUserData` and the two `MorphCast` scenarios describe what the
  age effect does for a child that reports a new age. No such child exists in this page.
- The gender adapter lower-cases only for its display comparisons
  (src/components/morphcomponents/GenderComponent.jsx:23-24). What it hands back is the first
  render's record with the first render's gender (`""`), not the reported value (see Findings).
- The status selector's value for superusers is `"superusers"` (src/components/Users.jsx:62).
- A status toggle's callback maps the `users` list of the render in which the checkbox was
  clicked (src/components/Users.jsx:92-94), not the list current when the request resolves
  (see Findings).

## Model

| member | source | states |
|---|---|---|
| Seqs.Filter | src/components/Users.jsx:42-54 | `Array.prototype.filter`: an element is kept iff it is in the input and satisfies the predicate; never longer than the input |
| Seqs.FilterIsSubsequence | src/components/Sessions.jsx:28-32 | a filter keeps an order-preserving subsequence of its input |
| Seqs.FilterFusion | src/components/Users.jsx:42-67 | filtering by p and then by q equals one filter by their conjunction |
| Seqs.FilterPartition | src/components/Users.jsx:56-59 | filters by a predicate and by its negation split the input's length between them |
| Seqs.FilterMonotone | src/components/Sessions.jsx:30 | a stronger predicate keeps a subsequence of what a weaker one keeps |
| Seqs.Distinct | src/components/reports/Courses.jsx:29 | `[...new Set(xs)]`: no duplicates, and exactly the values of the input |
| Seqs.DistinctFirstOccurrenceOrder | src/components/reports/Courses.jsx:29 | the distinct values appear in the order of their first occurrence in the input |
| Seqs.SliceNonNegative | src/components/Users.jsx:109 | `slice(start, end)` with non-negative bounds is the clamped stretch s[min(start,n) .. min(end,n)] |
| Text.Lower | src/components/Users.jsx:43-44 | `toLowerCase` keeps the length and lower-cases every ASCII capital, leaving other characters alone |
| Text.LowerIdempotent | src/components/Users.jsx:43-44 | lower-casing twice is lower-casing once |
| Text.IncludesIffOccurs | src/components/Users.jsx:52 | `includes` holds iff the term occurs at some position |
| Text.EndsWithIncludes | src/components/Users.jsx:47-52 | a suffix match is also a contains match |
| Text.ToNumber | src/components/Sessions.jsx:30 | `Number` of a `<select>` value: "" is 0, and any number read is non-negative |
| Text.NatToStringRoundTrip | src/components/Sessions.jsx:35 | a decimal rendering of n reads back as n |
| Text.NatToStringInjective | src/components/Sessions.jsx:35 | distinct numbers render to distinct strings |
| Users.FindDuration | src/components/Users.jsx:34 | the found position is the first row with the user's email; none is found exactly when no row has it |
| Users.MergeUser | src/components/Users.jsx:35-39 | the merged user is the user plus the first matching row's duration and text, or 0 and "0 minutes" when none matches |
| Users.Merge | src/components/Users.jsx:33-40 | one merged user per user, same count and order, each keeping all of its user's fields |
| Users.JoinIsFunctional | src/components/Users.jsx:33-40 | the join relation determines each merged user uniquely (the first match is unique) |
| Users.FilterUsers | src/components/Users.jsx:42-67 | a merged user is listed iff it matches the search and the status selector |
| Users.FilterUsersIsSubsequence | src/components/Users.jsx:42-67 | the two filters keep an order-preserving subsequence, equal to one filter by the conjunction |
| Users.SearchModes | src/components/Users.jsx:42-53 | startsWith is a prefix test, endsWith a suffix test, and any other mode an occurrence anywhere, all on lower-cased strings |
| Users.SearchIgnoresCase | src/components/Users.jsx:43-44 | lower-casing the term or the username beforehand does not change the outcome |
| Users.EmptySearchKeepsAll | src/components/Users.jsx:42-67 | an empty term with the "all" selector lists every merged user, in every search mode |
| Users.UnknownSelectorKeepsSearchResult | src/components/Users.jsx:64-65 | a selector other than active/inactive/staff/superusers keeps the whole search result |
| Users.ActiveInactiveSplit | src/components/Users.jsx:56-59 | "active" and "inactive" partition the search result |
| Users.PageCount | src/components/Users.jsx:193 | the page count c is ceil(n/30): (c-1)*30 < n <= c*30 |
| Users.PageContents | src/components/Users.jsx:107-109 | page p >= 1 is filtered[min((p-1)*30,n) .. min(p*30,n)] and holds at most 30 users |
| Users.PagePastCountIsEmpty | src/components/Users.jsx:107-109 | a page beyond the page count shows nobody |
| Users.PagesArePrefix | src/components/Users.jsx:107-109 | pages 1..k in turn give the first min(30k, n) users |
| Users.PagesReassemble | src/components/Users.jsx:193 | pages 1..ceil(n/30) in turn give back the filtered list exactly |
| Users.WithStatus | src/components/Users.jsx:93 | the spread with a computed key sets that one flag and keeps the other flags, id, username and email |
| Users.ToggleRequest | src/components/Users.jsx:87-90 | the body carries the user's email and the flag's key, with "False" iff the flag is set and "True" iff it is not |
| Users.Toggled | src/components/Users.jsx:93 | same length; users with the email get the flag negated, the others are unchanged |
| Users.ToggleChangesOnlyField | src/components/Users.jsx:93 | after a toggle, only the chosen flag of matching users differs |
| Users.ToggleTwiceRestores | src/components/Users.jsx:93 | toggling the same flag twice restores the list |
| Users.ToggleAgreesWithRequest | src/components/Users.jsx:87-93 | the clicked user's flag ends at the value the request body asked for |
| Users.UsersTable.constructor | src/components/Users.jsx:4-11 | initial state: empty lists, empty term, "contains", page 1, "all", loading |
| Users.UsersTable.UsersFetched | src/components/Users.jsx:21-23 | the users are replaced and the loading flag is cleared |
| Users.UsersTable.DurationsFetched | src/components/Users.jsx:27-29 | the duration rows are replaced |
| Users.UsersTable.SetSearchTerm | src/components/Users.jsx:121 | only the search term changes |
| Users.UsersTable.SetFilterType | src/components/Users.jsx:126 | only the search mode changes |
| Users.UsersTable.SetFilterActive | src/components/Users.jsx:135 | only the status selector changes |
| Users.UsersTable.Paginate | src/components/Users.jsx:112 | only the current page changes |
| Users.UsersTable.CurrentUsers | src/components/Users.jsx:101-109 | nothing while loading; otherwise at most 30 users, the current page's stretch of the filtered list |
| Users.UsersTable.ToggleUserStatus | src/components/Users.jsx:69-91 | a click posts to the flag's endpoint with the request body and captures the current users list; no state changes |
| Users.UsersTable.ToggleResolved | src/components/Users.jsx:92-95 | when the request resolves, users becomes the captured list with the flag flipped for the clicked email, whatever users held meanwhile |
| Users.UsersTable.ToggleResolvedFresh | src/components/Users.jsx:92-95 | the intended update: the flip applied to the users list current at resolution |
| Users.OverlappingTogglesScenario | src/components/Users.jsx:81-95 | two users deactivated before either request resolves: the first user ends up still active |
| Users.SequencedTogglesKeepBoth | src/components/Users.jsx:93 | flips for two different emails applied in turn both take effect, and their order does not matter |
| Users.SequencedTogglesScenario | src/components/Users.jsx:81-95 | with the intended update, both users end up inactive |
| Sessions.NormaliseSession | src/components/Sessions.jsx:18-20 | an empty purpose becomes "assignment", any other is kept, and no other field changes |
| Sessions.Normalised | src/components/Sessions.jsx:17-22 | same length; only session_for changes, and only where it was empty |
| Sessions.NormalisedIdempotent | src/components/Sessions.jsx:17-22 | normalising twice is normalising once |
| Sessions.NormaliseFetched | src/components/Sessions.jsx:17-22 | the in-place loop leaves the array equal to the normalised input |
| Sessions.FilterSessions | src/components/Sessions.jsx:28-32 | a session is listed iff it passes the email, duration and type conditions |
| Sessions.PassesFilterMeaning | src/components/Sessions.jsx:28-32 | passing means: email contains the filter (case-sensitive), duration >= threshold ("" meaning 0), and type filter empty or equal |
| Sessions.FilterSessionsIsSubsequence | src/components/Sessions.jsx:28-32 | the filtered sessions are an order-preserving subsequence |
| Sessions.EmptyFiltersKeepAll | src/components/Sessions.jsx:28-32 | with all filters empty, every session with non-negative duration is kept |
| Sessions.HigherThresholdNarrows | src/components/Sessions.jsx:30 | a higher duration threshold keeps a subsequence of what a lower one keeps |
| Sessions.ChartLabels | src/components/Sessions.jsx:35 | one label per filtered session |
| Sessions.ChartValues | src/components/Sessions.jsx:39 | value i is the duration of filtered session i |
| Sessions.ChartLabelsNumberPoints | src/components/Sessions.jsx:35 | label i is "Session " followed by i+1, read back as a number, and labels are pairwise distinct |
| Sessions.SessionTable.constructor | src/components/Sessions.jsx:8-11 | no sessions and all filters empty |
| Sessions.SessionTable.Fetched | src/components/Sessions.jsx:14-24 | the fetched array is normalised in place and becomes the sessions |
| Sessions.SessionTable.SetFilterEmail | src/components/Sessions.jsx:59 | only the email filter changes |
| Sessions.SessionTable.SetFilterDuration | src/components/Sessions.jsx:74 | only the duration filter changes |
| Sessions.SessionTable.SetFilterSessionType | src/components/Sessions.jsx:64 | only the type filter changes |
| Sessions.SessionTable.Chart | src/components/Sessions.jsx:34-45 | labels and values have the filtered list's length, and the values are its durations in order |
| Signup.Validate | src/pages/Signup.jsx:18-28 | accepted iff passwords match and the email ends with "@alexu.edu.eg"; a mismatch is reported before a bad email |
| Signup.Body | src/pages/Signup.jsx:36-40 | the JSON body is an object whose keys are exactly username, password and email (never confirmPassword), each mapped to the request's value |
| Signup.SignupForm.constructor | src/pages/Signup.jsx:8-12 | empty fields, not loading, nothing posted |
| Signup.SignupForm.Edit | src/pages/Signup.jsx:72-116 | an input's onChange sets only its own field |
| Signup.SignupForm.HandleSubmit | src/pages/Signup.jsx:14-58 | a rejected form alerts and posts nothing; a valid one posts username/password/email and goes to /login on an ok answer; the posted body is `Body` of the form's username, password and email; isLoading ends false on every path; every posted request carries an "@alexu.edu.eg" email |
| Courses.MapCourses | src/components/reports/Courses.jsx:15-19 | one course per row, same count and order, {id, name: Course, semester: Semester}, invertible |
| Courses.SemestersSpec | src/components/reports/Courses.jsx:29 | the semesters have no duplicates, are exactly the courses' semesters, and follow first-occurrence order |
| Courses.CoursesOf | src/components/reports/Courses.jsx:54 | a course is listed iff its semester is the selected one |
| Courses.CoursesOfIsSubsequence | src/components/reports/Courses.jsx:54 | the semester panel keeps the courses' original order |
| Courses.EveryCourseIsListed | src/components/reports/Courses.jsx:29-54 | every course's semester has a button, and that panel lists the course |
| Courses.ViewOf | src/components/reports/Courses.jsx:33-61 | a truthy selected course shows its quiz report; otherwise the semesters, plus the selected semester's courses when it is truthy |
| Courses.CourseBrowser.constructor | src/components/reports/Courses.jsx:6-8 | no courses, no semester and no course selected |
| Courses.CourseBrowser.Fetched | src/components/reports/Courses.jsx:14-20 | the courses become the renamed rows |
| Courses.CourseBrowser.SelectSemester | src/components/reports/Courses.jsx:44 | only the selected semester changes |
| Courses.CourseBrowser.SelectCourse | src/components/reports/Courses.jsx:55 | the selected course becomes the clicked course's name, and a non-empty name shows its report |
| Courses.CourseBrowser.ReturnToCourses | src/components/reports/Courses.jsx:35 | the selected course is reset to null and the selected semester is kept |
| MorphCast.SavePath | src/pages/MorphCast.jsx:35 | the path is "data/" followed by the user name |
| MorphCast.AgeEffect | src/pages/MorphCast.jsx:45-51 | one write iff the age changed and (not typing or name non-empty); the write is the full record under "data/"+name |
| MorphCast.NoSaveWithoutAgeChange | src/pages/MorphCast.jsx:51 | changes that keep the age never save |
| MorphCast.NoSaveWhileTypingUnnamed | src/pages/MorphCast.jsx:46 | typing with an empty name blocks the save |
| MorphCast.OneWritePerAgeChange | src/pages/MorphCast.jsx:45-51 | with a name present, the writes are as many as the age changes (a repeated age writes nothing), each a full record under its name's path |
| MorphCast.CapturePage.constructor | src/pages/MorphCast.jsx:20-29 | initial record (empty name, age and gender, empty lists, engagement 0), not typing, and the mount-time save of it under "data/" |
| MorphCast.CapturePage.NameChanged | src/pages/MorphCast.jsx:84-86 | only userName changes, isTyping becomes true, nothing is stored |
| MorphCast.CapturePage.NameBlurred | src/pages/MorphCast.jsx:87 | isTyping becomes false and nothing else changes |
| MorphCast.CapturePage.SetUserData | src/pages/MorphCast.jsx:45-51 | the record is replaced and the store grows by exactly the age effect's writes |
| MorphCast.CapturePage.SaveToFirebase | src/pages/MorphCast.jsx:32-44 | appends the full current record under "data/"+name when the gate is open, nothing otherwise |
| MorphCast.NamedSaveScenario | src/pages/MorphCast.jsx:45-51 | after typing "Bob", leaving the field and a child reporting age 30 through `setUserData` (no child of this page does), one record for Bob follows the mount's |
| MorphCast.RepeatedAgeScenario | src/pages/MorphCast.jsx:45-51 | after the mount's record, ages 20, 25, 25 reported through `setUserData` for a named user (no child of this page reports an age) store exactly two more, aged 20 and 25 |
| Gender.EventGender | src/components/morphcomponents/GenderComponent.jsx:14 | the gender state becomes the reported value, or "" when it is missing |
| Gender.DisplayConditions | src/components/morphcomponents/GenderComponent.jsx:23-24 | male and female conditions exclude each other, ignore ASCII case, and both fail for "" |
| Gender.ListenerWrite | src/components/morphcomponents/GenderComponent.jsx:15 | the written record is the snapshot with only gender replaced |
| Gender.GenderAdapter.constructor | src/components/morphcomponents/GenderComponent.jsx:6-10 | gender starts as "", the page record is captured, and neither picture shows |
| Gender.GenderAdapter.OnGenderResult | src/components/morphcomponents/GenderComponent.jsx:12-17 | the displayed gender is the reported value, while the record handed to setUserData is the captured snapshot with the captured gender "" |
| Gender.StaleListenerScenario | src/components/morphcomponents/GenderComponent.jsx:12-17 | after typing "Bob" and a "Female" report, the page's record has an empty name and an empty gender |
| Gender.FreshGenderUpdate | src/components/morphcomponents/GenderComponent.jsx:15 | the intended update: the current record with the reported gender and every other field kept |
| Gender.WiredPageRun | src/pages/MorphCast.jsx:45-51 | for every sequence of name edits, blurs and gender results on the page as wired, the database holds only the record stored on mount |
| Gender.FreshListenerScenario | src/components/morphcomponents/GenderComponent.jsx:12-17 | with the intended update, the name "Bob" survives and "Female" is recorded |

## Left out

- REST calls (`fetch`, `axios`) and JSON parsing are not modelled. Their results are parameters: `UsersFetched`, `DurationsFetched`, `Fetched`, the `captured` list passed to `ToggleResolved`, and the `response` argument. A toggle applies when the request's promise resolves, whatever the HTTP status. A failed users fetch leaves the table loading.
- Users: only the six user fields the table reads are modelled. Other JSON fields carried along by the spread are not.
- Text.Lower: lower-cases ASCII letters only. `toLowerCase`/`toLocaleLowerCase` also fold non-ASCII letters.
- Text.ToNumber: covers the empty string and plain decimal digit strings, which are the values the duration `<select>` offers. Whitespace, signs, exponents and hexadecimal are not modelled, and count as NaN here.
- Durations are integers. Fractional `Session_Duration` values are not modelled.
- Sessions.NormaliseFetched: the source mutates each fetched row object, reached through the array. The model replaces the array's elements in place, so aliasing of row objects elsewhere is not captured.
- Course semesters are strings. Numeric semester values and their truthiness (`0`) are not modelled.
- The MorphCast SDK is not modelled: script loading, `useCamera`, `start`, the face tracker and the other sensor components.
- Firebase `ref`/`push`/`set` are modelled as an append-only sequence of (path, record) pairs. The push keys and the value the server puts in place of `serverTimestamp()` are not modelled.
- React scheduling beyond one render per handler is not modelled, including StrictMode's doubled effects.
- Gender.EventGender: the event payload is modelled only by its `mostConfident` value, present or missing. A payload without `detail` or `output` throws at src/components/morphcomponents/GenderComponent.jsx:14 before either setter runs, and that case is not represented.
- `window.addEventListener` registration and lifetime are not modelled, including the listener that is never removed.
- Rendering is not modelled: JSX markup, CSS classes, Chart.js, `alert` text display, console logging, and the `/login` redirect beyond recording its target.
- src/components/Navbar.jsx and src/components/Reports.jsx hold only presentation and are not part of this model.

## Findings

| source | as written | input that shows it | evidently intended | confidence | as-written member | corrected member |
|---|---|---|---|---|---|---|
| src/components/morphcomponents/GenderComponent.jsx:12-17 | the listener is bound once, so it spreads the first render's `props.userData` and writes the first render's `gender` (`""`) into the page's record | mount the page, type "Bob", leave the field, the SDK reports "Female": the page's record loses "Bob" and its gender stays "" | merge the reported gender into the page's current record and keep every other field | high; not executed | Gender.StaleListenerScenario | Gender.FreshGenderUpdate |
| src/components/Users.jsx:92-94 | the `.then` callback maps the `users` list of the render in which the checkbox was clicked | users A and B listed; deactivate A, then deactivate B before A's request resolves: B's callback writes the click-time list with only B flipped, so A is active again | apply each flip to the current list (`setUsers(prev => prev.map(...))`), so both flips are kept | medium; not executed | Users.OverlappingTogglesScenario | Users.UsersTable.ToggleResolvedFresh |
