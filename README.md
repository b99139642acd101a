# User dashboard: analytics aggregation and dashboard state

This project models the two pieces of the Next.js user dashboard that contain logic.

The first is the analytics section (`ChartSection`). It turns the list of all fetched users into these outputs:

- Four category histograms: gender, blood group, eye colour and department. A falsy field counts under `"unknown"`.
- A five-bucket age histogram. Users with a falsy age are skipped.
- A height/weight correlation series. It keeps the users with a truthy age and height and orders them by age. The sort is stable. The weights are plotted doubled.
- Three rounded means (age, height, weight) and the number of departments.
- The choice between the error alert, the loading spinner and the analytics.

The second is the Redux dashboard slice (`dashboardSlice`). It has an initial state and reducers: `clearError`, `clearChartsError`, `setPagination`, and the pending, fulfilled and rejected steps of `fetchUsers` and `fetchAllUsers`. The model also covers the pure parts of the two fetch thunks:

- the request offset and the page count;
- the check that the response holds a `users` array;
- the mapping from raw records to `User`;
- the wrapping of error messages.

Modules:

- `Wrappers`: `Option` and `Result`.
- `Users`: the `User` record and JavaScript truthiness for optional numbers and strings (`x || 0`, `x || "unknown"`).
- `Histograms`: the counting dictionary `{ [key: string]: number }`. It is a list of keys in insertion order (what `Object.keys` returns) together with a map of counts. `Tally` is the reduce over a list of labels. Lemmas prove that every label is counted once, that the counts sum to the number of labels, and that the keys are distinct and in first-occurrence order.
- `AgeOrder`: the stable sort by ascending age. It is specified as sorted, a permutation of its input, and keeping each age's users in their input order.
- `ChartSection`:
  - the reducers, as loop methods proved equal to `Tally` of the label list;
  - the series, as a loop method proved equal to a function over the sorted rows;
  - the means;
  - the render decision.
- `DashboardSlice`:
  - the pure thunk helpers;
  - the class `Dashboard`, whose fields are the slice state and whose methods are the reducers. Each reducer states its whole new state as the old state with the named fields replaced.
- `Fixtures`: the two-user data set of the component test, and what the model derives from it.

JavaScript numbers are exact reals for user measurements and integers for pagination. `Math.round(x)` is `Floor(x + 1/2)`. `Math.ceil(total / limit)` is specified by `(n - 1) * limit < total <= n * limit`.

Two choices follow the code:

- The component never computes the means of an empty list: it shows the spinner first (app/components/ChartSection.tsx:508). So `Mean` requires a non-empty list rather than defining the empty mean as 0.
- Each mean divides by the number of all users, including users without the reading. `MissingReadingsAddNothing` states that such users add nothing to the sum.

## Model

| member | source | states |
|---|---|---|
| Users.NumberOrZero | app/components/ChartSection.tsx:702-712 | `x \|\| 0`: the number itself when present and non-zero, otherwise 0 |
| Users.Department | app/components/ChartSection.tsx:547 | `user.company?.department`: absent when there is no company, the company's department otherwise |
| Users.StringOr | app/components/ChartSection.tsx:519 | `s \|\| fallback`: the string when non-empty, otherwise the fallback |
| Histograms.Add | app/components/ChartSection.tsx:520 | the key's count rises by one and every other count is unchanged; a new key goes to the end of the key order and an existing key keeps its place |
| Histograms.AddKeepsValid | app/components/ChartSection.tsx:520 | counting keeps the dictionary well-formed: distinct keys, exactly the counted keys, each count at least 1 |
| Histograms.Tally | app/components/ChartSection.tsx:518-522 | the reduce of a list of labels into the dictionary; never more keys than labels (its counts, order and sum are stated by the lemmas below) |
| Histograms.Values | app/components/ChartSection.tsx:636-668 | `Object.values`: as long as the key list, the i-th value is the count of the i-th key, and every value is at least 1 in a well-formed dictionary |
| Histograms.TallyAppend | app/components/ChartSection.tsx:518-522 | reducing over one more user is one more increment on the previous accumulator |
| Histograms.TallyCounts | app/components/ChartSection.tsx:518-522 | the dictionary is well-formed (distinct keys, one count per key, each at least 1); each count is the number of occurrences of its label; a key exists exactly when its label occurs |
| Histograms.TallySum | app/components/ChartSection.tsx:518-522 | the values sum to the number of labels reduced |
| Histograms.TallyKeyOrder | app/components/ChartSection.tsx:636-668 | the keys occur in the labels and are listed in order of first occurrence |
| Histograms.TallyKeyCount | app/components/ChartSection.tsx:617 | the number of keys is the number of distinct labels |
| ChartSection.Label | app/components/ChartSection.tsx:519-547 | the user's gender, blood group, eye colour or department when truthy, otherwise "unknown"; never empty |
| ChartSection.CountBy | app/components/ChartSection.tsx:518-550 | the reducer loop builds exactly the tally of the users' labels, in the users' order |
| ChartSection.CategoryCountsSumToUsers | app/components/ChartSection.tsx:518-550 | a category's counts sum to the number of users and each is at least 1 |
| ChartSection.CategoryCountsUsers | app/components/ChartSection.tsx:518-550 | each count is the number of users with that label; `Object.values` has the length of `Object.keys` and its i-th value counts the i-th key; every user's label is a key; a user with a falsy field makes "unknown" a key |
| ChartSection.CategoryKeysInFirstSeenOrder | app/components/ChartSection.tsx:636-668 | the chart labels are distinct and in order of first appearance among the users |
| ChartSection.DistinctCount | app/components/ChartSection.tsx:717 | the department (or eye colour) count shown is the number of distinct labels, "unknown" included |
| ChartSection.AgeGroup | app/components/ChartSection.tsx:526-530 | the bucket is one of the five labels, chosen by the thresholds 25, 35, 45 and 55 (both directions of each threshold) |
| ChartSection.AgeLabels | app/components/ChartSection.tsx:524-532 | the buckets the age reducer increments: one per user with a truthy age |
| ChartSection.CountAgeGroups | app/components/ChartSection.tsx:524-532 | the reducer loop builds exactly the tally of the truthy-age users' buckets |
| ChartSection.AgeGroupsCountUsersWithAge | app/components/ChartSection.tsx:524-532 | the bucket counts sum to the number of users with a truthy age; only the five bucket labels occur as keys and "unknown" never does; each truthy-age user's bucket has a count of at least 1 |
| ChartSection.KeepPlottable | app/components/ChartSection.tsx:553 | every kept user has a truthy age and height |
| ChartSection.KeepPlottableCounts | app/components/ChartSection.tsx:553 | each user with a truthy age and height is kept as often as it occurs, any other user never |
| ChartSection.KeepAllPlottable | app/components/ChartSection.tsx:553 | a list whose users all have a truthy age and height passes the filter unchanged |
| ChartSection.Rows | app/components/ChartSection.tsx:552-554 | the filtered and sorted users: sorted by age, all with a truthy age and height, as many as pass the filter |
| ChartSection.SeriesOf | app/components/ChartSection.tsx:552-563 | `ageHeightData`: three arrays aligned with the rows |
| ChartSection.PlottedWeights | app/components/ChartSection.tsx:567 | `weights.map((w) => w * 2)`: the same length, each weight doubled |
| AgeOrder.Insert | app/components/ChartSection.tsx:554 | inserting a user adds exactly that user to the multiset of users |
| AgeOrder.InsertWithAge | app/components/ChartSection.tsx:554 | inserting a user keeps the users of each age in their order, the new user first among those of its age |
| AgeOrder.InsertSorted | app/components/ChartSection.tsx:554 | inserting into an age-sorted list gives an age-sorted list |
| AgeOrder.SortByAge | app/components/ChartSection.tsx:554 | the result is sorted by ascending age, is a permutation of the input, and lists users of equal age in their input order (a stable sort) |
| AgeOrder.SortSortedUnchanged | app/components/ChartSection.tsx:554 | a list already ordered by age is left as it is |
| ChartSection.CollectSeries | app/components/ChartSection.tsx:555-563 | the push loop over the sorted rows builds ages, heights and weights (0 when absent) row by row |
| ChartSection.SeriesShape | app/components/ChartSection.tsx:552-563 | the three arrays have the length of the filtered list; ages are non-decreasing and non-zero; heights are non-zero; equal ages keep their input order |
| ChartSection.PlottedWeightsDoubled | app/components/ChartSection.tsx:565-568 | the i-th plotted weight is twice the i-th sorted user's weight or 0, and the i-th height is that user's height |
| ChartSection.Round | app/components/ChartSection.tsx:702 | `Math.round`: the nearest integer, halves rounded up |
| ChartSection.Total | app/components/ChartSection.tsx:702-712 | the sum of the readings, each falsy one taken as 0; users none of whom has a reading sum to 0 |
| ChartSection.TotalAppend | app/components/ChartSection.tsx:702-712 | the sum over two lists joined is the sum of the two sums |
| ChartSection.Mean | app/components/ChartSection.tsx:702-712 | the mean shown is within one half of the sum of readings (0 when falsy) divided by the number of all users |
| ChartSection.MissingReadingsAddNothing | app/components/ChartSection.tsx:702-712 | users whose reading is falsy add nothing to the sum wherever they stand in the list: the divisor counts them but the numerator does not |
| ChartSection.ViewOf | app/components/ChartSection.tsx:518-568 | the analytics of a non-empty list; the department chip and the department stat card (lines 617 and 717) show the same number, the department chart's key count; the plotted series are aligned |
| ChartSection.Render | app/components/ChartSection.tsx:491-568 | the error alert with its message exactly when there is a charts error; otherwise the spinner exactly when loading or there are no users; otherwise the analytics computed from all users |
| Fixtures.FixtureSummary | __tests__/components/ChartSection.test.tsx:136-155 | for the two test users the means are 28, 173 and 68, and there are 2 departments and 2 eye colours |
| Fixtures.FixtureGenders | __tests__/components/ChartSection.test.tsx:10-41 | the test users' gender chart is male and female with one user each |
| Fixtures.FixtureAgeGroups | __tests__/components/ChartSection.test.tsx:10-41 | both test users fall in "25-34", and that is the only bucket |
| Fixtures.FixtureSeries | __tests__/components/ChartSection.test.tsx:10-41 | the test users' series is ages 25 and 30, heights 180 and 165, weights 75 and 60 |
| Fixtures.FixturePlottedWeights | __tests__/components/ChartSection.test.tsx:10-41 | the test users' plotted weights are 150 and 120 |
| Fixtures.FixturePageCount | __tests__/store/slices/dashboardSlice.test.ts:64-79 | one user at six per page is one page |
| DashboardSlice.Merge | app/store/slices/dashboardSlice.ts:187-189 | each pagination field is the payload's value when present, otherwise the current one |
| DashboardSlice.MergeLaws | app/store/slices/dashboardSlice.ts:187-189 | an empty payload changes nothing; a full payload replaces the record; applying the same payload twice equals applying it once; two merges equal one merge of the combined payload |
| DashboardSlice.Skip | app/store/slices/dashboardSlice.ts:71 | the offset of a page is never negative and is exactly `page - 1` whole pages of `limit` users |
| DashboardSlice.TotalPages | app/store/slices/dashboardSlice.ts:117 | `Math.ceil(total / limit)`: the least page count whose pages hold all records |
| DashboardSlice.PageStartsInsideData | app/store/slices/dashboardSlice.ts:71-117 | the offset of a page lies inside the data exactly when the page number is at most the page count |
| DashboardSlice.ToUser | app/store/slices/dashboardSlice.ts:91-109 | the name is first name, space, last name; the website is "https://" + domain when the domain is truthy, otherwise "https://" + username + ".example.com"; every other field is copied unchanged |
| DashboardSlice.ToUsers | app/store/slices/dashboardSlice.ts:150-168 | one user per raw record, in the same order |
| DashboardSlice.NameSplitsBack | app/store/slices/dashboardSlice.ts:93 | when the first name has no space, the built name splits back into first and last name |
| DashboardSlice.WebsiteHost | app/store/slices/dashboardSlice.ts:97 | the website's host is the domain when truthy, otherwise the username under example.com |
| DashboardSlice.CheckUsers | app/store/slices/dashboardSlice.ts:87-89 | the response is accepted exactly when `users` is an array, yielding its records; otherwise the error is "Invalid response format from API" |
| DashboardSlice.FetchUsersResult | app/store/slices/dashboardSlice.ts:87-123 | an array response gives the mapped users and the pagination (page, limit, total, page count); any other gives "Failed to fetch users: Invalid response format from API" |
| DashboardSlice.FetchAllUsersResult | app/store/slices/dashboardSlice.ts:145-174 | an array response gives the mapped users; any other gives "Failed to fetch all users for charts: Invalid response format from API" |
| DashboardSlice.Dashboard.constructor | app/store/slices/dashboardSlice.ts:51-64 | no users, page 1, limit 6, total 0, 0 pages, not loading, no errors |
| DashboardSlice.Dashboard.ClearError | app/store/slices/dashboardSlice.ts:181-183 | the table error is cleared and nothing else changes |
| DashboardSlice.Dashboard.ClearChartsError | app/store/slices/dashboardSlice.ts:184-186 | the charts error is cleared and nothing else changes |
| DashboardSlice.Dashboard.SetPagination | app/store/slices/dashboardSlice.ts:187-189 | the pagination becomes the merge of the payload into it; nothing else changes |
| DashboardSlice.Dashboard.FetchUsersPending | app/store/slices/dashboardSlice.ts:194-197 | the table is loading and its error cleared; nothing else changes |
| DashboardSlice.Dashboard.FetchUsersFulfilled | app/store/slices/dashboardSlice.ts:198-202 | loading ends and the users and pagination become the payload's; the chart fields and the table error are unchanged |
| DashboardSlice.Dashboard.FetchUsersRejected | app/store/slices/dashboardSlice.ts:203-206 | loading ends and the error is the message, or "Failed to fetch users" when there is none; nothing else changes |
| DashboardSlice.Dashboard.FetchAllUsersPending | app/store/slices/dashboardSlice.ts:208-211 | the charts are loading and their error cleared; the table fields are unchanged |
| DashboardSlice.Dashboard.FetchAllUsersFulfilled | app/store/slices/dashboardSlice.ts:212-215 | charts loading ends and all users become the payload; nothing else changes |
| DashboardSlice.Dashboard.FetchAllUsersRejected | app/store/slices/dashboardSlice.ts:216-219 | charts loading ends and the charts error is the message, or "Failed to fetch users for charts"; nothing else changes |
| DashboardSlice.Dashboard.LoadTablePage | app/store/slices/dashboardSlice.ts:194-206 | a table request ends not loading, with the fetched page and its pagination, or with the wrapped error; the chart fields are untouched |
| DashboardSlice.Dashboard.LoadChartUsers | app/store/slices/dashboardSlice.ts:208-219 | a chart request ends not loading, with all users fetched, or with the wrapped error; the table fields are untouched |

## Left out

- Chart drawing (app/components/ChartSection.tsx:9-464 and the JSX after line 568): SVG geometry, percentages, scaling and label truncation are presentation and floating point.
- Floating point: measurements are exact reals, so NaN, Infinity and IEEE rounding in the sums and the division are not modelled.
- Network I/O in the thunks: `fetch`, the HTTP status check (app/store/slices/dashboardSlice.ts:81-83 and 139-141), `response.json()`, `console.error` and the URL text. The thunks' pure parts take the already-parsed response as a parameter.
- The "Unknown error" branch of the thunks' catch: only `fetch` and `response.json()` could throw a non-Error value, and they are outside the model.
- The Redux Toolkit thunk and dispatch machinery: `LoadTablePage` and `LoadChartUsers` run the pending step and then the fulfilled or rejected step directly.
- The component's fetch on mount and its retry button (`useEffect`, `handleRetry`): dispatch wiring with no state of its own.
- `Object.keys` lists integer-like keys before the others. The model keeps insertion order for all keys, which is the same order for every label the reducers produce except numeric strings.
- DashboardSlice.Merge: a payload key present but set to `undefined` would overwrite the field with `undefined`; the model treats such a key as absent.
- DashboardSlice.ToUser: a missing first name, last name or username would print as "undefined" in the name or website. The model takes them as strings.
- Labels that name `Object.prototype` members: a gender, blood group, eye colour or department such as "constructor" or "toString" makes `acc[k] || 0` (app/components/ChartSection.tsx:520, 536, 542, 548) read an inherited function and store a string, and "__proto__" makes the assignment a no-op that drops the user. The model's dictionary has no prototype, so `Histograms.TallySum` and `ChartSection.CategoryCountsSumToUsers` hold for every label in the model but not for these labels in the source.
- Response bodies the model cannot express: a `null` body makes `data.users` throw a TypeError (app/store/slices/dashboardSlice.ts:87, 145), which is wrapped with the TypeError's message; a body without `total` gives `total: undefined` and a page count of NaN (app/store/slices/dashboardSlice.ts:116-117). `Response` always has a `users` value and an integer `total`.
- DashboardSlice.CheckUsers: the elements of the `users` array are taken to be user records; their own shape is not checked by the source either.
- DashboardSlice.TotalPages: requires a positive limit. A limit of 0 gives Infinity or NaN in the source, but the table only passes its rows-per-page options of 6, 12, 18 and 24.
- ChartSection.Mean: requires a non-empty user list, because the component returns early for an empty list (app/components/ChartSection.tsx:508).
- The users table, login page, auth slice, sidebar, layouts and theme: rendering and routing with no logic of the dashboard's own.
