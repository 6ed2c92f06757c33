# qa-portal-jira-sync, modelled in Dafny

This project models the computational core of a Playwright script that pulls bug
issues from Jira, counts them by platform and priority, and then logs in to a QA
portal. Three parts are modelled:

- **Jira client** (`JiraClient`, helpers/jiraClient.ts): the constructor's
  base-URL normalisation, the request body built by `searchJQL`, and the
  cursor-paginated loop of `getAllIssues`. The HTTP exchange is a scripted,
  finite sequence of responses: the k-th request is answered by the k-th
  response. Each response carries a status, an `issues` value that may or may
  not be an array, a `nextPageToken` and an `isLast` value, both arbitrary
  JavaScript values. `GetAllIssues` is a `while` loop proved against the
  closed-form specification `FetchOutcome`. That specification is the pages up
  to and including the first response that ends the fetch, or the error that
  discards them. Lemmas give the step-by-step view and the stop rules.
- **Aggregation** (`PlatformStats`, the 'counts bugs grouped by platform' test
  of tests/sync-jira-qa-portal.spec.ts): the module-level `statsByPlatform`
  table is a field of a class. `CountBugsGroupedByPlatform` resets it, then
  fills it with the source's nested loops. It is proved equal to the fold
  `Tally`. Lemmas tie `Tally` to an independent count of (issue, platform
  entry) pairs (`Occurrences`). From that count follow permutation
  invariance, the key set, the sum of all cells, the one-issue cases
  (`Unknown` defaults, scalar, fan-out, empty array) and the exact condition
  under which the test's final expectation holds.
- **Category tables** (`PlatformMapping`, `PriorityMapping`): the two constant
  records as Dafny map literals, with exact-key lookup returning an `Option`,
  and lemmas on their keys, values, injectivity and unmapped names.

JavaScript values are modelled by `JsonModel.JsValue`. It has the truthiness
rule (`undefined`, `null`, `false`, `0`, `""` falsy; every array, `[]` included,
truthy) and the `String(...)` conversion used for object keys.

The code does the following, which a reader might not expect; the model does the same:

- The pagination safety break (no usable cursor, not the last page) returns the
  issues collected so far with no warning of any kind.
- An issue whose platform field is the empty array is counted under no platform,
  because `[]` is truthy and is iterated as it is. It is not counted under `Unknown`.
- Mapping lookup is exact-key and case-sensitive, with no case-insensitive fallback.
- There is no portal sync state machine and no per-platform outcome: the sync
  test is skipped in the source.

## Model

| member | source | states |
|---|---|---|
| `JiraClient.StripTrailingSlashes` | helpers/jiraClient.ts:8 | the result is a prefix of the input, does not end in `/`, and only `/` characters follow it in the input |
| `JiraClient.StripExactly` | helpers/jiraClient.ts:8 | text that does not end in `/`, followed by any number of slashes, strips back to exactly that text |
| `JiraClient.StripIdempotent` | helpers/jiraClient.ts:8 | stripping an already stripped URL changes nothing |
| `JiraClient.ClientBaseUrl` | helpers/jiraClient.ts:8 | the base URL never ends in `/`, is a prefix of the configured value with only `/` characters removed from its end, and is empty when the variable is unset |
| `JiraClient.SearchJql` | helpers/jiraClient.ts:145-148 | the body always has `jql` and `maxResults`; it has `fields` iff the list is present and non-empty, and `nextPageToken` iff the token is a non-empty string, each equal to the argument |
| `JiraClient.PageIssues` | helpers/jiraClient.ts:164 | a page contributes its `issues` array when that field is an array, and no issues otherwise |
| `JiraClient.CursorOf` | helpers/jiraClient.ts:168 | the next cursor is present iff `nextPageToken` is a non-empty string, and then equals it |
| `JiraClient.IsLastPage` | helpers/jiraClient.ts:169 | a page is the last one iff `isLast` is the boolean `true`; `"true"` and `1` do not count |
| `JiraClient.FirstStop` | helpers/jiraClient.ts:159-172 | the index of the first response that ends the loop (error status, `isLast === true`, or no usable cursor); no earlier response does; `|script|` when none does |
| `JiraClient.GetAllIssues` | helpers/jiraClient.ts:154-176 | the result is `FetchOutcome(script)`; the number of requests is the stopping index plus one, and never more than the responses available; every body carries the given `jql`, `fields` and `maxResults`; the first request carries no token and each later one carries exactly the previous response's non-empty token |
| `JiraClient.FetchStep` | helpers/jiraClient.ts:159-173 | one iteration: a status other than 200 throws, a page that ends the fetch returns its own issues, any other page's issues come before the rest of the fetch |
| `JiraClient.IsLastMustBeTrue` | helpers/jiraClient.ts:169 | with a usable cursor, any `isLast` other than the boolean `true` (such as `"true"` or `1`) lets the loop request the next page |
| `JiraClient.SafetyBreak` | helpers/jiraClient.ts:171-172 | a page with status 200 and no usable cursor ends the fetch with what was collected; exactly one request is made and later responses are not requested |
| `JiraClient.SafetyBreakAt` | helpers/jiraClient.ts:171-172 | a 200 page without a usable cursor that the loop reaches at index i ends the fetch with the pages up to and including it, after exactly i + 1 requests |
| `JiraClient.ErrorDiscardsPages` | helpers/jiraClient.ts:161 | a status other than 200 on a page the loop reaches makes the whole fetch fail with that status; earlier pages are discarded |
| `JiraClient.LaterResponsesIgnored` | helpers/jiraClient.ts:159-173 | once a response ends the fetch, appending further responses changes neither the outcome nor the number of requests |
| `JiraClient.ThreePages` | helpers/jiraClient.ts:154-176 | pages of 100, 100 and 37 issues, the third flagged last, give those 237 issues in page order after three requests |
| `PlatformMapping.MapPlatform` | data/platformMapping.ts:1-10 | lookup succeeds exactly for keys of the table and then returns that key's project |
| `PlatformMapping.PlatformKeys` | data/platformMapping.ts:1-10 | the table's keys are exactly WebOS, FireTV, iOS, Tizen, Android, AndroidTV, AppleTV (seven keys) |
| `PlatformMapping.PlatformInjective` | data/platformMapping.ts:2-8 | two platforms that map to the same project are the same platform |
| `PlatformMapping.UnknownPlatformUnmapped` | data/platformMapping.ts:9 | `Unknown` looks up to none |
| `PlatformMapping.TvosOnlyThroughAppleTv` | data/platformMapping.ts:2-8 | a label maps to the tvOS project iff it is `AppleTV`; `tvOS` and `Chromecast` look up to none |
| `PlatformMapping.PlatformLookupCaseSensitive` | data/platformMapping.ts:1-2 | `WebOS` maps to its project while `webos` looks up to none |
| `PriorityMapping.MapPriority` | data/priorityMapping.ts:1-10 | lookup succeeds exactly for keys of the table and then returns that key's field |
| `PriorityMapping.PriorityKeys` | data/priorityMapping.ts:1-10 | the table's keys are exactly Highest, High, Medium, Low, Lowest (five keys) |
| `PriorityMapping.PriorityValues` | data/priorityMapping.ts:3-8 | Highest to blocker, High to critical, Medium to major, Low to minor, Lowest to trivial |
| `PriorityMapping.PriorityInjective` | data/priorityMapping.ts:3-8 | two priorities that map to the same field are the same priority |
| `PriorityMapping.PriorityUnmappedNames` | data/priorityMapping.ts:6-9 | `major`, `minor` (commented out), `highest` (wrong case) and `Unknown` look up to none |
| `JsonModel.Truthy` | tests/sync-jira-qa-portal.spec.ts:76 | a value is falsy iff it is `undefined`, `null`, `false`, `0` or `""`; every array, `[]` included, is truthy |
| `JsonModel.ToText` | tests/sync-jira-qa-portal.spec.ts:84 | `String(v)`: `undefined`, `null`, `true`, `false` and objects give their fixed texts, a string is its own text, a number gives a `-` iff it is negative followed by canonical decimal digits that read back to its magnitude, `[]` gives `""`, and a one-string array gives that string |
| `JsonModel.NumText` | tests/sync-jira-qa-portal.spec.ts:84 | a number's text starts with `-` iff the number is negative, and the rest is canonical decimal (no leading zero) whose value is the number's magnitude |
| `JsonModel.DecimalRoundTrip` | tests/sync-jira-qa-portal.spec.ts:84 | the decimal digits printed for a natural number are canonical and read back to that number |
| `JsonModel.NumTextInjective` | tests/sync-jira-qa-portal.spec.ts:84-87 | two numbers with the same text are equal, so distinct numeric platform values never share a table key |
| `JsonModel.ToTextArray` | tests/sync-jira-qa-portal.spec.ts:84 | the text of an array is the comma join of its elements' texts, `null` and `undefined` elements giving empty text, equal to a separately defined left-to-right join |
| `PlatformStats.PriorityKey` | tests/sync-jira-qa-portal.spec.ts:73 | the key is the priority name when present (the empty name included) and `Unknown` when it is missing |
| `PlatformStats.NormalisedField` | tests/sync-jira-qa-portal.spec.ts:76-81 | a falsy field becomes `["Unknown"]`, a truthy non-array `[field]`, an array stays as it is; the list is empty iff the field is `[]` |
| `PlatformStats.StatsByPlatform.constructor` | tests/sync-jira-qa-portal.spec.ts:6 | the table starts empty |
| `PlatformStats.StatsByPlatform.CountBugsGroupedByPlatform` | tests/sync-jira-qa-portal.spec.ts:69-94 | the new table is `Tally(allIssues)` whatever the old table was, so repeated runs give the same table; the test passes iff the table has a key |
| `PlatformStats.StatsByPlatform.CountPlatforms` | tests/sync-jira-qa-portal.spec.ts:83-88 | the inner loop leaves the table as the increments for each platform entry in order, under the issue's priority name |
| `PlatformStats.StatsByPlatform.Increment` | tests/sync-jira-qa-portal.spec.ts:84-87 | one entry creates the row and the cell when missing, then adds one to the cell (`Bump`) |
| `PlatformStats.BumpCells` | tests/sync-jira-qa-portal.spec.ts:85-87 | one increment adds the platform key if missing, raises its cell by one, changes no other cell and keeps every cell at least 1 |
| `PlatformStats.CountEntriesCells` | tests/sync-jira-qa-portal.spec.ts:83-88 | the inner loop raises cell (p, q) once per occurrence of p in the list, so duplicates count twice and an empty list adds nothing; it adds exactly the listed platform keys |
| `PlatformStats.TallyCells` | tests/sync-jira-qa-portal.spec.ts:72-89 | every cell present is at least 1 and every row is non-empty; each cell equals the number of (issue, platform entry) pairs with that platform and priority |
| `PlatformStats.TallyKeys` | tests/sync-jira-qa-portal.spec.ts:72-89 | the platform keys are exactly the union, over the issues, of the entries of each normalised platform list |
| `PlatformStats.PlatformsOfEmpty` | tests/sync-jira-qa-portal.spec.ts:76-88 | that union is empty iff every issue's platform field is the empty array |
| `PlatformStats.TallyPermutation` | tests/sync-jira-qa-portal.spec.ts:72-89 | reordering the issues gives the same table |
| `PlatformStats.PlatformListEmpty` | tests/sync-jira-qa-portal.spec.ts:76-81 | an issue's platform list is empty iff its platform field is the empty array |
| `PlatformStats.TallyNonEmpty` | tests/sync-jira-qa-portal.spec.ts:76-94 | the table has a key iff some issue's platform field is not the empty array (so the final expectation fails only when every issue carries `[]`) |
| `PlatformStats.OneIssue` | tests/sync-jira-qa-portal.spec.ts:73-88 | one issue is counted under its priority name or `Unknown`; a falsy platform field once under `Unknown`; a truthy non-array once under its `String` form; an array once per entry; `[]` leaves the table empty |
| `PlatformStats.TallySum` | tests/sync-jira-qa-portal.spec.ts:83-88 | the sum of all cells equals the sum over issues of the length of each normalised platform list |
| `PlatformStats.KnownPrioritiesMapped` | tests/sync-jira-qa-portal.spec.ts:64 | every known priority has a portal field, while the default `Unknown` has none |
| `PlatformStats.KnownPlatformsMapped` | tests/sync-jira-qa-portal.spec.ts:63 | every known platform except `tvOS` and `Chromecast` has a portal project; the default `Unknown` has none |

## Left out

- `getMyself`, `getFilter` and the axios instance with its headers and timeout: network calls through a library; `encodeURIComponent` is a library call.
- The Basic credential built from `email:token` (section 2 of RFC 7617): the base64 step is Node's `Buffer`.
- The commented-out request and response logging interceptors and all console output.
- page_objects/QAPortalQualityTracker.ts: browser locators and clicks (visit, login) with no logic to verify.
- The test steps that only do I/O or assert against live services: Jira authorisation, filter retrieval, the fetch step that stores `getAllIssues`'s result in `allIssues`, portal login, and the two skipped placeholder tests.
- Transport failures (a request with no response), and axios rejecting non-2xx statuses on its own: both end the fetch with an error, as the status check does, but they are not modelled separately.
- `GetAllIssues`: a script with no response left for a request ends in `ScriptExhausted`; the real loop would send that request to Jira.
- A `resp.data` that is `null` or `undefined` is not modelled: reading `data.issues` then throws a `TypeError`. Any other non-object body (a string, a number, a boolean) reads all three fields as `undefined`. The model covers that case as a response with `NotAnArray` issues and `Undefined` cursor and `isLast`, which ends the fetch through the safety break.
- JavaScript numbers are unbounded integers here: NaN, fractions and `-0` are not modelled. `String(n)` prints numbers of magnitude 1e21 and above in exponent form, and integers beyond 2^53 are not exact; `ToText` prints every decimal digit of any integer instead.
- Keys inherited from `Object.prototype` (`constructor`, `__proto__`, `toString`) behave differently in JavaScript records; the model treats both the count table and the mapping records as plain dictionaries.
- Issue fields other than the priority name and `customfield_10622` are not modelled. The `jiraData` module (custom field ids, filter id) is not part of this model.
- The portal sync, sessions and per-platform outcomes: the shown code does not implement them.
