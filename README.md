# Evaliax dashboard — a Dafny model

Evaliax is a React dashboard for employee assessments. Its users sign in against a token-based API. They browse and filter lists of employees, assessment criteria and assessments. They open the assessments of one employee, read an employee-average report and chat with an assistant. This project models the logic behind those screens:

- **Session layer.** The model covers:
  - the `localStorage` token store (`auth-utils`);
  - the login, sign-up and logout mutations and what their `onSuccess` handlers write (`useAuth`);
  - the session provider that restores, opens and closes a session (`AuthContext`);
  - the two route guards.
- **API client.** It attaches the stored access token to each request. On a 401 response it runs one token refresh at a time and queues the requests that fail while that refresh is under way. When the refresh ends it settles the queue (`lib/axios.ts`).
- **List pages.** These are:
  - the criteria table;
  - the assessment table;
  - the employee list with its "new assessment" modal;
  - the employee report with its sort, page window and summary statistics.

  Each page has a search filter, a category or status filter, a page size and "previous"/"next" buttons.
- **Assessment pages.** They fetch from the server and fall back to the bundled sample data when the response has the wrong shape or the call throws. They also show a status badge, rows that expand and an empty state. The dashboard panel shows employee 46, and the chart page has a date-range filter.
- **Forms.** The sign-in and sign-up forms are validated with the e-mail pattern and the six-character password rule.
- **Chat widget.** It restores the conversation from session storage and appends a user message plus a "typing" placeholder on submit. When the reply arrives, it fills in the placeholder.
- **Criteria API helpers.** These build the list query, the delete URL and the route parameters.

**How the model is built.** Values that the components compute during rendering are Dafny datatypes and functions:
- filters;
- pages;
- the sort;
- request parameters;
- what a handler writes to storage.

State that a component or module keeps between events is a `class`. Its event handlers are methods, and each method's `ensures` ties the new state to those functions.

**Stand-ins for the outside world.** The network, `JSON.parse`/`JSON.stringify` and the clock are parameters. Browser storage is the class `Storage.WebStorage` over a `map<string, string>`.

**Supporting modules.** Shared JavaScript semantics live in small modules:
- `Text`: `trim`, ASCII `toLowerCase`, `includes`, `split`/`join`, string `<` (on code points), `String(n)`;
- `JsNumber`: `parseInt`, `Number`, truthiness;
- `Seqs`: `filter`, `Array.from(new Set(...))`, `reverse`;
- `Paging`: `Math.ceil`, `slice`, the page buttons.

The component classes follow the code as written, including the three defects listed under Findings.

## Model

| member | source | states |
|---|---|---|
| Storage.Lookup | src/lib/auth-utils.ts:6-7 | `getItem` gives a value exactly when the key is stored, and then the stored value; otherwise `null` |
| Storage.WebStorage.SetItem | src/lib/auth-utils.ts:12 | `setItem` stores the value under the key and leaves every other key as it was |
| Storage.WebStorage.RemoveItem | src/hooks/useAuth.ts:69-70 | `removeItem` drops the key and leaves every other key as it was |
| Storage.WebStorage.Clear | src/lib/axios.ts:89 | `clear` empties the store |
| AuthUtils.TokensIn | src/lib/auth-utils.ts:4-9 | each token is present exactly when its key is stored, and then it equals the stored value |
| AuthUtils.GetStoredTokens | src/lib/auth-utils.ts:4-9 | reads the two token keys and returns what `TokensIn` describes, writing nothing |
| AuthUtils.WithAccessToken | src/lib/auth-utils.ts:11-13 | only the access token changes; the refresh token and every other key keep their values |
| AuthUtils.UpdateAccessToken | src/lib/auth-utils.ts:11-13 | the store afterwards is `WithAccessToken` of the store before |
| AuthUtils.UpdateAccessTokenIdempotent | src/lib/auth-utils.ts:11-13 | writing the same access token twice is writing it once |
| Axios.Authorize | src/lib/axios.ts:11-18 | a request gains `Authorization: Bearer <token>` exactly when a non-empty access token is stored; identity, retry mark and other headers are kept |
| Axios.WithDefaults | src/lib/axios.ts:81 | the `defaults.headers.common` merge axios does before the request step: the request gains the default `Authorization` header only when it has none of its own; every other header is kept |
| Axios.ApiClient.InterceptRequest | src/lib/axios.ts:11-18 | what leaves the client is the request with the default header merged in and then passed through `Authorize` with the current store |
| Axios.StoredTokenWinsOverDefault | src/lib/axios.ts:14-15 | while a non-empty access token is stored, the outgoing request carries exactly its bearer credential, whatever the default or the request's own header says |
| Axios.DefaultUsedWithoutStoredToken | src/lib/axios.ts:81 | with no stored access token, a request without its own `Authorization` header carries one exactly when a default is set, and it is the default credential |
| Axios.StaleBearerAfterLogout | src/lib/axios.ts:81 | after a successful refresh and a logout that removes both tokens, a request without its own header still goes out with the refreshed credential (`Bearer undefined` when the body had no `accessToken`), because the default header is never reset |
| Axios.SettleAllInOrder | src/lib/axios.ts:30-40 | `processQueue` settles every queued entry once, in queue order: all rejected with the error, or all resolved with the token |
| Axios.ApiClient.ProcessQueue | src/lib/axios.ts:30-40 | the loop settles the queued entries as `SettleAll` says and leaves the queue empty, changing nothing else |
| Axios.SettleQueue | src/lib/axios.ts:31-37 | the `forEach` loop produces, entry by entry and in queue order, exactly the settlements `SettleAll` names |
| Axios.QueuedWhileRefreshing | src/lib/axios.ts:47-59 | a 401 on an unmarked request while a refresh runs only appends that request to the queue |
| Axios.StartsOneRefresh | src/lib/axios.ts:61-70 | a 401 with no refresh running marks the request and sets the flag; it calls the refresh endpoint when a refresh token is stored, and otherwise redirects to sign-in and rejects |
| Axios.OtherErrorsPassThrough | src/lib/axios.ts:97 | any other failure is rejected unchanged and leaves the state alone |
| Axios.RefreshSuccessEffects | src/lib/axios.ts:77-94 | after a refresh that returned a token: the token is stored beside the unchanged refresh token and becomes the default header; the queue resolves with it, in order; the original request is replayed with it; the queue empties and the flag clears |
| Axios.RefreshWithoutTokenSendsUndefined | src/lib/axios.ts:77-85 | a refresh body with no top-level `accessToken` still succeeds: "undefined" is stored and the default header and the original request carry `Bearer undefined`; queued entries resolve with `null` (the default parameter of `processQueue`, line 30) and carry `Bearer null`; the request step then sends every replay with `Bearer undefined` |
| Axios.RefreshFailureEffects | src/lib/axios.ts:87-94 | after a refresh fails: every queued request is rejected with the refresh error; storage is cleared; the page goes to sign-in; the flag clears |
| Axios.ApiClient.InterceptError | src/lib/axios.ts:44-97 | the error interceptor, up to its `await`, moves the client exactly as `OnError` says |
| Axios.ApiClient.RefreshSucceeded | src/lib/axios.ts:77-94 | resuming after a successful refresh, with the body's `accessToken` or its absence, moves the client and the store exactly as `OnRefreshSucceeded` says |
| Axios.ApiClient.RefreshFailedWith | src/lib/axios.ts:87-94 | resuming after a failed refresh moves the client and the store exactly as `OnRefreshFailed` says |
| Axios.ApiClient.constructor | src/lib/axios.ts:24-28 | the client starts with the flag clear, an empty queue, no suspended handler, no default header and no redirect |
| Axios.StepKeepsConsistent | src/lib/axios.ts:61-94 | a handler is waiting on the refresh call only while the flag is set; each event keeps this true |
| Axios.RunKeepsConsistent | src/lib/axios.ts:61-94 | every sequence of events keeps that consistency |
| Axios.RefreshCallFindsNoHandler | src/lib/axios.ts:48-76 | in a consistent state a 401 that calls the refresh endpoint never finds a handler already suspended, and suspends the marked request |
| Axios.RunCallsRefreshSingly | src/lib/axios.ts:48-76 | along any sequence of events from a consistent state, every refresh call is issued while no other handler is suspended: one refresh in flight at a time |
| Axios.Outcomes | src/lib/axios.ts:42-98 | a sequence of events yields exactly one outcome per event |
| Axios.StuckAfterMissingRefreshToken | src/lib/axios.ts:61-69 | once the missing-refresh-token path has set the flag, no later event clears it; every later 401 is only queued until the page reloads |
| UseAuth.CredentialsBody | src/hooks/useAuth.ts:29-31 | the request body holds exactly the `email` and `password` variables that are present |
| UseAuth.UsernameIsNotSent | src/hooks/useAuth.ts:29-31 | the `{ username, password }` variables that the provider passes reach the server without an e-mail |
| UseAuth.SignupNameIsNotSent | src/hooks/useAuth.ts:50-52 | the sign-up name is never sent |
| UseAuth.LoginStoresTokenPair | src/hooks/useAuth.ts:32-37 | a response with both nested tokens stores exactly that pair and keeps every other key |
| UseAuth.LoginWithoutDataWritesNothing | src/hooks/useAuth.ts:32-37 | a response without `data` throws before writing anything |
| UseAuth.LoginEffect | src/hooks/useAuth.ts:28-41 | a failed login leaves the store alone; a successful one applies the `onSuccess` writes |
| UseAuth.OnLoginSuccess | src/hooks/useAuth.ts:32-37 | the two writes, one after the other, yield `LoginSuccessWrites` |
| UseAuth.OnSignupSuccess | src/hooks/useAuth.ts:53-56 | the sign-up handler leaves the store as it was |
| UseAuth.LogoutCall | src/hooks/useAuth.ts:67 | the logout call always resolves |
| UseAuth.LogoutWrites | src/hooks/useAuth.ts:68-73 | logout removes both tokens and keeps every other key and value |
| UseAuth.LogoutIdempotent | src/hooks/useAuth.ts:68-73 | logging out twice is logging out once, and the stored user record survives it |
| UseAuth.OnLogoutSuccess | src/hooks/useAuth.ts:68-73 | the two removals yield `LogoutWrites` |
| AuthContext.IsAuthenticated | src/contexts/AuthContext.tsx:95 | authenticated exactly when a non-empty access token is held |
| AuthContext.RestoreFromInitial | src/contexts/AuthContext.tsx:43-60 | restoring always ends loading; it authenticates exactly when both the token and the user record are stored; a user is exposed exactly when the record also parses to a user object, and then with the stored token; the store is left alone unless both are stored and the parse throws, and then exactly the three keys are removed |
| AuthContext.RestoreThrowKeepsToken | src/contexts/AuthContext.tsx:48-56 | as written, a stored token beside a record that fails to parse gives an authenticated session over an emptied store |
| AuthContext.RestoreNonUserKeepsToken | src/contexts/AuthContext.tsx:48-50 | as written, a record that parses to something other than a user object (`null`, a number) gives an authenticated session with no user over an unchanged store |
| AuthContext.UserOf | src/contexts/AuthContext.tsx:50 | a user exactly when the parse produced a user object |
| AuthContext.RestoreCheckedSignsOutOnFailure | src/contexts/AuthContext.tsx:43-60 | with the record parsed and checked first: authenticated exactly when both keys are stored and the record parses to a user object, and then a user is always present; any other stored record removes the three keys |
| AuthContext.LoginWithDeclaredShape | src/contexts/AuthContext.tsx:65-70 | for a response of the declared shape, login stores the tokens and opens the dashboard, yet the exposed session is not authenticated |
| AuthContext.LoginFailureChangesNothing | src/contexts/AuthContext.tsx:65-66 | a failed login changes neither the state nor the store |
| AuthContext.SignupStep | src/contexts/AuthContext.tsx:72-77 | a failed sign-up changes nothing; a successful one takes the top-level token and user and opens the dashboard |
| AuthContext.LogoutSignsOut | src/contexts/AuthContext.tsx:79-87 | after logout: signed out; no token stored; the user record kept; on the sign-in page; logging out again changes nothing |
| AuthContext.AuthProvider.constructor | src/contexts/AuthContext.tsx:33-35 | no user, no token, loading |
| AuthContext.AuthProvider.InitializeAuth | src/contexts/AuthContext.tsx:43-60 | the mount effect moves the provider and the store exactly as `Restore` (as written) says |
| AuthContext.AuthProvider.Login | src/contexts/AuthContext.tsx:65-70 | the state and the store follow `LoginStep`; the call rejects exactly when the mutation failed or its `onSuccess` threw |
| AuthContext.AuthProvider.Signup | src/contexts/AuthContext.tsx:72-77 | the state follows `SignupStep` |
| AuthContext.AuthProvider.Logout | src/contexts/AuthContext.tsx:79-87 | the state and the store follow `LogoutStep` |
| ProtectedRoute.ProtectedLayout | src/components/ProtectedRoute.tsx:10-34 | spinner while loading; without a session, a redirect to sign-in that carries the location; otherwise the page with the chat widget |
| ProtectedRoute.ProtectedOutcomesExclusive | src/components/ProtectedRoute.tsx:10-34 | exactly one outcome, with the page shown exactly when loaded and authenticated |
| GuestRoute.GuestRoute | src/components/GuestRoute.tsx:12-31 | spinner while loading; with a session, a redirect to the dashboard; otherwise the children |
| GuestRoute.GuardsAreComplementary | src/components/GuestRoute.tsx:12-31 | once loaded, the guest pages show exactly when the protected pages do not |
| ReportApi.ReportParams | src/pages/Report/api/index.tsx:28-32 | `sort` is always sent (default `desc`); each date is sent exactly when given and non-empty, with its value |
| ReportApi.GetEmployeeReports | src/pages/Report/api/index.tsx:23-38 | the result is the body's `data` for a GET of the report path with `ReportParams` |
| ReportApi.EmptyDateIsOmitted | src/pages/Report/api/index.tsx:31-32 | an empty date gives the same query as a missing one |
| ReportPage.FormatDate | src/pages/Report/index.tsx:7-12 | `YYYY-MM-DD` with the month taken from 0 and padded, and the day padded |
| ReportPage.FormatDateRoundTrip | src/pages/Report/index.tsx:7-12 | the formatted text splits at `-` into the year, month + 1 and day, which read back as the date |
| ReportPage.SearchFilter | src/pages/Report/index.tsx:47-52 | the search never lengthens the list; what it keeps is stated by `SearchFilterExact` |
| ReportPage.SearchFilterExact | src/pages/Report/index.tsx:47-52 | the search keeps exactly the reports whose lowercased name or e-mail contains the lowercased search, or whose decimal id text contains the search as typed, in order and with multiplicity; an empty search keeps all |
| ReportPage.CompareAntisymmetric | src/pages/Report/index.tsx:55-74 | swapping two reports negates the comparison |
| ReportPage.CompareTransitive | src/pages/Report/index.tsx:55-74 | "not after" is transitive, so the comparison is a consistent order |
| ReportPage.ScoreOrderSymmetry | src/pages/Report/index.tsx:62-73 | reports without a score (-1) go last in both directions; between two scored reports the descending order is the reverse of the ascending one |
| ReportPage.SortReports | src/pages/Report/index.tsx:55-74 | the sorted copy is ordered by the comparison and is a permutation of its input |
| ReportPage.InsertSorted | src/pages/Report/index.tsx:55-74 | inserting one report into a sorted list keeps it sorted and adds exactly that report |
| ReportPage.InsertPermutes | src/pages/Report/index.tsx:55-74 | inserting one report adds that report once and keeps every other |
| ReportPage.FilteredAndSortedSpec | src/pages/Report/index.tsx:44-77 | the list shown is a sorted permutation of the matching reports |
| ReportPage.PageWindowExact | src/pages/Report/index.tsx:388-394 | a page button is shown exactly for pages 1, the last and those next to the current one |
| ReportPage.PageWindow | src/pages/Report/index.tsx:388-394 | the page buttons appear in strictly increasing order |
| ReportPage.EllipsisMarksGap | src/pages/Report/index.tsx:397-398 | an ellipsis stands before a button exactly when the page before it is not shown |
| ReportPage.ComputeStats | src/pages/Report/index.tsx:92-107 | `total` is the number of reports; `withAssessments` is the length of `Assessed`, the reports with `totalAssessments > 0`, never above the total; the average is the sum of their scores divided by that count, and 0 when nobody is assessed or there are no reports |
| ReportPage.Assessed | src/pages/Report/index.tsx:95 | keeps each report with `totalAssessments > 0` exactly as often as it occurs, and no other |
| ReportPage.AverageWithinBounds | src/pages/Report/index.tsx:92-107 | the average lies between any bounds of the assessed reports' scores |
| ReportPage.ReportView.constructor | src/pages/Report/index.tsx:29-35 | the initial search, sort (score, desc), page size 10, page 1 and default dates |
| ReportPage.ReportView.HandleSort | src/pages/Report/index.tsx:82-90 | the same field flips the order, another field starts descending; back to page 1 |
| ReportPage.ReportView.SetStartDate | src/pages/Report/index.tsx:180-183 | sets the start date and goes back to page 1, nothing else |
| ReportPage.ReportView.SetEndDate | src/pages/Report/index.tsx:195-198 | sets the end date and goes back to page 1, nothing else |
| ReportPage.ReportView.ClearDates | src/pages/Report/index.tsx:207-211 | both dates emptied, page 1 |
| ReportPage.ReportView.SetSearch | src/pages/Report/index.tsx:229-232 | sets the search and goes back to page 1 |
| ReportPage.ReportView.SetPerPage | src/pages/Report/index.tsx:242-245 | sets the page size and goes back to page 1 |
| ReportPage.ReportView.Prev | src/pages/Report/index.tsx:382 | page becomes `max(1, page - 1)` |
| ReportPage.ReportView.Next | src/pages/Report/index.tsx:413 | page becomes `min(totalPages, page + 1)` |
| ReportPage.ReportView.GoTo | src/pages/Report/index.tsx:401 | a shown page button selects that page, which lies in range |
| ReportPage.ReportView.Query | src/pages/Report/index.tsx:38-42 | the query carries each date exactly when it is non-empty |
| Paging.TotalPages | src/components/criteria/table/index.tsx:33 | the fewest pages of `perPage` rows that hold all rows |
| Paging.PageOfRows | src/components/criteria/table/index.tsx:34 | a page holds the rows from `(page-1)*perPage` up to `page*perPage`, clipped to the list |
| Paging.PagesCoverList | src/components/criteria/table/index.tsx:33-34 | pages 1 to `totalPages`, one after the other, are the whole list |
| Paging.PageAfterLastIsEmpty | src/components/criteria/table/index.tsx:33-34 | a page past the last is empty |
| Paging.Slice | src/components/criteria/table/index.tsx:34 | `slice` never returns more elements than the list holds; the page it cuts is stated by `PageOfRows` |
| Paging.SlicePosition | src/components/criteria/table/index.tsx:34 | a `slice` bound within the list is kept, one past the end is clamped to the length, a negative one counts from the end and stops at 0 |
| Paging.FirstPagesArePrefix | src/components/criteria/table/index.tsx:34 | the first `k` pages together are the first `k * perPage` rows, clipped to the list |
| Paging.PrevPage | src/components/criteria/table/index.tsx:184 | `Math.max(1, p - 1)`: one page back, but never below page 1 |
| Paging.NextPage | src/components/criteria/table/index.tsx:194 | `Math.min(totalPages, p + 1)`: one page on, but never past the last page |
| Paging.StepsStayInRange | src/components/criteria/table/index.tsx:184-194 | from a valid page, "previous" and "next" stay within `[1, totalPages]` |
| CriteriaTable.FilteredExact | src/components/criteria/table/index.tsx:24-31 | the filters keep exactly the criteria matching the search (name, id or description) and the category, in order and with multiplicity |
| CriteriaTable.CategoriesOf | src/components/criteria/table/index.tsx:37 | `criteriaList.map((a) => a.category)`: one category per criterion, in list order |
| CriteriaTable.Categories | src/components/criteria/table/index.tsx:37 | each category of the list once, in order of first occurrence |
| CriteriaTable.SubmittableIffNotBlank | src/components/criteria/table/index.tsx:55 | a form is accepted exactly when the name and the description are not all white space |
| CriteriaTable.CriteriaList.constructor | src/components/criteria/table/index.tsx:12-22 | the initial filter, page size 5, page 1 and an empty form |
| CriteriaTable.CriteriaList.OpenModal | src/components/criteria/table/index.tsx:39-41 | opens the modal, nothing else |
| CriteriaTable.CriteriaList.CloseModal | src/components/criteria/table/index.tsx:43-51 | closes the modal and resets the form |
| CriteriaTable.CriteriaList.Submit | src/components/criteria/table/index.tsx:53-60 | a blank form changes nothing; otherwise the untrimmed form is handed over, the page goes to 1 and the modal closes with the form reset |
| CriteriaTable.CriteriaList.SetSearch | src/components/criteria/table/index.tsx:84-87 | sets the search, page 1 |
| CriteriaTable.CriteriaList.SetCategoryFilter | src/components/criteria/table/index.tsx:95-98 | sets the category filter, page 1 |
| CriteriaTable.CriteriaList.SetPerPage | src/components/criteria/table/index.tsx:111-114 | sets the page size, page 1 |
| CriteriaTable.CriteriaList.Prev | src/components/criteria/table/index.tsx:184 | page becomes `max(1, page - 1)` |
| CriteriaTable.CriteriaList.Next | src/components/criteria/table/index.tsx:181-194 | page becomes `min(totalPages, page + 1)`, offered only with more than one page |
| CriteriaTable.CriteriaList.SetName | src/components/criteria/table/index.tsx:224 | replaces the name only |
| CriteriaTable.CriteriaList.SetDescription | src/components/criteria/table/index.tsx:237 | replaces the description only |
| CriteriaTable.CriteriaList.SetWeight | src/components/criteria/table/index.tsx:254 | replaces the weight with `Number(input)` only |
| CriteriaTable.CriteriaList.SetCategory | src/components/criteria/table/index.tsx:266-271 | replaces the category only |
| CriteriaTable.CriteriaList.CurrentData | src/components/criteria/table/index.tsx:33-34 | the rows of the current page of the filtered list |
| AssessmentTable.FilteredExact | src/components/assessment/table/index.tsx:183-190 | the filters keep exactly the assessments matching the search (employee, supervisor or id) and the status, in order and with multiplicity; empty search with "All" keeps all |
| AssessmentTable.UnfilteredKeepsAll | src/components/assessment/table/index.tsx:183-190 | an empty search with the status filter "All" keeps the whole list |
| AssessmentTable.StatusesOf | src/components/assessment/table/index.tsx:196 | `assessments.map((a) => a.status)`: one status per assessment, in list order |
| AssessmentTable.Statuses | src/components/assessment/table/index.tsx:196 | each status once, in order of first occurrence |
| AssessmentTable.StatusLabelTranslatesKnownOnly | src/components/assessment/table/index.tsx:302-306 | only "Completed" and "InProgress" are translated, to their fixed labels |
| AssessmentTable.AssessmentList.constructor | src/components/assessment/table/index.tsx:177-181 | the initial filter, page size 5, page 1 |
| AssessmentTable.AssessmentList.SetSearch | src/components/assessment/table/index.tsx:216-220 | sets the search, page 1 |
| AssessmentTable.AssessmentList.SetStatusFilter | src/components/assessment/table/index.tsx:227-231 | sets the status filter, page 1 |
| AssessmentTable.AssessmentList.SetPerPage | src/components/assessment/table/index.tsx:243-248 | sets the page size, page 1 |
| AssessmentTable.AssessmentList.Prev | src/components/assessment/table/index.tsx:337 | page becomes `max(1, page - 1)` |
| AssessmentTable.AssessmentList.Next | src/components/assessment/table/index.tsx:347 | page becomes `min(totalPages, page + 1)` |
| AssessmentTable.AssessmentList.CurrentData | src/components/assessment/table/index.tsx:192-193 | the page count and the rows of the current page of the filtered list |
| AssessmentTypes.AsResponse | src/pages/assessments.tsx:433-436 | a body is accepted exactly when it is an object whose `data` is an array |
| AssessmentTypes.BodyOrFallback | src/pages/assessments.tsx:427-445 | an accepted body is returned; anything else, or a thrown call, gives the fallback |
| AssessmentTypes.ForEmployee | src/pages/assessments-by-employee.tsx:39-46 | "Success", 200, and only that employee's assessments |
| AssessmentTypes.ForEmployeeExact | src/pages/assessments-by-employee.tsx:40 | exactly that employee's assessments, in order and with multiplicity |
| AssessmentTypes.ForEmployeeFirst | src/pages/assessments-by-employee.tsx:39-46 | the first assessment kept for an employee is the first of theirs in the full list |
| AssessmentTypes.EmployeeName | src/pages/assessments-by-employee.tsx:99 | the first assessment's employee name, or "Nhân viên" when there is none or it is empty |
| AssessmentTypes.ExpandedRows.constructor | src/pages/assessments.tsx:472 | no row is expanded at first |
| AssessmentTypes.ExpandedRows.Toggle | src/pages/assessments.tsx:474-482 | the expanded set becomes `Toggled` of the old one |
| AssessmentTypes.Toggled | src/pages/assessments.tsx:474-482 | the row's membership flips and every other row keeps its state |
| AssessmentTypes.ToggleTwice | src/pages/assessments.tsx:474-482 | toggling a row twice restores the set |
| Assessments.FetchAssessments | src/pages/assessments.tsx:417-446 | a well-formed body is returned; a string, null, malformed body or thrown call gives the bundled data |
| Assessments.BadgeLabel | src/pages/assessments.tsx:448-464 | known statuses get their label; inherited property names get no label; any other status shows itself |
| Assessments.InheritedStatusHasNoLabel | src/pages/assessments.tsx:456 | "constructor" and "toString" get an empty badge |
| Assessments.BadgeLabelOwnAgrees | src/pages/assessments.tsx:449-456 | with own keys only, every non-empty status has a non-empty label, the four labels are fixed, and the lookup as written agrees outside the inherited names |
| Assessments.BadgeLabelOwn | src/pages/assessments.tsx:449-456 | the corrected lookup: a known status gets its label and any other status shows itself |
| Assessments.FallbackIsNeverEmpty | src/pages/assessments.tsx:441-445 | with non-empty bundled data, a malformed or failed fetch never shows the empty state |
| AssessmentsByEmployee.FilterMockByEmployee | src/pages/assessments-by-employee.tsx:39-46 | "Success", 200, that employee's bundled assessments; a NaN id matches none |
| AssessmentsByEmployee.FetchEmployeeAssessments | src/pages/assessments-by-employee.tsx:12-36 | a well-formed body is returned; otherwise the employee's bundled assessments |
| AssessmentsByEmployee.FallbackIsThatEmployees | src/pages/assessments-by-employee.tsx:20-35 | a fallback holds exactly that employee's bundled assessments, never another's |
| AssessmentsByEmployee.EmployeeIdNum | src/pages/assessments-by-employee.tsx:69 | a missing or empty parameter gives 0, anything else `parseInt` |
| AssessmentsByEmployee.EnabledIffNonZero | src/pages/assessments-by-employee.tsx:74 | the query runs exactly when the id is a number other than 0 |
| AssessmentsByEmployee.EnabledForIdText | src/pages/assessments-by-employee.tsx:69-74 | the decimal text of a non-zero id enables the query with that id |
| AssessmentsByEmployee.Heading | src/pages/assessments-by-employee.tsx:99 | the first employee's name, or "Nhân viên" when there is no data, no assessment, or the first name is empty |
| Dashboard.PanelShowsEmployee46 | src/pages/dashboard.tsx:17-77 | the panel is empty exactly when no bundled assessment is employee 46's, and then the heading is "Nhân viên"; otherwise the heading is the name on the first of employee 46's records in bundled order, or "Nhân viên" when that name is empty |
| ChartDashboard.ConvertDayMonthYear | src/pages/Dashboard/dashboard.tsx:58 | `DD-MM-YYYY` becomes `YYYY-MM-DD` |
| ChartDashboard.ConvertDateTwice | src/pages/Dashboard/dashboard.tsx:58 | the conversion undoes itself |
| ChartDashboard.FilteredDataExact | src/pages/Dashboard/dashboard.tsx:56-61 | keeps exactly the points whose converted date is within the range, with multiplicity |
| ChartDashboard.ReversedRangeIsEmpty | src/pages/Dashboard/dashboard.tsx:59 | a start after the end keeps nothing |
| ChartDashboard.DefaultRangeKeepsAll | src/pages/Dashboard/dashboard.tsx:18-61 | with the default dates, all 31 bundled points are kept |
| Courses.FilteredExact | src/pages/courses.tsx:86-91 | the filters keep exactly the employees matching the search (name or id) and the status, in order and with multiplicity |
| Courses.WithEntryAdded | src/pages/courses.tsx:123-135 | one default entry appended, the rest unchanged |
| Courses.WithField | src/pages/courses.tsx:144-154 | the field named by the value is replaced and the other two fields of the entry are kept |
| Courses.WithFieldAt | src/pages/courses.tsx:144-154 | one field of one entry replaced, every other entry unchanged |
| Courses.EditsUndo | src/pages/courses.tsx:123-154 | removing the entry just added gives the list back; a field written twice keeps the last value |
| Courses.FreshFormIsRejected | src/pages/courses.tsx:156-163 | the form the modal opens with never passes, nor does any form with a blank comment |
| Courses.EmployeeList.constructor | src/pages/courses.tsx:62-77 | the initial filter, page size 5, page 1, a closed modal and one default entry |
| Courses.EmployeeList.OpenAssessmentModal | src/pages/courses.tsx:95-107 | opens the modal for that employee with one default entry |
| Courses.EmployeeList.CloseModal | src/pages/courses.tsx:109-121 | closes the modal and resets the form |
| Courses.EmployeeList.AddScore | src/pages/courses.tsx:123-135 | the entries become `WithEntryAdded` |
| Courses.EmployeeList.RemoveScore | src/pages/courses.tsx:137-142 | the entry at that position is removed, offered only while more than one remains |
| Courses.EmployeeList.ScoreChange | src/pages/courses.tsx:144-154 | the entries become `WithFieldAt` |
| Courses.EmployeeList.Submit | src/pages/courses.tsx:156-169 | a complete form closes and resets the modal; any other leaves the state alone |
| Courses.EmployeeList.SetSearch | src/pages/courses.tsx:193-196 | sets the search, page 1 |
| Courses.EmployeeList.SetStatusFilter | src/pages/courses.tsx:204-207 | sets the status filter, page 1 |
| Courses.EmployeeList.SetPerPage | src/pages/courses.tsx:217-222 | sets the page size, page 1 |
| Courses.EmployeeList.CurrentData | src/pages/courses.tsx:93 | the rows of the current page of the filtered list |
| ChatApi.ChatPath | src/components/ChatWidget/api/index.ts:6 | the employee path exactly for the role "EMPLOYEE", the general path otherwise |
| ChatApi.ChatBody | src/components/ChatWidget/api/index.ts:7-10 | the body holds only the message |
| ChatApi.RoleSelectsPath | src/components/ChatWidget/api/index.ts:6 | a missing or other role uses the general path, which differs from the employee path |
| ChatApi.SendChatMessage | src/components/ChatWidget/api/index.ts:5-13 | the result is the `data` of a POST of the body to the role's path |
| ChatWidget.Restore | src/components/ChatWidget/index.tsx:26-38 | nothing stored, an empty text, a non-array or a parse failure gives []; an array is restored with no message typing |
| ChatWidget.NotTyping | src/components/ChatWidget/index.tsx:32 | every restored message keeps its fields and has `isTyping` false |
| ChatWidget.SaveThenRestore | src/components/ChatWidget/index.tsx:26-38 | saving a list and restoring it gives the same messages, none typing |
| ChatWidget.Messages | src/components/ChatWidget/index.tsx:46-48 | the greeting first, then the user's conversation |
| ChatWidget.SenderName | src/components/ChatWidget/index.tsx:80 | the user's non-empty name, else "Bạn" |
| ChatWidget.Submitted | src/components/ChatWidget/index.tsx:72-92 | a submit appends the user message with id `now` and a typing placeholder with id `now + 1` |
| ChatWidget.Replaced | src/components/ChatWidget/index.tsx:103-114 | every message with the placeholder's id gets the reply, and no other message changes |
| ChatWidget.ReplyText | src/components/ChatWidget/index.tsx:108 | the reply, or the fixed no-answer text when there is none |
| ChatWidget.UniqueIdsReplaceOne | src/components/ChatWidget/index.tsx:103-114 | while ids are unique, filling in the placeholder changes exactly one message |
| ChatWidget.QuickRoundTripRepeatsId | src/components/ChatWidget/index.tsx:72-114 | as written, on the widget with its sending guard: a reply within the same millisecond, then a message at the next, gives the filled placeholder and the new user message the same id (the React key), while every text stays its own |
| ChatWidget.FreshId | src/components/ChatWidget/index.tsx:72-73 | the corrected id is at least the clock reading and above every id already in the conversation |
| ChatWidget.FreshIdsStayUnique | src/components/ChatWidget/index.tsx:72-73 | with ids taken past every id in use, submits keep ids unique and each reply fills in only its own placeholder |
| ChatWidget.Widget.constructor | src/components/ChatWidget/index.tsx:24-38 | an empty input, the restored conversation and no send pending |
| ChatWidget.Widget.SetInput | src/components/ChatWidget/index.tsx:221-225 | replaces the input while no send is pending (the text area is disabled otherwise); nothing else changes |
| ChatWidget.Widget.Submit | src/components/ChatWidget/index.tsx:60-95 | while a send is pending (the form's `isSendingMessage` guard) or for a blank input nothing changes and nothing is sent; otherwise the two messages are appended, the input cleared, the trimmed text sent, a send is pending and the placeholder id `now + 1` is kept for the reply |
| ChatWidget.Widget.ReceiveReply | src/components/ChatWidget/index.tsx:97-115 | requires a pending send; every message with the kept placeholder id gets the reply, the send is no longer pending, and the input is unchanged |
| ChatWidget.Widget.ReceiveError | src/components/ChatWidget/index.tsx:116-134 | requires a pending send; every message with the kept placeholder id gets the apology, the send is no longer pending, and the input is unchanged |
| ChatWidget.Widget.Persist | src/components/ChatWidget/index.tsx:139-145 | the conversation is written under its one key and nothing else changes |
| Validation.IsEmailIffPattern | src/pages/auth/signin/index.tsx:36 | the computed e-mail test accepts exactly the strings `[^\s@]+@[^\s@]+\.[^\s@]+` matches in full |
| Validation.RejectedEmails | src/pages/auth/signin/index.tsx:36 | "a@b" and "a b@c.d" are rejected and "a@b.c" accepted |
| Validation.IsEmailShape | src/pages/auth/signin/index.tsx:36 | the e-mail test holds exactly for a text with no white space, one `@` that is not first, and a `.` after the character after the `@` and before the last character |
| Validation.EmailHasShape | src/pages/auth/signin/index.tsx:36 | an accepted text has that shape |
| Validation.ShapeIsEmail | src/pages/auth/signin/index.tsx:36 | a text of that shape is accepted |
| Validation.EmailMatchesPattern | src/pages/auth/signin/index.tsx:36 | a text the test accepts has a match of the pattern |
| Validation.PatternIsEmail | src/pages/auth/signin/index.tsx:36 | a text matching the pattern at some `@` and `.` is accepted |
| Validation.SpaceBeforeAtRejected | src/pages/auth/signin/index.tsx:36 | "a b@c.d" is rejected |
| Validation.SimpleEmailAccepted | src/pages/auth/signin/index.tsx:36 | "a@b.c" is accepted |
| Validation.Utf16Length | src/pages/auth/signin/index.tsx:48 | `length` counts between one and two code units per character |
| Validation.PasswordError | src/pages/auth/signin/index.tsx:45-51 | required when empty, too short below 6 UTF-16 code units, and otherwise no error |
| Validation.PasswordLengthCountsCodeUnits | src/pages/auth/signin/index.tsx:48 | three emoji, six code units, pass the length rule |
| Validation.FailureMessage | src/pages/auth/signin/index.tsx:71-80 | the server's or the error's non-empty message, else the fallback, so never empty |
| SignIn.UsernameError | src/pages/auth/signin/index.tsx:37-43 | required when empty, invalid when not an e-mail, no error exactly for an e-mail |
| SignIn.UsernamePassesIffPattern | src/pages/auth/signin/index.tsx:36-43 | the username passes exactly when the pattern matches |
| SignIn.SignInPage.ValidateForm | src/pages/auth/signin/index.tsx:32-55 | both field errors are set and the form is valid exactly when both are empty |
| SignIn.SignInPage.HandleSubmit | src/pages/auth/signin/index.tsx:57-81 | login is called exactly for a valid form; the snackbar reports success or the failure message |
| SignIn.SignInPage.SetUsername | src/pages/auth/signin/index.tsx:123 | typing in the username field replaces the username only; the errors and the snackbar stay |
| SignIn.SignInPage.SetPassword | src/pages/auth/signin/index.tsx:151 | typing in the password field replaces the password only; the errors and the snackbar stay |
| SignIn.SignInPage.constructor | src/pages/auth/signin/index.tsx:23-30 | empty username and password, no errors, a closed success snackbar |
| SignUp.NameError | src/pages/auth/signup/index.tsx:38-41 | required exactly when the name is empty |
| SignUp.UsernameError | src/pages/auth/signup/index.tsx:43-50 | required when empty, invalid when not an e-mail, no error exactly for an e-mail |
| SignUp.FormErrors | src/pages/auth/signup/index.tsx:33-63 | each field's error comes from its own test |
| SignUp.ErrorsArePerField | src/pages/auth/signup/index.tsx:33-63 | changing one field never changes another field's error; no errors exactly when all three pass |
| SignUp.SignUpPage.constructor | src/pages/auth/signup/index.tsx:23-31 | empty name, username and password, no errors, a closed success snackbar |
| SignUp.SignUpPage.ValidateForm | src/pages/auth/signup/index.tsx:33-63 | the three errors are set and the form is valid exactly when all are empty |
| SignUp.SignUpPage.HandleSubmit | src/pages/auth/signup/index.tsx:65-88 | sign-up is called exactly for a valid form; the snackbar reports success or the failure message |
| CriteriaGetList.QueryParams | src/service/api/criteria/get-list/index.ts:10-19 | page and limit are sent exactly when truthy; the search text is sent, trimmed, exactly when it is not blank |
| CriteriaGetList.SentSearchIsTrimmed | src/service/api/criteria/get-list/index.ts:17-19 | a sent search text is non-blank and already trimmed |
| CriteriaGetList.ZeroOrNaNIsNotSent | src/service/api/criteria/get-list/index.ts:10-16 | a page or limit of 0 or NaN is falsy and is therefore left out of the query |
| CriteriaGetList.GetCriteriaList | src/service/api/criteria/get-list/index.ts:21-23 | the result is the body's `data` for a GET of `/criteria` with `QueryParams` |
| UseRouterParam.SearchTextParam | src/components/criteria/hooks/useRouterParam.ts:5 | the parameter, or "" when missing |
| UseRouterParam.PageParam | src/components/criteria/hooks/useRouterParam.ts:6 | the page number when truthy, else 1, so never 0 |
| UseRouterParam.PageDefaults | src/components/criteria/hooks/useRouterParam.ts:6 | a missing, empty, non-numeric or zero parameter gives 1, and a non-zero number's text gives that number |
| UseRouterParam.NumberPage | src/components/criteria/hooks/useRouterParam.ts:6 | the text of a non-zero integer gives that page |
| UseRouterParam.BlankPage | src/components/criteria/hooks/useRouterParam.ts:6 | a blank parameter gives page 1 |
| UseRouterParam.ZeroPage | src/components/criteria/hooks/useRouterParam.ts:6 | "0" gives page 1 |
| UseRouterParam.NonNumericPage | src/components/criteria/hooks/useRouterParam.ts:6 | a page text that starts with a letter and has no surrounding white space gives page 1 |
| UseSearchCriteria.EffectRequest | src/components/criteria/hooks/useSearchCriteria.tsx:18-28 | the page, a limit of 5, and the trimmed search only when it is not blank |
| UseSearchCriteria.RequestReachesQuery | src/components/criteria/hooks/useSearchCriteria.tsx:18-28 | what the effect requests from the route reaches the list query unchanged |
| UseSearchCriteria.SearchCriteria.constructor | src/components/criteria/hooks/useSearchCriteria.tsx:10-12 | the initial request carries only the page |
| UseSearchCriteria.SearchCriteria.OnParamsChanged | src/components/criteria/hooks/useSearchCriteria.tsx:18-28 | the stored request becomes `EffectRequest` |
| CriteriaDelete.DeleteCriteria | src/service/api/criteria/delete/index.ts:15-25 | a zero or NaN id is rejected without a call; any other id is deleted at its URL |
| CriteriaDelete.DeleteUrl | src/service/api/criteria/delete/index.ts:20 | the URL is the criteria base, a slash and the id's decimal text |
| CriteriaDelete.DeleteUrlNamesId | src/service/api/criteria/delete/index.ts:20 | the URL's last segment reads back as the id, and different ids give different URLs |
| Text.TrimStart | src/service/api/criteria/get-list/index.ts:17 | the leading-space removal never lengthens the text and leaves no leading space |
| Text.TrimStartRemovesBlank | src/service/api/criteria/get-list/index.ts:17 | what it removes is a blank prefix, and it keeps the rest |
| Text.TrimEnd | src/service/api/criteria/get-list/index.ts:17 | the trailing-space removal never lengthens the text and leaves no trailing space |
| Text.TrimEndRemovesBlank | src/service/api/criteria/get-list/index.ts:17 | what it removes is a blank suffix, and it keeps the rest |
| Text.TrimOfTrimmed | src/service/api/criteria/get-list/index.ts:17 | a text with no surrounding white space trims to itself |
| Text.Trim | src/service/api/criteria/get-list/index.ts:17 | `trim` neither starts nor ends with white space; `TrimIsInnerSlice` says which part of the text it is |
| Text.Lower | src/components/criteria/table/index.tsx:28 | an ASCII-only stand-in for `toLowerCase`: it keeps the length and maps each ASCII capital to its small letter; other letters are not folded (see the case-folding line under "Left out") |
| Text.LowerChar | src/components/criteria/table/index.tsx:28 | an ASCII capital moves 32 code points to its small letter; any other character is unchanged |
| Text.ContainsEmpty | src/components/criteria/table/index.tsx:28 | every text includes the empty text, so an empty search matches everything |
| Text.IndexOf | src/pages/Dashboard/dashboard.tsx:58 | the first position of a character: it is there and not before |
| Text.Split | src/pages/Dashboard/dashboard.tsx:58 | `split` on one character gives at least one part, and no part contains the separator; `JoinSplit` says the parts rebuild the text |
| Text.TrimEmptyIffBlank | src/service/api/criteria/get-list/index.ts:17 | a string trims to nothing exactly when it is all white space |
| Text.TrimIsInnerSlice | src/service/api/criteria/get-list/index.ts:17-18 | `trim` returns the part of the text between a blank prefix and a blank suffix |
| Text.JoinSplit | src/pages/Dashboard/dashboard.tsx:58 | splitting and joining on one separator gives the string back |
| Text.SplitJoin | src/pages/Dashboard/dashboard.tsx:58 | joining pieces without the separator and splitting again gives the pieces back |
| Text.NatToString | src/pages/Report/index.tsx:51 | `toString` of a natural number: at least one digit, no leading zero, one digit exactly below 10 |
| Text.NatToStringRoundTrip | src/pages/Report/index.tsx:51 | reading the digits back gives the number |
| Text.IntToString | src/pages/Report/index.tsx:51 | `toString` of an integer: digits exactly for a non-negative one, a minus sign before the digits of the magnitude otherwise |
| Text.Pad2 | src/pages/Report/index.tsx:9-10 | `padStart(2, "0")` of a number below 100 is two digits that read back as the number |
| Text.LessTrichotomy | src/pages/Report/index.tsx:55-74 | exactly one of `a < b`, `a == b`, `b < a` holds, and `<=` is `<` or equal |
| Text.LessIrreflexive | src/pages/Report/index.tsx:55-74 | no text is before itself |
| Text.LessTransitive | src/pages/Report/index.tsx:55-74 | the string order is transitive |
| Text.AtMostTransitive | src/pages/Dashboard/dashboard.tsx:59 | string `<=` is transitive |
| JsNumber.ParseInt | src/pages/assessments-by-employee.tsx:69 | `parseInt(s, 10)` is NaN exactly when no digit follows the leading white space and the optional sign |
| JsNumber.ToNumber | src/components/criteria/hooks/useRouterParam.ts:6 | `Number`: `null` and a blank text give 0; a trimmed, optionally signed run of digits gives its value; anything else gives NaN |
| JsNumber.DigitPrefix | src/pages/assessments-by-employee.tsx:69 | the digits `parseInt` reads: the longest prefix of decimal digits |
| JsNumber.SplitSign | src/pages/assessments-by-employee.tsx:69 | a leading `-` or `+` is taken off and remembered; otherwise the text is unsigned |
| JsNumber.ParseDigits | src/pages/assessments-by-employee.tsx:69 | `parseInt` of a run of digits, leading zeros included, is its value |
| JsNumber.IntToStringParts | src/pages/assessments-by-employee.tsx:69 | `String(n)` has no surrounding space and is an optional minus before the digits of the magnitude |
| JsNumber.ToNumberOfSignedDigits | src/components/criteria/hooks/useRouterParam.ts:6 | `Number` of an optionally signed run of digits is its signed value |
| JsNumber.ToNumberOfNonDigits | src/components/criteria/hooks/useRouterParam.ts:6 | `Number` of any other non-blank trimmed text is NaN |
| JsNumber.ToNumberRoundTrip | src/components/criteria/hooks/useRouterParam.ts:6 | `Number(String(n))` is `n` |
| JsNumber.ParseIntRoundTrip | src/pages/assessments-by-employee.tsx:69 | `parseInt(String(n))` is `n` |
| Seqs.Filter | src/pages/courses.tsx:86-91 | `filter` never lengthens the list and keeps only passing elements |
| Seqs.FilterExact | src/pages/courses.tsx:86-91 | `filter` keeps exactly the passing elements, with multiplicity |
| Seqs.FilterFirst | src/pages/assessments-by-employee.tsx:40 | `filter` keeps the first passing element in front |
| Seqs.FilterAppend | src/pages/courses.tsx:86-91 | `filter` keeps the order: filtering a concatenation concatenates the filtered parts |
| Seqs.FilterAll | src/components/assessment/table/index.tsx:183-190 | a filter every element passes changes nothing |
| Seqs.FilterNone | src/pages/Dashboard/dashboard.tsx:56-61 | a filter no element passes gives the empty list |
| Seqs.FilterFilter | src/pages/courses.tsx:86-91 | filtering by two tests one after the other is filtering once by both |
| Seqs.Distinct | src/components/criteria/table/index.tsx:37 | `Array.from(new Set(s))` has the same elements as `s`, each once |
| Seqs.RemoveAt | src/pages/courses.tsx:137-142 | the list without one position, the rest shifted down by one, or the list itself for a position outside it |
| Seqs.Reverse | src/pages/Dashboard/dashboard.tsx:58 | `reverse` keeps the length and reads the list from the end |
| Seqs.Range | src/pages/Report/index.tsx:388 | `Array.from({ length }, (_, i) => lo + i)`: consecutive integers from `lo`, strictly increasing |
| Seqs.InRange | src/pages/Report/index.tsx:388 | a number is in the range exactly when it lies between its bounds |
| Seqs.DistinctFirstOccurrenceOrder | src/components/criteria/table/index.tsx:37 | `Array.from(new Set(s))` orders elements by first occurrence |

Functions with no contract of their own are specified by the lemmas in the table:

- `Axios.OnError`: `QueuedWhileRefreshing`, `StartsOneRefresh`, `OtherErrorsPassThrough`;
- `Axios.OnRefreshSucceeded` and `Axios.OnRefreshFailed`: `RefreshSuccessEffects`, `RefreshWithoutTokenSendsUndefined` and `RefreshFailureEffects`;
- `Axios.Consistent`: `RefreshCallFindsNoHandler` and `RunCallsRefreshSingly`;
- `Axios.Step` and `Axios.Run`: `StepKeepsConsistent`, `RunKeepsConsistent`, `StuckAfterMissingRefreshToken`;
- `Axios.Outgoing`: `StoredTokenWinsOverDefault`, `DefaultUsedWithoutStoredToken`, `StaleBearerAfterLogout`;
- `AuthContext.Restore`: `RestoreFromInitial`, `RestoreThrowKeepsToken` and `RestoreNonUserKeepsToken`;
- `AuthContext.RestoreChecked`: `RestoreCheckedSignsOutOnFailure`;
- `AuthContext.LoginStep`: `LoginWithDeclaredShape` and `LoginFailureChangesNothing`;
- `AuthContext.LogoutStep`: `LogoutSignsOut`;
- `ReportPage.Compare` and `ReportPage.NameOrder`: `CompareAntisymmetric`, `CompareTransitive`, `ScoreOrderSymmetry`;
- `ReportPage.FilteredAndSorted`: `FilteredAndSortedSpec`;
- `Paging.PageOf`: `PageOfRows`, `PagesCoverList`, `PageAfterLastIsEmpty`;
- `Text.Less`: `AtMostTransitive` and the comparison lemmas above;
- `Text.Join`: `JoinSplit`;
- `Text.Contains` is itself the statement of `includes`: some position where the text occurs;
- `Validation.IsEmail`: `IsEmailIffPattern` and `IsEmailShape`;
- `AssessmentTable.StatusLabel`: `StatusLabelTranslatesKnownOnly`;
- `ChartDashboard.ConvertDate`: `ConvertDayMonthYear` and `ConvertDateTwice`;
- `ChartDashboard.FilteredData`: `FilteredDataExact`;
- `ChatWidget.SubmittedFresh`: `FreshIdsStayUnique`;
- `Storage.WebStorage.GetItem` reads through `Storage.Lookup`.

## Left out

- The network, promises and React Query are not modelled: each call's outcome or response is a parameter. Timing, retries and caching are not modelled either.
- Rendering (JSX, styles, icons, the snackbar close button, the chat panel's open/close toggle, scrolling) is not modelled. Only the value a component decides to show is.
- `JSON.parse`, `JSON.stringify`, `Date.now`, `new Date()` and `toLocaleTimeString` are parameters of the members that use them.
- `localeCompare` is stood in for by the order of Unicode code points (`Text.Less`). This is not the locale's collation (accents and case are not folded together), and for characters outside the Basic Multilingual Plane it also differs from the UTF-16 code-unit order that JavaScript's own `<` uses. Case folding covers ASCII letters only, so Vietnamese names are compared as typed.
- `Number` and `parseInt` are modelled for integers only. Decimal, exponent and hexadecimal texts and `Infinity` are not.
- The report's average score is a `real`. Floating-point rounding and `toFixed` are left out.
- ReportPage.SortReports: sort stability (the order of equal reports) is not stated.
- Courses.EmployeeList.ScoreChange requires an index the form shows. An out-of-range index, which the form never produces, is not modelled.
- The employee list's criteria dropdown (`criteriaData?.payload?.data`) is not modelled, and neither are the `TODO` create-assessment calls, the `alert`s and the edit buttons.
- `src/components/criteria/types` is not part of this model. The shape of `SearchCriteriaParams` (`page`, `limit`, `searchText`, all optional) is taken from its uses.
- The bundled sample data in `src/lib/mockAssessmentData.ts` is a parameter. Its contents are not modelled, except the chart page's 31 points.
- ChatApi.SendChatMessage, CriteriaGetList.GetCriteriaList and ReportApi.GetEmployeeReports state their result through the network parameter. Their content is carried by the partner members ChatPath/RoleSelectsPath, QueryParams/SentSearchIsTrimmed and ReportParams/EmptyDateIsOmitted.
- AuthContext.Restore: a record that parses to a value other than a user object (`null`, a number, an array) is exposed as no user. The source stores that value as the user, and its consumers read it only through optional chaining.
- Axios.StuckAfterMissingRefreshToken: the page reload that `window.location.href` causes, which resets the module state, is not modelled. The lemma describes the state only up to that reload.
- Errors the interceptors never see (a failing request interceptor) and the `queryClient` invalidations are not modelled.

## Findings

| source | as written | input that shows it | evidently intended | confidence | as-written member | corrected member |
|---|---|---|---|---|---|---|
| src/contexts/AuthContext.tsx:48-56 | `setAccessToken(storedToken)` runs before `JSON.parse(storedUser)`; when the parse throws, the catch removes the three keys but the token stays in state | stored `access_token` "abc" and `user_data` "{" | a record that does not parse leaves the session signed out | not executed | AuthContext.RestoreThrowKeepsToken | AuthContext.RestoreCheckedSignsOutOnFailure |
| src/components/ChatWidget/index.tsx:72-73 | the user message takes id `Date.now()` and its placeholder `Date.now() + 1`; the send button is disabled only until the reply, so a reply within 1 ms followed by the next message gives two messages the same id and React key (line 181) | submit "a" at 1000 ms, its reply arrives, submit "b" at 1001 ms | every message has its own id | not executed | ChatWidget.QuickRoundTripRepeatsId | ChatWidget.FreshIdsStayUnique |
| src/pages/assessments.tsx:456 | `statusMap[status]` also finds inherited `Object.prototype` members, which are truthy but have no `label` | status "constructor" | an unknown status shows its own name | not executed | Assessments.InheritedStatusHasNoLabel | Assessments.BadgeLabelOwnAgrees |
