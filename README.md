# Orbit Cargo Nexus — a Dafny model of the dashboard core

Orbit Cargo Nexus is a cargo-management dashboard for a space station. Its front end
(React, TypeScript) has a session store backed by Supabase, a route guard and
protected layout, sign-in and sign-up forms, and pages for cargo placement and
search, CSV import, storage efficiency, the station cross-section, waste and activity
logs. A mock API client answers every request. A Flask service (`backend/app.py`)
offers item search, log queries and CSV import over MongoDB, with demo fallbacks.

The model follows the code file by file:

- `base.dfy` (`Base`): shared values: `Option`, `Result`, `Outcome`, `Navigation`, `Toast`. It also holds the string helpers the sources use (`includes`, `endsWith`, `split`, `trim`, the first-letter `toUpperCase`).
- `auth_context.dfy` (`AuthContext`): the session store. It is a class with the provider's three state fields (`user`, `session`, `isLoading`). Each `await` in `login`, `register`, initialisation and the auth listener splits the operation into two steps, so the states in between exist in the model (for example a stored session whose user is still the old one while the profile query runs). `refreshProfile` changes nothing before its `await` and is one step.
  - Every Supabase answer is a parameter: the profile query, `getSession`, `signInWithPassword`, `signUp`, `signOut`.
- `require_auth.dfy`, `layout.dfy`: what the route guard and the layout render for `(isLoading, user)`, and the navigations they issue. The guard's effect is modelled over React's dependency-list comparison.
- `login_page.dfy`, `register_page.dfy`: the two forms, their guards, and their submit handlers split at the `await`.
- `api.dfy` (`Api`): the mock API client.
  - `handleRequest` and `getMockData`, whose dispatch is decided by the URL.
  - The query strings built by `searchItems` and `getLogs`.
  - The mock data sets.
- `backend.dfy` (`Backend`): the Flask service's core.
  - A `Database` class holding the availability of the collections and the `activity_logs` documents.
  - `search_items`, with retrieval logging; `get_logs`, with its timestamp conversion loop; `import_items` and `log_activity`.
- `import_export.dfy`, `storage_efficiency.dfy`, `cross_section.dfy`, `logs_page.dfy`, `cargo_categorization.dfy`, `waste_management.dfy`: the page logic.
  - The banding and colour decisions, the chart data and the drawing geometry.
  - The state of each page as a class whose methods are the event handlers and timer callbacks.
- `scenarios.dfy` (`Scenarios`): runs that cross files, each one possible interleaving of the callbacks. Examples: a visitor without a session is redirected; a sign-in through the form reaches the shell only after the auth listener's profile query settles, when the listener runs after `login`; the log page's search is answered with the mock log records.

This is the Supabase-backed variant of the session store. There, `login` and `register` do not set the user and `logout` does not clear it. The listener `onAuthStateChange` does both when Supabase reports the new session. Upstream descriptions of the design speak of a store that sets and clears the user itself and persists it in local storage. The model follows the code: `AuthContext.AuthProvider.FinishLogin` and `Logout` leave `user` unchanged, and `Scenarios.SignInThroughForm` and `Scenarios.SignOut` show the consequence in the interleaving where Supabase's callback runs after the call settles. In other orders the listener may already have stored the user.

## Model

| member | source | states |
|---|---|---|
| Base.Split | src/pages/CargoCategorization.tsx:130 | `split` returns at least one piece, and no piece contains the separator |
| Base.JoinSplit | src/pages/CargoCategorization.tsx:130 | joining the pieces with the separator gives the original string back |
| Base.SplitJoin | src/pages/CargoCategorization.tsx:130 | splitting pieces joined by a separator they do not contain gives the pieces back |
| Base.Trim | src/pages/CargoCategorization.tsx:130 | `trim`'s result has no white space at either end and is empty exactly for all-white-space input |
| Base.TrimIsSlice | src/pages/CargoCategorization.tsx:130 | the result is the slice of the input between its leading and its trailing white space |
| Base.Capitalize | src/pages/Logs.tsx:300 | same length; the first character is upper-cased and the rest is kept |
| AuthContext.UseAuth | src/contexts/AuthContext.tsx:37-43 | the context value exactly when a provider encloses the caller; otherwise the error with the fixed message |
| AuthContext.FetchUserProfile | src/contexts/AuthContext.tsx:52-70 | the profile row exactly when the query returned one; null on a query error or an exception, never a failure |
| AuthContext.WithProfile | src/contexts/AuthContext.tsx:99-108 | the stored user keeps the Supabase user and takes name, role, bio and avatar from the profile; all absent without a profile |
| AuthContext.SessionUser | src/contexts/AuthContext.tsx:99-111 | the listener stores a user exactly when the session has one, built from that user and the fetched profile |
| AuthContext.Refreshed | src/contexts/AuthContext.tsx:73-87 | unchanged without a user or a profile; otherwise the five profile attributes are overwritten and the Supabase user is kept |
| AuthContext.RefreshAgreesWithSignIn | src/contexts/AuthContext.tsx:73-108 | a refresh yields the record a fresh sign-in with that profile would build |
| AuthContext.RefreshIdempotent | src/contexts/AuthContext.tsx:73-87 | refreshing twice with the same profile equals refreshing once |
| AuthContext.AuthProvider.constructor | src/contexts/AuthContext.tsx:46-48 | no user, no session, loading |
| AuthContext.AuthProvider.BeginInitialize | src/contexts/AuthContext.tsx:91-95 | loading is set and user and session are kept |
| AuthContext.AuthProvider.StoreExistingSession | src/contexts/AuthContext.tsx:118-133 | the found session is stored with the user kept; without a session user loading ends, otherwise that user is pending and loading is kept |
| AuthContext.AuthProvider.StoreInitialProfile | src/contexts/AuthContext.tsx:122-133 | the user is built from the pending user and the fetched profile; the session is kept and loading ends |
| AuthContext.AuthProvider.CompleteInitialize | src/contexts/AuthContext.tsx:118-133 | both steps with nothing in between: the session is stored; the user is built only when the session has one and is otherwise kept; loading ends |
| AuthContext.AuthProvider.BeginAuthStateChange | src/contexts/AuthContext.tsx:96-113 | the new session is stored; without a session user the user is cleared and loading ends, otherwise that user is pending and user and loading are kept |
| AuthContext.AuthProvider.FinishAuthStateChange | src/contexts/AuthContext.tsx:100-113 | the user is built from the pending user and the fetched profile; the session is kept and loading ends |
| AuthContext.AuthProvider.OnAuthStateChange | src/contexts/AuthContext.tsx:96-114 | both steps of the listener with nothing in between: the session is stored, the user is rebuilt or cleared as the new session dictates, loading ends |
| AuthContext.AuthProvider.BeginLogin | src/contexts/AuthContext.tsx:143-144 | loading is set, nothing else changes |
| AuthContext.AuthProvider.FinishLogin | src/contexts/AuthContext.tsx:146-171 | an `error` result fails with its message and the "Login failed" toast; a rejected call fails with no toast; success toasts "Login successful", "Welcome back!"; user and session untouched; loading ends in every case |
| AuthContext.AuthProvider.BeginRegister | src/contexts/AuthContext.tsx:174-175 | loading is set, nothing else changes |
| AuthContext.AuthProvider.FinishRegister | src/contexts/AuthContext.tsx:177-207 | an `error` result fails with its message and the "Registration failed" toast; a rejected call fails with no toast; success toasts "Registration successful"; user and session untouched; loading ends in every case |
| AuthContext.AuthProvider.Logout | src/contexts/AuthContext.tsx:210-232 | an `error` result fails with its message and the "Sign out failed" toast; a rejected call fails with no toast; success toasts "Signed out"; no state changes |
| AuthContext.AuthProvider.RefreshProfile | src/contexts/AuthContext.tsx:73-87 | the new user is `Refreshed` of the old user and the fetched profile; session and loading kept |
| RequireAuth.Classify | src/components/auth/RequireAuth.tsx:11-28 | pending exactly while loading; once loaded, unauthenticated exactly without a user and authenticated exactly with one |
| RequireAuth.Render | src/components/auth/RequireAuth.tsx:21-40 | the children exactly in the authenticated state; the spinner while loading and when there is no user |
| RequireAuth.Redirect | src/components/auth/RequireAuth.tsx:11-18 | a navigation exactly when loading is over and there is no user: to /login, remembering the path, replacing the history entry |
| RequireAuth.RenderEffect | src/components/auth/RequireAuth.tsx:11-19 | a render navigates exactly when its dependencies changed and the state is unauthenticated |
| RequireAuth.Navigations | src/components/auth/RequireAuth.tsx:11-19 | a run of renders navigates at most once per render, and never while every render is loaded with a user |
| RequireAuth.OneRedirectPerEpisode | src/components/auth/RequireAuth.tsx:11-19 | renders with unchanged dependencies navigate at most once, and not at all if nothing changed since the previous render |
| RequireAuth.PendingShowsOnlySpinner | src/components/auth/RequireAuth.tsx:11-28 | while loading, neither the children nor a navigation, whoever the user |
| Layout.Render | src/components/layout/Layout.tsx:7-38 | the loading screen while loading, a replacing redirect to /login without a user, the shell exactly when loaded with a user |
| Layout.AgreesWithRequireAuth | src/components/layout/Layout.tsx:11-25 | the layout shows protected content and redirects in exactly the states in which the guard does |
| LoginPage.Validate | src/pages/Login.tsx:21-28 | the error toast exactly when a field is empty |
| LoginPage.AfterCall | src/pages/Login.tsx:33-45 | navigation to /dashboard exactly on success with the welcome toast; the destructive rejection toast otherwise |
| LoginPage.LoginForm.constructor | src/pages/Login.tsx:11-13 | empty fields, not submitting |
| LoginPage.LoginForm.SetEmail | src/pages/Login.tsx:89 | the typed email; password and submitting kept |
| LoginPage.LoginForm.SetPassword | src/pages/Login.tsx:108 | the typed password; email and submitting kept |
| LoginPage.LoginForm.HandleSubmit | src/pages/Login.tsx:18-33 | calls `login` with both fields exactly when the guard passes, and submitting starts then, disabling the button; otherwise only the toast |
| LoginPage.LoginForm.Settle | src/pages/Login.tsx:33-48 | the navigation and toast of `AfterCall`; submitting ends either way, enabling the button |
| RegisterPage.Validate | src/pages/Register.tsx:23-39 | passes exactly when every field is filled and the passwords match; a missing field is reported before a mismatch |
| RegisterPage.EmptinessCheckedFirst | src/pages/Register.tsx:23-39 | an empty field with mismatching passwords still reports the missing field |
| RegisterPage.AfterCall | src/pages/Register.tsx:43-56 | navigation to /dashboard exactly on success; the rejection toast otherwise |
| RegisterPage.RegisterForm.constructor | src/pages/Register.tsx:11-15 | empty fields, not submitting |
| RegisterPage.RegisterForm.SetFields | src/pages/Register.tsx:100-142 | the four typed fields; submitting kept |
| RegisterPage.RegisterForm.HandleSubmit | src/pages/Register.tsx:20-44 | calls `register` with name, email and password exactly when the guards pass, disabling the button; otherwise only the toast |
| RegisterPage.RegisterForm.Settle | src/pages/Register.tsx:43-59 | the navigation and toast of `AfterCall`; submitting ends either way, enabling the button |
| Api.GetMockData | src/services/api.ts:25-72 | each payload is answered exactly when its path is the first of placement, search, waste identification, logs found in the URL, with that mock data; `{success: true}` when none is found |
| Api.HandleRequest | src/services/api.ts:11-22 | every response carries the mock payload for its URL and no error |
| Api.SearchRequestDispatch | src/services/api.ts:25-51 | any search request is answered with the mock search hits |
| Api.LogsRequestDispatch | src/services/api.ts:25-66 | any logs request is answered with the mock log records |
| Api.PlacementDispatch | src/services/api.ts:75-80 | the placement path gets the mock recommendation |
| Api.IdentifyWasteDispatch | src/services/api.ts:100-104 | the waste identification path gets exactly the mock waste data |
| Api.SimulateDayDispatch | src/services/api.ts:107-111 | the day simulation path matches no endpoint and gets `{success: true}` |
| Api.GetPlacementRecommendations | src/services/api.ts:75-80 | the mock recommendation and no error, whatever the payload |
| Api.IdentifyWaste | src/services/api.ts:100-104 | exactly the mock waste data and no error |
| Api.SimulateDay | src/services/api.ts:107-111 | `{success: true}` and no error |
| Api.FirstMatchWins | src/services/api.ts:25-66 | dispatch is by first match: a logs URL also mentioning the placement path gets the placement payload |
| Api.ImportItems | src/services/api.ts:114-131 | the fixed summary: success, 24 processed, 18 added, 6 updated, and no error |
| Api.Optional | src/services/api.ts:88-92 | a parameter is appended exactly when its value is truthy, with that key and value |
| Api.QueryString | src/services/api.ts:94 | the query string is empty exactly when no parameter was appended |
| Api.QueryStringIsJoin | src/services/api.ts:94 | the query string is the `key=value` pairs joined by `&`, in order |
| Api.QueryStringSplits | src/services/api.ts:94 | when no key or value contains `&`, splitting on `&` gives back one `key=value` pair per parameter, in order |
| Api.SearchItems | src/services/api.ts:83-97 | each of itemId, itemName, userId is a key of the query exactly when given, in that order; the URL is /api/search with that query and the answer is its mock response |
| Api.GetLogs | src/services/api.ts:134-153 | both dates come first, then the given filters among itemId, userId, actionType in that order; the request goes to /api/logs |
| Api.MockWasteTotalIsSum | src/services/api.ts:176-188 | the mock waste total is the sum of its category amounts |
| Api.MockWarningsAreFlaggedModules | src/services/api.ts:156-174 | the mock station's warning count equals the number of flagged modules |
| Backend.Arg | backend/app.py:86-88 | a query argument is present exactly when it was sent |
| Backend.SearchQuery | backend/app.py:93-98 | exact `item_id` exactly when itemId is given, case-insensitive `name` pattern exactly when itemName is given, no other key |
| Backend.LogsQuery | backend/app.py:227-240 | always the inclusive range on `timestamp`; an exact filter for each of itemId, userId, actionType exactly when given; no other key |
| Backend.ReplaceZ | backend/app.py:224-225 | no 'Z' remains; a string without 'Z' is unchanged |
| Backend.ReplaceZOfChar | backend/app.py:224-225 | "Z" becomes "+00:00" and every other single character stays |
| Backend.ReplaceZCons | backend/app.py:224-225 | a string is replaced as its first character followed by the replaced rest |
| Backend.ReplaceZConcat | backend/app.py:224-225 | a concatenation is replaced piece by piece |
| Backend.UtcSuffixBecomesOffset | backend/app.py:224-225 | a timestamp ending in the UTC designator 'Z' gets the offset "+00:00" in its place |
| Backend.RetrievalDocs | backend/app.py:105-113 | one retrieval entry per result, in order, by the searching user, at the result's `module/section` |
| Backend.RetrievalDocsSplit | backend/app.py:105-113 | logging one more result appends exactly its entry |
| Backend.Serialized | backend/app.py:247-249 | a datetime timestamp is replaced by its `isoformat` string and every other field keeps its value; a document without a timestamp is kept; it fails exactly when the stored timestamp is not a datetime |
| Backend.SerializedAll | backend/app.py:246-249 | each converted result is exactly the conversion of the stored one, in order, with the same keys and a string timestamp |
| Backend.SerializeTimestamps | backend/app.py:246-249 | succeeds exactly when every result converts, with exactly the converted results |
| Backend.ImportCounts | backend/app.py:196-198 | added is the floor of three quarters, updated the floor of a quarter; together never more than processed |
| Backend.ImportCountsShortfall | backend/app.py:196-198 | added plus updated is one short of processed unless the row count is a multiple of four |
| Backend.ImportItems | backend/app.py:176-207 | the three 400 errors in their order; 500 for an unreadable `.csv` file; 200 exactly for a readable `.csv` file, with the row count processed, three quarters of it (rounded down) added and a quarter updated, no errors and no warnings |
| Backend.MockImportMatchesService | src/services/api.ts:119-129 | the front end's mock summary (success, 24, 18, 6) is the service's answer to a readable CSV file of 24 rows |
| Backend.Database.constructor | backend/app.py:18-31 | the availability flag, and an empty log collection |
| Backend.Database.LogActivity | backend/app.py:34-47 | one activity document appended when the collection is available, nothing otherwise |
| Backend.Database.SearchItems | backend/app.py:82-127 | 400 without itemId and itemName; the demo items when the collection is missing; otherwise the found items, with one retrieval log per item when userId is given |
| Backend.Database.GetLogs | backend/app.py:210-263 | 400 without both dates; with both, 200 exactly when both parse and every found timestamp converts, and 500 otherwise; the demo logs when the collection is missing, otherwise the converted results |
| ImportExport.ProgressStep | src/pages/ImportExport.tsx:36-44 | five more below 95, unchanged from 95 |
| ImportExport.StepKeepsReachable | src/pages/ImportExport.tsx:36-44 | a step keeps the progress a multiple of 5 up to 95, or 100 |
| ImportExport.TicksFromZero | src/pages/ImportExport.tsx:36-44 | after k runs from 0 the progress is 5k capped at 95 |
| ImportExport.TicksStayBelowComplete | src/pages/ImportExport.tsx:36-44 | the interval alone never reaches 100 |
| ImportExport.StatusText | src/pages/ImportExport.tsx:146-148 | "Processing complete!" exactly at 100 or more |
| ImportExport.ImportPage.constructor | src/pages/ImportExport.tsx:13-15 | not uploading, progress 0, no results |
| ImportExport.ImportPage.HandleFileChange | src/pages/ImportExport.tsx:18-44 | no file changes nothing; a name without `.csv` only toasts; a CSV starts the upload at 0 with the interval running |
| ImportExport.ImportPage.Tick | src/pages/ImportExport.tsx:36-44 | the progress takes one step; the interval stays installed exactly while the progress was below 95 |
| ImportExport.ImportPage.Complete | src/pages/ImportExport.tsx:51-66 | interval cleared, progress 100, the mock results recorded, the success toast |
| ImportExport.ImportPage.FinishUpload | src/pages/ImportExport.tsx:67-69 | the upload is over, nothing else changes |
| ImportExport.ImportPage.Fail | src/pages/ImportExport.tsx:76-86 | interval cleared, progress 0, upload over, the failure toast |
| StorageEfficiency.EfficiencyColor | src/pages/StorageEfficiency.tsx:21-25 | green, yellow, red exactly for 80 and over, 65 to 79, under 65 |
| StorageEfficiency.StatusLabel | src/pages/StorageEfficiency.tsx:159-165 | "Optimal", "Adequate", "Needs attention" exactly in those three bands |
| StorageEfficiency.OverallMessage | src/pages/StorageEfficiency.tsx:80-84 | the three messages exactly in those three bands |
| StorageEfficiency.BandMonotone | src/pages/StorageEfficiency.tsx:21-25 | a higher value never lands in a worse band |
| StorageEfficiency.DisplaysAgree | src/pages/StorageEfficiency.tsx:159-165 | colour, status label and overall message agree on every value |
| StorageEfficiency.ChartData | src/pages/StorageEfficiency.tsx:28-31 | one bar per module, in order, with its name and efficiency |
| StorageEfficiency.MockOverallIsGood | src/pages/StorageEfficiency.tsx:80-84 | the mock overall efficiency reads as good |
| CrossSection.OccupancyColor | src/components/iss/CrossSection.tsx:19-23 | the three colours exactly for above 85, 71 to 85, and 70 and below |
| CrossSection.ModuleRect | src/components/iss/CrossSection.tsx:53-57 | 80 apart from x = 200, even indices on the upper row and odd ones on the lower |
| CrossSection.RectsDoNotOverlap | src/components/iss/CrossSection.tsx:53-57 | a later module's rectangle lies strictly to the right of an earlier one |
| CrossSection.ModuleFill | src/components/iss/CrossSection.tsx:58 | the striped pattern exactly for a module with a warning |
| CrossSection.Indicator | src/components/iss/CrossSection.tsx:81-86 | the dot is orange exactly for a warning, green otherwise |
| CrossSection.IndicatorInsideModule | src/components/iss/CrossSection.tsx:81-86 | the dot lies wholly inside its module's rectangle |
| CrossSection.ModulesFitView | src/components/iss/CrossSection.tsx:35-57 | up to ten modules fit inside the 1000 x 400 view box |
| CrossSection.MockStationFitsView | src/components/iss/CrossSection.tsx:51-57 | every module of the mock station fits the view box |
| CrossSection.OverlayOccupancyClass | src/components/iss/CrossSection.tsx:117 | the figure is highlighted exactly above 85 |
| CrossSection.OverlayStatus | src/components/iss/CrossSection.tsx:125-128 | the warning line exactly for a flagged module |
| CrossSection.AttentionMessage | src/components/iss/CrossSection.tsx:164-168 | "Modules need attention" exactly when there are warnings |
| CrossSection.WarningIsNotTheCriticalBand | src/services/api.ts:165 | the mock Zarya module is flagged while its occupancy is not critical: orange dot, unhighlighted figure |
| CrossSection.CrossSectionView.constructor | src/components/iss/CrossSection.tsx:15 | no module selected |
| CrossSection.CrossSectionView.Select | src/components/iss/CrossSection.tsx:61 | the clicked module becomes the selection |
| CrossSection.CrossSectionView.Close | src/components/iss/CrossSection.tsx:106 | the selection is cleared |
| LogsPage.Spread | src/pages/Logs.tsx:59-61 | a filter reaches the parameters exactly when it is truthy |
| LogsPage.ActionColor | src/pages/Logs.tsx:113-126 | the colour of each of the four actions, gray for any other |
| LogsPage.ActionColorsDistinct | src/pages/Logs.tsx:113-126 | the four actions have four different colours, none of them gray |
| LogsPage.ActionLabel | src/pages/Logs.tsx:300 | the action with its first letter upper-cased |
| LogsPage.LogsView.constructor | src/pages/Logs.tsx:35-41 | the last seven days, no filters, no rows, not loading |
| LogsPage.LogsView.SetDates | src/pages/Logs.tsx:36-37 | the two dates, either possibly cleared; nothing else changes |
| LogsPage.LogsView.SetFilters | src/pages/Logs.tsx:38-40 | the three filters; nothing else changes |
| LogsPage.LogsView.HandleSearch | src/pages/Logs.tsx:43-64 | without both dates only the toast; otherwise loading, both ISO dates, and each filter exactly when truthy |
| LogsPage.LogsView.CompleteSearch | src/pages/Logs.tsx:67-80 | the eight mock rows, loading over |
| LogsPage.LogsView.FailSearch | src/pages/Logs.tsx:81-88 | rows kept, loading over, the error toast |
| LogsPage.LogsView.HandleDownload | src/pages/Logs.tsx:91-104 | the "nothing to download" toast exactly when the button is disabled (no rows), the download toast otherwise |
| LogsPage.LogsView.ResetFilters | src/pages/Logs.tsx:231-237 | the dates become the seven days before the click and the click itself, the three filters are cleared; rows and loading kept |
| LogsPage.ResetSendsOnlyDates | src/pages/Logs.tsx:43-64 | whatever dates and filters were set before, a search after a reset at `now` sends exactly the last seven days and no filter, with no toast |
| CargoCategorization.ParseWeight | src/pages/CargoCategorization.tsx:124 | absent exactly for an empty field, otherwise the parsed number (possibly NaN) |
| CargoCategorization.DimensionsOf | src/pages/CargoCategorization.tsx:129-136 | dimensions exactly when there are three pieces and each trims to a number, with those numbers in order |
| CargoCategorization.ParseDimensions | src/pages/CargoCategorization.tsx:128-137 | absent for an empty field; otherwise checked on the pieces between `x`s |
| CargoCategorization.SplitOfThree | src/pages/CargoCategorization.tsx:130 | three `x`-free pieces joined by `x` split back into exactly those pieces |
| CargoCategorization.ParseDimensionsOfJoin | src/pages/CargoCategorization.tsx:128-137 | `a x b x c` with parseable pieces comes back as those three numbers |
| CargoCategorization.FourPiecesAreRejected | src/pages/CargoCategorization.tsx:129-130 | a fourth piece makes the dimensions absent |
| CargoCategorization.BuildPayload | src/pages/CargoCategorization.tsx:139-144 | type and priority as entered, weight and dimensions as parsed |
| CargoCategorization.PayloadIgnoresNameAndFrequency | src/pages/CargoCategorization.tsx:139-144 | the item name and access frequency never reach the payload |
| CargoCategorization.DefaultFormPayload | src/pages/CargoCategorization.tsx:60-69 | the default form sends no weight and no dimensions, at medium priority |
| CargoCategorization.ConfidenceClass | src/pages/CargoCategorization.tsx:410 | the success colour exactly above 85 |
| CargoCategorization.MockConfidenceIsHigh | src/services/api.ts:29-42 | the mock recommendation's confidence shows in the success colour |
| CargoCategorization.CargoPage.constructor | src/pages/CargoCategorization.tsx:54-58 | empty query, no results, no recommendation, nothing in flight |
| CargoCategorization.CargoPage.SetSearchQuery | src/pages/CargoCategorization.tsx:54 | the query, nothing else |
| CargoCategorization.CargoPage.HandleSearch | src/pages/CargoCategorization.tsx:84-96 | a blank query only toasts; otherwise searching starts and the untrimmed query is sent |
| CargoCategorization.CargoPage.CompleteSearch | src/pages/CargoCategorization.tsx:99-106 | the three mock rows, searching over |
| CargoCategorization.CargoPage.FailSearch | src/pages/CargoCategorization.tsx:107-115 | results kept, searching over, the error toast |
| CargoCategorization.CargoPage.OnSubmit | src/pages/CargoCategorization.tsx:119-146 | submitting starts and the payload is `BuildPayload` of the form |
| CargoCategorization.CargoPage.CompleteSubmit | src/pages/CargoCategorization.tsx:149-168 | the mock recommendation, submitting over |
| CargoCategorization.CargoPage.FailSubmit | src/pages/CargoCategorization.tsx:169-177 | recommendation kept, submitting over, the error toast |
| WasteManagement.GetTrendIcon | src/pages/WasteManagement.tsx:108-112 | up (red) exactly for increasing, down (green) exactly for decreasing, the yellow minus otherwise |
| WasteManagement.PieChartData | src/pages/WasteManagement.tsx:99-102 | one slice per category, in order, named by type and sized by amount |
| WasteManagement.SlicesSumToTotal | src/pages/WasteManagement.tsx:99-102 | the slices add up to the categories' total |
| WasteManagement.MockSlicesSumToTotal | src/services/api.ts:176-188 | the mock slices add up to the reported total |
| WasteManagement.CellColor | src/pages/WasteManagement.tsx:150 | a palette entry, cycling with the index |
| WasteManagement.NeighboursDiffer | src/pages/WasteManagement.tsx:105 | neighbouring slices never share a colour |
| WasteManagement.MockCategoriesColouredApart | src/pages/WasteManagement.tsx:149-151 | the five mock categories get five different colours |
| WasteManagement.WastePage.constructor | src/pages/WasteManagement.tsx:49-61 | not submitting, the default form |
| WasteManagement.WastePage.Edit | src/pages/WasteManagement.tsx:53-61 | the entered values, submitting kept |
| WasteManagement.WastePage.BeginSubmit | src/pages/WasteManagement.tsx:75-77 | submitting starts, the form is kept |
| WasteManagement.WastePage.SettleSubmit | src/pages/WasteManagement.tsx:78-95 | on success the toast and the reset to the defaults; on failure the error toast with the form kept; submitting ends either way |
| Scenarios.VisitorWithoutSession | src/components/auth/RequireAuth.tsx:11-19 | once initialisation finds no session, the guard redirects to /login remembering the page, and so does the layout |
| Scenarios.SignInThroughForm | src/pages/Login.tsx:30-38 | when `login` settles before the listener runs: the form navigates to the dashboard while the layout still redirects, also while the listener awaits the profile; the shell appears only when the profile query settled |
| Scenarios.RejectedSignIn | src/pages/Login.tsx:39-45 | an `error` result: no navigation, the store's and the form's failure toasts, still no user |
| Scenarios.SignOut | src/contexts/AuthContext.tsx:210-232 | when `logout` settles before the listener runs: the shell remains after `logout`; the redirect comes with the listener's signed-out call |
| Scenarios.LogSearchReachesLogsMock | src/pages/Logs.tsx:56-64 | the log page's default search is answered with the mock log records |

## Left out

- Rendering: JSX, styling, icons, charts, dialogs and the form libraries' widgets. Only the values the code computes for them are modelled (class names, labels, chart rows, geometry).
- Toasts are values returned by the handlers. The toast queue and its display are not modelled.
- Supabase, `fetch` and MongoDB are not modelled. Their answers are parameters of the steps that receive them.
- The clock is a parameter: `datetime.utcnow()`, `new Date()`, `Date.now()`.
- `datetime.fromisoformat`, `isoformat`, `toISOString` and `parseFloat` are parameters. `parseFloat` maps into an abstract number type with NaN.
- Timers and interleavings: each callback is a step that a caller may run in any order. Races between overlapping requests are not explored.
- AuthContext.AuthProvider.StoreExistingSession: a rejected `getSession` is not modelled. `initializeAuth` is not awaited, so in the source `isLoading` then stays true until the listener's first call.
- The auth listener's unsubscribe is never called in the source. It is returned from `initializeAuth` rather than from the effect, so it has no counterpart here.
- `refreshProfile` reads `user` from the render that created it, a React closure. The model reads the current field, and takes the call as one step: nothing changes before its `await`, and a user change during the query is not modelled.
- Several `catch` branches cannot be reached, because the awaited code cannot throw: `handleRequest`'s "Network error", the page handlers' `catch` blocks after mock calls, and ImportExport's `catch`. They are kept as steps of their own (`Fail`, `FailSearch`, `FailSubmit`) so that their effect is stated.
- Api.SearchItems: the query string is not percent-encoded.
- Api.QueryString: `URLSearchParams` percent-encodes keys and values (a space becomes `+`, `&` and `=` are escaped); the model joins them unencoded, so `Api.QueryStringSplits` needs values without `&`.
- Api.GetLogs: the query string is not percent-encoded. The dispatch lemmas therefore take a query without '/', as an encoded one is.
- LogsPage.LogsView.ResetFilters: the source reads the clock twice (`Date.now()` and `new Date()`); the model takes one reading `now` for both.
- The log page's search button being disabled while loading is not modelled.
- Api.ImportItems: the 1.5-second delay and the unread file are not modelled; only the fixed summary is.
- The request method, body, `API_BASE_URL` and headers are ignored by the mock, so they are not modelled.
- Backend: Flask routing, `jsonify`, CORS and logging are left out. So are the placement, waste-identification and day-simulation endpoints, which are fixed responses outside the search/logs/import core.
- Backend.Database: the connection is the flag `connected`. The source tests `db`, `cargo_collection` and `logs_collection` for truthiness; the model reads each test as that flag. pymongo refuses truth-value tests on these objects, and that behaviour is not modelled.
- Backend.Database.SearchItems: a failing `find` is not modelled (it is an uncaught database error answered with 500). Only the answered cases are stated. One clock reading `now` stamps every retrieval entry, where the source reads `datetime.utcnow()` once per inserted entry.
- Backend.Database.GetLogs: the 500 answers are modelled for an unparseable date and for a stored timestamp that is not a datetime. Database errors are not modelled.
- Backend.ImportItems: pandas' CSV reading is reduced to a row count, or `None` when the file cannot be read.
- Backend.ImportCounts: `int(n * 0.75)` and `int(n * 0.25)` are computed with double-precision floats in the source and with exact integer division here. They agree while `3n` stays below 2^53.
- Base.Capitalize: upper-cases ASCII letters only; `toUpperCase` on other scripts is not modelled.
- LogsPage.ActionLabel: upper-cases ASCII letters only, through `Base.Capitalize`.
- JavaScript numbers (occupancy, efficiency, confidence, dates in milliseconds) are modelled as integers. Fractional values are not modelled.
- ImportExport's `handleDownloadTemplate` and `handleDownloadData` only raise a toast and are not modelled.
- Logs' date formatting with `date-fns` is not modelled.
- The presentational files are not part of this model: App.tsx routing, LandingPage, Dashboard, ModuleDetails, NotFound, UserProfile, Sidebar, TopBar, and the layout table in moduleLayout.ts.
