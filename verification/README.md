# A verified model of the more-tech-ai-hr recruiting platform

The platform has three parts:

- A React frontend. HR users publish vacancies and applicants apply to them.
- A FastAPI backend. It stores users, vacancies, applications and meetings, and asks a language model to score CVs.
- A set of Python voice-interview agents. They run an interview through a chatbot, with speech recognition and speech synthesis.

This project models the deterministic core of all three parts in Dafny and proves what the code promises about it. The model covers:

- the state the frontend keeps;
- the decisions the backend services and endpoints make;
- the text, audio and stream handling of the interview agents.

Language models, speech models, databases, HTTP clients, hashing and token signing are not modelled. Their replies are parameters of the model.

Modules follow the repository's files, one module per core file:

- **Frontend**
  - `Store` (`store.dfy`): the zustand store. It holds login and registration over the preset users, add / update / delete of vacancies, and the copy of the signed-in user in localStorage.
  - `Routing`: the route table, ranked as React Router ranks routes, with its role guards.
  - `HomePage`: search and status filtering, paging with page links, the table row, and the current page as React state.
  - `Toasts` (`use_toast.dfy`): the toast hook with its module-wide id counter.
  - `ApiConfig`: the axios default header kept in step with the stored token, and the 401 interceptor.
  - `Utils`: `capitalizeFirst`.
  - `Browser`: localStorage, as an object.
- **Backend**
  - `Db`: rows and tables.
  - `Security`: token claims, the current user and the role guards.
  - `AuthService`: registration and sign-in.
  - `HrHelpers`, `HrService` and `HrRouter`: the vacancy API.
  - `UserService` and `UserRouter`: profiles and resume upload and download.
  - `ApplicantService`: the applicant's views.
  - `InterviewService`: VideoSDK headers, rooms, meetings and interview results.
  - `CvEstimator`: JSON extraction and normalisation of the model's CV scores.
  - `Migrations`: the status CASE mappings of two schema migrations.
  - `Http`: status codes.
  - `PyJson`: JSON values as `json.loads` returns them.
- **Interview agents**
  - `Chatbot`: the interview chatbot and its system prompt.
  - `GroqTts` (`groq_tts_fixed.dfy`): the Groq speech plugin.
  - `MainLocal`: the local transcriber and synthesizer wrappers.
  - `CartesiaSafeWrapper`: text validation and lazy client reset.
  - `GroqLlm`: the Groq chat plugin, with its tool-call stream and the OpenAI alias.
  - `InterviewConfigs`: the interview configurations.
  - `Sentences`: the sentence scanner shared by both synthesizers.
  - `Chunking`: zero-padded fixed-size chunks.
- **Shared helpers**: `Wrappers`, `Strings` and `Seqs`.

The code is modelled in the form it takes:

- An object whose fields are updated becomes a class. This covers the store, the toast hook, the axios client, the home page's current page, the chatbot, the speech wrappers and the LLM plugin.
- A loop becomes a method. Each such method is proved equal to a specification function, and the properties are proved about that function.
- Pure mappings become functions with lemmas.

Three facts about the code shape the model:

- The store in `frontend/src/App/store/index.js` is the mock version. It holds a preset user list and a local vacancy list with add / update / delete, and it does not call the backend API. It is modelled as written.
- `backend/src/api/hr/router.py` imports schema names that `hr/schemas.py` does not define.
- `hr/service.py` passes `prompt=""` while `hr/helpers.py` assigns `promt`.

In both backend cases, the columns are modelled the way `hr/helpers.py` uses them.

## Model

| member | source | states |
|---|---|---|
| Store.FindUser | frontend/src/App/store/index.js:42 | login's lookup: nothing is found exactly when no user has both the email and the password; otherwise the first such user is found |
| Store.FindByEmail | frontend/src/App/store/index.js:57 | register's lookup finds a user exactly when the email is in use, and that user has the email |
| Store.EmailLocalPart | frontend/src/App/store/index.js:66 | `email.split('@')[0]`: a prefix of the email without '@', followed by '@' unless it is the whole email |
| Store.NextVacancyId | frontend/src/App/store/index.js:300-304 | the new id is at least 1, above every existing id, and is 1 or one more than some existing id |
| Store.ApplyPatch | frontend/src/App/store/index.js:311 | `{ ...v, ...updates }`: the patch's vacancyId, when it has one, replaces the id; the fields are the union, the patch's values winning and the others kept |
| Store.UpdateById | frontend/src/App/store/index.js:309-313 | the list keeps its length; entries with another id are unchanged; entries with the id get the update merged over them |
| Store.DeleteById | frontend/src/App/store/index.js:315-317 | filter keeps every vacancy with another id, with its multiplicity, and none with the id; every remaining entry was in the list |
| Store.DeleteByIdSnoc | frontend/src/App/store/index.js:315-317 | filter keeps the order: a vacancy more at the end stays at the end, or is dropped when it has the id |
| Store.InitialUser | frontend/src/App/store/index.js:5-16 | a missing or empty saved user starts signed out with nothing removed; the saved text is removed exactly when it is non-empty and fails to parse, and then nobody is signed in; text that parses gives the parsed user |
| Store.SessionRestores | frontend/src/App/store/index.js:5-16 | a user saved by login or register is restored unchanged at the next start |
| Store.LogoutRestoresNothing | frontend/src/App/store/index.js:320-327 | after logout removes the saved user, start-up restores nobody |
| Store.PresetUsers | frontend/src/App/store/index.js:23-38 | two preset accounts, one "hr" and one "applicant", with distinct emails |
| Store.PresetVacancies | frontend/src/App/store/index.js:82-155 | eight preset vacancies with ids 1 to 8 in order, all "active", so their ids are distinct |
| Store.AddKeepsIdsUnique | frontend/src/App/store/index.js:299-307 | adding a vacancy keeps vacancy ids unique |
| Store.DeleteKeepsIdsUnique | frontend/src/App/store/index.js:315-317 | deleting keeps vacancy ids unique |
| Store.DeleteRemovesOne | frontend/src/App/store/index.js:315-317 | with unique ids, delete removes exactly one entry when the id exists and none otherwise |
| Store.UpdateKeepsIds | frontend/src/App/store/index.js:309-313 | an update without a vacancyId property keeps every id |
| Store.UpdateMissingIsIdentity | frontend/src/App/store/index.js:309-313 | updating an absent id leaves the list unchanged |
| Store.AppStore.constructor | frontend/src/App/store/index.js:18-38 | the store starts with the preset users and vacancies and the user restored from localStorage; corrupt saved text is removed |
| Store.AppStore.SetUser | frontend/src/App/store/index.js:20 | only the current user changes |
| Store.AppStore.Login | frontend/src/App/store/index.js:41-53 | success exactly when some user has both the email and the password; then the user without password becomes current and is saved; on failure the error message is returned and user and storage are unchanged |
| Store.AppStore.Register | frontend/src/App/store/index.js:56-81 | a used email fails and changes nothing; otherwise exactly one applicant, named after the part of the email before '@', is appended, signed in and saved, and emails stay unique |
| Store.AppStore.AddVacancy | frontend/src/App/store/index.js:299-307 | the vacancy is appended with id max+1, overriding any id of its own; users and user are unchanged |
| Store.AppStore.UpdateVacancy | frontend/src/App/store/index.js:309-313 | the list becomes UpdateById of the old list |
| Store.AppStore.DeleteVacancy | frontend/src/App/store/index.js:315-317 | the list becomes DeleteById of the old list |
| Store.AppStore.Logout | frontend/src/App/store/index.js:320-327 | the saved user is removed and nobody is signed in; users and vacancies are unchanged |
| Store.RegisterThenLogin | frontend/src/App/store/index.js:41-81 | a user who registered can then log in with the same email and password |
| Store.RegisterKeepsEmailsUnique | frontend/src/App/store/index.js:56-75 | appending a user with a fresh email keeps emails unique |
| Routing.Match | frontend/src/App/Routing.jsx:75-150 | the empty pattern matches exactly the empty path; the lemmas below characterise the rest |
| Routing.SplatAt | frontend/src/App/Routing.jsx:75-150 | the position of the first splat: every segment before it is a static or dynamic segment |
| Routing.MatchIff | frontend/src/App/Routing.jsx:75-150 | a pattern matches a path exactly when the path has one segment per pattern segment (at least one per segment before the splat, when there is one) and each static segment before the splat equals its path segment ignoring case |
| Routing.MatchParam | frontend/src/App/Routing.jsx:75-150 | a dynamic segment before the splat captures its own path segment under its name, the first use of a name winning |
| Routing.MatchSplat | frontend/src/App/Routing.jsx:75-150 | a splat captures the rest of the path, joined with "/", under "*" |
| Routing.MatchKeys | frontend/src/App/Routing.jsx:75-150 | the captured names are exactly the names of the dynamic segments before the splat, plus "*" when there is a splat |
| Routing.Best | frontend/src/App/Routing.jsx:74-151 | the chosen route is in the table, matches the path, and no matching route of the table outscores it; no route is chosen only when none matches |
| Routing.Routes | frontend/src/App/Routing.jsx:74-151 | twelve routes: the index route first and only it an index route, the catch-all "*" route last and only it with a splat |
| Routing.ProtectedRoute | frontend/src/App/Routing.jsx:17-25 | a signed-in user passes; a signed-out visitor, and only they, is sent to /login |
| Routing.GuardAsWritten | frontend/src/App/Routing.jsx:27-53 | HRRoute and ApplicantRoute let through exactly the user of their own role; the others are redirected to /login, /hr or /applicant |
| Routing.Guarded | frontend/src/App/Routing.jsx:27-53 | the guards with the corrected redirect (Findings row 1): same pass condition as HRRoute and ApplicantRoute; when the role is "hr", "applicant" or nobody is signed in it redirects exactly as they do, and it only ever redirects to /login, /hr or /applicant |
| Routing.RoleBasedRedirect | frontend/src/App/Routing.jsx:55-69 | the index page sends "hr" to /hr, "applicant" to /applicant and everybody else to /login |
| Routing.ResolveAsWritten | frontend/src/App/Routing.jsx:17-151 | with the guards as written, the router redirects only to /login, /hr or /applicant and never renders the index page itself |
| Routing.Resolve | frontend/src/App/Routing.jsx:17-151 | with the corrected guards (Findings row 1), the router redirects only to /login, /hr or /applicant, never renders the index page itself, and shows the same as the router as written whenever nobody is signed in or the role is "hr" or "applicant" |
| Routing.SplatMatchesEverything | frontend/src/App/Routing.jsx:150 | the "*" route makes every pathname resolve to some route |
| Routing.RenderedPagesRespectRoles | frontend/src/App/Routing.jsx:80-145 | with the corrected guards (Findings row 1), a page behind an HR guard renders only for an "hr" user, one behind an applicant guard only for an "applicant" user |
| Routing.OpenRoutesArePublic | frontend/src/App/Routing.jsx:77-150 | the unguarded routes show only the index redirect, login, registration and the not-found page |
| Routing.SignedOutSeesPublicPages | frontend/src/App/Routing.jsx:17-150 | with the corrected guards (Findings row 1), a signed-out visitor can only be shown the login, registration or not-found page; signed out, the router as written shows the same |
| Routing.MatchShape | frontend/src/App/Routing.jsx:75-150 | a splat-free pattern matches only paths of its own length, and a leading static segment only a segment of the same length |
| Routing.TargetMatches | frontend/src/App/Routing.jsx:80-150 | /login, /hr and /applicant each match only their own route and the "*" route |
| Routing.RedirectTargetRenders | frontend/src/App/Routing.jsx:17-150 | with the corrected guards (Findings row 1), every redirect target renders a page for the user it is meant for |
| Routing.RedirectSettles | frontend/src/App/Routing.jsx:17-150 | with the corrected guards (Findings row 1), following one redirect always ends on a rendered page: no redirect chain or loop |
| Routing.SplatScore | frontend/src/App/Routing.jsx:150 | the "*" route has the lowest rank score, 1 |
| Routing.BestIs | frontend/src/App/Routing.jsx:74-151 | a matching route that strictly outscores every other matching route is the one chosen |
| Routing.BestForHome | frontend/src/App/Routing.jsx:80-129 | /hr is served by the HR home route and /applicant by the applicant home route |
| Routing.StaticOutranksDynamic | frontend/src/App/Routing.jsx:130-145 | /applicant/about shows the about page, not the vacancy page of "/applicant/:vacancyId" |
| Routing.RedirectLoopAsWritten | frontend/src/App/Routing.jsx:27-53 | with the guards as written a user of any other role bounces from /hr to /applicant and back |
| HomePage.Keep | frontend/src/Pages/HomePage/index.jsx:73-92 | the callback throws exactly when the name is truthy, the search is not blank and the name is not a string; otherwise it keeps the vacancy exactly when its name is truthy, it passes the status filter and, with a non-blank search, its lower-cased name contains the lower-cased query |
| HomePage.FilterOrThrow | frontend/src/Pages/HomePage/index.jsx:73-92 | Array filter with a throwing callback: it throws exactly when some element's callback throws; otherwise the result holds exactly the kept elements, each as often as in the input |
| HomePage.FilterOrThrowSnoc | frontend/src/Pages/HomePage/index.jsx:73-92 | filter keeps the order: one element more at the end throws when it or the earlier ones throw, and is otherwise kept at the end or dropped |
| HomePage.FilterVacancies | frontend/src/Pages/HomePage/index.jsx:73-92 | the filtered list holds exactly the vacancies that pass the search and status filters, each as often as in the list, and fails exactly when one vacancy's name makes the search throw |
| HomePage.FilterVacanciesSnoc | frontend/src/Pages/HomePage/index.jsx:73-92 | the filtered list keeps the list's order: a vacancy more at the end is kept at the end or dropped |
| HomePage.SearchIgnoresCase | frontend/src/Pages/HomePage/index.jsx:80 | a query and its lower-case form select the same vacancies |
| HomePage.BlankSearchKeepsNamed | frontend/src/Pages/HomePage/index.jsx:74-91 | with a blank search and the 'all' filter exactly the vacancies with a name are listed |
| HomePage.TotalPages | frontend/src/Pages/HomePage/index.jsx:94 | the page count is at least 1 and is the least number of six-item pages that holds every result |
| HomePage.PageSlice | frontend/src/Pages/HomePage/index.jsx:108-110 | a page shows at most six vacancies, and at least one when the page starts inside the list |
| HomePage.EveryVacancyOnItsPage | frontend/src/Pages/HomePage/index.jsx:94-110 | each filtered vacancy appears on page i/6+1, within the page count, at position i mod 6 |
| HomePage.PagesBeyondAreEmpty | frontend/src/Pages/HomePage/index.jsx:108-110 | a page past the page count shows nothing |
| HomePage.StatusText | frontend/src/Pages/HomePage/index.jsx:138-149 | "Неизвестно" is shown exactly for a status other than active, closed and stopped |
| HomePage.RowWithCount | frontend/src/Pages/HomePage/index.jsx:122-132 | the row carries the vacancy's id and five cells: the name or "Н/Д", the region or "Н/Д", the given count or "0", the two salary figures (each "0" when falsy) joined by " - ", and the status text |
| HomePage.CellOrZero | frontend/src/Pages/HomePage/index.jsx:126 | `${x || 0}`: a falsy field shows "0", a truthy one its text |
| HomePage.TableRowAsWritten | frontend/src/Pages/HomePage/index.jsx:125 | the responses cell reads the property "responces" |
| HomePage.TableRow | frontend/src/Pages/HomePage/index.jsx:122-132 | the responses cell shows the vacancy's "responses" count, or "0" when it has none |
| HomePage.ResponsesCellAsWritten | frontend/src/Pages/HomePage/index.jsx:125 | for the first preset vacancy the row as written shows 0 responses, the corrected row 1376 |
| HomePage.EmptyMessage | frontend/src/Pages/HomePage/index.jsx:215-220 | "Вакансии не найдены" is shown exactly when the search is blank and the filter is 'all' |
| HomePage.Range | frontend/src/Pages/HomePage/index.jsx:157-159 | the links of pages a..b, in order |
| HomePage.PageNumbers | frontend/src/Pages/HomePage/index.jsx:152-185 | up to five pages every page is linked, from 1 in order; beyond that six or seven links from page 1 to the last page, with at least one ellipsis |
| HomePage.GetPageNumbers | frontend/src/Pages/HomePage/index.jsx:152-185 | the loops build the link row that PageNumbers specifies |
| HomePage.PageNumbersWellFormed | frontend/src/Pages/HomePage/index.jsx:152-185 | for a page in range the link row has at most seven items, runs from page 1 to the last page, and has consecutive numbers and an ellipsis exactly where pages are skipped; the current page is always shown |
| HomePage.PageNumbersInRange | frontend/src/Pages/HomePage/index.jsx:152-185 | every page link points to an existing page |
| HomePage.Pager.constructor | frontend/src/Pages/HomePage/index.jsx:30 | the list starts on page 1 |
| HomePage.Pager.ResultsChanged | frontend/src/Pages/HomePage/index.jsx:97-99 | a change of result count, search or filter returns to page 1 |
| HomePage.Pager.Clamp | frontend/src/Pages/HomePage/index.jsx:102-106 | a current page past the last page becomes the last page; otherwise nothing changes |
| HomePage.Pager.Previous | frontend/src/Pages/HomePage/index.jsx:233 | the previous button moves back one page but not below page 1 |
| HomePage.Pager.Next | frontend/src/Pages/HomePage/index.jsx:256 | the next button moves on one page but not past the last page |
| HomePage.Pager.GoTo | frontend/src/Pages/HomePage/index.jsx:244 | a page link makes its page current and keeps the page in range |
| HomePage.Pager.Visible | frontend/src/Pages/HomePage/index.jsx:108-110 | while the page is in range a non-empty result list always shows a non-empty page of at most six |
| Toasts.Without | frontend/src/Shared/hooks/useToast.js:32 | the filter keeps exactly the toasts whose id differs from the given one |
| Toasts.WithoutConcat | frontend/src/Shared/hooks/useToast.js:24 | removing by id splits over concatenation, so the survivors keep their order |
| Toasts.WithoutAbsent | frontend/src/Shared/hooks/useToast.js:31-33 | dismissing an id that is not in the list leaves it unchanged |
| Toasts.WithoutIdempotent | frontend/src/Shared/hooks/useToast.js:31-33 | dismissing twice is the same as dismissing once |
| Toasts.WithoutKeepsIncreasing | frontend/src/Shared/hooks/useToast.js:24 | removal keeps the ids increasing along the list |
| Toasts.IncreasingDistinct | frontend/src/Shared/hooks/useToast.js:9 | ids handed out by the counter are pairwise distinct, so a dismiss removes at most one toast |
| Toasts.ToastCounter.constructor | frontend/src/Shared/hooks/useToast.js:3 | the module-wide counter starts at 0 |
| Toasts.ToastHook.constructor | frontend/src/Shared/hooks/useToast.js:6 | a new hook starts with no toasts and no pending timers |
| Toasts.ToastHook.ShowToast | frontend/src/Shared/hooks/useToast.js:8-29 | the new toast gets the counter's value as its id and the counter moves on; the toast is appended with the default variant and duration filled in, and a removal timer is scheduled exactly when its duration is positive |
| Toasts.ToastHook.Dismiss | frontend/src/Shared/hooks/useToast.js:31-33 | the toast with the given id is removed and nothing else changes |
| Toasts.ToastHook.Expire | frontend/src/Shared/hooks/useToast.js:23-25 | a timer that fires removes its own toast and is consumed |
| Toasts.ToastHook.Success | frontend/src/Shared/hooks/useToast.js:35-37 | a toast with variant "success" is appended, and its removal timer is scheduled exactly when its duration is positive |
| Toasts.ToastHook.Error | frontend/src/Shared/hooks/useToast.js:39-41 | a toast with variant "destructive" is appended, and its removal timer is scheduled exactly when its duration is positive |
| Toasts.ExpireRemovesOnlyItsToast | frontend/src/Shared/hooks/useToast.js:19-25 | a toast's timer removes that toast and leaves the older ones; another id's removal leaves it |
| ApiConfig.InitialHeaders | frontend/src/Api/config.js:5-11 | requests start with a JSON Content-Type and no Authorization header |
| ApiConfig.BearerValue | frontend/src/Api/config.js:16 | the Authorization value is "Bearer " followed by the token, unchanged |
| ApiConfig.ApiClient.constructor | frontend/src/Api/config.js:35-38 | at load time a stored truthy token is installed as the Bearer header, otherwise there is none; header and stored token agree afterwards |
| ApiConfig.ApiClient.SetAuthToken | frontend/src/Api/config.js:14-20 | a truthy token sets the Authorization header to its Bearer value; null or "" deletes the header; the other headers stay |
| ApiConfig.ApiClient.GetStoredToken | frontend/src/Api/config.js:22-24 | the token is read from localStorage under "access_token" |
| ApiConfig.ApiClient.SetStoredToken | frontend/src/Api/config.js:26-28 | only the "access_token" entry of localStorage changes, to the token |
| ApiConfig.ApiClient.RemoveStoredToken | frontend/src/Api/config.js:30-32 | only the "access_token" entry of localStorage is removed |
| ApiConfig.ApiClient.Intercept | frontend/src/Api/config.js:40-51 | a response passes through unchanged; a 401 error removes the stored token and the header and moves the browser to /login, after which header and storage agree; any other outcome changes nothing |
| Utils.CapitalizeFirst | frontend/src/lib/utils.js:9-12 | a non-string or empty value is returned unchanged; a string keeps its length, its first character is upper-cased and the rest lower-cased |
| Utils.UpperCharIdempotent | frontend/src/lib/utils.js:11 | upper-casing a character twice is upper-casing it once |
| Utils.CapitalizeFirstIdempotent | frontend/src/lib/utils.js:9-12 | capitalizing a capitalized value changes nothing |
| Utils.CapitalizeFirstSameLetters | frontend/src/lib/utils.js:9-12 | only the case changes: the result equals the input up to case |
| Db.FirstUserWith | backend/src/api/auth/service.py:9-10 | the user found has the email and is in the table; none is found exactly when no user has it |
| Db.FirstUserWithId | backend/src/api/auth/service.py:12-13 | the user found has the id and is in the table; none is found exactly when no user has it |
| Security.AccessTokenClaims | backend/src/core/security.py:20-27 | the token claims are the caller's data with "exp" set to now plus the lifetime in minutes, and every other claim is unchanged |
| Security.DecodeAccessToken | backend/src/core/security.py:29-36 | the payload is returned exactly for a valid token; an expired token gives "Token has expired", any other JWT error "Invalid token" |
| Security.GetCurrentUser | backend/src/core/security.py:38-49 | every failure is a 401; a user is returned only for a valid token whose "id" claim is that user's id |
| Security.KnownIdAuthenticates | backend/src/core/security.py:38-47 | a valid token whose id belongs to a stored user always authenticates as that user |
| Security.RequireHr | backend/src/core/security.py:51-54 | the user passes, unchanged, exactly when the role is "hr"; otherwise 403 |
| Security.RequireApplicant | backend/src/core/security.py:56-59 | the user passes, unchanged, exactly when the role is "applicant"; otherwise 403 |
| Security.CurrentHrUser | backend/src/core/security.py:38-54 | an authentication failure stays a 401; an authenticated user passes exactly when they are HR |
| Security.CurrentApplicantUser | backend/src/core/security.py:38-59 | an authentication failure stays a 401; an authenticated user passes exactly when they are an applicant |
| Security.GuardsExclusive | backend/src/core/security.py:51-59 | no user passes both role guards |
| AuthService.FirstUserWithAppended | backend/src/api/auth/service.py:9-10 | after a user with a new email is appended, looking that email up finds that user |
| AuthService.FirstUserWithKept | backend/src/api/auth/service.py:9-10 | appending a user does not change what an email already stored finds |
| AuthService.CreateUser | backend/src/api/auth/service.py:15-40 | a registered email is refused with 400 and nothing is written; otherwise the user row is added with the hashed password, plus exactly one empty profile row for an hr or applicant role; other tables are unchanged |
| AuthService.AuthenticateUser | backend/src/api/auth/service.py:42-47 | sign-in succeeds exactly when a user has the email and the password verifies against their hash, and returns that user |
| AuthService.GetUserInfo | backend/src/api/auth/service.py:49-53 | the user with the email, or 404 exactly when there is none |
| AuthService.RegisteredUserAuthenticates | backend/src/api/auth/service.py:15-47 | a just-registered user signs in with their password, and every other email signs in as before |
| HrHelpers.LatestMeeting | backend/src/api/hr/helpers.py:8 | the chosen meeting has the largest key `id or 0`, and no earlier meeting has that key (max keeps the first) |
| HrHelpers.FromMeetingStatus | backend/src/api/hr/helpers.py:10-17 | a meeting status always maps onto one of the five card statuses |
| HrHelpers.FromApplicationStatus | backend/src/api/hr/helpers.py:19-26 | an application status always maps onto one of the five card statuses |
| HrHelpers.MapApplicationStatus | backend/src/api/hr/helpers.py:4-26 | the card status is always one of the five |
| HrHelpers.NewestMeetingDecides | backend/src/api/hr/helpers.py:6-17 | a meeting newer than all others decides the card status, whatever the earlier meetings and the application say |
| HrHelpers.OlderMeetingIgnored | backend/src/api/hr/helpers.py:6-17 | adding a meeting no newer than the latest changes nothing |
| HrHelpers.MeetingsOverrideApplicationStatus | backend/src/api/hr/helpers.py:6-17 | while there is a meeting the application's own status plays no part |
| HrHelpers.ApplicationStatusTable | backend/src/api/hr/helpers.py:10-26 | the status tables: application reject gives rejected, approve approved, review and screening cvReview, result waitResult; meeting reject gives rejected, approve approved, cvReview cvReview, waitResult waitResult, waitPickTime and waitMeeting interview |
| HrHelpers.NullableBool | backend/src/api/hr/helpers.py:53 | NULL stays NULL; any other value becomes its truthiness |
| HrHelpers.VacancyToResponse | backend/src/api/hr/helpers.py:28-59 | the id, date and status are copied; a missing name or department becomes ""; responses counts the applications and responsesWithout counts those in "review" (so never more); exactly the other columns are passed through |
| HrHelpers.ResponsesWithoutBounds | backend/src/api/hr/helpers.py:37-38 | if all applications are in review, responsesWithout equals responses; if none are, it is 0 |
| HrHelpers.Assign | backend/src/api/hr/helpers.py:63-83 | the columns of one phase of the merge take their new value from the parsed document, and every other column is unchanged |
| HrHelpers.MergeBeforeColumn | backend/src/api/hr/helpers.py:63-76 | a column assigned before exp ends as that first assignment left it |
| HrHelpers.MergeKeepsOldWhenEmpty | backend/src/api/hr/helpers.py:63-69 | name, status, offerType and busyType take a non-empty parsed value, and keep their old value otherwise |
| HrHelpers.MergeBlanksEmpty | backend/src/api/hr/helpers.py:65-76 | the other text columns before exp take a non-empty parsed value, or "" |
| HrHelpers.MergeSuccess | backend/src/api/hr/helpers.py:77-83 | the merge fails exactly when int() rejects exp; on success exp is that integer (0 when empty), the flags are booleans and the later text columns take a non-empty parsed value or "" |
| HrHelpers.MergeStopsAtExp | backend/src/api/hr/helpers.py:77 | when int() rejects exp, exp and every column after it keep their old value |
| HrHelpers.MergeLeavesOthers | backend/src/api/hr/helpers.py:61-83 | a column the merge does not name (department) is untouched |
| HrHelpers.NewValueIdempotent | backend/src/api/hr/helpers.py:63-83 | taking a column's new value a second time changes nothing |
| HrHelpers.AssignFixed | backend/src/api/hr/helpers.py:63-83 | a phase whose columns already hold their new values leaves the columns unchanged |
| HrHelpers.AssignAgain | backend/src/api/hr/helpers.py:63-83 | assigning a phase twice is assigning it once |
| HrHelpers.MergeIdempotentOnError | backend/src/api/hr/helpers.py:63-77 | when exp is rejected, merging twice equals merging once |
| HrHelpers.MergeIdempotentOnSuccess | backend/src/api/hr/helpers.py:63-83 | when exp converts, merging twice equals merging once |
| HrHelpers.MergeIdempotent | backend/src/api/hr/helpers.py:61-83 | merging the same parsed document twice equals merging it once |
| HrHelpers.VacancyObject.constructor | backend/src/api/hr/helpers.py:61 | the object holds the row's id, owner, date and columns |
| HrHelpers.VacancyObject.ApplyMapped | backend/src/api/hr/helpers.py:61-83 | the in-place assignments leave the columns and the error as the merge function describes; owner and date are unchanged |
| Db.VacancyIndex | backend/src/api/hr/service.py:72-74 | the position of the vacancy with the key, the first one, or none exactly when no vacancy has it |
| HrService.AppsOf | backend/src/api/hr/service.py:119 | exactly the applications to the vacancy are listed, each as often as stored |
| HrService.AppsOfSnoc | backend/src/api/hr/service.py:119 | the listing keeps the table's order: a row more at the end is listed at the end or not at all |
| HrService.MeetingsOf | backend/src/api/hr/helpers.py:6 | exactly the meetings of the application are listed, each as often as stored |
| HrService.MeetingsOfSnoc | backend/src/api/hr/helpers.py:6 | the listing keeps the table's order: a row more at the end is listed at the end or not at all |
| HrService.ListedBeforeTotal | backend/src/api/hr/service.py:14 | any two vacancies are comparable in the order date desc, id desc |
| HrService.ListedBeforeTransitive | backend/src/api/hr/service.py:14 | the listing order is transitive |
| HrService.Insert | backend/src/api/hr/service.py:14 | inserting adds exactly the one row |
| HrService.InsertOrdered | backend/src/api/hr/service.py:14 | inserting into a list in listing order keeps it in listing order |
| HrService.SortForList | backend/src/api/hr/service.py:12-14 | the ordered table is a permutation of the table |
| HrService.SortForListOrdered | backend/src/api/hr/service.py:12-14 | the table is listed by date descending (NULL first), then id descending, and is a permutation of the table |
| HrService.Page | backend/src/api/hr/service.py:15-16 | OFFSET/LIMIT: the rows from offset on, at most limit of them, fewer when the table ends first |
| HrService.PagesTile | backend/src/api/hr/service.py:15-16 | two consecutive pages together are the page that spans both |
| HrService.GetVacancies | backend/src/api/hr/service.py:11-19 | at most limit entries; entry i is the API form of row offset+i in listing order, with that vacancy's applications |
| HrService.GetVacanciesOrdered | backend/src/api/hr/service.py:11-19 | the listed page is in listing order and every listed vacancy is in the table |
| HrService.HrProfileOf | backend/src/api/hr/service.py:24 | the profile found belongs to the user; none is found exactly when the user has none |
| HrService.CreationDefaults | backend/src/api/hr/service.py:32-58 | every column of a new vacancy starts with its default: active, TK, allTime, the profile's department, exp 0, both flags false, "" otherwise |
| HrService.CreateVacancy | backend/src/api/hr/service.py:23-67 | without an HR profile (or with profile id 0) nothing is written; an exp rejected by int() writes nothing; otherwise exactly one vacancy is appended, owned by the profile, dated now, with the defaults merged with the document, and its API form is returned; other tables are unchanged |
| HrService.InsertVacancy | backend/src/api/hr/service.py:31-67 | for a found profile: an exp rejected by int() stores nothing and is reported; otherwise exactly the vacancy owned by the profile, dated now, with the defaults merged with the document, is appended and its API form returned |
| HrService.CreatedVacancyStatus | backend/src/api/hr/service.py:37-61 | a new vacancy is active unless the document names a status, and keeps its profile's department |
| HrService.ChangeVacancy | backend/src/api/hr/service.py:71-85 | an unknown id is FileNotFoundError; an exp rejected by int() changes nothing; otherwise only that vacancy's columns change, to the merge of the document, and its API form is returned |
| HrService.MergeIntoVacancy | backend/src/api/hr/service.py:76-85 | for a stored vacancy, an exp rejected by int() changes nothing; otherwise only that vacancy's columns change, to the merge of the document, and its API form is returned |
| HrService.ChangeVacancyStatus | backend/src/api/hr/service.py:89-99 | an unknown id is FileNotFoundError; otherwise only that vacancy's status changes, and the new status is returned |
| HrService.NameParts | backend/src/api/hr/service.py:121-123 | at most the name and the surname, and only the non-empty ones |
| HrService.CandidateName | backend/src/api/hr/service.py:121-124 | the shown name is never empty: it is the stripped join of name and surname, or the placeholder |
| HrService.CandidateNamePlaceholder | backend/src/api/hr/service.py:121-124 | without a profile, or with a blank name and surname, "Кандидат" is shown |
| HrService.CandidateNameJoined | backend/src/api/hr/service.py:121-124 | a name and a surname without outer spaces are shown joined by one space |
| HrService.ApplicantProfileOf | backend/src/api/hr/service.py:120 | the profile found is the application's applicant's |
| HrService.EntryOf | backend/src/api/hr/service.py:120-137 | an entry carries the applicant id, a non-empty name, one of the five card statuses, and checked false |
| HrService.Entries | backend/src/api/hr/service.py:118-137 | one entry per application |
| HrService.EntriesAt | backend/src/api/hr/service.py:118-137 | entry i describes application i |
| HrService.BuildEntries | backend/src/api/hr/service.py:118-137 | the append loop builds exactly the entries, in order |
| HrService.GetVacancyDetail | backend/src/api/hr/service.py:103-140 | an unknown id is FileNotFoundError exactly; otherwise the vacancy's API form plus one entry per application, so the entry count equals the responses count |
| HrRouter.ListQuery | backend/src/api/hr/router.py:27-28 | the query is accepted exactly when offset >= 0 and 1 <= limit <= 200, with defaults 0 and 20; otherwise 422 |
| HrRouter.ListVacanciesEndpoint | backend/src/api/hr/router.py:25-32 | authentication and role failures pass through; with an HR user the list is returned exactly when the query is valid, holds at most limit vacancies, and is the service's page |
| HrRouter.CreateError | backend/src/api/hr/router.py:43-48 | a ValueError is a 400 and any other exception a 500, with the exception's text as detail |
| HrRouter.ChangeError | backend/src/api/hr/router.py:59-66 | FileNotFoundError is exactly the 404 "Vacancy not found"; ValueError is 400; anything else 500 |
| HrRouter.StatusError | backend/src/api/hr/router.py:77-84 | as for the update, but a 500's detail starts "Failed to change vacancy status: " |
| HrRouter.ChangeAndStatusAgree | backend/src/api/hr/router.py:43-84 | the update and status handlers give the same status code for every exception; the codes are 400, 404 or 500 (creation: 400 or 500) |
| HrRouter.ExpErrorsSplit | backend/src/api/hr/router.py:43-66 | an exp that int() rejects with ValueError is a 400, with TypeError a 500 |
| HrRouter.CreateVacancyEndpoint | backend/src/api/hr/router.py:36-48 | a non-HR caller fails before the service runs; a failure stores nothing and is a 401, 403, 400 or 500; success is 201 and appends exactly the new vacancy |
| HrRouter.ChangeVacancyEndpoint | backend/src/api/hr/router.py:52-66 | an unknown id is a 404; a failure changes nothing; only the vacancy with the id can change |
| HrRouter.ChangeVacancyStatusEndpoint | backend/src/api/hr/router.py:70-84 | an unknown id is a 404 and changes nothing; otherwise the reply echoes the new status, which that vacancy takes; no other vacancy changes |
| HrRouter.VacancyDetailEndpoint | backend/src/api/hr/router.py:88-97 | for an HR user, 404 exactly when no vacancy has the id; the detail has one entry per response |
| Db.HrProfileIndex | backend/src/api/user/service.py:18 | the position of the user's first HR profile, or none exactly when they have none |
| Db.ApplicantProfileIndex | backend/src/api/user/service.py:23 | the position of the user's first applicant profile, or none exactly when they have none |
| UserService.HrFields | backend/src/api/user/service.py:34-36 | the settable fields of an HR profile are exactly its columns |
| UserService.HrWithFields | backend/src/api/user/service.py:34-36 | writing fields back into an HR profile keeps its key and user and sets every column from the fields |
| UserService.ApplicantFields | backend/src/api/user/service.py:46-48 | the settable fields of an applicant profile are exactly its columns |
| UserService.ApplicantWithFields | backend/src/api/user/service.py:46-48 | writing fields back into an applicant profile keeps its key, user and cv and sets every column from the fields |
| UserService.FieldsRoundTrip | backend/src/api/user/service.py:34-48 | reading a profile's fields and writing them back gives the same profile |
| UserService.PatchKeeps | backend/src/api/user/service.py:34-36 | a field the update does not set, or that is not a column, keeps its value |
| UserService.PatchSets | backend/src/api/user/service.py:34-36 | a column the update sets takes the value it is set to |
| UserService.PatchIdempotent | backend/src/api/user/service.py:34-36 | applying the same update twice gives the fields of applying it once |
| UserService.PatchFields | backend/src/api/user/service.py:35-36 | the setattr loop gives the patched fields |
| UserService.PatchedHrFields | backend/src/api/user/service.py:29-40 | after an update each HR column the update sets has its new value and every other column, the key and the user are kept |
| UserService.PatchedApplicantFields | backend/src/api/user/service.py:41-52 | after an update each applicant column the update sets has its new value and every other column, the key, the user and the cv are kept |
| UserService.HrViewOf | backend/src/api/user/service.py:21 | the HR view shows the profile's own name parts, department and contacts |
| UserService.ApplicantViewOf | backend/src/api/user/service.py:26 | the applicant view shows the profile's own name parts, contacts, cv and summary |
| UserService.GetUserProfile | backend/src/api/user/service.py:16-26 | an hr user gets their HR profile, anyone else their applicant profile, or 404 with the matching message when it is missing |
| UserService.HrIndexAfterReplace | backend/src/api/user/service.py:30-39 | replacing the found HR profile by one of the same user keeps it the one found |
| UserService.ApplicantIndexAfterReplace | backend/src/api/user/service.py:42-51 | replacing the found applicant profile by one of the same user keeps it the one found |
| UserService.UpdateUserProfile | backend/src/api/user/service.py:28-52 | 404 exactly when the profile of the user's role is missing, and then nothing changes; otherwise only that profile is patched, and the reply is the profile as read afterwards |
| UserService.BaseName | backend/src/api/user/router.py:83 | the base name has no '/', ends the path, and is the whole path or follows a '/' |
| UserService.Suffix | backend/src/api/user/service.py:59 | Path.suffix: "" or a dot followed by non-dot characters that ends the name; "" exactly when no dot stands after the first character and before the last |
| UserService.StoredName | backend/src/api/user/service.py:68 | the stored name is the user id, "_", the hex token and the extension |
| UserService.JoinPath | backend/src/api/user/service.py:69 | the path ends with the name, preceded by '/' |
| UserService.CopyUpload | backend/src/api/user/service.py:71-88 | the chunked copy fails with 413 exactly when the upload exceeds 10 MiB, leaving the first 10 MiB in the file; otherwise the file holds the whole upload, which is what was hashed |
| UserService.Demote | backend/src/api/user/service.py:90-93 | the applicant's versions all lose the current flag, nothing else of any version changes, and other applicants' versions are untouched |
| UserService.NewVersionIsOnlyCurrent | backend/src/api/user/service.py:90-101 | after an upload the new version is the applicant's only current one, other applicants' versions are untouched, and at most one current version per applicant stays true |
| UserService.CommitResume | backend/src/api/user/service.py:90-104 | the applicant's versions are demoted, the new current version is appended and the profile's cv is the new path; no other table changes |
| UserService.SaveResume | backend/src/api/user/service.py:54-107 | 404 without an applicant profile and 415 for a disallowed extension, both before any write; 413 past 10 MiB leaving the partial file and no row changed; otherwise the file is stored whole, becomes the one current version, and the profile's cv |
| UserRouter.MediaType | backend/src/api/user/router.py:19-24 | the four allowed extensions have their media type, any other gets application/octet-stream |
| UserRouter.SplitExt | backend/src/api/user/router.py:80 | the extension is "" or starts with '.' and ends the path |
| UserRouter.GetMe | backend/src/api/user/router.py:26-31 | authentication failures pass through; otherwise the caller's own profile view |
| UserRouter.SchemaCheck | backend/src/api/user/router.py:39-49 | 422 exactly when an hr user sends other than HrUpdate or an applicant other than ApplicantUpdate |
| UserRouter.PutMe | backend/src/api/user/router.py:33-51 | authentication and schema failures change nothing; a success returns the profile as GET /me then shows it; failures are 401, 422 or 404 |
| UserRouter.UploadMyResume | backend/src/api/user/router.py:53-61 | only an applicant may upload (403 otherwise); a success is 201 and stores the resume; a failure changes no row |
| UserRouter.GetResume | backend/src/api/user/router.py:64-89 | 403 exactly when the caller is neither hr nor the owner; a file is served only when the profile names an existing cv path, under its base name and the media type of its lower-cased extension |
| UserRouter.BaseNameOfJoin | backend/src/api/user/router.py:83 | the base name of dir/name is name when name has no '/' |
| UserRouter.SplitExtOfJoin | backend/src/api/user/router.py:80 | the extension split off dir/stem+ext is ext |
| UserRouter.AllowedExtIsLower | backend/src/api/user/router.py:81 | an allowed extension is already lower case |
| UserRouter.StoredStem | backend/src/api/user/service.py:68 | the stored stem is not empty, does not start with ".", and holds no "/" |
| UserRouter.AllowedExtShape | backend/src/api/user/service.py:12 | an allowed extension is a dot followed by characters without '.' or '/' |
| UserRouter.StoredPath | backend/src/api/user/router.py:80-83 | a stored path splits back into the stored name and the extension it was stored with |
| UserRouter.UploadedResumeServed | backend/src/api/user/router.py:64-89 | a resume stored by an upload is served under its stored name with the media type of its extension, never octet-stream |
| ApplicantService.FirstApplication | backend/src/api/applicant/service.py:6 | the application found is the applicant's to the vacancy; none exactly when there is none |
| ApplicantService.FirstMeeting | backend/src/api/applicant/service.py:9 | the meeting found belongs to the application; none exactly when there is none |
| ApplicantService.VacancyOf | backend/src/api/applicant/service.py:10 | the vacancy is found exactly when the id is present and stored |
| ApplicantService.GetApplicationStatus | backend/src/api/applicant/service.py:4-19 | None exactly without an application; the vacancy data is present exactly when the vacancy exists; the meeting fields come from the first meeting, or are all null without one |
| ApplicantService.EntryOf | backend/src/api/applicant/service.py:25-31 | an entry copies the status, vacancy id and contacts; name and tribe are the vacancy's, or "Unknown" without one |
| ApplicantService.GetApplicantApplications | backend/src/api/applicant/service.py:21-33 | one entry per application of the applicant, in order |
| ApplicantService.FilterCounts | backend/src/api/applicant/service.py:23 | the applicant's applications number as many as the count says |
| ApplicantService.ApplicationsOnePerApplication | backend/src/api/applicant/service.py:21-33 | the list is as long as the applicant's applications, and empty exactly when they have none |
| ApplicantService.CountZero | backend/src/api/applicant/service.py:23 | the count is 0 exactly when no application is the applicant's |
| ApplicantService.StatusApplicationListed | backend/src/api/applicant/service.py:4-33 | an application the status view finds is one the list shows |
| InterviewService.LowerBearerPrefix | backend/src/api/interview/service.py:24 | a credential built with "Bearer " passes the case-insensitive "bearer " test |
| InterviewService.BearerCredential | backend/src/api/interview/service.py:23-24 | the credential always has the bearer prefix and ends with the stripped token; a token that already has the prefix is kept as it is |
| InterviewService.Credential | backend/src/api/interview/service.py:20-37 | each scheme sends the stripped token, behind the bearer prefix for the Bearer scheme |
| InterviewService.HeadersAsWritten | backend/src/api/interview/service.py:20-37 | refused exactly when the unstripped token is empty; otherwise the scheme's header with the credential, then the JSON content type |
| InterviewService.BlankTokenAccepted | backend/src/api/interview/service.py:21-37 | as written, a whitespace-only token passes and sends an empty credential (or a bare "Bearer ") |
| InterviewService.Headers | backend/src/api/interview/service.py:20-37 | the header builders with the corrected emptiness check (Findings row 5): refused exactly when the stripped token is empty; otherwise a non-empty credential ending with the stripped token, bearer-prefixed for the Bearer scheme |
| InterviewService.HeadersAgreeOnRealTokens | backend/src/api/interview/service.py:20-37 | for any token that is not blank the corrected headers equal the headers as written |
| InterviewService.BearerIdempotent | backend/src/api/interview/service.py:23-24 | making a Bearer credential out of a Bearer credential changes nothing |
| InterviewService.RoomId | backend/src/api/interview/service.py:53-55 | the room id is the first truthy of roomId, id and room_id, else the "Failed to obtain roomId" error |
| InterviewService.RoomIdPrefersRoomId | backend/src/api/interview/service.py:53 | a reply naming the room under roomId is used whatever its other keys say |
| InterviewService.CreateRoom | backend/src/api/interview/service.py:40-59 | with the header check as written (Findings row 5), only the empty token gives "room create failed" with the missing-token message; a failed request gives "room create failed" with its error; otherwise the room id of the reply and the playground link with the raw token and that meeting id |
| InterviewService.ApplicationById | backend/src/api/interview/service.py:63 | the application with the id, or none exactly when there is none |
| InterviewService.NewMeeting | backend/src/api/interview/service.py:67-74 | the meeting is linked to the application and its vacancy, waiting, with the join link and empty contact and calendar |
| InterviewService.PersistMeeting | backend/src/api/interview/service.py:62-78 | an unknown application is refused exactly and nothing is written; otherwise exactly one meeting is appended; other tables are unchanged |
| InterviewService.PersistedMeetingShownToApplicant | backend/src/api/interview/service.py:62-78 | an application's first meeting, once stored, is shown to the applicant waiting, with its join link |
| InterviewService.PersistedMeetingShownToHr | backend/src/api/interview/service.py:62-78 | a stored meeting newer than the others shows the application card as "interview" |
| InterviewService.SaveInterviewResults | backend/src/api/interview/service.py:103-127 | an unknown application is refused exactly and nothing is written; otherwise one interview row with history "{}", the recommendations as feedback, the strengths, weaknesses and verdict |
| CvEstimator.ExtractOuterJson | backend/src/ml/cv_estimator.py:60-66 | the text from the first '{' to the last '}', which lies inside the reply; it fails exactly when no '{' comes before a '}' |
| CvEstimator.ExtractFramed | backend/src/ml/cv_estimator.py:60-66 | a reply framed by text with no '{' before and no '}' after yields exactly the framed object |
| CvEstimator.ParseFailure | backend/src/ml/cv_estimator.py:73-77 | the failure result has empty criteria, the raw output and parse_error true |
| CvEstimator.ParseModelOutput | backend/src/ml/cv_estimator.py:69-77 | an unparseable reply yields the failure result; otherwise the object the extracted JSON decodes to |
| CvEstimator.WithRawOutput | backend/src/ml/cv_estimator.py:136-137 | raw_model_output is always present afterwards; a value the model sent is kept, otherwise the stripped reply is added |
| CvEstimator.ApiKey | backend/src/ml/cv_estimator.py:111-113 | a non-empty argument wins, else the environment's key; none exactly when both are absent or empty |
| CvEstimator.Items | backend/src/ml/cv_estimator.py:139-141 | iterating a list gives its items, a dict its keys, a string its characters; iterating null, a number or a boolean fails |
| CvEstimator.CleanStrings | backend/src/ml/cv_estimator.py:150-151 | only non-blank strings are kept, stripped |
| CvEstimator.StrItems | backend/src/ml/cv_estimator.py:152 | each string becomes a JSON string, in order |
| CvEstimator.CleanStringsKeepsClean | backend/src/ml/cv_estimator.py:150-151 | a list of clean strings passes through unchanged |
| CvEstimator.CleanStringsIdempotent | backend/src/ml/cv_estimator.py:150-151 | cleaning twice is cleaning once |
| CvEstimator.StringList | backend/src/ml/cv_estimator.py:150-151 | strengths or weaknesses (an empty list when absent) cleaned; fails exactly when the value is not iterable |
| CvEstimator.Score | backend/src/ml/cv_estimator.py:145-149 | the score lies in 0..100: int() of the value clamped, or 0 when int() fails |
| CvEstimator.CriteriaJson | backend/src/ml/cv_estimator.py:152-153 | one JSON object per criterion, in order |
| CvEstimator.NormalizeOne | backend/src/ml/cv_estimator.py:144-152 | a criterion has the stripped name, the clamped score and the cleaned lists; it fails exactly when either list is not iterable |
| CvEstimator.NormalizedScoresInRange | backend/src/ml/cv_estimator.py:139-153 | every normalised score lies in 0..100 |
| CvEstimator.NormalizeOkIff | backend/src/ml/cv_estimator.py:141-152 | normalising succeeds exactly when every dict entry normalises |
| CvEstimator.NormalizeKeepsDicts | backend/src/ml/cv_estimator.py:141-153 | on success there is one criterion per dict entry, in order, and non-dict entries are skipped |
| CvEstimator.NormalizeAt | backend/src/ml/cv_estimator.py:141-152 | one step of the loop: a non-dict is skipped, a failing dict stops it, a good dict adds its criterion |
| CvEstimator.NormalizeCriteria | backend/src/ml/cv_estimator.py:140-153 | the loop computes exactly the normalised criteria |
| CvEstimator.UnparseableResult | backend/src/ml/cv_estimator.py:133-153 | an unparseable reply gives the failure result with no criteria |
| CvEstimator.EvaluateCv | backend/src/ml/cv_estimator.py:108-154 | empty criteria and a missing key are refused first; a reply whose criteria do not normalise gives that error; on success the result is the parsed reply with its criteria replaced by the normalised ones, every other key unchanged, and raw_model_output the reply's own or the stripped reply |
| Migrations.UpgradeApplicationStatus | backend/src/migrations/versions/01c970b3edd6_upd_tables.py:69-78 | an old application label (review, screening, result, reject, approve) maps to a new label; anything else, NULL included, becomes NULL |
| Migrations.DowngradeApplicationStatus | backend/src/migrations/versions/01c970b3edd6_upd_tables.py:262-274 | a new application label maps back to an old label; anything else becomes NULL |
| Migrations.ApplicationStatusRoundTrip | backend/src/migrations/versions/01c970b3edd6_upd_tables.py:69-78 | downgrade after upgrade restores every old label and upgrade after downgrade restores every new label; NULL stays NULL |
| Migrations.ApplicationUpgradeInjective | backend/src/migrations/versions/01c970b3edd6_upd_tables.py:69-78 | two different old labels never upgrade to the same label |
| Migrations.UpgradeMeetingStatus | backend/src/migrations/versions/01c970b3edd6_upd_tables.py:121-127 | only reject and approve are renamed; every other value passes through; an old meeting label becomes a new one |
| Migrations.DowngradeMeetingStatus | backend/src/migrations/versions/01c970b3edd6_upd_tables.py:228-234 | only rejected and approved are renamed back; every other value passes through |
| Migrations.MeetingStatusRoundTrip | backend/src/migrations/versions/01c970b3edd6_upd_tables.py:121-127 | downgrade after upgrade restores every old meeting label and upgrade after downgrade every new one |
| Migrations.UpgradeVacancyStatus | backend/src/migrations/versions/657da183b25c_vacancy_status_enum_v2.py:34-39 | the result is active or closed, and closed exactly for found |
| Migrations.DowngradeVacancyStatus | backend/src/migrations/versions/657da183b25c_vacancy_status_enum_v2.py:65-70 | the result is hold or found, and found exactly for closed |
| Migrations.VacancyStatusRoundTrip | backend/src/migrations/versions/657da183b25c_vacancy_status_enum_v2.py:34-70 | hold and found survive a round trip, approve comes back as hold; active and closed survive the reverse round trip, stopped comes back as active |
| Migrations.VacancyUpgradeNotInjective | backend/src/migrations/versions/657da183b25c_vacancy_status_enum_v2.py:35-37 | hold and approve upgrade to the same label, so the upgrade loses information |
| Chatbot.BuildMessages | ml/chatbot.py:298-302 | the request is the system prompt, then the whole history in order, then the question |
| Chatbot.AlternatingPositions | ml/chatbot.py:83 | an alternating history has even length, with questions at even and answers at odd positions |
| Chatbot.AlternatingAppend | ml/chatbot.py:124-125 | appending a question and its answer keeps the history alternating |
| Chatbot.HistoryView | ml/chatbot.py:152-160 | one (role, content) pair per message, in order, with roles user, assistant and system |
| Chatbot.HistoryViewOfTurn | ml/chatbot.py:152-160 | the view of a history after a turn ends with the question as user and the answer as assistant |
| Chatbot.Texts | ml/chatbot.py:137-141 | only non-empty chunk texts are kept |
| Chatbot.FeedbackInstruction | ml/chatbot.py:201-220 | both the Russian and the English instruction ask for summary, strengths, weaknesses, recommendations, verdict and risk_notes, and list the four allowed verdicts |
| Chatbot.FeedbackRequest | ml/chatbot.py:201-226 | the feedback request is the system prompt, the history and the instruction, Russian exactly when the prompt reads as Russian |
| Chatbot.ParseErrorVerdict | ml/chatbot.py:239-247 | the fallback feedback has verdict parse_error |
| Chatbot.FinalFeedback | ml/chatbot.py:184-249 | no history gives the insufficient-data feedback; otherwise raw_model_output is the stripped reply, an unparseable reply gives verdict parse_error, and every other key comes from the parsed reply (or the parse-error feedback) |
| Chatbot.RawOutputSet | ml/chatbot.py:248 | setting raw_model_output leaves every other key as it was |
| Chatbot.ParsedFeedback | ml/chatbot.py:228-247 | the reply's outer JSON object when it parses, else the parse-error feedback |
| Chatbot.MarkerRemoved | ml/chatbot.py:285 | removing the marker never lengthens the answer and changes nothing when the marker is absent |
| Chatbot.Cleaned | ml/chatbot.py:285 | the cleaned answer ends in no whitespace and, without the marker, is the answer right-stripped |
| Chatbot.MarkerRemovedAtFirst | ml/chatbot.py:285 | with the marker present, everything before its first occurrence is kept and removal goes on after it |
| Chatbot.MarkerAtEndCleaned | ml/chatbot.py:282-288 | an answer ending in the marker (occurring nowhere earlier) contains it, and cleans to the text before it, right-stripped |
| Chatbot.MarkerLineCleaned | ml/chatbot.py:282-288 | an answer that is only the marker on its own line cleans to the empty string |
| Chatbot.GroqChatbot.constructor | ml/chatbot.py:82-88 | a new chat has the given prompt, an empty history, the default end marker and is not finalised |
| Chatbot.GroqChatbot.SetSystemPrompt | ml/chatbot.py:115-117 | only the system prompt changes |
| Chatbot.GroqChatbot.EnableAutoFinalize | ml/chatbot.py:261-274 | sets the marker, the save path and auto-finalise; nothing else changes |
| Chatbot.GroqChatbot.Finish | ml/chatbot.py:286-287 | the chat is finalised with the given feedback; the history is untouched |
| Chatbot.GroqChatbot.MaybeFinalize | ml/chatbot.py:282-289 | when auto-finalise is on, the chat is not finalised and the marker occurs, the chat is finalised with the feedback on the current history and the cleaned answer is returned; otherwise nothing changes and the answer is returned as is |
| Chatbot.GroqChatbot.Ask | ml/chatbot.py:119-128 | the question and the model's reply are appended to the history; the answer is the reply, cleaned exactly when finalisation fires |
| Chatbot.GroqChatbot.AskStream | ml/chatbot.py:130-150 | every non-empty chunk is yielded in order and their concatenation becomes the stored answer; one extra empty string follows exactly when auto-finalise is on, the chat was not finalised, the marker occurs and cleaning changes the answer; finalisation fires on the full answer |
| Chatbot.CollectTexts | ml/chatbot.py:136-141 | the loop over the stream collects exactly the non-empty chunk texts, in order |
| Chatbot.GroqChatbot.Record | ml/chatbot.py:124-125 | the question and the answer are appended to the history as a human and an assistant message; prompt, marker and finalisation state stay |
| Chatbot.GroqChatbot.StreamTurn | ml/chatbot.py:135-145 | the non-empty chunk texts of the stream for the built request are collected, and the question and their concatenation are appended to the history |
| Chatbot.GroqChatbot.FinishStream | ml/chatbot.py:146-150 | the history stays; the texts are yielded in order, followed by one empty string exactly when finalisation fires and cleaning changes the answer; when it fires on the concatenated answer the chat is finalised with the feedback on the history |
| Chatbot.GroqChatbot.ResetHistory | ml/chatbot.py:291-293 | the history is emptied; the prompt and finalisation state stay |
| Chatbot.GroqChatbot.GetHistory | ml/chatbot.py:152-160 | one (role, content) pair per message of the history, in order |
| Chatbot.FinalizedAnswersUntouched | ml/chatbot.py:283 | a finalised chat never finalises again |
| Chatbot.NewChatbot | ml/chatbot.py:89-93 | a chatbot is created exactly when the argument or the environment gives a non-empty key |
| Chatbot.CompetenciesText | ml/chatbot.py:327-329 | a non-empty list of competencies gives a bulleted block |
| Chatbot.CompetencyListed | ml/chatbot.py:327-329 | every competency given appears in its block |
| Chatbot.ResumeParts | ml/chatbot.py:330-334 | a non-empty resume is embedded in the prompt |
| Chatbot.MarkerParts | ml/chatbot.py:335-344 | the marker instruction names the marker when it is included |
| Chatbot.HeadParts | ml/chatbot.py:347-350 | the prompt's head names the company, the position and the job description in the language's order |
| Chatbot.BuildInterviewSystemPrompt | ml/chatbot.py:308-380 | the prompt contains the company, the position, the job description, a non-empty resume and, when asked for, the end marker; a prompt for a language starting with "ru" makes the final feedback instruction Russian |
| Chatbot.PartsMention | ml/chatbot.py:308-380 | the same facts about the prompt's pieces joined together |
| GroqTts.SimpleSegmentText | ml/videosdk-examples/groq_tts_fixed.py:27-60 | the loops compute exactly the segmentation: blank text gives no segment, otherwise the non-blank merges of the text's sentences |
| GroqTts.JoinStep | ml/videosdk-examples/groq_tts_fixed.py:50-51 | joining a sentence to the open segment keeps every non-space character, in order |
| GroqTts.CloseStep | ml/videosdk-examples/groq_tts_fixed.py:52-55 | closing the open segment and opening a new one keeps every non-space character, in order |
| GroqTts.MergeContent | ml/videosdk-examples/groq_tts_fixed.py:49-58 | the merged segments hold, in order, exactly the non-space characters of the open segment and the remaining sentences after those already closed |
| GroqTts.SegmentKeepsContent | ml/videosdk-examples/groq_tts_fixed.py:27-60 | the segments together hold exactly the non-space characters of the text, in order |
| GroqTts.SegmentEmptyIffBlank | ml/videosdk-examples/groq_tts_fixed.py:29-30 | there is no segment exactly when the text is blank, and no segment is blank |
| GroqTts.MergeFits | ml/videosdk-examples/groq_tts_fixed.py:50-55 | every merged segment is either a single sentence or at most the maximum length |
| GroqTts.SegmentsFit | ml/videosdk-examples/groq_tts_fixed.py:49-60 | every segment is a single sentence or fits in the maximum length |
| GroqTts.ExtractPcmFromWav | ml/videosdk-examples/groq_tts_fixed.py:253-259 | less than a 44-byte header gives nothing; otherwise the bytes after the header |
| GroqTts.PcmAfterHeader | ml/videosdk-examples/groq_tts_fixed.py:253-259 | the PCM behind any 44-byte header comes back unchanged |
| GroqTts.GroqTtsFixed.constructor | ml/videosdk-examples/groq_tts_fixed.py:94-102 | the settings are stored, the flags are clear and nothing has been sent |
| GroqTts.GroqTtsFixed.StreamAudioChunks | ml/videosdk-examples/groq_tts_fixed.py:228-251 | nothing is sent once interrupted or closed; otherwise the audio goes out as 960-byte chunks, the last zero-padded, and the first-audio callback runs at most once until reset |
| GroqTts.GroqTtsFixed.ResetFirstAudioTracking | ml/videosdk-examples/groq_tts_fixed.py:261-263 | the first-audio callback may run again |
| GroqTts.GroqTtsFixed.Interrupt | ml/videosdk-examples/groq_tts_fixed.py:265-267 | later streaming sends nothing |
| GroqTts.GroqTtsFixed.Aclose | ml/videosdk-examples/groq_tts_fixed.py:269-272 | both flags are set |
| GroqTts.CheckConfig | ml/videosdk-examples/groq_tts_fixed.py:84-105 | the configuration is accepted exactly when the rate is supported, the speed lies in 0.5..5.0 and a non-empty key is found, and the errors come in that order |
| GroqTts.NewGroqTts | ml/videosdk-examples/groq_tts_fixed.py:63-115 | the plugin is created exactly when the configuration is accepted, with the found key and the given rate |
| Sentences.ContentOfFilterBlank | ml/videosdk-examples/groq_tts_fixed.py:60 | dropping blank pieces loses no visible character |
| Sentences.ScanContent | ml/videosdk-examples/groq_tts_fixed.py:36-43 | the scanner keeps, in order, every visible character of the open sentence and the text still to read |
| Sentences.SentencesKeepContent | ml/videosdk-examples/groq_tts_fixed.py:33-43 | the sentences together hold exactly the text's visible characters, in order |
| Sentences.ScanStripped | ml/videosdk-examples/groq_tts_fixed.py:39-43 | every sentence the scanner closes is stripped |
| Sentences.SentencesStripped | ml/videosdk-examples/groq_tts_fixed.py:39-43 | every sentence is stored without surrounding whitespace |
| Sentences.ScanSentences | ml/videosdk-examples/groq_tts_fixed.py:33-43 | the character loop computes exactly the scanner's sentences |
| Chunking.PadChunks | ml/videosdk-examples/main_local.py:263-271 | there are no chunks exactly for empty input, and every chunk has the chunk size |
| Chunking.PadChunksFlatten | ml/videosdk-examples/groq_tts_fixed.py:235-243 | the chunks concatenated are the input followed by fewer than one chunk of padding |
| Chunking.EmitStep | ml/videosdk-examples/groq_tts_fixed.py:235-250 | sending the chunk at an offset moves it from the chunks still to send to those sent |
| MainLocal.Int16At | ml/videosdk-examples/main_local.py:231 | a little-endian sample lies in the signed 16-bit range |
| MainLocal.Int16Abs | ml/videosdk-examples/main_local.py:233 | np.abs on an int16 sample: its magnitude, except -32768, which stays negative |
| MainLocal.IsSilentAsWritten | ml/videosdk-examples/main_local.py:226-235 | _is_silent as written: any frame is silent under a threshold above 32768, and every frame silent by true magnitude is silent as written |
| MainLocal.IsSilent | ml/videosdk-examples/main_local.py:226-235 | the corrected silence test (Findings row 4): every frame is silent under a threshold above 32768, and under a threshold of 0 or less only the empty or odd-length frame is |
| MainLocal.Samples | ml/videosdk-examples/main_local.py:250 | a buffer of even length holds half as many samples as bytes |
| MainLocal.LoudFrameCountedSilent | ml/videosdk-examples/main_local.py:231-233 | the frame holding only the sample -32768 counts as silent as written, but not by its true magnitude |
| MainLocal.SilenceDefinitionsAgree | ml/videosdk-examples/main_local.py:226-235 | a frame silent as written but loud by magnitude holds the sample -32768 |
| MainLocal.Forward | ml/videosdk-examples/main_local.py:278-299 | without a transcript callback nothing is forwarded; every forwarded phrase has length 2..500 |
| MainLocal.ForwardIsFilter | ml/videosdk-examples/main_local.py:278-288 | with a callback, the forwarded phrases are exactly the stripped phrases of length 2..500, in order |
| MainLocal.TranscribeChunks | ml/videosdk-examples/main_local.py:263-275 | the loop transcribes the 2400-sample chunks, the last zero-padded, and collects the phrases in order |
| MainLocal.VideoSdkStreamingStt.constructor | ml/videosdk-examples/main_local.py:183-191 | not speaking, no silence counted, an empty buffer, not cancelled |
| MainLocal.VideoSdkStreamingStt.ForwardPhrases | ml/videosdk-examples/main_local.py:278-299 | the filtered phrases are appended to the transcripts |
| MainLocal.VideoSdkStreamingStt.ProcessAccumulatedAudio | ml/videosdk-examples/main_local.py:237-310 | nothing changes for an empty buffer or after cancellation; otherwise the buffer is empty afterwards (an oversized or undecodable buffer is dropped untranscribed) and the transcripts grow by the buffer's forwarded phrases |
| MainLocal.VideoSdkStreamingStt.ProcessAudio | ml/videosdk-examples/main_local.py:193-224 | with silence judged as written (Findings row 4): no change once cancelled; speech sets speaking and resets the count; silence while not speaking only buffers; silence while speaking adds a quarter of the frame's bytes, and past the limit transcribes and resets |
| MainLocal.VideoSdkStreamingStt.CancelCurrentTranscription | ml/videosdk-examples/main_local.py:312-314 | the transcriber is cancelled |
| MainLocal.VideoSdkStreamingStt.Aclose | ml/videosdk-examples/main_local.py:316-319 | cancelled, with an empty buffer |
| MainLocal.CancelledIgnoresFrames | ml/videosdk-examples/main_local.py:200-201 | once cancelled, no sequence of frames changes the buffer or the transcripts |
| MainLocal.SplitSentences | ml/videosdk-examples/main_local.py:381-395 | the non-blank sentences of the scan |
| MainLocal.SplitSentencesClean | ml/videosdk-examples/main_local.py:381-395 | the pieces keep every visible character in order, and each is stripped and non-empty |
| MainLocal.TruncateForSynthesis | ml/videosdk-examples/main_local.py:403-405 | text up to 1000 characters passes unchanged; longer text becomes its first 1000 characters and "..." |
| MainLocal.TruncateKeepsStart | ml/videosdk-examples/main_local.py:403-405 | the result is at most 1003 characters long and starts with the text's first 1000 characters |
| MainLocal.SynthesisInput | ml/videosdk-examples/main_local.py:397-413 | text is synthesised exactly when it is not blank, synthesis is not interrupted and the reference audio exists, and then in truncated form |
| MainLocal.VideoSdkESpeechTts.constructor | ml/videosdk-examples/main_local.py:334-340 | the rate is stored, the flags are clear and nothing has been sent |
| MainLocal.VideoSdkESpeechTts.StreamAudioChunks | ml/videosdk-examples/main_local.py:461-484 | nothing is sent when interrupted; otherwise the audio goes out in 20 ms chunks, the last zero-padded, with the first-audio callback at most once |
| MainLocal.TruncDiv | ml/videosdk-examples/main_local.py:466 | int() of a quotient truncates toward zero: the result lies within one divisor of the dividend, on the same side of zero |
| MainLocal.ChunkBytesFor | ml/videosdk-examples/main_local.py:466 | the chunk holds sample_rate/25 bytes, 640 at 16 kHz |
| MainLocal.VideoSdkESpeechTts.Interrupt | ml/videosdk-examples/main_local.py:486-488 | later streaming sends nothing |
| MainLocal.VideoSdkESpeechTts.ResetFirstAudioTracking | ml/videosdk-examples/main_local.py:490-492 | the first-audio callback may run again |
| MainLocal.VideoSdkESpeechTts.Aclose | ml/videosdk-examples/main_local.py:494-496 | the synthesizer is interrupted |
| MainLocal.Accentize | ml/videosdk-examples/main_local.py:785-788 | empty text, text already holding '+' or no accent model leave the text unchanged; otherwise the accent model's output |
| MainLocal.AccentizeTwice | ml/videosdk-examples/main_local.py:785-788 | accentizing twice is accentizing once, when the accent model marks its output with '+' |
| CartesiaSafeWrapper.RemovePunctuation | ml/videosdk-bot/cartesia_safe_wrapper.py:30 | only word characters and whitespace remain |
| CartesiaSafeWrapper.RemoveSpace | ml/videosdk-bot/cartesia_safe_wrapper.py:31 | no whitespace remains |
| CartesiaSafeWrapper.LetterKept | ml/videosdk-bot/cartesia_safe_wrapper.py:30-31 | a letter of the text survives both removals |
| CartesiaSafeWrapper.LetterFrom | ml/videosdk-bot/cartesia_safe_wrapper.py:30-39 | a letter found after the removals is a letter of the text |
| CartesiaSafeWrapper.StripKeepsLetters | ml/videosdk-bot/cartesia_safe_wrapper.py:24 | stripping keeps exactly the text's letters |
| CartesiaSafeWrapper.ValidOnStripped | ml/videosdk-bot/cartesia_safe_wrapper.py:20-41 | the check is the length test and the letter test on the stripped text |
| CartesiaSafeWrapper.ValidIff | ml/videosdk-bot/cartesia_safe_wrapper.py:20-41 | text is valid exactly when it strips to at least two characters and holds a Latin or Cyrillic letter |
| CartesiaSafeWrapper.BlankRefused | ml/videosdk-bot/cartesia_safe_wrapper.py:20-21 | whitespace-only text is refused |
| CartesiaSafeWrapper.PunctuationRefused | ml/videosdk-bot/cartesia_safe_wrapper.py:30-35 | punctuation-only text is refused |
| CartesiaSafeWrapper.DigitsRefused | ml/videosdk-bot/cartesia_safe_wrapper.py:37-39 | digit-only text is refused |
| CartesiaSafeWrapper.NoLetterRefused | ml/videosdk-bot/cartesia_safe_wrapper.py:37-39 | text without a Latin or Cyrillic letter is refused |
| CartesiaSafeWrapper.WordAccepted | ml/videosdk-bot/cartesia_safe_wrapper.py:20-41 | a two-letter Cyrillic word passes |
| CartesiaSafeWrapper.SafeCartesiaTtsWrapper.constructor | ml/videosdk-bot/cartesia_safe_wrapper.py:57-65 | no inner client yet and nothing delegated |
| CartesiaSafeWrapper.SafeCartesiaTtsWrapper.EnsureInitialized | ml/videosdk-bot/cartesia_safe_wrapper.py:73-96 | afterwards a client exists exactly when one existed or its creation succeeded; a failed creation changes nothing |
| CartesiaSafeWrapper.SafeCartesiaTtsWrapper.SafeSynthesize | ml/videosdk-bot/cartesia_safe_wrapper.py:115-144 | invalid text returns quietly without delegating; valid text is delegated whole; a client error is raised again, and drops the client exactly when it is a connection error |
| CartesiaSafeWrapper.SafeCartesiaTtsWrapper.Synthesize | ml/videosdk-bot/cartesia_safe_wrapper.py:98-113 | a failed first creation raises with nothing delegated; otherwise valid text is delegated whole exactly once and the call fails exactly when the client does, with its error, dropping the client exactly for a connection error; invalid text is never delegated and returns quietly with the client kept |
| CartesiaSafeWrapper.SafeCartesiaTtsWrapper.Aclose | ml/videosdk-bot/cartesia_safe_wrapper.py:158-174 | the client is dropped |
| CartesiaSafeWrapper.SafeCartesiaSttWrapper.constructor | ml/videosdk-bot/cartesia_safe_wrapper.py:207-213 | the language is stored, no inner client yet, nothing forwarded |
| CartesiaSafeWrapper.SafeCartesiaSttWrapper.ProcessAudio | ml/videosdk-bot/cartesia_safe_wrapper.py:217-264 | a failed first creation raises with nothing forwarded; otherwise the frames are forwarded in the given language or the wrapper's own, and an error drops the client and is raised again |
| CartesiaSafeWrapper.SafeCartesiaSttWrapper.Aclose | ml/videosdk-bot/cartesia_safe_wrapper.py:266-276 | the client is dropped |
| GroqLlm.MaxCompletionTokens | ml/videosdk-examples/groq_llm.py:66 | a given non-zero limit wins; a missing or zero one falls back to max_tokens |
| GroqLlm.ZeroLimitFallsBack | ml/videosdk-examples/groq_llm.py:66 | a zero or missing max_completion_tokens gives max_tokens |
| GroqLlm.Configure | ml/videosdk-examples/groq_llm.py:57-71 | construction fails exactly when neither the argument nor GROQ_API_KEY gives a non-empty key; otherwise every setting is stored as given and the token limit is chosen as above |
| GroqLlm.SupportedModels | ml/videosdk-examples/groq_llm.py:114-123 | three models are listed |
| GroqLlm.SupportedExactly | ml/videosdk-examples/groq_llm.py:125-127 | a model is supported exactly when it is one of the three listed |
| GroqLlm.DefaultModelNotListed | ml/videosdk-examples/groq_llm.py:31 | the default model is not among the supported ones |
| GroqLlm.FormattedTools | ml/videosdk-examples/groq_llm.py:219-229 | the formatted tools are the schemas of the function tools whose schema could be built, one per such tool in order, and none exactly when no tool qualifies |
| GroqLlm.FormattedToolsSnoc | ml/videosdk-examples/groq_llm.py:219-229 | the loop keeps the order: a tool more at the end adds its schema at the end when it qualifies, and nothing otherwise |
| GroqLlm.WithOptional | ml/videosdk-examples/groq_llm.py:203-216 | a set value is carried under its key and a missing one adds nothing; no other key changes |
| GroqLlm.FixedParams | ml/videosdk-examples/groq_llm.py:173-200 | the request always carries the model, the messages, the temperature and stream = true, and nothing else |
| GroqLlm.AddOptionals | ml/videosdk-examples/groq_llm.py:203-216 | each optional parameter is present exactly when it is set; no other key changes |
| GroqLlm.AddTools | ml/videosdk-examples/groq_llm.py:231-237 | tools and tool_choice are added exactly when some tool was formatted |
| GroqLlm.OwnParams | ml/videosdk-examples/groq_llm.py:173-237 | the request's own parameters: the fixed ones and each optional one carried as set |
| GroqLlm.KeySetsDisjoint | ml/videosdk-examples/groq_llm.py:173-237 | the fixed, optional and tool keys are distinct |
| GroqLlm.CompletionParams | ml/videosdk-examples/groq_llm.py:240 | the caller's extra arguments override, and every other key is the request's own |
| GroqLlm.OptionalOnlyWhenSet | ml/videosdk-examples/groq_llm.py:203-237 | unless overridden, each optional key is present exactly when its setting is, and the tool keys exactly when a tool was formatted |
| GroqLlm.DefaultRequestMinimal | ml/videosdk-examples/groq_llm.py:27-240 | with the defaults and no tools or extras, the request carries only the four fixed keys |
| GroqLlm.ToolFragments | ml/videosdk-examples/groq_llm.py:259 | one fragment per tool-call delta, in order |
| GroqLlm.FragmentsOf | ml/videosdk-examples/groq_llm.py:255-291 | only the first choice's delta is read: its tool calls, one fragment each in order, or else its legacy function call, or nothing |
| GroqLlm.Appended | ml/videosdk-examples/groq_llm.py:271-274 | a fragment is appended when present and non-empty |
| GroqLlm.AddFragment | ml/videosdk-examples/groq_llm.py:258-291 | the first fragment for a key creates its entry at the end of the key order, a later one extends it; no other entry changes and keys stay distinct |
| GroqLlm.AddAll | ml/videosdk-examples/groq_llm.py:258-291 | gathering keeps the keys distinct and in step with the entries |
| GroqLlm.AddAllConcat | ml/videosdk-examples/groq_llm.py:248-291 | gathering two runs of fragments in turn is gathering their concatenation |
| GroqLlm.GatheredCall | ml/videosdk-examples/groq_llm.py:258-291 | a key has an entry exactly when some fragment carries it; its kind and id come from its first fragment, its name and arguments are its fragments joined in arrival order |
| GroqLlm.NoFragmentNoText | ml/videosdk-examples/groq_llm.py:258-291 | a key no fragment carries has no name or arguments gathered |
| GroqLlm.ParsedArguments | ml/videosdk-examples/groq_llm.py:306-311 | the parsed arguments, or {} when they are not valid JSON |
| GroqLlm.EmitKeys | ml/videosdk-examples/groq_llm.py:305-323 | one call per key in key order, with its name, kind, id and parsed arguments |
| GroqLlm.EmitAll | ml/videosdk-examples/groq_llm.py:305-323 | one emitted call per gathered key |
| GroqLlm.EmittedOnce | ml/videosdk-examples/groq_llm.py:305-323 | two emitted calls never share an id |
| GroqLlm.AsResponses | ml/videosdk-examples/groq_llm.py:314-323 | each emitted call becomes one response, in order |
| GroqLlm.StepNext | ml/videosdk-examples/groq_llm.py:258-324 | the calls pending after a chunk stay well formed, and are cleared after a tool-call finish |
| GroqLlm.TextsConcat | ml/videosdk-examples/groq_llm.py:248-324 | texts and calls of two runs of responses are those of each run, in order |
| GroqLlm.Stream | ml/videosdk-examples/groq_llm.py:248-324 | the text responses of the stream are exactly the plain text deltas, in order, whatever tool calls interleave |
| GroqLlm.StepOutTexts | ml/videosdk-examples/groq_llm.py:294-324 | one chunk yields only its own text as text; the calls it emits hold none |
| GroqLlm.NoFinishNoCalls | ml/videosdk-examples/groq_llm.py:302-324 | calls still gathering when the stream ends without a tool-call finish are never emitted |
| GroqLlm.SingleFinishEmitsGathered | ml/videosdk-examples/groq_llm.py:248-324 | when only the last chunk finishes, the calls emitted are exactly those gathered from every fragment of the stream |
| GroqLlm.Llm.constructor | ml/videosdk-examples/groq_llm.py:57-71 | the settings are stored and the plugin is neither cancelled nor closed |
| GroqLlm.Llm.FormatTools | ml/videosdk-examples/groq_llm.py:219-229 | the loop computes exactly the formatted tools |
| GroqLlm.Llm.Gather | ml/videosdk-examples/groq_llm.py:255-291 | the loop adds exactly the chunk's fragments |
| GroqLlm.Llm.EmitPending | ml/videosdk-examples/groq_llm.py:305-323 | the loop emits exactly every pending call in key order |
| GroqLlm.Llm.ChunkStep | ml/videosdk-examples/groq_llm.py:252-324 | one pass of the stream loop yields and keeps exactly what the stream function says |
| GroqLlm.Llm.RunStream | ml/videosdk-examples/groq_llm.py:245-324 | the stream loop yields exactly the stream function's responses |
| GroqLlm.Llm.Chat | ml/videosdk-examples/groq_llm.py:129-324 | chat clears the cancellation, builds exactly the request parameters and yields exactly the stream's responses |
| GroqLlm.Llm.CancelCurrentGeneration | ml/videosdk-examples/groq_llm.py:335-336 | the generation is cancelled |
| GroqLlm.Llm.Aclose | ml/videosdk-examples/groq_llm.py:338-342 | cancelled and closed |
| GroqLlm.NewGroq | ml/videosdk-examples/groq_llm.py:57-71 | the plugin is created exactly when the configuration succeeds, with those settings |
| GroqLlm.GroqUrlAsWritten | ml/videosdk-examples/groq_llm.py:380-381 | as written: the URL ends in /v1; a URL already ending in /v1 is kept, any other loses its trailing slashes and gains /v1 |
| GroqLlm.GroqUrl | ml/videosdk-examples/groq_llm.py:379-381 | the corrected normalisation (Findings row 3): the URL ends in /v1 and not in a slash |
| GroqLlm.TrailingSlashDoubles | ml/videosdk-examples/groq_llm.py:380-381 | as written, the default URL with a trailing slash becomes .../v1/v1; the corrected normalisation gives the default URL |
| GroqLlm.GroqUrlIgnoresTrailingSlash | ml/videosdk-examples/groq_llm.py:381 | a trailing slash does not change the normalised URL |
| GroqLlm.GroqUrlCanonical | ml/videosdk-examples/groq_llm.py:380-381 | a URL already ending in /v1 is kept, and normalising twice changes nothing |
| GroqLlm.GroqUrlAgrees | ml/videosdk-examples/groq_llm.py:380-381 | without a trailing slash the written and the corrected normalisation agree |
| GroqLlm.OpenAiEndpoint | ml/videosdk-examples/groq_llm.py:369-391 | a Groq URL takes the GROQ_API_KEY fallback and the URL normalised as written (Findings row 3), which ends in /v1; any other takes OPENAI_API_KEY and the OpenAI URL when none is given; a missing key is the matching error |
| GroqLlm.SlashedGroqEndpointDoubles | ml/videosdk-examples/groq_llm.py:369-381 | OpenAILLM given the default Groq URL with a trailing slash uses .../v1/v1 |
| GroqLlm.NewOpenAi | ml/videosdk-examples/groq_llm.py:352-404 | the plugin is created exactly when the endpoint choice succeeds, with the chosen key and URL |
| InterviewConfigs.Configs | ml/videosdk-bot/interview_configs.py:6-136 | five configurations, in definition order |
| InterviewConfigs.Lookup | ml/videosdk-bot/interview_configs.py:148 | a found configuration is stored under the name; none is found exactly when no entry has the name |
| InterviewConfigs.GetInterviewConfig | ml/videosdk-bot/interview_configs.py:138-148 | the result is always one of the five configurations, and any but the Python developer one is the configuration stored under the name |
| InterviewConfigs.ListAvailableConfigs | ml/videosdk-bot/interview_configs.py:150-157 | the five names in definition order |
| InterviewConfigs.NamesDistinct | ml/videosdk-bot/interview_configs.py:6-136 | no name is listed twice |
| InterviewConfigs.LookupFirst | ml/videosdk-bot/interview_configs.py:148 | a lookup finds the first entry with the name |
| InterviewConfigs.KnownNameGetsOwnConfig | ml/videosdk-bot/interview_configs.py:138-148 | each listed name retrieves its own configuration |
| InterviewConfigs.UnknownNameGetsDefault | ml/videosdk-bot/interview_configs.py:148 | a name not listed falls back to the Python developer configuration |
| InterviewConfigs.AllComplete | ml/videosdk-bot/interview_configs.py:6-136 | every configuration, and so every lookup, has a position, a company, seven competencies and a description |

## Left out

- Floating point is not modelled: salaries (`to_decimal`), the HR detail score, temperature, penalties, the TTS speed, `silence_threshold * 32767`, `silence_duration * 48000` and audio normalisation. Where a check depends on a float, it is carried as an opaque `real` or replaced by an integer parameter.
- I/O and external services are parameters, not models: the database session and commits, bcrypt hash and verify, JWT encode and decode and their clock, `uuid`, `sha256`, file writes (aiofiles, `json.dump`), `os.path.exists` (a membership test on a file store), `FileResponse`, the HTTP clients, the VideoSDK API, the language models (`ChatGroq.invoke` and `stream`, the Groq and OpenAI clients) and the speech models.
- Concurrency is not modelled: asyncio locks, `create_task`, `sleep`, cancellation arriving in the middle of a stream, and subprocess spawning (`start_agent_process`).
- Strings: case mapping covers ASCII and Cyrillic only. The regex class `\w` is approximated by Latin and Cyrillic letters, digits and `_`. Email validation by pydantic is not modelled.
- Query parameters arrive as integers. FastAPI's coercion and the exact text of its validation messages are not modelled. A JWT `id` claim that is not an integer is treated as a missing id.
- The pydantic request schemas appear only as the union the profile endpoint checks. The ORM column misspelling `promt` / `prompt` is modelled as `hr/helpers.py` uses it.
- `Browser.LocalStorage` stands in for the browser's localStorage.
- `JSON.stringify` and `JSON.parse` of the stored user are a codec parameter. Their round trip is a precondition of the session-restore lemma, not something the model proves.
- `evaluate_cv`: the keyword arguments passed to the language model and the prompt text are not modelled.
- `save_history_json` and the file side of `end_interview`: the file write and the UTC timestamp are not modelled. The feedback itself is modelled.
- The `synthesize` methods of `GroqTTSFixed` and `VideoSDKESpeechTTS` are not modelled as a whole. That covers their streaming accumulation loops, the HTTP request in `_synthesize_audio` with its error messages, and the `emit("error", …)` events. The segmentation, the length guard and the chunk streaming they call are modelled.
- `GroqTTSFixed.get_supported_voices` and `is_voice_supported` are not modelled: they are a constant list lookup with no further logic.
- `groq_llm.py`: message formatting (`_format_content`, image parts), the error events, the `LLMResponse` metadata fields and the order of keys in the request are not modelled. `build_openai_schema` is a parameter (a tool's schema or its failure). A `None` tool-call id is treated like any other key.
- `interview_configs.py`: the job description texts are kept as constant data. Only their presence is proved.
- GroqTts.SegmentsFit: states the length bound one segment at a time. A segment either fits in `max_length` or is a single over-long sentence of the text, left unsplit. No bound on the number of segments is stated.
- GroqTts.SegmentKeepsContent: states content preservation over non-space characters only. The exact spacing between joined sentences is not stated.

## Findings

| source | as written | input that shows it | evidently intended | confidence | as-written member | corrected member |
|---|---|---|---|---|---|---|
| frontend/src/App/Routing.jsx:27-53 | `HRRoute` (lines 27-40) and `ApplicantRoute` (lines 42-53) send a signed-in user whose role is not the route's role to the other role's home page, whatever that role is | a signed-in user with role "admin" opening /hr is sent to /applicant, which sends them back to /hr, without end | a user whose role is neither hr nor applicant is sent to /login, as `RoleBasedRedirect` does | not executed | Routing.RedirectLoopAsWritten | Routing.Guarded |
| frontend/src/Pages/HomePage/index.jsx:125 | the responses cell reads `vacancy.responces`, which no vacancy has | the first preset vacancy, with 1376 responses, shows 0 | the cell shows `vacancy.responses` | not executed | HomePage.ResponsesCellAsWritten | HomePage.TableRow |
| ml/videosdk-examples/groq_llm.py:380-381 | the `/v1` check looks at the base URL before its trailing slashes are stripped | "https://api.groq.com/openai/v1/" becomes "https://api.groq.com/openai/v1/v1" | trailing slashes are removed before the `/v1` check, so the URL stays ".../openai/v1" | not executed | GroqLlm.SlashedGroqEndpointDoubles | GroqLlm.GroqUrlIgnoresTrailingSlash |
| ml/videosdk-examples/main_local.py:231-233 | `np.abs` on int16 samples wraps -32768 to -32768, so the loudest negative sample does not raise the maximum | the frame of bytes [0x00, 0x80] (the one sample -32768) with threshold 327 counts as silent | the magnitude of -32768 is 32768, and that frame is loud | not executed | MainLocal.LoudFrameCountedSilent | MainLocal.IsSilent |
| backend/src/api/interview/service.py:21-37 | a token is refused only when it is empty, so a whitespace-only token passes the check and is stripped afterwards | the token "   " yields an empty Authorization value, or a bare "Bearer " | a token that is blank after stripping is refused | not executed | InterviewService.BlankTokenAccepted | InterviewService.Headers |
