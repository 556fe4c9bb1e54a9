# Tattoo Hunter front end — a verified model of its request client and page logic

Tattoo Hunter is a job board for tattoo studios (companies) and tattoo artists (employees).
Its React front end talks to a back end at `http://localhost:8080`. This project models the
parts of that front end that decide something:

- **The authenticated request client** (`ApiClient`). It attaches the stored access token as a
  Bearer credential (section 2.1 of RFC 6750). On a 401 Unauthorized reply (section 15.5.2 of
  RFC 9110) it refreshes the token pair once and replays the request once. It clears both
  tokens when the refresh fails. `Exchange` is a pure reference function. The methods
  `ApiFetch`, `ApiGetJson`, `RefreshTokenRequest`, `SaveTokens` and `ClearTokens` run the same
  steps against a `Storage.Store` (the browser's `localStorage`) and an `Http.Server` (a
  scripted sequence of deliveries). They are proved to end where `Exchange` says.
- **Every page handler of the core**, as a method. It takes the page state and the answers the
  client gives. It returns the new state, the requests it sent (`Web.Call`) and where it
  navigates (`Web.Nav`). A handler that writes `localStorage` takes the `Store` and says
  exactly how its entries change. A handler that also calls the request client takes the
  `Http.Server` too and runs `ApiClient.ApiFetch`. Its requests, the deliveries it consumes and
  its entries are then those of the client's run (`Web.Fetched`), which may have refreshed or
  cleared the tokens, followed by the page's own write.
- **The pure derivations of the pages**, as functions with their properties proved:
  - query strings;
  - chart data;
  - display-name and avatar fallbacks;
  - status labels;
  - ordered validators;
  - the sign-up error classification;
  - the `FormData` each form sends.
- **The two wizards as wholes**:
  - `EmployeeWizard`: the employee registration flow, carried by the `flow=register` query flag.
  - `VacancyWizard`: vacancy creation, carried by the `th_current_vacancy_id` storage key.

Shared modules:

- `Json`: parsed values, JavaScript truthiness, `String(v)`, `JSON.stringify`, object spread.
- `Text`: trimming, ASCII and Cyrillic case mapping, `includes`, number formatting.
- `UrlCodec`: `encodeURIComponent`, `URLSearchParams`.

An answer of the client is `Web.Answer`. It is either the reply or the `ApiClient.Failure` the
client throws. A plain `fetch` gives an `Http.Delivery`, which is either a reply or
`Unreachable`. A parsed body is `Reply.json`; `None` there means the body is not JSON.

## Model

| member | source | states |
|---|---|---|
| ApiClient.Message | src/api/apiClient.js:29-44 | the thrown message: the refusal's text or "Refresh failed" for a refused refresh; the text or "Request failed with status N" for `apiGetJson`; never empty |
| ApiClient.Tokens | src/api/apiClient.js:4-9 | each token is present exactly when its key is stored, with the stored value |
| ApiClient.WithBearer | src/api/apiClient.js:53-67 | `Authorization: Bearer <token>` is set exactly when a truthy token is stored, overriding a caller's; every other header, the verb and the body are the caller's |
| ApiClient.TokensSaved | src/api/apiClient.js:11-18 | each token key is written, as `String(value)`, exactly when the reply's field is truthy; otherwise it keeps its old value; all other keys are unchanged |
| ApiClient.TokensCleared | src/api/apiClient.js:20-23 | both token keys are removed and every other entry is kept |
| ApiClient.RefreshRequest | src/api/apiClient.js:33-39 | the refresh call is a JSON POST of `{refreshToken}` to `/api/auth/refresh` |
| ApiClient.Refresh | src/api/apiClient.js:26-49 | no refresh token: "No refresh token" and nothing sent; otherwise exactly one request with the stored refresh token; a failed refresh leaves storage as it was |
| ApiClient.Exchange | src/api/apiClient.js:52-90 | the first request sent is the caller's, with the stored credential |
| ApiClient.JsonOf | src/api/apiClient.js:92-105 | failures are passed on; a non-ok reply becomes the status error with its text; the result is the parsed body exactly when the reply is ok and JSON |
| ApiClient.SaveTokens | src/api/apiClient.js:11-18 | the store ends as `TokensSaved`; a `null` reply throws before anything is written |
| ApiClient.ClearTokens | src/api/apiClient.js:20-23 | the store ends as `TokensCleared` |
| ApiClient.RefreshTokenRequest | src/api/apiClient.js:26-49 | result, storage, sent requests and remaining script are those of `Refresh` |
| ApiClient.ApiFetch | src/api/apiClient.js:52-90 | result, storage, sent requests and remaining script are those of `Exchange` |
| ApiClient.ApiGetJson | src/api/apiClient.js:92-105 | the result is `JsonOf` of the `Exchange` run, with the same storage and requests |
| ApiClient.BoundedSends | src/api/apiClient.js:75-87 | one call sends at most three requests, and exactly one when retrying is off |
| ApiClient.PassThrough | src/api/apiClient.js:75-89 | a non-401 reply, or a 401 with retrying off, is returned as it is after one request, with storage untouched |
| ApiClient.ClearOnFailure | src/api/apiClient.js:76-83 | whatever makes the refresh fail, both tokens are cleared, its error is rethrown and nothing is replayed |
| ApiClient.FailureOutcomes | src/api/apiClient.js:52-90 | a failed call either lost its first request to the network with storage intact, or cleared the tokens after a failed refresh, or lost the replay after a saved refresh |
| ApiClient.NoRefreshTokenStops | src/api/apiClient.js:27-31 | a 401 with no refresh token: no refresh request, tokens cleared, "No refresh token" rethrown |
| ApiClient.RefreshRejectedStops | src/api/apiClient.js:41-44 | a refused refresh throws its text, or "Refresh failed" for an empty body, clears the tokens and replays nothing |
| ApiClient.RefreshThenReplay | src/api/apiClient.js:46-86 | a successful refresh saves the new tokens and replays once, with retrying off, from the new storage; the replay's answer is the result |
| ApiClient.ReplayCredential | src/api/apiClient.js:47-53 | the replay carries a new non-empty token, or the old one when the reply has none; a reply without `refreshToken` keeps the old refresh token |
| ApiClient.ExpiredTokenScenario | src/api/apiClient.js:52-90 | an expired token, once refreshed, gives the request's reply and a replay sent with the new token |
| ApiClient.OnlyTokensChange | src/api/apiClient.js:11-23 | whatever the replies, a call writes or removes no stored entry but `token` and `refreshToken` |
| AdminAnalytics.CompanyQuery | src/pages/Admin/AdminAnalyticsPage.jsx:69-71 | empty exactly when no company is chosen; otherwise `companyId=<encoded id>` |
| AdminAnalytics.WithParams | src/pages/Admin/AdminAnalyticsPage.jsx:73-76 | the base URL alone when both parts are empty; otherwise `?` and the non-empty parts joined by `&`, company first |
| AdminAnalytics.SeriesParams | src/pages/Admin/AdminAnalyticsPage.jsx:146-154 | `granularity` first; between it and `horizon`, exactly `from` then `to`, each encoded and only when set; then `horizon`, then `lookback=60` last |
| AdminAnalytics.Optional | src/pages/Admin/AdminAnalyticsPage.jsx:148-149 | an empty value gives no parameter; a set one gives one encoded parameter |
| AdminAnalytics.SeriesUrlShape | src/pages/Admin/AdminAnalyticsPage.jsx:141-156 | the series URL is its path, `?`, then all its parameters, company first |
| AdminAnalytics.SeriesUrlReadsBack | src/pages/Admin/AdminAnalyticsPage.jsx:141-156 | reading the series URL's query back gives each filter value, encoded, under its own name; `from`, `to` and `companyId` are absent when empty |
| AdminAnalytics.SeriesUrlGet | src/pages/Admin/AdminAnalyticsPage.jsx:141-156 | `URLSearchParams.get` on the series URL finds the first parameter of that name |
| AdminAnalytics.Entries | src/pages/Admin/AdminAnalyticsPage.jsx:179 | `Object.entries`: an object's members in the order the model holds them, one entry per array item or character, none otherwise |
| AdminAnalytics.PieData | src/pages/Admin/AdminAnalyticsPage.jsx:177-183 | one `{status, count}` per entry of `byStatus`, in order; empty when `byStatus` is falsy |
| AdminAnalytics.PieSlicePerStatus | src/pages/Admin/AdminAnalyticsPage.jsx:177-183 | for a `byStatus` object: distinct statuses, each with its own count, and every status present |
| AdminAnalytics.CategoryBars | src/pages/Admin/AdminAnalyticsPage.jsx:186-195 | the first min(5, n) items in order, renamed; empty when `items` is not an array |
| AdminAnalytics.NamePart | src/pages/Admin/AdminAnalyticsPage.jsx:201 | `${v \|\| ""}`: empty for a falsy part, the string itself for a string |
| AdminAnalytics.EmployeeNameFull | src/pages/Admin/AdminAnalyticsPage.jsx:201-208 | both names present: "first last" |
| AdminAnalytics.EmployeeNameFirstOnly | src/pages/Admin/AdminAnalyticsPage.jsx:201-208 | only a first name: the trailing space is trimmed away |
| AdminAnalytics.EmployeeNameNoName | src/pages/Admin/AdminAnalyticsPage.jsx:201-208 | no name: the login, else "—" |
| AdminAnalytics.ChatBars | src/pages/Admin/AdminAnalyticsPage.jsx:198-211 | at most five bars; bar i is ranked "ТОП i+1" and carries the chat's fields; company "—" by default; empty when `items` is not an array |
| AdminAnalytics.InsertByPeriod | src/pages/Admin/AdminAnalyticsPage.jsx:217 | inserting into a sorted series keeps it sorted and adds exactly the one point |
| AdminAnalytics.SortByPeriod | src/pages/Admin/AdminAnalyticsPage.jsx:217 | the result is sorted by `period` and is a permutation of the points |
| AdminAnalytics.RowOf | src/pages/Admin/AdminAnalyticsPage.jsx:218-222 | the value is in `forecast` for a forecast point and in `actual` otherwise, the other being `null` |
| AdminAnalytics.SeriesData | src/pages/Admin/AdminAnalyticsPage.jsx:214-223 | one row per point of a sorted permutation of `points`; empty without points |
| AdminAnalytics.LoadSeries | src/pages/Admin/AdminAnalyticsPage.jsx:141-167 | requests the series URL; an ok JSON reply becomes the series; any failure keeps the last series and shows the series error |
| AdminAnalytics.LoadCompanies | src/pages/Admin/AdminAnalyticsPage.jsx:81-91 | an ok array replaces the companies; other ok JSON empties them; any failure keeps them |
| VacancyList.AfterLoad | src/pages/Vacancy/VacancyListPage.jsx:61-73 | an ok JSON reply replaces the list, a non-array with the empty list; any failure keeps the list and shows the given error |
| VacancyList.InitialCall | src/pages/Vacancy/VacancyListPage.jsx:47-59 | a company loads `/api/vacancy/company` with its login and role headers; every other role loads `/api/vacancies` |
| VacancyList.LoadInitialVacancies | src/pages/Vacancy/VacancyListPage.jsx:41-74 | sends `InitialCall` and ends as `AfterLoad` with the load error |
| VacancyList.LoadCompanies | src/pages/Vacancy/VacancyListPage.jsx:92-126 | employees only; an ok reply replaces the companies, a non-array with none; a failure keeps them |
| VacancyList.Search | src/pages/Vacancy/VacancyListPage.jsx:134-170 | non-employees: nothing; a blank title reloads the initial list; any other title is searched for, trimmed |
| VacancyList.CompanyIdParams | src/pages/Vacancy/VacancyListPage.jsx:194 | one `companyIds` pair per selected id, in selection order |
| VacancyList.AppendIfPresent | src/pages/Vacancy/VacancyListPage.jsx:180-193 | one `if (value) append` extends the non-empty prefix by that candidate |
| VacancyList.BuildFieldParams | src/pages/Vacancy/VacancyListPage.jsx:180-193 | the field parameters built step by step are the non-empty fields in the fixed order |
| VacancyList.BuildFilterParams | src/pages/Vacancy/VacancyListPage.jsx:180-194 | the parameters built step by step equal `FilterParams` |
| VacancyList.CompanyIdParamsAppend | src/pages/Vacancy/VacancyListPage.jsx:194 | appending one selected id appends exactly its pair |
| VacancyList.FilterParamsFields | src/pages/Vacancy/VacancyListPage.jsx:180-193 | a field's pair is sent exactly when the field is non-empty |
| VacancyList.FilterParamsOrder | src/pages/Vacancy/VacancyListPage.jsx:180-194 | the non-empty fields come first, then the selected companies in selection order |
| VacancyList.FilterParamsEmpty | src/pages/Vacancy/VacancyListPage.jsx:180-199 | there are no parameters exactly when every field is empty and no company is selected |
| VacancyList.FilterCall | src/pages/Vacancy/VacancyListPage.jsx:199-211 | no parameters: `/api/vacancies` with no role header; otherwise the filter endpoint with the serialised query and `X_User_Role` |
| VacancyList.ApplyFilters | src/pages/Vacancy/VacancyListPage.jsx:172-228 | employees only: the filter request, then the list as `AfterLoad` with the filter error |
| VacancyList.ResetFilters | src/pages/Vacancy/VacancyListPage.jsx:230-242 | every filter field and the selection are cleared, then the initial list is reloaded |
| VacancyList.SelectedCompaniesText | src/pages/Vacancy/VacancyListPage.jsx:246-251 | "Выберите компании" for none; for one, `String(name)` of the company found when that name is truthy and "1 компания выбрана" otherwise; "Выбрано: n" for two or more |
| Lists.Toggle | src/pages/Vacancy/VacancyListPage.jsx:128-132 | a present id is filtered out (every occurrence, the rest in order); an absent one is appended at the end |
| Lists.Without | src/pages/Vacancy/VacancyListPage.jsx:129 | `filter(y => y !== x)`: the list with every occurrence of `x` dropped and the rest in order; unchanged when `x` is absent |
| Lists.ToggleTwiceAbsent | src/pages/Vacancy/VacancyListPage.jsx:128-132 | toggling an absent id twice restores the list |
| Lists.ToggleTwicePresent | src/pages/Vacancy/VacancyListPage.jsx:128-132 | toggling a present id twice leaves it present once, at the end, and keeps the others |
| Lists.Dedupe | src/pages/Responses/CompanyResponsesPage.jsx:98-100 | `Array.from(new Set(xs))`: the same elements, each once, starting with the first; never longer |
| Lists.DedupeFront | src/pages/Responses/CompanyResponsesPage.jsx:98-100 | first-occurrence order: the head, then the deduplicated rest without the head |
| Lists.DedupeNoDuplicates | src/pages/Responses/CompanyResponsesPage.jsx:98-100 | a list without repeats is left as it is |
| CompanyResponses.ResponsesQuery | src/pages/Responses/CompanyResponsesPage.jsx:77-78 | for a numeric company id the query reads back that id under `companyId` and always `status=PENDING` |
| CompanyResponses.VacancyIds | src/pages/Responses/CompanyResponsesPage.jsx:99 | the vacancy ids of an array, in order; an empty list for a falsy reply; a throw for another truthy non-array |
| CompanyResponses.TitleOf | src/pages/Responses/CompanyResponsesPage.jsx:109-113 | a title exactly when the reply is ok JSON with a truthy `title` |
| CompanyResponses.TitlesKeys | src/pages/Responses/CompanyResponsesPage.jsx:102-118 | the title map holds exactly the ids whose request gave a title, each with a title a request gave |
| CompanyResponses.LoadTitles | src/pages/Responses/CompanyResponsesPage.jsx:102-118 | one request per id, in order; the map is `Titles` |
| CompanyResponses.TitleShown | src/pages/Responses/CompanyResponsesPage.jsx:275-276 | a fetched title is shown; a missing one shows "Vacancy #id" |
| CompanyResponses.TitlesShown | src/pages/Responses/CompanyResponsesPage.jsx:102-118 | a title that was fetched is in the map and is what is shown |
| CompanyResponses.Load | src/pages/Responses/CompanyResponsesPage.jsx:40-131 | non-companies: no request; then vacancies, the first one's company id, its pending responses, and one title request per distinct vacancy; each failure ends the pipeline with its message; no vacancies is its own error |
| CompanyResponses.LoadResponses | src/pages/Responses/CompanyResponsesPage.jsx:76-121 | the pending responses of the known company; a failure ends with its message and no title request; a truthy non-array reply fails the id mapping; otherwise one title request per id of the deduplicated vacancy ids, in their order |
| CompanyResponses.Approved | src/pages/Responses/CompanyResponsesPage.jsx:181-183 | same length; entries with the updated id are replaced, all others unchanged |
| CompanyResponses.ApprovedIdempotent | src/pages/Responses/CompanyResponsesPage.jsx:181-183 | applying the same update twice changes nothing more |
| CompanyResponses.Rejected | src/pages/Responses/CompanyResponsesPage.jsx:244-248 | exactly the pending entries of the updated list remain: no pending entry with another id is removed, a pending update stays, nothing else is added; never longer |
| CompanyResponses.ApprovedAppend | src/pages/Responses/CompanyResponsesPage.jsx:246 | the `map` update works entry by entry, so it keeps the list's order |
| CompanyResponses.RejectedAppend | src/pages/Responses/CompanyResponsesPage.jsx:244-248 | the `map` then `filter` keeps the order of the entries it keeps |
| CompanyResponses.RejectedRemoves | src/pages/Responses/CompanyResponsesPage.jsx:244-248 | a rejected response that is no longer pending leaves the list |
| CompanyResponses.ChatTarget | src/pages/Responses/CompanyResponsesPage.jsx:197-215 | the first chat with the same vacancy and employee, else `/chats` |
| CompanyResponses.Approve | src/pages/Responses/CompanyResponsesPage.jsx:159-220 | a failure only sets its error; success replaces the entry and goes to the chat, looked up only with a company id |
| CompanyResponses.Reject | src/pages/Responses/CompanyResponsesPage.jsx:222-253 | a failure only sets its error; success keeps only the pending responses |
| VacancyDetails.Load | src/pages/Vacancy/VacancyDetailsPage.jsx:34-56 | the vacancy of the route, or the load error |
| VacancyDetails.AnyBlocks | src/pages/Vacancy/VacancyDetailsPage.jsx:77-84 | true exactly when some entry has this vacancy id and is pending or approved |
| VacancyDetails.CanEdit | src/pages/Vacancy/VacancyDetailsPage.jsx:189 | the edit controls show exactly for a company, never for an employee or an admin |
| VacancyDetails.Responded | src/pages/Vacancy/VacancyDetailsPage.jsx:77-84 | already responded exactly when the list is an array holding such an entry |
| VacancyDetails.RejectedNeverBlocks | src/pages/Vacancy/VacancyDetailsPage.jsx:77-84 | a rejected response never blocks |
| VacancyDetails.CheckResponse | src/pages/Vacancy/VacancyDetailsPage.jsx:63-97 | employees only; a failed check leaves the flag unchanged |
| VacancyDetails.Respond | src/pages/Vacancy/VacancyDetailsPage.jsx:100-148 | the guards run in order (already responded, not an employee, not loaded) and send nothing; the body is the vacancy's id and company id; only success sets the flag |
| ChatPage.Other | src/pages/Chat/ChatPage.jsx:65 | the first message someone else sent, or none when every message is the user's |
| ChatPage.WithOther | src/pages/Chat/ChatPage.jsx:67-72 | the participant's login, role and name (name falling back to login), `null` where missing; the company fields kept |
| ChatPage.VacancyTitle | src/pages/Chat/ChatPage.jsx:87-108 | the fetched title, else "Вакансия #id" on any failure; never empty |
| ChatPage.CompanyName | src/pages/Chat/ChatPage.jsx:114-137 | a truthy `companyName`, else a truthy `name`, else "Компания #id", which is also the answer to any failure; never empty |
| ChatPage.Coalesce | src/pages/Chat/ChatPage.jsx:142 | `a ?? b` |
| ChatPage.ApplyChatData | src/pages/Chat/ChatPage.jsx:83-145 | the vacancy label when the chat has a vacancy, the company for the role "EMPLOYEE", the company id kept otherwise; a `null` chat body throws |
| ChatPage.LoadChatData | src/pages/Chat/ChatPage.jsx:75-150 | one chat request first; a thrown error shows its message, a refusal changes nothing, a `null` body throws; otherwise the vacancy label follows `vacancyId`; the messages and the other participant are kept |
| ChatPage.LoadMessages | src/pages/Chat/ChatPage.jsx:37-152 | no request without a login; the messages, the other participant when there are messages, then the metadata; each failure ends with its message; loading always ends |
| ChatPage.HandleSend | src/pages/Chat/ChatPage.jsx:164-194 | nothing for a blank text or no login; the trimmed text is sent; only success clears the input and reloads, leaving the reloaded messages, or the reload's error with the rest of the page as it was |
| ChatPage.AvatarTarget | src/pages/Chat/ChatPage.jsx:199-212 | navigates exactly when the role's target id is present: an employee to the company, a company to the other user |
| ChatPage.HeaderName | src/pages/Chat/ChatPage.jsx:230-234 | for the role "EMPLOYEE" a truthy company name, else "Компания"; otherwise a truthy name, else a truthy login, else "Работник"; never falsy |
| ChatPage.EmployeeHeaderFallback | src/pages/Chat/ChatPage.jsx:230-235 | before the company is known an employee sees "Компания" and "К" |
| ChatPage.Subtitle | src/pages/Chat/ChatPage.jsx:276 | the vacancy title when it is truthy; otherwise "Компания" when the other user's role is "COMPANY" and "Работник" for any other role; never empty |
| ChatPage.OtherIsNotMine | src/pages/Chat/ChatPage.jsx:65 | the participant found is in the list and is not the user's message |
| ChatPage.AllMineNoOther | src/pages/Chat/ChatPage.jsx:64-72 | with every message the user's own, the participant reads as `null` |
| ChatPage.Mine | src/pages/Chat/ChatPage.jsx:287 | `===` on the sender: equal values, an object never equal; for a string login exactly the messages whose sender is that string |
| Web.AvatarOf | src/pages/Chat/ChatPage.jsx:235 | `name?.[0]?.toUpperCase() \|\| "?"`: one letter |
| ChatList.ChatsRead | src/pages/Chat/ChatListPage.jsx:81-90 | the chats request's error, or its list (a non-array as none) |
| ChatList.LoadChats | src/pages/Chat/ChatListPage.jsx:30-99 | no request without a user or for other roles; an employee's chats by login; a company's by its first vacancy's company id, with errors and no chats request when there are no vacancies or no id |
| ChatList.ProfileTarget | src/pages/Chat/ChatListPage.jsx:108-114 | navigates exactly for an employee (company view) or a company (employee view) |
| ChatList.DisplayName | src/pages/Chat/ChatListPage.jsx:146-149 | an employee sees `companyName` or "Компания #id"; others the name, then the login, then "Соискатель" |
| ChatList.VacancyLine | src/pages/Chat/ChatListPage.jsx:151-155 | the name, else "#id", else "Без вакансии" exactly when neither exists |
| ChatList.UnnamedEmployeeAvatar | src/pages/Chat/ChatListPage.jsx:168 | a company's chat without names shows "С" |
| EmployeeResponses.Load | src/pages/Responses/EmployeeResponsesPage.jsx:29-63 | no request without a login or for non-employees; one error for every failure; a non-array is an empty list |
| EmployeeResponses.StatusClass | src/pages/Responses/EmployeeResponsesPage.jsx:66-72 | ignoring case: approved and accepted give the approved class, rejected the rejected class, anything else the pending class, each exactly |
| EmployeeResponses.StatusText | src/pages/Responses/EmployeeResponsesPage.jsx:74-80 | the same mapping to labels; an unknown status shown as written; a missing or empty one "Неизвестно" |
| EmployeeResponses.CaseInsensitive | src/pages/Responses/EmployeeResponsesPage.jsx:66-80 | statuses that differ only in case get the same class, and the same text when known |
| EmployeeResponses.ApprovedIsAccepted | src/pages/Responses/EmployeeResponsesPage.jsx:69-77 | "approved" and "accepted", in any case, give the same class and text |
| EmployeeResponses.UpperAccepted | src/pages/Responses/EmployeeResponsesPage.jsx:66-80 | the server's upper-case statuses are recognised |
| EmployeeProfile.LoadProfile | src/pages/Profile/Employee/EmployeeProfilePage.jsx:14-38 | a refusal shows its text or the default; a thrown error the connection error; otherwise the body is the profile |
| EmployeeProfile.FormatName | src/pages/Profile/Employee/EmployeeProfilePage.jsx:41-46 | the present first and last names, joined by one space; "" without a profile or names |
| EmployeeProfile.Strings | src/pages/Profile/Employee/EmployeeProfilePage.jsx:43-44 | `String(v)` of each value, in order |
| EmployeeProfile.Unscore | src/pages/Profile/Employee/EmployeeProfilePage.jsx:53 | every underscore becomes a space, everything else is kept |
| EmployeeProfile.Capitalize | src/pages/Profile/Employee/EmployeeProfilePage.jsx:54 | the first character of every word is upper-cased, all others kept |
| EmployeeProfile.FormatCategory | src/pages/Profile/Employee/EmployeeProfilePage.jsx:50-55 | the same length, with no underscore left |
| EmployeeProfile.FormatAll | src/pages/Profile/Employee/EmployeeProfilePage.jsx:50-56 | every category formatted, in order and number |
| EmployeeProfile.FormatCategories | src/pages/Profile/Employee/EmployeeProfilePage.jsx:48-58 | "Не указано" for none; otherwise the formatted categories joined with ", " |
| EmployeeProfile.CategoryExample | src/pages/Profile/Employee/EmployeeProfilePage.jsx:50-55 | "IT_HR" shows as "It Hr" |
| EmployeeProfile.FirstChar | src/pages/Profile/Employee/EmployeeProfilePage.jsx:127-130 | the first character exactly when the value is a non-empty string |
| EmployeeProfile.Avatar | src/pages/Profile/Employee/EmployeeProfilePage.jsx:127-130 | the first name's letter, else the last name's, else "U", upper-cased |
| EmployeeProfile.ExperienceText | src/pages/Profile/Employee/EmployeeProfilePage.jsx:144-146 | "N лет" for any value but `null` and `undefined`, else "не указан" |
| VacancyForm.FirstEmpty | src/pages/Vacancy/CompanyVacancyNewBasic.jsx:73-88 | none exactly when every value is filled in; otherwise the error of the first empty one |
| VacancyForm.ValidationOrder | src/pages/Vacancy/CompanyVacancyNewBasic.jsx:73-88 | the checks pass exactly when the form is complete; title, busy, schedule and type are reported in that order |
| VacancyForm.Validate | src/pages/Vacancy/CompanyVacancyEditBasic.jsx:116-131 | the chain of `if`s reports `FirstEmpty` of the required fields |
| VacancyForm.AsFields | src/pages/Vacancy/CompanyVacancyNewBasic.jsx:93-100 | each pair becomes a text field, in order |
| VacancyForm.BuildForm | src/pages/Vacancy/CompanyVacancyNewBasic.jsx:93-100 | the form built step by step is `FormPairs` |
| VacancyForm.FormOfComplete | src/pages/Vacancy/CompanyVacancyEditBasic.jsx:136-143 | once the checks pass, an optional field is sent exactly when it is filled in, in append order, and nothing empty is sent |
| VacancyNewBasic.Submit | src/pages/Vacancy/CompanyVacancyNewBasic.jsx:69-139 | non-companies cannot submit; the first missing field is reported; a refusal's message is read from its body; storage ends as the client's run with the new id added only when truthy, and the wizard always moves on |
| VacancyNewBasic.CanCreate | src/pages/Vacancy/CompanyVacancyNewBasic.jsx:52 | the form is for a signed-in company exactly, never an employee or an admin |
| VacancyEditBasic.NumberText | src/pages/Vacancy/CompanyVacancyEditBasic.jsx:83-97 | "" for `null` and `undefined`, `String(v)` otherwise |
| VacancyEditBasic.ZeroExperienceKept | src/pages/Vacancy/CompanyVacancyEditBasic.jsx:83-143 | zero experience loads as "0" and is sent back |
| VacancyEditBasic.Load | src/pages/Vacancy/CompanyVacancyEditBasic.jsx:59-109 | non-companies get the error and no request; a loaded vacancy fills the form; any failure shows the load error |
| VacancyEditBasic.Submit | src/pages/Vacancy/CompanyVacancyEditBasic.jsx:112-173 | the same ordered checks; the PUT form; it navigates exactly on an accepted update with a JSON body, to `/vacancies/<id>` |
| CompanyProfile.Opened | src/pages/Profile/Company/CompanyProfilePage.jsx:17-44 | edit mode exactly on `/profile/company`; the fields from the stored profile |
| CompanyProfile.AccessOf | src/pages/Profile/Company/CompanyProfilePage.jsx:89-119 | the sign-in notice exactly without a user; the denial exactly when editing as a non-company |
| CompanyProfile.ViewOrForm | src/pages/Profile/Company/CompanyProfilePage.jsx:192-237 | a route with an id never shows the form; otherwise exactly one of view and form shows |
| CompanyProfile.ViewMode | src/pages/Profile/Company/CompanyProfilePage.jsx:13 | `!!id`: a present, non-empty id |
| CompanyProfile.ShowsView | src/pages/Profile/Company/CompanyProfilePage.jsx:192 | a route with an id always shows the view; the own route shows it exactly outside edit mode |
| CompanyProfile.ShowsForm | src/pages/Profile/Company/CompanyProfilePage.jsx:237 | the form shows only in edit mode and never with the view; on the own route exactly one of the two shows |
| CompanyProfile.ShowsEditButton | src/pages/Profile/Company/CompanyProfilePage.jsx:192-223 | the button sits inside the view: it shows exactly on the own route, outside edit mode, of a page the guards let through, and never with the form |
| CompanyProfile.Avatar | src/pages/Profile/Company/CompanyProfilePage.jsx:195 | the name's first letter upper-cased, "C" without a name |
| CompanyProfile.LoadCompany | src/pages/Profile/Company/CompanyProfilePage.jsx:50-79 | only in view mode with a non-zero id; the name falls back to `companyName`; a failure shows its message |
| CompanyProfile.Submit | src/pages/Profile/Company/CompanyProfilePage.jsx:121-174 | all three fields required; storage ends as the client's run; a saved profile replaces the fields, is stored under `company_profile`, and goes home from the own route or otherwise closes the form; a failed or empty answer keeps the fields and the mode |
| Register.Classify | src/pages/LoginRegister/RegisterPage.jsx:38-54 | the first known phrase the text contains decides, in the fixed order; otherwise the generic failure |
| Register.Mentions | src/pages/LoginRegister/RegisterPage.jsx:38-46 | `text && text.includes(p)`: a non-empty text in which the phrase occurs at some position |
| Register.MentionedInside | src/pages/LoginRegister/RegisterPage.jsx:38 | a phrase placed anywhere in a text is found by `includes` |
| Register.TakenLoginReported | src/pages/LoginRegister/RegisterPage.jsx:38-39 | any text reporting "already exists" is shown as the taken login |
| Register.StoredUser | src/pages/LoginRegister/RegisterPage.jsx:73-78 | the stored user is an object |
| Register.StoredUserMembers | src/pages/LoginRegister/RegisterPage.jsx:73-78 | with both claims it has exactly `login`, `role`, `fullName`, `email`, in that order |
| Register.StoredUserFields | src/pages/LoginRegister/RegisterPage.jsx:73-78 | `login`, `fullName` and `email` are the token's `sub`; `role` is its role |
| Register.Start | src/pages/LoginRegister/RegisterPage.jsx:86-91 | a company starts at `/profile/company` exactly; every other role, none included, at the employee wizard |
| Register.Submit | src/pages/LoginRegister/RegisterPage.jsx:17-99 | a refusal is classified and writes nothing; success stores the truthy tokens and the user and goes to `Start(role)` |
| Header.AtMostOneRole | src/components/layout/Header.jsx:73-75 | at most one of company, employee and admin holds |
| Header.IsCompany | src/components/layout/Header.jsx:73 | exactly a stored object whose `role` is the string "ROLE_COMPANY"; never a signed-out user |
| Header.IsEmployee | src/components/layout/Header.jsx:74 | exactly a stored object whose `role` is the string "ROLE_EMPLOYEE"; never a signed-out user |
| Header.IsAdmin | src/components/layout/Header.jsx:75 | exactly a stored object whose `role` is the string "ROLE_ADMIN"; never a signed-out user |
| Header.OneLinkActive | src/components/layout/Header.jsx:82-166 | of the header's links (home, about, contact, analytics) at most one is highlighted, and none on any other page |
| Header.Initial | src/components/layout/Header.jsx:78-79 | a property's upper-cased first letter exactly when it is a non-empty string |
| Header.AvatarLetter | src/components/layout/Header.jsx:77-80 | the full name's letter, else the e-mail's, else "U" |
| Header.AvatarUrl | src/components/layout/Header.jsx:48 | `mainPhoto`, else the previous avatar, else `null` |
| Header.OrElseNull | src/components/layout/Header.jsx:61 | `v \|\| null` |
| Header.Merged | src/components/layout/Header.jsx:44-56 | the avatar as `AvatarUrl`; an existing full name kept; otherwise the trimmed profile name when it has one; every other member kept |
| Header.Persisted | src/components/layout/Header.jsx:59-62 | the stored user with only `avatarUrl` replaced |
| Header.NameNotPersisted | src/components/layout/Header.jsx:44-63 | the user written back keeps its stored full name |
| Header.LoadEmployeeAvatar | src/components/layout/Header.jsx:28-67 | employees only; storage ends as the client's run; on any failure the user is unchanged; otherwise the merged user and the new avatar written back |
| Header.Logout | src/components/layout/Header.jsx:99-105 | removes exactly `token`, `refreshToken` and `th_user` and goes to `/login` |
| Header.LoggedOutSendsNoCredential | src/components/layout/Header.jsx:99-102 | after logging out the client attaches no credential |
| Onboarding.After | src/pages/Profile/Employee/EmployeeBasic.jsx:57-63 | inside the wizard the next step with the flag; otherwise `/profile` |
| Onboarding.FlagQuery | src/pages/Profile/Employee/EmployeeBasic.jsx:12-13 | the appended query reads back as `flow=register` |
| Onboarding.FlagKept | src/pages/Profile/Employee/EmployeeBasic.jsx:12-13 | a step reached with the flag is inside the wizard |
| Onboarding.FlagDropped | src/pages/Profile/Employee/EmployeeBasic.jsx:12-13 | a step reached without a query is outside it |
| Onboarding.Bearer | src/pages/Profile/Employee/EmployeeContacts.jsx:26-34 | "Bearer <token>", or "Bearer null" without a token |
| Onboarding.Strs | src/pages/Profile/Employee/EmployeeCategories.jsx:37 | each selected category as a JSON string, in order |
| EmployeeBasic.EmptyOptionalSent | src/pages/Profile/Employee/EmployeeBasic.jsx:34-41 | an empty optional field is still sent |
| EmployeeBasic.Complete | src/pages/Profile/Employee/EmployeeBasic.jsx:29 | exactly when every required entry of the form (first name, last name, birth date, gender) is filled in |
| EmployeeBasic.Submit | src/pages/Profile/Employee/EmployeeBasic.jsx:25-68 | a missing required field stops it; all seven fields are sent; a refusal shows its text or the default; success goes on |
| EmployeeCategories.Toggle | src/pages/Profile/Employee/EmployeeCategories.jsx:21-23 | flips the category's membership, appending it when absent, and keeps all others |
| EmployeeCategories.ToggleUndone | src/pages/Profile/Employee/EmployeeCategories.jsx:21-23 | picking and unpicking a category restores the selection |
| EmployeeCategories.Save | src/pages/Profile/Employee/EmployeeCategories.jsx:25-57 | nothing sent for none selected; a refusal shows its text or the default; success goes on and keeps the old error |
| EmployeeCategories.BodyIsSelection | src/pages/Profile/Employee/EmployeeCategories.jsx:37 | the body lists exactly the selection, in order |
| EmployeeContacts.Save | src/pages/Profile/Employee/EmployeeContacts.jsx:17-44 | phone and e-mail required; a refusal is the generic error; success goes to the next step without the flag |
| EmployeeAdditional.Save | src/pages/Profile/Employee/EmployeeAdditional.jsx:19-45 | nothing checked; the JSON body `{addInfo}`; a refusal is the generic error; success goes on |
| EmployeeUploadResume.FileChosen | src/pages/Profile/Employee/EmployeeUploadResume.jsx:18-21 | the chosen file, and no error |
| EmployeeUploadResume.Submit | src/pages/Profile/Employee/EmployeeUploadResume.jsx:23-71 | nothing sent without a file; a refusal shows its text or the default; success goes on |
| EmployeeUploadPhoto.FileChosen | src/pages/Profile/Employee/EmployeeUploadPhoto.jsx:20-23 | the chosen file, and no error |
| EmployeeUploadPhoto.RefusalMessage | src/pages/Profile/Employee/EmployeeUploadPhoto.jsx:51-59 | the JSON `message`, else `error`, else the text, else the default; never empty |
| EmployeeUploadPhoto.PlainTextShown | src/pages/Profile/Employee/EmployeeUploadPhoto.jsx:51-59 | a plain-text refusal is shown as it is |
| EmployeeUploadPhoto.Submit | src/pages/Profile/Employee/EmployeeUploadPhoto.jsx:25-75 | nothing sent without a file; success ends on `/` in the wizard and goes to `/profile` otherwise |
| EmployeeWizard.SignUpStartsWizard | src/pages/LoginRegister/RegisterPage.jsx:86-91 | signing up as anything but a company lands inside the wizard |
| EmployeeWizard.FlagPassedOn | src/pages/Profile/Employee/EmployeeBasic.jsx:57-63 | inside the wizard, basic data, categories, additional data and résumé pass the flag on |
| EmployeeWizard.BasicToCategories | src/pages/Profile/Employee/EmployeeBasic.jsx:57-59 | the first step goes to categories with the flag |
| EmployeeWizard.CategoriesToContacts | src/pages/Profile/Employee/EmployeeCategories.jsx:48-49 | categories go to contacts with the flag |
| EmployeeWizard.ContactsDropsFlag | src/pages/Profile/Employee/EmployeeContacts.jsx:43 | after contacts the flag is gone, so the next step goes back to `/profile` |
| EmployeeWizard.RegistrationRun | src/pages/Profile/Employee/EmployeeContacts.jsx:43 | the run from sign-up keeps the flag up to contacts and then leaves the wizard |
| EmployeeWizard.PhotoEndsWizard | src/pages/Profile/Employee/EmployeeUploadPhoto.jsx:65-66 | inside the wizard the photo step ends on `/` |
| EmployeeWizard.IntendedContactsNext | src/pages/Profile/Employee/EmployeeContacts.jsx:43 | the corrected contacts step: inside the wizard it goes on to the additional step with the flag, outside it to `/profile` |
| EmployeeWizard.IntendedRegistrationRun | src/pages/Profile/Employee/EmployeeAdditional.jsx:38-44 | with the corrected contacts step, sign-up passes the additional, résumé and photo steps inside the wizard |
| VacancyAdditional.Submit | src/pages/Vacancy/CompanyVacancyAdditional.jsx:34-90 | without a stored vacancy nothing; text then token checked, neither sending anything; storage ends as the client's run; a refusal's message from its body; success goes to step 3 |
| VacancyAdditional.HasVacancy | src/pages/Vacancy/CompanyVacancyAdditional.jsx:11-17 | the stored vacancy id is present and truthy |
| VacancyPhoto.Submit | src/pages/Vacancy/CompanyVacancyPhoto.jsx:36-96 | without a stored vacancy nothing; file then token checked; storage ends as the client's run; only success removes the id and goes to `/vacancies` |
| VacancyWizard.IdCarried | src/pages/Vacancy/CompanyVacancyNewBasic.jsx:128-130 | the id the first step stores opens the later steps, and they address that vacancy |
| VacancyWizard.FinishCloses | src/pages/Vacancy/CompanyVacancyPhoto.jsx:86 | after the last step the earlier ones show their notice, and no other entry changes |
| Web.OkJson | src/pages/Vacancy/VacancyListPage.jsx:61-66 | the parsed body exactly when the reply is ok and JSON |
| Web.ReadFailure | src/pages/Vacancy/VacancyListPage.jsx:61-66 | what the throw-then-parse pattern throws: the client's error, the text or the fallback, or the parse error; nothing exactly when the body is usable |
| Web.BodyMessage | src/pages/Vacancy/CompanyVacancyNewBasic.jsx:111-121 | a JSON body's truthy `message`, else the default; for a non-JSON body its text, else the default |
| Web.BodyMessageAsWritten | src/pages/Vacancy/CompanyVacancyNewBasic.jsx:111-121 | as written, a non-JSON body (and a `null` one without the guard) makes the second read throw; otherwise it agrees with `BodyMessage` |
| Web.TextFallbackLost | src/pages/Vacancy/CompanyVacancyEditBasic.jsx:154-163 | every refusal with a non-empty plain-text body is lost as written, with or without the `null` guard, and shown by the evident intent, whatever the default |
| UrlCodec.QueryGet | src/pages/Profile/Employee/EmployeeBasic.jsx:12-13 | `URLSearchParams.get`: the value of the first non-empty piece with that name, or nothing when no piece has it |
| Text.Lower | src/pages/Responses/EmployeeResponsesPage.jsx:67 | `toLowerCase`: same length, each character lower-cased |
| Text.UpperChar | src/components/layout/Header.jsx:78-79 | `toUpperCase` of a letter: a Latin letter moves 32 places; a character that is not a lower-case letter stays |
| Text.CaseRoundTrip | src/components/layout/Header.jsx:78-79 | lower-casing an upper-cased letter gives it back |

## Left out

- Network and storage are abstract. The server is a scripted sequence of deliveries; a
  script that runs out is a network failure. `localStorage` is a string map with get, set and
  remove.
- Concurrency is not modelled:
  - the `Promise.all` fan-out of the analytics reports and of the vacancy titles;
  - the `cancelled` flags of effect cleanups;
  - refreshes that race on the shared store.
  The title requests are modelled as one after another.
- AdminAnalytics: the main report load (`loadMain`) is a `Promise.all` of three reports with
  no sequential contract, so it is not modelled; only its chart derivations are.
- Rendering, CSS and the chart components are not modelled; navigation is the path returned.
  Alerts are an `alert` output where the source shows one.
- Numbers are integers; floating-point values and `toFixed`/locale formatting are not modelled.
- `parseJwt` and `WORK_CATEGORIES` are not part of this model. The JWT payload is the `payload`
  parameter of `Register.Submit`, and categories are whatever the page passes.
- The `JSON.parse` of the stored `th_user` and `company_profile` is not modelled; the parsed
  user or profile is a parameter.
- `Number(id)` of a route parameter is not modelled; it is the `Option<int>` parameter, with
  `None` for `NaN`.
- JavaScript objects are lists of members in the order they were parsed or built. Two details of
  `Object.entries` and `JSON.parse` are not modelled: integer-like keys coming first, and a
  duplicate name collapsing to one member. `Json.Get` reads the last member with a name, as
  `JSON.parse` would keep it.
- A `null` element of an array that a page walks is read as a value with no members (every
  property missing). The source's property read of `null` throws, and the model does not catch
  that. This concerns CompanyResponses.VacancyIds and CompanyResponses.Load,
  ChatList.LoadChats, ChatPage.Other and ChatPage.LoadMessages, VacancyDetails.AnyBlocks,
  AdminAnalytics.CategoryBars, AdminAnalytics.ChatBars and AdminAnalytics.SeriesData, and
  Web.FindById and VacancyList.SelectedCompaniesText.
- Browser error texts (`Failed to fetch`, `Unexpected end of JSON input`, reading a property of
  `null`, reading a used body) are Chromium's. The parse error of a non-empty invalid body is
  modelled by that same text.
- Text.Lower / Text.UpperChar: case mapping covers ASCII and the basic Cyrillic letters only,
  not the rest of Unicode.
- UrlCodec.QueryGet: reads a query parameter without percent-decoding. Every value it reads
  here is encoded plain text.
- HTTP header names are compared case-sensitively; `fetch` treats them case-insensitively.
- CompanyResponses.Approved, CompanyResponses.Rejected, CompanyResponses.ChatTarget,
  CompanyResponses.Approve and CompanyResponses.Reject: a `null` JSON answer to approve or
  reject is taken as an update without an id. In the source, the `setResponses` updater reads
  `updated.id` of `null` and throws inside React, and the chat search reads
  `updated.vacancyId` and ends on `/chats`. The model instead replaces every entry without an
  id by `null` (and rejecting then drops them), and can match a chat that lacks `vacancyId` and
  `employeeLogin`.
- AdminAnalytics.Period: series periods are compared as the text of `${period}`. The source's
  `a.period > b.period` agrees for string periods. Numeric periods, which it compares as
  numbers, are not modelled that way: "10" sorts before "9" here.
- VacancyNewBasic.Submit, VacancyEditBasic.Submit, VacancyAdditional.Submit and
  VacancyPhoto.Submit: for a refusal with a plain-text body they show the body text, which is the
  intended reading (`Web.BodyMessage`). As written, each page reads the body twice. The second
  read throws, so the page shows the connection error, or for the edit page the body-used
  text. "## Findings" records this, with `Web.BodyMessageAsWritten` and `Web.TextFallbackLost`
  as the as-written half.
- Header.LoadEmployeeAvatar: a `null` profile body is treated as no change. In the source, the
  state updater that reads `data.mainPhoto` runs later, inside React, and would throw there.
- EmployeeResponses.StatusClass: a status that is not a string (where `toLowerCase` throws) is
  not modelled; the status is a string or missing.
- EmployeeProfile.FormatCategories: categories are strings; `null` elements and non-string
  elements are not modelled.
- ChatPage: the time formatting of messages is not modelled.
- EmployeeContacts.Save and EmployeeAdditional.Save: a rejected `fetch` is not caught in the
  source. It is modelled as leaving the page unchanged with the error cleared; the unhandled
  rejection itself is not.
- The static and routing-only files are not modelled, since they decide nothing: the login
  page, the home page, the about and contact pages, the footer, the route table, the profile
  dispatchers, and the vacancy edit-photo and edit-additional pages.

## Findings

| source | as written | input that shows it | evidently intended | confidence | as-written member | corrected member |
|---|---|---|---|---|---|---|
| src/pages/Vacancy/CompanyVacancyNewBasic.jsx:113-121 | a refused create reads `res.json()`, and in its `catch` reads `res.text()` from a body already consumed, which throws | status 400 with the plain-text body "Title is too long": the page shows the connection error, not the text | show the body text when it is not JSON | not executed | Web.TextFallbackLost | Web.BodyMessage |
| src/pages/Vacancy/CompanyVacancyEditBasic.jsx:156-163 | the same double read; also `data.message` without a `null` check | status 400 with a plain-text body: the page shows "Failed to execute 'text' on 'Response': body stream already read" | show the body text | not executed | Web.BodyMessageAsWritten | Web.BodyMessage |
| src/pages/Vacancy/CompanyVacancyAdditional.jsx:65-73 | the same double read | status 400 with a plain-text body: the connection error is shown | show the body text | not executed | Web.TextFallbackLost | Web.BodyMessage |
| src/pages/Vacancy/CompanyVacancyPhoto.jsx:67-75 | the same double read | status 413 with a plain-text body: the connection error is shown | show the body text | not executed | Web.TextFallbackLost | Web.BodyMessage |
| src/pages/Profile/Employee/EmployeeContacts.jsx:43 | the contacts step navigates to `/profile/employee/additional` without `?flow=register`, so the additional step (EmployeeAdditional.jsx:38-44) takes itself to be opened from the profile | a sign-up run through basic data, categories and contacts: after saving additional information it lands on `/profile`, and the résumé and photo steps are never shown | pass the flag on, as the other steps do | not executed | EmployeeWizard.RegistrationRun | EmployeeWizard.IntendedContactsNext |

The page models use the corrected `Web.BodyMessage`. The contacts page keeps its navigation as
written; `EmployeeWizard.IntendedRegistrationRun` proves the intended run with the corrected step.
