# CivicSnap front end: a Dafny model of its logic

CivicSnap lets citizens photograph and report civic problems (potholes,
garbage, broken lights, water leakage, graffiti). The issues are shown on a
public dashboard, and administrators move them through the workflow
reported → in progress → resolved, or reject or delete them. This project
models the logic of the React front end's core, and proves properties of that model:

- `Helpers` (`helpers.dfy`): the display and ordering helpers:
  - relative time;
  - category and status labels;
  - truncation;
  - colour, icon and emoji lookups with their fallbacks;
  - priority colours and the coordinate range check;
  - sorting by priority (a copy sorted in place in an array);
  - grouping by category (an accumulator map filled in a loop).
- `Api` (`api.dfy`):
  - the client's error normalisation, and `Settle`, the pattern every endpoint wrapper follows;
  - the session store, a class holding the two stored keys `token` and `user`, with login, logout, the user and admin queries, and the request interceptor.
- `ImageUpload` (`image_upload.dfy`): the upload control. Its validation runs in a fixed order, and its `preview`, `uploading` and `dragActive` state changes around the upload call.
- `IssueForm` (`issue_form.dfy`):
  - the form record, and the dotted-name change rule shared by the issue form and the report page;
  - the stand-alone form component.
- `ReportIssue` (`report_issue.dfy`): the report page's image, submission, error and AI-result transitions.
- `Dashboard` (`dashboard.dfy`): the public dashboard's filters, its query, the list fetch, the badge classes and the card contents.
- `AdminDashboard` (`admin_dashboard.dfy`): the admin gate, the filtered list, and status changes and deletions followed by a refetch.
- `IssueDetail` (`issue_detail.dfy`):
  - the status transitions the page offers;
  - the `actionLoading` lock;
  - the order of the fetch, vote, status-change and delete actions.
- `Common` and `Text` hold the shared datatypes and the JavaScript string operations the core uses: `split`, `join`, `startsWith`, and `replace` of the first occurrence.

The network, the clock and the browser become parameters:

- Every HTTP call is a `Call<T>`: either the reply body, or an `HttpError` that records whether the server answered, whether a request went out, and the exception's message.
- Elapsed time is a whole number of seconds.
- A file is its name, MIME type and size.
- The geolocation service's answer is a `Geolocation` value.

Each page is a class whose fields are its React state. Toasts, alerts, requests sent and navigations scheduled are kept as sequences, in the order they happen.

A text field that the backend may leave out is modelled as "". Where the core tests such a field for truthiness (the description, the city, the category), an absent value and "" behave alike. The uses that do not test it are listed under "Left out".

## Model

| member | source | states |
|---|---|---|
| Helpers.TimeAgo | src/utils/helpers.js:19-41 | the loop over the unit table returns exactly the first-fitting-unit answer `FirstBucket(seconds, 0)` |
| Helpers.TimeAgoBuckets | src/utils/helpers.js:24-40 | range by range: year at ≥31536000 s, month at ≥2592000, week at ≥604800, day at ≥86400, hour at ≥3600, minute at ≥60, each with the floored count and "s" iff the count exceeds 1; "Just now" below 60 s, negative (future) values included |
| Helpers.RelativeTime | src/utils/helpers.js:202-218 | "Just now" for every value below 60 seconds, negative ones included |
| Helpers.TimeAgoMatchesRelativeTime | src/utils/helpers.js:202-218 | for every integer elapsed time, getRelativeTime and timeAgo return the same string |
| Helpers.GetSeverityColor | src/utils/helpers.js:44-51 | a mapped severity gets its colour; any other gets the moderate colour; the result is always one of the table's colours |
| Helpers.GetStatusColor | src/utils/helpers.js:54-62 | a mapped status gets its colour; any other gets the reported colour |
| Helpers.GetCategoryIcon | src/utils/helpers.js:76-86 | a mapped category gets its icon; any other gets the 'other' icon |
| Helpers.GetSeverityEmoji | src/utils/helpers.js:159-166 | a mapped severity gets its emoji; any other gets the white circle; never empty |
| Helpers.GetStatusEmoji | src/utils/helpers.js:169-177 | a mapped status gets its emoji; any other gets the question mark; never empty |
| Helpers.SplitCapitalizeJoin | src/utils/helpers.js:68-71 | splitting on "_", capitalising every word and joining with " " equals the character-by-character label |
| Helpers.FormatCategory | src/utils/helpers.js:65-73 | "Unknown" for an empty category. Otherwise the length is preserved, every "_" becomes a space, the first character and each character after "_" are upper-cased, and all others are unchanged |
| Helpers.FormatStatus | src/utils/helpers.js:151-156 | the same label as formatCategory for every input |
| Helpers.TruncateText | src/utils/helpers.js:145-148 | an empty or short-enough text is returned unchanged. A longer one gives max(0, maxLength) + 3 characters: a prefix of the text followed by "..." (lengths counted in characters, see "Left out") |
| Helpers.DefaultTruncation | src/utils/helpers.js:145-148 | with the default length 100, a text of at most 100 characters is kept whole; a longer one becomes 103 characters, its first 100 followed by "..." |
| Helpers.TruncateTextIdempotent | src/utils/helpers.js:145-148 | truncating a truncated text changes nothing |
| Helpers.GetPriorityColor | src/utils/helpers.js:137-142 | red iff ≥ 80, orange iff in [60, 80), yellow iff in [40, 60), green iff < 40 |
| Helpers.PriorityColorMonotonic | src/utils/helpers.js:137-142 | a higher priority never gets a less urgent colour |
| Helpers.IsValidCoordinates | src/utils/helpers.js:99-106 | valid iff both values are numbers, latitude is in [-90, 90] and longitude is in [-180, 180] |
| Helpers.SortByPriority | src/utils/helpers.js:233-239 | the result is a permutation of the input. It is non-increasing by priority (a missing priority counts as 0) for "desc" and non-decreasing for any other order. Issues of equal priority keep their input order, as the stable `Array.prototype.sort` keeps them. The input is a value and is not modified |
| Helpers.SortByPriorityDefault | src/utils/helpers.js:233 | without an order argument the sort is by non-increasing priority, with ties in input order |
| Helpers.SwapKeepsTies | src/utils/helpers.js:234-238 | exchanging two neighbours of different priority keeps the order among the issues of every priority |
| Helpers.StableOnTwoTies | src/utils/helpers.js:234-238 | for two issues of equal priority, the only permutation that keeps ties in order is the input itself |
| Helpers.GroupByCategory | src/utils/helpers.js:221-230 | the keys are exactly the keys that occur (category, or "other" for an empty one), and each group is that key's issues in input order |
| Helpers.InGroupMembers | src/utils/helpers.js:221-230 | an issue is in a group iff it is in the input and has that group's key |
| Helpers.EveryIssueInOneGroup | src/utils/helpers.js:221-230 | every issue is in the group of its own key and in no other group |
| Api.HandleError | src/services/api.js:129-144 | With a reply, the message is its `error`, else its joined `errors`, else "An error occurred". Without a reply but with a request, it is the network message. Otherwise it is the exception's message or "An unexpected error occurred". It is never empty |
| Api.EmptyErrorListFallsThrough | src/services/api.js:132-134 | an empty `errors` list joins to "" and gives the default message |
| Api.ResponseTakesPrecedence | src/services/api.js:130-139 | once there is a reply, whether a request was recorded does not change the message |
| Api.Settle | src/services/api.js:152-167 | a wrapper returns the reply body, or fails with the normalised, non-empty message |
| Api.SessionStore.Login | src/services/api.js:186-204 | both keys are stored only for a reply whose token is non-empty. Any other reply, and any failure, leaves the store untouched. The result is the settled call |
| Api.SessionStore.Logout | src/services/api.js:209-212 | both keys are removed; afterwards there is no current user and isAdmin is false |
| Api.SessionStore.GetCurrentUser | src/services/api.js:217-220 | the stored user record, or none |
| Api.SessionStore.IsAdmin | src/services/api.js:225-228 | true iff a user is stored and its role is "admin" |
| Api.SessionStore.GetToken | src/services/api.js:233-235 | the stored token, or none |
| Api.SessionStore.InterceptRequest | src/services/api.js:238-245 | sets Authorization to "Bearer " + token iff a non-empty token is stored, otherwise leaves the headers alone, and hands back the same configuration |
| Api.LoginThenLogoutTwice | src/services/api.js:209-228 | an admin is an admin after login; two logouts leave the same empty session as one |
| ImageUpload.Validate | src/components/ImageUpload.jsx:18-29 | not an image iff the MIME type lacks the "image/" prefix; too large iff it is an image over 5·1024·1024 bytes; accepted otherwise |
| ImageUpload.SizeBoundary | src/components/ImageUpload.jsx:20-29 | exactly 5 MiB is accepted and one byte more is not; an oversize non-image is reported as a type error |
| ImageUpload.Uploader.constructor | src/components/ImageUpload.jsx:5-7 | no preview, not uploading, no drag highlight |
| ImageUpload.Uploader.ProcessFile | src/components/ImageUpload.jsx:18-46 | A rejected file only raises its alert: no preview, no upload, no callback. An accepted file is previewed and uploaded. The callback gets the URL on success; an alert carries the message on failure. `uploading` is false afterwards |
| ImageUpload.Uploader.HandleFileChange | src/components/ImageUpload.jsx:9-14 | the first chosen file goes through processFile; an empty selection changes nothing |
| ImageUpload.Uploader.HandleDrop | src/components/ImageUpload.jsx:58-66 | the drag highlight is cleared, and the first dropped file goes through processFile |
| ImageUpload.Uploader.HandleDrag | src/components/ImageUpload.jsx:48-56 | dragenter/dragover set the highlight, dragleave clears it, other events leave it; nothing else changes |
| ImageUpload.Uploader.RemovePreview | src/components/ImageUpload.jsx:102-105 | the preview is dropped and the callback receives "" |
| IssueForm.FieldAfterPrefix | src/components/IssueForm.jsx:25 | for "location.f" or "reportedBy.f", the split field is f when f has no dot |
| IssueForm.LocationUpdate | src/components/IssueForm.jsx:24-29 | "location.f" writes exactly `location[f]` |
| IssueForm.LocationChangeIsLocal | src/components/IssueForm.jsx:24-29 | "location.f" sets `location.f`; every other location field, the reporter fields and the top-level fields are unchanged |
| IssueForm.ReporterChangeIsLocal | src/components/IssueForm.jsx:30-35 | "reportedBy.f" sets `reportedBy.f`; everything else is unchanged |
| IssueForm.Update | src/components/IssueForm.jsx:21-39 | one change event never removes a field, changes at most one of the three parts of the record, and leaves the typed value in the record |
| IssueForm.TopLevelChangeIsLocal | src/components/IssueForm.jsx:36-38 | any other name, except exactly "location" and "reportedBy", sets that top-level field; everything else is unchanged |
| IssueForm.WithPosition | src/components/IssueForm.jsx:45-52 | a captured position sets latitude and longitude and changes no other field |
| IssueForm.TypedCoordinatesMatchPosition | src/components/IssueForm.jsx:45-52 | typing both coordinates gives the same record as capturing the position |
| IssueForm.IssueFormView.constructor | src/components/IssueForm.jsx:4-19 | the initial record has every field set to "" |
| IssueForm.IssueFormView.HandleChange | src/components/IssueForm.jsx:21-39 | the record becomes the dotted-name update of the old one |
| IssueForm.IssueFormView.UseCurrentLocation | src/components/IssueForm.jsx:41-61 | a position fills both coordinates; a refusal or a missing service raises its alert and leaves the record |
| IssueForm.IssueFormView.HandleSubmit | src/components/IssueForm.jsx:63-66 | the current record is handed to `onSubmit` unchanged |
| IssueForm.SubmitDisabled | src/components/IssueForm.jsx:216 | disabled iff loading; an empty image URL does not disable it |
| IssueForm.ShowsError | src/components/IssueForm.jsx:207-211 | the error block is shown iff the error is non-empty |
| ReportIssue.SubmitErrorText | src/pages/ReportIssue.jsx:116-117 | the failure's message, or "Failed to submit issue" for an empty one |
| ReportIssue.SubmitFallbackUnreachable | src/pages/ReportIssue.jsx:115-117 | a failed submission always shows the client's normalised message |
| ReportIssue.ReportIssuePage.constructor | src/pages/ReportIssue.jsx:11-30 | empty record, not loading, no error, no AI result |
| ReportIssue.ReportIssuePage.HandleChange | src/pages/ReportIssue.jsx:32-50 | the shared dotted-name update; nothing else changes |
| ReportIssue.ReportIssuePage.HandleImageUploaded | src/pages/ReportIssue.jsx:52-55 | imageUrl is set and the error is cleared; no other field changes |
| ReportIssue.ReportIssuePage.UseCurrentLocation | src/pages/ReportIssue.jsx:57-78 | a position fills both coordinates with a success toast; otherwise an error toast says why |
| ReportIssue.ReportIssuePage.HandleSubmit | src/pages/ReportIssue.jsx:80-121 | With no image URL, the error becomes "Please upload an image first" and nothing is sent. Otherwise the record is sent and loading ends false. A reply sets the AI result, a success toast and the redirect to /dashboard. A failure leaves no AI result and shows the message as error and toast |
| ReportIssue.ReportIssuePage.SubmitDisabled | src/pages/ReportIssue.jsx:282 | disabled iff loading or the image URL is empty |
| ReportIssue.ReportIssuePage.ShowsSuccess | src/pages/ReportIssue.jsx:124 | the success screen shows iff an AI result is held |
| ReportIssue.UploadEnablesSubmit | src/pages/ReportIssue.jsx:52-55 | a fresh page cannot submit; an uploaded non-empty URL enables it |
| Dashboard.SetField | src/pages/Dashboard.jsx:57-90 | a select replaces its own filter field and keeps the other two |
| Dashboard.QueryOf | src/pages/Dashboard.jsx:22-25 | the query a filter stands for: key k (one of category, severity, status) iff filter k is non-empty, and then its value, so no value is empty |
| Dashboard.StatusOnlyQuery | src/pages/Dashboard.jsx:22-25 | a filter with only the status set gives exactly {status: that status} |
| Dashboard.QueryOfInjective | src/pages/Dashboard.jsx:22-25 | two different filters never send the same query |
| Dashboard.BuildParams | src/pages/Dashboard.jsx:22-25 | the loop-free builder gives exactly the filter's query; the initial filter gives an empty query |
| Dashboard.SeverityClass | src/pages/Dashboard.jsx:36-40 | critical and moderate get their badges; anything else gets badge-minor |
| Dashboard.StatusClass | src/pages/Dashboard.jsx:42-47 | in_progress and resolved get their badges; anything else, rejected included, gets badge-reported |
| Dashboard.CityText | src/pages/Dashboard.jsx:126 | the city, or "Unknown" |
| Dashboard.CardOf | src/pages/Dashboard.jsx:107-137 | A card shows the category icon and label, the severity badge, and the description or "No description". It also shows the city fallback, the status badge and text, and the link to the issue |
| Dashboard.DashboardPage.constructor | src/pages/Dashboard.jsx:7-13 | no issues, loading, all filters empty |
| Dashboard.DashboardPage.FetchIssues | src/pages/Dashboard.jsx:19-34 | Appends the filter's query to the requests sent, keeping the earlier ones. A reply replaces the list and a failure keeps it. Loading is false afterwards |
| Dashboard.DashboardPage.ChangeFilter | src/pages/Dashboard.jsx:15-17 | the select's field is replaced, then the new filter's query is appended to the requests sent; the list outcome is that of the fetch |
| Dashboard.MountThenSelectResolved | src/pages/Dashboard.jsx:15-25 | mounting sends an empty query; then choosing "resolved" sends exactly {status: "resolved"} |
| Dashboard.DashboardPage.View | src/pages/Dashboard.jsx:95-105 | the loading view iff loading; else the empty view iff there are no issues; else one card per issue in order |
| AdminDashboard.MarkedToast | src/pages/AdminDashboard.jsx:40 | "Issue marked as " followed by the status, of the same length, unchanged when it has no underscore |
| AdminDashboard.MarkedToastReplacesFirstUnderscore | src/pages/AdminDashboard.jsx:40 | only the first underscore of the status is shown as a space |
| AdminDashboard.DescriptionCell | src/pages/AdminDashboard.jsx:158 | The first 50 characters followed by "...", which is appended even when nothing was cut. "No description" for an empty description (lengths counted in characters, see "Left out") |
| AdminDashboard.RowOf | src/pages/AdminDashboard.jsx:151-190 | A row shows the icon and label, the description cell and the city fallback. It also shows the status, the `badge-<severity>` class and the link |
| AdminDashboard.AdminDashboardPage.constructor | src/pages/AdminDashboard.jsx:10-12 | no issues, loading, filter {status: "reported"} |
| AdminDashboard.AdminDashboardPage.FetchIssues | src/pages/AdminDashboard.jsx:25-35 | Queries with the filter object as it stands, empty values included. A reply replaces the list; a failure keeps it and raises "Failed to load issues". Loading is false afterwards |
| AdminDashboard.AdminDashboardPage.Activate | src/pages/AdminDashboard.jsx:14-23 | A non-admin gets "Access denied. Admin only." and a navigation to /login, with no fetch. An admin gets a fetch |
| AdminDashboard.AdminDashboardPage.ChangeFilter | src/pages/AdminDashboard.jsx:84-86 | The filter key is set and the gate runs again. A non-admin gets the access-denied toast and /login, with the list, loading and requests untouched. An admin sends the new filter, ends not loading, and gets the fetch's toasts. Updates and deletions are never touched |
| AdminDashboard.AdminDashboardPage.HandleStatusChange | src/pages/AdminDashboard.jsx:37-45 | A success raises a toast naming the new status, then refetches. A failure raises "Failed to update status: " + message and leaves the list, loading and requests untouched |
| AdminDashboard.AdminDashboardPage.HandleDelete | src/pages/AdminDashboard.jsx:47-57 | A declined confirmation changes nothing. A success raises "Issue deleted successfully", then refetches. A failure raises "Failed to delete: " + message and does not refetch |
| AdminDashboard.AdminDashboardPage.View | src/pages/AdminDashboard.jsx:122-131 | the loading view iff loading; else the empty view iff there are no issues; else one row per issue in order |
| AdminDashboard.NonAdminNeverFetches | src/pages/AdminDashboard.jsx:14-23 | for any sequence of filter changes (any keys, any values), a non-admin gets one access-denied toast and one /login navigation on mount and on each change, no list request is ever made, and the page stays loading |
| IssueDetail.OfferedTransitions | src/pages/IssueDetail.jsx:300-330 | reported offers in_progress, in_progress offers resolved, and every other status offers nothing |
| IssueDetail.OfferedPathAdvances | src/pages/IssueDetail.jsx:300-330 | each offered change moves one workflow step forward, so a path of offered changes has at most three statuses and ends at in_progress or resolved |
| IssueDetail.StatusMessage | src/pages/IssueDetail.jsx:62-68 | the message of in_progress, resolved or rejected; for any other status, "Status updated successfully" |
| IssueDetail.HeaderOf | src/pages/IssueDetail.jsx:164-182 | the category icon and label, the severity and status badge classes, and the status text |
| IssueDetail.IssueDetailPage.constructor | src/pages/IssueDetail.jsx:18-21 | no issue, loading, no error, no action running |
| IssueDetail.IssueDetailPage.FetchIssue | src/pages/IssueDetail.jsx:27-40 | The error is cleared first. A reply sets the issue. A failure sets "Failed to load issue details" with a toast. Loading is false afterwards |
| IssueDetail.IssueDetailPage.HandleVote | src/pages/IssueDetail.jsx:42-53 | An accepted vote refetches, then shows the success toast even when the refetch fails. A refused vote raises "Failed to vote: " + message. actionLoading is false afterwards |
| IssueDetail.IssueDetailPage.HandleStatusChange | src/pages/IssueDetail.jsx:55-74 | An accepted update refetches, then shows the status's message. A refused one raises "Failed to update status: " + message. actionLoading is false afterwards |
| IssueDetail.IssueDetailPage.HandleDelete | src/pages/IssueDetail.jsx:76-90 | A success raises a toast, schedules /dashboard and keeps actionLoading true. A failure raises "Failed to delete issue: " + message and resets actionLoading |
| IssueDetail.IssueDetailPage.ActionsEnabled | src/pages/IssueDetail.jsx:287 | the action buttons are enabled iff no action is running |
| IssueDetail.IssueDetailPage.PressVote | src/pages/IssueDetail.jsx:285-297 | ignored while an action runs, otherwise a vote |
| IssueDetail.IssueDetailPage.PressStatus | src/pages/IssueDetail.jsx:300-330 | only an offered target can be pressed, and only while no action runs |
| IssueDetail.IssueDetailPage.PressDelete | src/pages/IssueDetail.jsx:333-346 | ignored while an action runs, otherwise a delete |
| IssueDetail.IssueDetailPage.View | src/pages/IssueDetail.jsx:105-134 | the loading view iff loading; the error view iff not loading and (an error is set or no issue is held); else the issue with its offered transitions |
| IssueDetail.DeleteLocksActions | src/pages/IssueDetail.jsx:76-90 | after a successful delete, further vote and delete presses send nothing |

## Left out

- formatDate, formatConfidence, calculateDistance, formatDistance, getUserLocation and isValidImageUrl are not modelled. They rest on locale formatting, floating-point rendering, the browser's geolocation promise or the `URL` constructor.
- The clock is not modelled: relative time takes the elapsed whole seconds as input. An unparsable date gives NaN in the source; timeAgo then says "Just now" while getRelativeTime says "NaN years ago". That difference is outside the integer model.
- Helpers.FormatCategory: upper-casing is modelled for the ASCII letters only, because JavaScript's full Unicode case mapping is out of scope.
- Lookup tables and the grouping accumulator are maps holding only their own keys. JavaScript's inherited object keys (such as "constructor") are not modelled.
- The emoji constants are written as the Unicode characters the source evidently means, because its text holds them mis-encoded.
- Api.SessionStore.Login: localStorage and the JSON round trip of the stored user are an abstract store in which the user comes back unchanged. The login reply is modelled as the user record itself, without the extra `data` wrapper. A reply lacking that wrapper, which throws a TypeError in the source, is not modelled.
- Api.SessionStore.IsAdmin returns a boolean. The source returns the stored user or null when no user is stored, which tests the same way.
- The interceptor's error handler only forwards the rejection, and is left out.
- The remaining endpoint wrappers (createIssue, getAllIssues, getIssueById, updateIssue, deleteIssue, voteIssue, uploadImage) all follow the pattern that `Api.Settle` models. register and getIssueStats are not used by the core.
- ImageUpload.Uploader.ProcessFile: the FileReader preview is modelled as the file being previewed at once, and the data URL's content is not modelled. The upload reply is modelled as carrying `imageUrl` directly.
- Asynchrony is not modelled. Every handler runs to completion, with its calls' outcomes given as parameters. Overlapping handlers, responses arriving after unmount, and the un-awaited processFile in handleDrop and refetch after admin actions are not modelled. The 3000 ms and 1500 ms timers are recorded as scheduled navigations.
- ReportIssue.ReportIssuePage.HandleSubmit records the form record it sends. The parseFloat conversion of the coordinates in the payload is floating point and is not modelled.
- Dashboard.CardOf states the status text only by its length and by its identity when there is no underscore. The exact text is `Text.ReplaceFirst`, and `Text.ReplaceFirstAt` characterises it.
- IssueDetail.HeaderOf states the status text in the same way as Dashboard.CardOf, for the same reason.
- Rendering is not modelled: markup, styles, images, formatted dates, the AI-analysis and reporter panels, the admin welcome line, console logging, and the toast and alert display itself.
- Route changes of the detail page's `id` after mount are not modelled: a page is created for one id.
- Helpers.TruncateText: lengths and cuts are counted in Unicode characters. JavaScript's `length` and `substring` count UTF-16 code units, so for text outside the Basic Multilingual Plane (emoji, for instance) the source cuts earlier than the model and can split a surrogate pair. UTF-16 encoding is not modelled.
- AdminDashboard.DescriptionCell: the 50-character cut is counted in Unicode characters, not UTF-16 code units, with the same consequences as for Helpers.TruncateText.
- IssueForm.Update: a change event named exactly "location" or "reportedBy" would, in the source, replace the nested object by the typed text. The model writes a top-level field of that name instead. No input of either form carries either name.
- IssueForm.TopLevelChangeIsLocal: stated for names other than exactly "location" and "reportedBy", for the reason above.
- Fields the backend leaves out are not modelled as absent where the core does not test them: `issue.status.replace` throws on a missing status (src/pages/Dashboard.jsx:132, src/pages/IssueDetail.jsx:180), `badge-${issue.severity}` renders "badge-undefined" (src/pages/AdminDashboard.jsx:184), and `issue.location.city` throws when `location` itself is missing (src/pages/Dashboard.jsx:126, src/pages/AdminDashboard.jsx:164). The model reads these fields as "".
- IssueDetail.IssueDetailPage.PressVote, PressStatus and PressDelete accept a press in any state. In the source the buttons exist only in the detail view, that is, once an issue is loaded.
- The HTML `required` attributes on the image URL and coordinate inputs (src/components/IssueForm.jsx:79, 129, 139; src/pages/ReportIssue.jsx:202, 212) are enforced by the browser before submission and are not modelled: the submit handlers accept any record.
