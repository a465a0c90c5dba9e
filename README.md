# SENAR consultations portal — a Dafny model

This project models the logic of the SENAR school-consultations portal, a React
client. Schools sign in either with a DfE number and login code or through a
token link. They see their outstanding consultations with due-date badges, answer
a consultation-response form, and submit annual reviews with attachments.

The logic lives in six source files. The live page `src/Dashboard.jsx` carries
its own copies of the helpers that `src/services/api.js` and the components also
define. The model defines each rule once and shows that every copy agrees with
it:

- `Js` covers the JavaScript semantics the portal relies on:
  - nullish and truthy values, `||` and `??`;
  - `asString`;
  - `String.prototype.trim`, over the ECMAScript white-space set;
  - the decimal rendering of integers in template literals.
- `Api` models `src/services/api.js`:
  - the classification of a `postToFlow` reply;
  - `fetchConsultationsForSchool` in token mode and in portal-login mode: guards, id precedence, key and URL building, and list mapping.
  - The copies at `src/Dashboard.jsx:53-56` and `95-178` are identical.
- `DueDates` models `dueBadge` and `startOfDay` from `src/components/DashboardComponents.jsx` and their copy at `src/Dashboard.jsx:58-93`. It also models the page's overdue and due-soon counts. Dates are whole day numbers; an unparseable date is `None`.
- `ConsultationRules` is the consultation-response rule, stated once as a table of required fields. Both written copies are proved equivalent to it: `isValid` of the form component and `consultationVisibleValid` of the page. The module also builds the submit payload.
- `ConsultationFormComponent` models `src/components/ConsultationForm.jsx` as a class.
- `AnnualReview` models `src/components/AnnualReviewForm.jsx`:
  - its validity rule, which `annualReviewVisibleValid` at `src/Dashboard.jsx:354-359` repeats word for word;
  - the attachment encoding;
  - the payload;
  - the form itself, as a class.
- `FileDropzone` models `src/components/file-dropzone.jsx`:
  - merging dropped files;
  - deduplication through a JavaScript `Map` keyed by `name-size-lastModified`;
  - removal by index.
- `DashboardPage` models `src/Dashboard.jsx` as a class:
  - the restore and load effects, login and logout;
  - selection and navigation;
  - the two inline submit handlers and the header counts.

External effects are parameters:

- The HTTP transport is a function from URL to `Reply`.
- `encodeURIComponent` is a function from string to string.
- The file reader is a function from `File` to an optional data URL.
- Environment URLs are strings, with `""` for an unset variable.
- Local storage is the `stored` field of the page.

An asynchronous handler is modelled as one step from the state before it to the
state after it.

Where the code and the behaviour one might expect differ, the model follows the
code:

- The annual-review recommendation is checked only for being non-blank, not
  against its three options (`AnnualReview.RecommendationNotChecked`).
- Logging out clears the credentials, the selection and the saved login. It keeps the fetched list.
- A saved login that is not valid JSON makes the restore effect throw (`Dashboard.Restore` returns `threw`).
- A consultation due today is counted among those due soon (`DueDates.StatsPartition`).
- After a successful post with no `consultation` prop, the form component's `onSuccess(consultation.id)` throws. The form then shows that TypeError as its error (`ConsultationFormComponent.SubmitOutcome`).
- The token-mode fetch returns exactly one consultation, so the token-mode selection in `load` never changes the list (`DashboardPage.TokenLoadShowsFetched`).

## Model

| member | source | states |
|---|---|---|
| Js.AsString | src/services/api.js:8-11 | null and undefined become "", a string is returned unchanged |
| Js.AsStringIdempotent | src/services/api.js:8-11 | applying `asString` to its own result changes nothing |
| Js.TrimStartSpec | src/Dashboard.jsx:396 | trimming the front keeps a suffix, drops only white space and leaves no white space in front |
| Js.TrimEndSpec | src/Dashboard.jsx:396 | trimming the end keeps a prefix, drops only white space and leaves no white space at the end |
| Js.BlankIffAllWhitespace | src/components/AnnualReviewForm.jsx:23-26 | `s.trim().length > 0` fails exactly when every character of `s` is white space |
| Js.NatToString | src/services/api.js:99 | the rendering of a number is a non-empty run of digits |
| Js.DigitsRoundTrip | src/services/api.js:99 | reading the rendering of `n` back gives `n` |
| Js.NatToStringInjective | src/services/api.js:99 | different numbers render differently |
| Js.Truthy | src/services/api.js:52 | JavaScript truthiness: undefined, null and "" are falsy, a string is truthy otherwise; other values carry their own truthiness |
| Js.Or | src/services/api.js:45-49 | `a \|\| b`: `a` when truthy, else `b` (its laws are used in `Api.IdConsultParamPrecedence`) |
| Js.Coalesce | src/services/api.js:100-106 | `a ?? b`: `a` unless it is null or undefined, else `b` (used in `Api.ListFieldsNormalised`) |
| Js.Trim | src/Dashboard.jsx:462-463 | `String.prototype.trim` as trimming the front and then the end; `Js.TrimStartSpec` and `Js.TrimEndSpec` state what each part keeps |
| Js.NonBlank | src/components/AnnualReviewForm.jsx:23-26 | `s.trim().length > 0`; `Js.BlankIffAllWhitespace` characterises it |
| Api.PostToFlow | src/services/api.js:23-39 | an unset URL fails with "Missing VITE_FLOW_URL", a non-ok reply fails with the HTTP message, success exactly for an ok response, and a non-JSON body gives `{ ok: true }` |
| Api.HttpFailureMessageShape | src/services/api.js:30-33 | the failure reads `HTTP {status}: {text}`, with "No response" for an empty or unreadable body |
| Api.IdConsultParam | src/services/api.js:45-49 | the requested id is truthy exactly when one of the four aliases is |
| Api.IdConsultParamPrecedence | src/services/api.js:45-49 | the first non-empty of idConsult, consultId, ConsultID wins, else idConsultation |
| Api.Separator | src/services/api.js:87 | "&" exactly when the base URL already contains "?", "?" otherwise |
| Api.LoginKey | src/services/api.js:86 | the key is the DfE number, "/", then the code, and both parts can be read back |
| Api.MapList | src/services/api.js:98-107 | the mapped list has one consultation per element, in order |
| Api.ListIdsDistinct | src/services/api.js:98-99 | the synthesised ids `c1..cn` are pairwise distinct |
| Api.ListFieldsNormalised | src/services/api.js:100-106 | each field is `asString` of its source field, "" when absent, and idConsult falls back to idConsultation |
| Api.MissingCredentialsBeforeRequest | src/services/api.js:81-83 | an empty DfE number or code fails with the credentials message, whatever the transport would answer |
| Api.ListModeRequest | src/services/api.js:84-91 | portal mode asks for `key={dfe}/{code}` after the right separator, maps an array reply and fails a non-ok one |
| Api.NonArrayListIsError | src/services/api.js:92-96 | a non-array list reply fails with its error, else its message, else the fixed text |
| Api.TokenModeSingle | src/services/api.js:62-77 | token mode yields one consultation whose id is idConsult ?? idConsultation ?? requested id ?? token |
| Api.PrefillUrlShape | src/services/api.js:54-57 | the prefill URL carries the token after the right separator and `&idConsult=` only for a requested id |
| Api.HttpFailureMessage | src/services/api.js:30-33 | the message of a non-ok reply; its shape is stated by `Api.HttpFailureMessageShape` |
| Api.PrefillUrl | src/services/api.js:54-57 | the prefill request URL; its shape is stated by `Api.PrefillUrlShape` |
| Api.ListUrl | src/services/api.js:87 | the list request URL: base, separator, `key=` and the encoded key (used by `Api.ListModeRequest`) |
| Api.FromPrefill | src/services/api.js:62-77 | the one consultation built from a prefill reply; its id fallbacks are stated by `Api.TokenModeSingle` |
| Api.FromListItem | src/services/api.js:98-107 | the consultation built from the i-th list element; stated by `Api.ListFieldsNormalised` and `Api.ListIdsDistinct` |
| Api.ReadList | src/services/api.js:91-107 | an array body maps element by element, any other body is the envelope error; stated by `Api.NonArrayListIsError` and `Api.ListModeRequest` |
| Api.FetchConsultations | src/services/api.js:42-108 | `fetchConsultationsForSchool` in both modes; its guards and results are stated by `Api.MissingCredentialsBeforeRequest`, `Api.ListModeRequest` and `Api.TokenModeSingle` |
| DueDates.DueBadgeByDays | src/components/DashboardComponents.jsx:22-41 | the badge depends only on the day difference: before, on, 1 to 7 days after, or later than today |
| DueDates.DueBadgeTotal | src/components/DashboardComponents.jsx:14-42 | "No due date" exactly for an unparseable date, always one of the five labels, labels distinct |
| DueDates.ItemCountsAgreeWithBadge | src/Dashboard.jsx:632-647 | a consultation is counted overdue exactly when its badge is "Overdue", due soon exactly when it is "Due today" or "Due soon" |
| DueDates.CountsAgreeWithBadges | src/Dashboard.jsx:631-647 | the overdue and due-soon counts equal the numbers of matching badges |
| DueDates.CountAllBadges | src/Dashboard.jsx:631 | counting all five badges gives the total |
| DueDates.StatsPartition | src/Dashboard.jsx:631-647 | total = overdue + due soon + awaiting a response + without a due date |
| DueDates.DueBadge | src/components/DashboardComponents.jsx:14-42 | the badge for a due day; characterised by `DueDates.DueBadgeByDays` and `DueDates.DueBadgeTotal` |
| DueDates.IsOverdue | src/Dashboard.jsx:632-637 | `due && due < t`; `DueDates.ItemCountsAgreeWithBadge` ties it to the "Overdue" badge |
| DueDates.IsDueSoon | src/Dashboard.jsx:639-647 | `due && t <= due <= next7`; `DueDates.ItemCountsAgreeWithBadge` ties it to the "Due today" and "Due soon" badges |
| DueDates.OverdueCount | src/Dashboard.jsx:632-637 | the overdue filter's length; `DueDates.CountsAgreeWithBadges` equates it with the number of "Overdue" badges |
| DueDates.DueSoonCount | src/Dashboard.jsx:639-647 | the due-soon filter's length; `DueDates.CountsAgreeWithBadges` equates it with the number of "Due today" and "Due soon" badges |
| ConsultationRules.Draft.With | src/components/ConsultationForm.jsx:31 | the named field takes the value, every other field keeps its own |
| ConsultationRules.InitialIsBlank | src/components/ConsultationForm.jsx:15-25 | every field of the initial draft is "" |
| ConsultationRules.FormIsValidIffComplete | src/components/ConsultationForm.jsx:33-46 | the form's `isValid` holds exactly when both answers are Yes/No and every required field is non-blank |
| ConsultationRules.VisibleValidIffSelectedAndComplete | src/Dashboard.jsx:329-344 | the page's rule is the same rule plus a selected consultation, and is false with none selected |
| ConsultationRules.UnsetAnswerIncomplete | src/Dashboard.jsx:331-332 | an answer other than Yes or No makes the draft invalid |
| ConsultationRules.ReasoningRequired | src/Dashboard.jsx:335-337 | "No" on suitability and "Yes" on attendance each need their non-blank reasoning |
| ConsultationRules.PlacementFieldsRequired | src/Dashboard.jsx:338-344 | with Yes/No, blanking any placement field invalidates the draft; otherwise they do not matter |
| ConsultationRules.OrNull | src/Dashboard.jsx:516 | `asString(s) \|\| null` is null exactly for "", else `s` |
| ConsultationRules.BuildResponse | src/Dashboard.jsx:513-556 | each conditional field is null unless its guard holds; the snapshot is passed through |
| ConsultationRules.NulledSnapshot | src/Dashboard.jsx:544-555 | the page's snapshot with every field `asString(x) \|\| null`; `ConsultationRules.NulledSnapshotRoundTrip` reads it back |
| ConsultationRules.NulledSnapshotRoundTrip | src/Dashboard.jsx:544-555 | each snapshot field is null exactly when the consultation's field is "", and reading every field back with null as "" gives the consultation |
| ConsultationRules.CompleteDraftSendsRequired | src/components/ConsultationForm.jsx:55-67 | a valid draft sends both answers and both responder fields, none null |
| ConsultationRules.CompleteDraftSendsReasoning | src/components/ConsultationForm.jsx:58-60 | in a valid draft's payload each reasoning is non-null exactly when its guard holds |
| ConsultationRules.CompleteDraftSendsPlacement | src/components/ConsultationForm.jsx:61-63 | in a valid draft's payload the placement fields are non-null exactly when the answers are Yes and No |
| ConsultationRules.FormIsValid | src/components/ConsultationForm.jsx:33-46 | the form's `isValid`, written as the source writes it; `ConsultationRules.FormIsValidIffComplete` equates it with the required-field table |
| ConsultationRules.VisibleValid | src/Dashboard.jsx:329-344 | the page's `consultationVisibleValid`; `ConsultationRules.VisibleValidIffSelectedAndComplete` equates it with a selection plus the same table |
| ConsultationFormComponent.FormPayload | src/components/ConsultationForm.jsx:55-67 | the answers are the shared `BuildResponse` of the draft; the form embeds `{ ...consultation }` when given and null otherwise |
| ConsultationFormComponent.FormSnapshotRoundTrip | src/components/ConsultationForm.jsx:66 | the embedded snapshot gives the consultation back field for field |
| ConsultationFormComponent.SubmitOutcome | src/components/ConsultationForm.jsx:69-74 | a failed post shows its message; a successful one shows "" exactly when a consultation was passed |
| ConsultationFormComponent.ConsultationForm.constructor | src/components/ConsultationForm.jsx:27-29 | the form starts from the initial draft with no message |
| ConsultationFormComponent.ConsultationForm.UpdateForm | src/components/ConsultationForm.jsx:31 | one field changes, the message is kept |
| ConsultationFormComponent.ConsultationForm.ClearForm | src/components/ConsultationForm.jsx:148 | the draft returns to the initial draft |
| ConsultationFormComponent.ConsultationForm.HandleSubmit | src/components/ConsultationForm.jsx:48-78 | an invalid draft posts nothing and changes nothing; a valid one posts the payload, notifies the consultation's id on success and shows the error otherwise; the draft is kept |
| AnnualReview.WithField | src/components/AnnualReviewForm.jsx:72-77 | one input changes, the others and the attachments are kept |
| AnnualReview.ArValidIff | src/components/AnnualReviewForm.jsx:22-27 | valid exactly when no input is all white space and a file is attached; the empty draft is invalid |
| AnnualReview.RecommendationNotChecked | src/components/AnnualReviewForm.jsx:77-81 | a recommendation outside the three options still passes |
| AnnualReview.Base64Part | src/services/api.js:18 | the extracted part never contains a comma |
| AnnualReview.Base64PartOfDataUrl | src/services/api.js:18 | a data URL `{header},{payload}` yields its payload |
| AnnualReview.ContentType | src/components/AnnualReviewForm.jsx:39 | the file's type when set, never "" |
| AnnualReview.EncodeAttachments | src/components/AnnualReviewForm.jsx:36-42 | succeeds exactly when every file is read; then one entry per file, in order, with name, content type and data |
| AnnualReview.BuildArPayload | src/components/AnnualReviewForm.jsx:44-51 | type "ANNUAL_REVIEW", the four fields as entered, the attachments as given |
| AnnualReview.PostedPayloadMatchesDraft | src/components/AnnualReviewForm.jsx:31-51 | anything posted comes from a valid draft and has one named, typed attachment per file |
| AnnualReview.AnnualReviewForm.constructor | src/components/AnnualReviewForm.jsx:12-20 | the form starts empty with no message |
| AnnualReview.AnnualReviewForm.SetField | src/components/AnnualReviewForm.jsx:72-77 | one input changes |
| AnnualReview.AnnualReviewForm.SetAttachments | src/components/AnnualReviewForm.jsx:87 | the attachment list is replaced |
| AnnualReview.AnnualReviewForm.HandleSubmit | src/components/AnnualReviewForm.jsx:29-62 | an invalid draft changes nothing; success empties the form; failure keeps the draft and shows the error |
| AnnualReview.ArValid | src/components/AnnualReviewForm.jsx:22-27 | the form's `isValid`; characterised by `AnnualReview.ArValidIff` |
| AnnualReview.SubmittedPayload | src/components/AnnualReviewForm.jsx:31-51 | what a submission posts, or nothing; stated by `AnnualReview.PostedPayloadMatchesDraft` |
| FileDropzone.FileKeyRoundTrip | src/components/file-dropzone.jsx:20 | the key of a file reads back as its name, size and last-modified time |
| FileDropzone.FileKeyInjective | src/components/file-dropzone.jsx:20 | two files share a key exactly when they agree on name, size and last-modified time |
| FileDropzone.MapSetSpec | src/components/file-dropzone.jsx:20 | `map.set` appends a new key and replaces the value of an existing one in place |
| FileDropzone.MapFromRepresents | src/components/file-dropzone.jsx:19-21 | the Map built from the files holds their distinct keys in first-occurrence order, each with its last file |
| FileDropzone.DedupMapSemantics | src/components/file-dropzone.jsx:18-21 | the deduplicated list follows first-occurrence order of keys, and each key keeps the last file seen |
| FileDropzone.OnDropDeduplicates | src/components/file-dropzone.jsx:18-22 | no two results share name, size and time; every key is present; the length is the number of distinct keys |
| FileDropzone.EmptyDropIgnored | src/components/file-dropzone.jsx:17 | an empty drop does not call onChange |
| FileDropzone.DropExistingKeepsLength | src/components/file-dropzone.jsx:18-21 | dropping a file with a key already present keeps the length |
| FileDropzone.RemoveAt | src/components/file-dropzone.jsx:72 | a valid index removes one file and shifts the rest; another index changes nothing |
| FileDropzone.RemoveAtKeepsOthers | src/components/file-dropzone.jsx:72 | removal keeps the files before and after in order, and drops exactly that file |
| FileDropzone.FirstOccurrencesSpec | src/components/file-dropzone.jsx:20 | the distinct keys hold each key once and exactly the keys seen |
| FileDropzone.FileKey | src/components/file-dropzone.jsx:20 | the key `${name}-${size}-${lastModified}`; `FileDropzone.FileKeyRoundTrip` reads it back |
| FileDropzone.MapSet | src/components/file-dropzone.jsx:20 | `Map.prototype.set` on the entries in insertion order; stated by `FileDropzone.MapSetSpec` |
| FileDropzone.MapFrom | src/components/file-dropzone.jsx:20 | `new Map(entries)` as one `set` per entry; stated by `FileDropzone.MapFromRepresents` |
| FileDropzone.Dedup | src/components/file-dropzone.jsx:19-21 | `Array.from(map.values())`; stated by `FileDropzone.DedupMapSemantics` |
| FileDropzone.OnDrop | src/components/file-dropzone.jsx:15-25 | the list passed to `onChange`, or none for an empty drop; stated by `FileDropzone.OnDropDeduplicates` and `FileDropzone.EmptyDropIgnored` |
| FileDropzone.RemoveAtKeepsNoDup | src/components/file-dropzone.jsx:72 | removing a file from a list with distinct keys leaves the keys distinct |
| DashboardPage.MenuItems | src/Dashboard.jsx:205-225 | the menu holds exactly the views whose `show` holds, home first: home alone for a signed-out user, all four views in sidebar order otherwise |
| DashboardPage.FindById | src/Dashboard.jsx:452-454 | the result is the first consultation in the list with the selected id; nothing is found exactly when no id matches |
| DashboardPage.RemoveById | src/Dashboard.jsx:561-563 | the list without the consultations carrying the id, never longer; stated in full by `DashboardPage.RemoveByIdMembers` and `DashboardPage.RemoveByIdRemovesOne` |
| DashboardPage.FirstSettingName | src/Dashboard.jsx:402 | the first consultation's setting name, "" for an empty list |
| DashboardPage.ShownViews | src/Dashboard.jsx:205-225 | the `.filter((x) => x.show)` over the menu items (used by `DashboardPage.MenuItems`) |
| DashboardPage.RemoveByIdMembers | src/Dashboard.jsx:561-563 | the filter keeps exactly the consultations with another id |
| DashboardPage.RemoveByIdRemovesOne | src/Dashboard.jsx:561-563 | with distinct ids, exactly the selected consultation goes and the others keep their order |
| DashboardPage.RemoveByIdAbsent | src/Dashboard.jsx:561-563 | an id nothing carries leaves the list unchanged |
| DashboardPage.ListModeIdsDistinct | src/Dashboard.jsx:168-169 | the page's list-mode ids are distinct |
| DashboardPage.SubmittedConsultationLeaves | src/Dashboard.jsx:561-563 | after a successful submit in list mode the list loses exactly the answered consultation |
| DashboardPage.FindByIdConsult | src/Dashboard.jsx:397-398 | the result is the first consultation whose trimmed idConsult equals the requested id; nothing is found exactly when none does |
| DashboardPage.SelectForToken | src/Dashboard.jsx:396-400 | the selection comes from the fetched list and is empty only for an empty list |
| DashboardPage.SelectRequested | src/Dashboard.jsx:396-400 | a requested id that some consultation carries selects one consultation carrying it, and that is the first such consultation |
| DashboardPage.SelectNoMatch | src/Dashboard.jsx:396-406 | with no match the whole list is kept and its first id is selected |
| DashboardPage.SelectDefault | src/Dashboard.jsx:397-400 | with no requested id the first consultation alone is kept |
| DashboardPage.SelectFromSingle | src/Dashboard.jsx:396-400 | a one-element list is kept as it is |
| DashboardPage.TokenLoadShowsFetched | src/Dashboard.jsx:392-406 | a successful token load shows exactly the one fetched consultation, selected |
| DashboardPage.FirstId | src/Dashboard.jsx:406 | the first id is present exactly for a non-empty list and selects its first consultation |
| DashboardPage.DashboardPayload | src/Dashboard.jsx:513-556 | the answers are the shared `BuildResponse` of the draft; the snapshot is null when the selection is not in the list, and otherwise the first selected consultation with every field `asString(x) \|\| null`, carrying the selected id |
| DashboardPage.Dashboard.constructor | src/Dashboard.jsx:285-353 | the page starts on consultations in token mode, home otherwise, loading, with empty state |
| DashboardPage.Dashboard.ShowLogin | src/Dashboard.jsx:456 | the login form shows exactly when the portal views are hidden |
| DashboardPage.Dashboard.CanSeePortalViews | src/Dashboard.jsx:363 | `isLoggedIn \|\| hasToken`; decides the menu through `DashboardPage.MenuItems` |
| DashboardPage.Dashboard.CanAttemptLogin | src/Dashboard.jsx:311-312 | both inputs non-blank and no login in progress; `DashboardPage.Dashboard.HandlePortalLogin` states what a click it allows does |
| DashboardPage.Dashboard.SelectedConsultation | src/Dashboard.jsx:452-454 | the first consultation in the list carrying the selected id; none exactly when no consultation carries it |
| DashboardPage.Dashboard.Restore | src/Dashboard.jsx:376-385 | outside token mode, saved credentials fill the inputs and request a login; malformed text throws; loading stops |
| DashboardPage.Dashboard.Load | src/Dashboard.jsx:388-448 | runs the token load in token mode and the portal load otherwise, and leaves loading off |
| DashboardPage.Dashboard.LoadToken | src/Dashboard.jsx:392-414 | on success shows the selection, signs in and selects its first id; on failure shows the error and signs out |
| DashboardPage.Dashboard.LoadPortal | src/Dashboard.jsx:416-447 | waits for a login request; blank credentials give the error; else the trimmed credentials are fetched and saved on success, the saved login cleared on failure |
| DashboardPage.Dashboard.EditDfe | src/Dashboard.jsx:761 | the DfE input takes the typed value |
| DashboardPage.Dashboard.EditSchoolCode | src/Dashboard.jsx:772 | the code input takes the typed value |
| DashboardPage.Dashboard.HandlePortalLogin | src/Dashboard.jsx:458-476 | non-blank credentials are trimmed and a login is requested; otherwise the credentials error is shown; when `canAttemptLogin` enabled the button, a login is requested and the button is disabled afterwards |
| DashboardPage.Dashboard.HandleLogout | src/Dashboard.jsx:478-488 | the saved login, credentials, selection and setting name are cleared and the page goes home |
| DashboardPage.Dashboard.SetDraftField | src/Dashboard.jsx:969 | one field of the inline draft changes |
| DashboardPage.Dashboard.ResetConsultationForm | src/Dashboard.jsx:490-501 | all nine fields and the message become "" |
| DashboardPage.Dashboard.SelectConsultation | src/Dashboard.jsx:882 | the clicked consultation becomes the selection |
| DashboardPage.Dashboard.BackToList | src/Dashboard.jsx:946-949 | the selection and the message are cleared |
| DashboardPage.Dashboard.Navigate | src/Dashboard.jsx:659-663 | the view changes, the selection and the message are cleared |
| DashboardPage.Dashboard.SetArField | src/Dashboard.jsx:1155-1161 | one annual-review input changes |
| DashboardPage.Dashboard.SetArAttachments | src/Dashboard.jsx:1219 | the attachment list is replaced |
| DashboardPage.Dashboard.HandleConsultationSubmit | src/Dashboard.jsx:504-573 | posts exactly for a valid draft with a selection and changes nothing otherwise |
| DashboardPage.Dashboard.PostConsultation | src/Dashboard.jsx:510-572 | on success the consultation leaves the list, the selection is cleared and the form reset; on failure only the message changes |
| DashboardPage.Dashboard.HandleARSubmit | src/Dashboard.jsx:576-622 | an invalid draft changes nothing; success empties the form and goes home; failure keeps the draft and shows the error |
| DashboardPage.Dashboard.Stats | src/Dashboard.jsx:631-647 | the total is the list length; overdue equals the number of "Overdue" badges and due soon the number of "Due today" and "Due soon" badges, together never more than the total |

## Left out

- HTTP itself is not modelled: requests, status, body reading and the environment. Each is a parameter or a field.
- `encodeURIComponent` and `URLSearchParams` parsing are not modelled. The encoder is a parameter and the query a map.
- `String(v)` for non-string values is not modelled. `Js.Value.Other` carries its rendering uninterpreted.
- The file reader (`fileToBase64`) is a parameter.
- The concurrency of `Promise.all` is not modelled. Only its all-or-nothing result is.
- `new Date` parsing, the local time zone and daylight-saving shifts are not modelled. Dates are day numbers, and midnight is `day * 24 * 60 * 60 * 1000`.
- React rendering, effect scheduling and re-runs, toasts and `window.scrollTo` are not modelled. Each handler and each effect run is one step.
- The `submitting` flag and the disabled buttons it drives are not modelled, because every step is atomic.
- JSON bodies that are `null`, a scalar, or an array holding non-objects are not modelled. A reply is a parse error, an object or an array of objects.
- Number rendering at or above 10^21 is not modelled. Such sizes and ids would be printed in exponent form.
- The `maxSizeBytes` limit and the `accept` filter are not modelled. react-dropzone applies them, and that library is not part of this model.
- Phase-transfer grouping is not modelled. The view is a placeholder without logic.
- src/components/GlassDefs.jsx and src/App.jsx are not part of this model; they are presentation only.
- AnnualReview.ReadFailureMessage: a reader error rejects with an event that has no `message`. The model shows "" for it instead of `undefined`, since both hide the alert.
- ConsultationFormComponent.NoConsultationMessage: the TypeError's wording depends on the JavaScript engine. V8's wording for an absent prop is used.
