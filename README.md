# h2w-frontend in Dafny

A model of the browser front end of the H2W document assistant. It covers these parts:

- **Session and role guards.** `ProtectedRoute`, `RootRedirect` and the route table in src/App.tsx decide from the `token` and `user` storage keys where a visitor ends up. `/admin` is additionally guarded by the admin page's own mount check. `AdminRoute` (src/components/AdminRoute.tsx) is a role guard that no route mounts; it is modelled on its own and compared with the admin mount check.
- **Pages the route table does not reach.** src/App.tsx routes only `/login`, `/admin`, `/dashboard` (a redirect to `/admin`), `/` and `*`. None of `UserDashboard`, `Dashboard`, `ResetPassword` or `Upload` is routed, so each of these pages is modelled as a component on its own.
- **Login page.** It sends the sign-in request, retries it once with the `email` field, picks an error message from the error payload, normalises the user record and redirects by role.
- **Password-reset page.** It checks the link's token, shows the strength indicators, and submits the new password.
- **Admin panel.**
  - A capped audit log, and the 401/403 session check.
  - The three-step refresh of documents, users and categories.
  - Upload, download, delete, create-user and create-category.
  - The user search and the category checkboxes.
- **User dashboard.** The chat, the normalised categories payload, the upload form and the edit dialog.
- **Question-and-answer dashboard.** Its answer history and confidence badge.
- **Two upload screens.** Each proposes a title from the file name and checks the upload before sending it.

The model is organised as follows:

- **Pure logic** is written as functions, with lemmas about them. This covers decisions, message selection, file-name handling and payload normalisation.
- **The three browser effects** belong to one `Browser` object:
  - `localStorage` (a map);
  - the navigations made;
  - the alerts shown.
- **Components that update their state** become classes. Their fields are the React state, and each handler is a method with a `modifies` frame.
- **Each network answer** is a parameter of the handler: a `Response`, which is `Success` (`response.ok`), `Failure` (any other status) or `NetworkError`. The same goes for `JSON.parse` (a function that may fail) and the clock (a number).

Modules:

| module | what it holds |
|---|---|
| `Text` | trimming, ASCII lower-casing, `includes`, `join`, decimal numerals |
| `Js` | JSON values, property reads, truthiness, `||`, `String(...)`, template interpolation, `JSON.stringify` |
| `Web` | errors, responses, storage and the `Browser` |
| `Guards`, `Routing` | the guards and the route table |
| `Lists` | `filter` and the checkbox toggle |
| `Files` | extension stripping and icon tables |
| `Entities` | the records |
| `Login`, `ResetPassword`, `Admin`, `UserDashboard`, `Dashboard`, `UploadModal`, `Upload` | one per page |

## Model

| member | source | states |
|---|---|---|
| Text.TrimStart | src/pages/Admin.tsx:221 | the result is a suffix of the input with every leading whitespace character removed and the first remaining one not whitespace |
| Text.TrimEnd | src/pages/Admin.tsx:221 | the result is a prefix of the input with the trailing whitespace removed and the last remaining character not whitespace |
| Text.Trim | src/pages/UserDashboard.tsx:142-145 | `trim()` gives a string no longer than its input that neither starts nor ends with whitespace; the exact cut is stated by `Text.TrimCutsOnlyWhitespace` |
| Text.TrimCutsOnlyWhitespace | src/pages/UserDashboard.tsx:142-145 | `trim()` cuts exactly the leading and the trailing whitespace: the result is a contiguous piece `s[i..j]` of the input and everything cut on either side is whitespace |
| Text.SliceIsInfix | src/pages/UserDashboard.tsx:144 | any contiguous piece of a string occurs in it in the sense of `includes` |
| Text.BlankIffAllWhitespace | src/pages/Admin.tsx:221 | `!s.trim()` holds exactly when every character is whitespace |
| Text.TrimIsInfix | src/pages/UserDashboard.tsx:144 | the trimmed message is a contiguous part of the typed one |
| Text.ToLower | src/pages/Admin.tsx:644-645 | lower-casing keeps the length and maps each character on its own (ASCII letters only) |
| Text.ToLowerIdempotent | src/pages/UserDashboard.tsx:339 | lower-casing twice is lower-casing once, and the result has no upper-case ASCII letter |
| Text.ContainsIff | src/pages/Admin.tsx:644-645 | `includes` holds exactly when the needle occurs at some position |
| Text.ContainsLower | src/pages/Admin.tsx:644-645 | an occurrence of the term as typed is still an occurrence once both sides are lower-cased |
| Text.ContainsAfter | src/pages/Login.tsx:78 | text put in front of a string does not hide an occurrence in it |
| Text.ContainsInside | src/pages/Login.tsx:78 | a string occurs in any string built around it |
| Text.JoinContainsPart | src/pages/Login.tsx:62 | every part of a `join(', ')` occurs in the joined text |
| Text.NatToDecimal | src/pages/Login.tsx:84 | a status is written as a non-empty run of digits without a leading zero |
| Text.DecimalRoundTrip | src/pages/Login.tsx:84 | reading the written status back gives the status |
| Js.Lookup | src/pages/Login.tsx:94-97 | a property read is `undefined` exactly when no property has that key, and otherwise gives the value of a property with that key |
| Js.Member | src/pages/Login.tsx:94-97 | `v.key` is `undefined` exactly when `v` is not an object or has no property `key`; otherwise it is the value of a property of `v` with that key |
| Js.Or | src/pages/Login.tsx:94 | `a \|\| b` is one of its operands: `a` when `a` is truthy and `b` otherwise, so the result is truthy exactly when one of them is |
| Js.EscapePlain | src/pages/Login.tsx:104 | `JSON.stringify` writes a string without quotes, backslashes or control characters unchanged between its quotes |
| Web.Browser.constructor | src/components/AdminRoute.tsx:8-9 | a page opens on the storage it finds, with no navigation and no alert yet |
| Web.Browser.SetItem | src/pages/Login.tsx:103-104 | `setItem` replaces one key and leaves the others alone |
| Web.Browser.RemoveItem | src/pages/Admin.tsx:214-217 | `removeItem` drops one key and leaves the others alone |
| Web.Browser.Navigate | src/pages/Login.tsx:107-113 | each `navigate` is recorded in order |
| Web.Browser.Alert | src/pages/Admin.tsx:222 | each `alert` is recorded in order |
| Web.Browser.EndSession | src/pages/Admin.tsx:214-217 | logout removes exactly `token` and `user`, after which there is no session, then navigates once |
| Guards.AdminRoute | src/components/AdminRoute.tsx:7-31 | the guard is total and decides by reading storage only: login when a key is missing or empty or the user does not parse (or is `null`); the dashboard for a readable user whose role is not exactly "admin"; render for an admin |
| Guards.AdminMountAgreesWithAdminRoute | src/pages/Admin.tsx:120-141 | the admin page's own mount check reaches the same decision as `AdminRoute` for every storage and parse |
| Guards.AdminMountDecision | src/pages/Admin.tsx:120-141 | the admin page's mount check sends to login exactly when the session is missing or its user does not read as a non-`null` value, and renders exactly for a readable user whose role is "admin"; it never passes without both keys |
| Guards.ProtectedRoute | src/App.tsx:6-16 | renders exactly when both keys are non-empty and never sends to the dashboard |
| Guards.RootRedirect | src/App.tsx:19-30 | goes to `/admin` exactly for a session, whatever its role, and to `/login` otherwise |
| Guards.UserDashboardGate | src/pages/UserDashboard.tsx:59-76 | the user dashboard sends to login exactly when a key is missing or the user does not parse, and accepts the parsed value, whatever its role |
| Guards.GuardsNest | src/App.tsx:6-16 | whatever the admin guard lets through, the plain session check and the user dashboard let through too; the only session the user dashboard accepts and the admin guard rejects is a stored user that parses to `null` |
| Routing.RouteTableRedirects | src/App.tsx:37-56 | `/dashboard` always goes to `/admin`, an unknown path goes to `/`, and `/admin` renders exactly for a session |
| Routing.AppRoute | src/App.tsx:37-56 | only `/login`, and `/admin` with a session, render a page: the login page and the admin panel respectively; every other render redirects to `/login`, `/admin` or `/` |
| Routing.RouterSettles | src/App.tsx:37-56 | ignoring the pages' own checks, every path ends within three renders: on the login page without a session, else on the admin page |
| Routing.NonAdminNeverSettles | src/App.tsx:50 | as written, a signed-in non-admin bounces between `/admin` and `/dashboard` for any number of renders |
| Routing.FixedRoutesSettle | src/components/AdminRoute.tsx:20-23 | with `/dashboard` rendering the user dashboard, every path settles within four renders. It ends on the admin page exactly for an admin on a path other than `/login` and `/dashboard`. Other readable users off `/login` end on the user dashboard, and visitors without a session end on the login page |
| Lists.FilterConcat | src/pages/Admin.tsx:347 | filtering a concatenation is concatenating the filtered parts, so `filter` keeps the order |
| Lists.Filter | src/pages/Admin.tsx:347 | the filtered list is no longer than the list and holds only elements of the list that pass the test |
| Lists.FilterCounts | src/pages/Admin.tsx:347 | a kept value keeps all its occurrences, and a dropped value has none |
| Lists.FilterMembers | src/pages/Admin.tsx:380 | a value is in the filtered list exactly when it is in the list and passes the test |
| Lists.FilterKeepsAll | src/pages/Admin.tsx:643-648 | when every element passes, the list is unchanged |
| Lists.FilterIdempotent | src/pages/Admin.tsx:413 | filtering twice by the same test is filtering once |
| Lists.Toggle | src/pages/Admin.tsx:1219-1224 | checking appends the id after the old list; unchecking removes it |
| Lists.UncheckRemovesExactly | src/pages/UserDashboard.tsx:548-553 | unchecking removes every occurrence of the id and keeps every other id with all its occurrences |
| Lists.CheckThenUncheck | src/pages/UserDashboard.tsx:718-723 | checking an unchecked box and unchecking it again restores the list |
| Files.ScanBack | src/pages/UploadModal.tsx:38 | the backwards scan finds the dot that starts the extension, or proves there is none |
| Files.StripExtension | src/pages/UploadModal.tsx:38 | `replace(/\.[^/.]+$/, '')` cuts the name just before the extension's dot, and keeps a name without an extension whole |
| Files.LastPart | src/pages/UploadModal.tsx:113 | `split('.').pop()` is a dot-free suffix of the name, preceded by a dot when it is shorter than the name |
| Files.ExtensionIsAfterLastDot | src/pages/UploadModal.tsx:113 | when the name has an extension, the last part is exactly that extension |
| Files.LastPartIsExtension | src/pages/UploadModal.tsx:38 | a non-empty, slash-free last part after a dot is an extension |
| Files.ExtensionIsLastPart | src/pages/UploadModal.tsx:38 | a name has an extension exactly when its last part after a dot is non-empty and slash-free, and then the name is the proposed title, a dot and that last part |
| Files.ExtensionSplits | src/pages/UploadModal.tsx:38 | a name with an extension is the proposed title, a dot and a non-empty, slash-free last part |
| Files.StripExtensionExamples | src/pages/Upload.tsx:17 | "report.final.pdf" gives "report.final"; ".bashrc" gives ""; "README", "notes." and "v1.2/readme" are kept whole |
| Files.IconFor | src/pages/Admin.tsx:640 | a glyph other than the paperclip comes from the table under that key; for a table that never maps to the paperclip, the paperclip shows exactly for a key the table does not have |
| Files.TypeIcon | src/pages/Admin.tsx:632-641 | the paperclip shows exactly for a file type missing from the table, compared as stored (also `src/pages/Dashboard.tsx:96-105`) |
| Files.CaseInsensitiveTypeIcon | src/pages/UserDashboard.tsx:328-340 | the paperclip shows exactly when the lower-cased type is missing from the table |
| Files.FileNameIcon | src/pages/UploadModal.tsx:112-128 | the paperclip shows exactly when the lower-cased text after the name's last dot is not a known extension |
| Files.TypeIconsAgree | src/pages/Admin.tsx:632-641 | every type the admin page knows gets the same icon on the user dashboard |
| Files.ModalIconsAgree | src/pages/UploadModal.tsx:112-128 | every type the user dashboard knows gets the same icon in the upload dialog for a file with that extension |
| Files.ModalKnowsImages | src/pages/UploadModal.tsx:122-124 | only the upload dialog knows images; a "png" type is the default icon elsewhere |
| Files.CaseOfTypeIcons | src/pages/UserDashboard.tsx:339 | the user dashboard ignores case ("PDF" is a PDF there) and the admin page does not (`src/pages/Admin.tsx:640`) |
| Entities.CategoryIds | src/pages/Admin.tsx:798 | `categories?.map(c => c.id) \|\| []` is the ids in order, or none when the list is missing |
| Login.FinalResponse | src/pages/Login.tsx:22-46 | the page goes on with the first answer, unless it was a 422 refusal, in which case it goes on with the answer to a retry that names the address `email` |
| Login.PickMessage | src/pages/Login.tsx:56-74 | the first source that applies gives the message: a string payload itself; a string `detail`; a `detail` list joined by ", " (`None`, the throw, when it holds `null`); a `detail` object's truthy `message`, else that object as JSON; a truthy `message`; a truthy `error`; otherwise the default text; a `null` payload throws |
| Login.MentionsCredentials | src/pages/Login.tsx:78 | on a string message, whether "credentials" or "password" occurs in it; on an array, whether one of them is an element; on anything else `includes` throws (`None`) |
| Login.FailureMessage | src/pages/Login.tsx:48-86 | an unreadable payload, or one whose message cannot be picked, gives the status text; outside 401 and 422 the picked message is shown; after 401 or 422 a message mentioning either word is kept, one mentioning neither is replaced by the fixed text, and one on which `includes` throws gives the status text |
| Login.Shown | src/pages/Login.tsx:116-117 | the thrown message when non-empty, otherwise the fixed "An unexpected error occurred" text; never empty |
| Login.NormalisedUser | src/pages/Login.tsx:94-98 | the stored user is the payload's `user` when truthy, else an object of its flat `email`, `role` and `id \|\| user_id`; it is always truthy |
| Login.FlatUser | src/pages/Login.tsx:94-98 | the built object reads back `email`, `role` and `id` as given, `undefined` ones included |
| Login.LoginTarget | src/pages/Login.tsx:107-113 | the redirect is `/admin` exactly for role "admin", `/dashboard` otherwise |
| Login.Outcome | src/pages/Login.tsx:48-117 | the sign-in succeeds exactly when the final answer is ok and its payload reads as non-`null`. It then stores the payload's `access_token` as text and the normalised user as JSON, and goes to `/admin` exactly for role "admin", else `/dashboard`. A refusal shows its failure message; a failed request or an unreadable payload shows its own error; a `null` payload shows the `TypeError` of reading it; the shown error is never empty |
| Login.AuthFailureMentionsCredentials | src/pages/Login.tsx:77-81 | after a 401 or 422 the message always mentions "credentials" or "password" |
| Login.FailureMessageMentionsCredentials | src/pages/Login.tsx:77-85 | the same, for each kind of error payload |
| Login.IncorrectCredentialsMentionsPassword | src/pages/Login.tsx:79 | the replacement text mentions "password" |
| Login.StatusFailureMentionsCredentials | src/pages/Login.tsx:84 | the text for an unreadable error payload mentions "credentials" |
| Login.KeptMessageMentionsCredentials | src/pages/Login.tsx:78 | a message kept by the `includes` test does contain one of the two words |
| Login.DetailShownVerbatim | src/pages/Login.tsx:58-59 | outside 401 and 422, a non-empty string `detail` is shown exactly as sent |
| Login.ValidationErrorsJoined | src/pages/Login.tsx:60-62 | a validation-error list is shown as its entries' `msg` texts joined by ", " |
| Login.SignInMatchesGuards | src/pages/Login.tsx:103-113 | the session a sign-in stores is read back by the guards as intended: the role redirect agrees with `AdminRoute`. As written, a non-admin never settles; with the corrected table they land on the user dashboard |
| Login.StringifyNonEmpty | src/pages/Login.tsx:104 | the stored user text is never empty, so the guards see a session |
| Login.LoginPage.constructor | src/pages/Login.tsx:9-12 | the form opens with empty e-mail, password and error, not loading |
| Login.LoginPage.HandleSubmit | src/pages/Login.tsx:14-122 | sends one request, and a second exactly after a 422 refusal; then either stores the token and the user and redirects by role, or shows the message and leaves storage and location alone; the form stops loading |
| ResetPassword.StrengthOf | src/pages/ResetPassword.tsx:57-65 | each indicator holds exactly when the password has 8 characters, an ASCII upper-case letter, a lower-case letter, or a digit |
| ResetPassword.StrengthGrows | src/pages/ResetPassword.tsx:57-65 | typing more never switches an indicator off |
| ResetPassword.PolicyExamples | src/pages/ResetPassword.tsx:78 | "Welkom01" meets the policy; versions without upper case, with 7 characters or without a digit do not |
| ResetPassword.TokenCheck | src/pages/ResetPassword.tsx:29-55 | no (or an empty) token is rejected with "No reset token provided" without a request. A failed request, an unreadable payload or a `null` payload gives "Failed to verify reset token". Otherwise the token is valid exactly when `valid` is truthy, and a rejection carries the truthy `reason` or "Invalid or expired reset token". A rejection always carries a truthy message |
| ResetPassword.TokenCheckIgnoresStatus | src/pages/ResetPassword.tsx:40-46 | the token check reads the payload whatever the status: the same payload under an error status gives the same result |
| ResetPassword.ResetPasswordPage.SetNewPassword | src/pages/ResetPassword.tsx:57-65 | the indicators always follow the password |
| ResetPassword.ResetPasswordPage.VerifyToken | src/pages/ResetPassword.tsx:29-55 | afterwards the page is no longer verifying, the token is valid exactly as `TokenCheck` decides, with its message otherwise, and the page shows the form (or the success card) for a valid token and the invalid-link card with that message otherwise |
| ResetPassword.ResetPasswordPage.HandleSubmit | src/pages/ResetPassword.tsx:67-114 | sends the request exactly when both fields match and every indicator holds; a mismatch is reported first, then weakness; whenever the mismatch hint shows, the submit is refused with that message; success exactly when the answer is ok and readable, then on to `/login` and the success card; otherwise the server's message and the form stays |
| ResetPassword.ResetPasswordPage.CurrentScreen | src/pages/ResetPassword.tsx:116-185 | the spinner exactly while verifying; the invalid-link card, with the token's message, exactly for a rejected token; the success card exactly for a valid token after success; the form exactly for a valid token before success |
| ResetPassword.ResetPasswordPage.MismatchHint | src/pages/ResetPassword.tsx:289-293 | the hint shows only when the fields differ, and with a non-empty confirmation it shows whenever they differ |
| ResetPassword.ResetMessage | src/pages/ResetPassword.tsx:97-110 | a failed request or unreadable payload shows the thrown message (the fixed text when that is empty); a `null` payload shows the TypeError text; otherwise a truthy `detail` as text, else "Password reset failed"; never empty |
| ResetPassword.ResetDetailShown | src/pages/ResetPassword.tsx:100 | a non-empty string `detail` is shown as sent, and a missing or falsy one gives the fixed text |
| ResetPassword.ResetPasswordPage.constructor | src/pages/ResetPassword.tsx:12-22 | the page opens verifying the link's token, with empty fields, no error and no success |
| ResetPassword.ResetPasswordPage.SetConfirmPassword | src/pages/ResetPassword.tsx:281-282 | the confirmation field holds what was typed |
| Admin.Logged | src/pages/Admin.tsx:98-104 | the new entry comes first, the old entries follow in order, and the length is the smaller of the old length plus one and 50 |
| Admin.LogKeepsNewest | src/pages/Admin.tsx:103 | after any number of entries the log holds them newest first, followed by as many earlier entries as fit under 50 |
| Admin.FlowOf | src/pages/Admin.tsx:156-170 | a step stops exactly on 401 or 403; a failed request throws its own error; any other refused status goes on; a success goes on exactly when its payload reads, and otherwise throws the reading error |
| Admin.RefreshStopsEarly | src/pages/Admin.tsx:143-211 | a stop or error at one step leaves that list and every later one unchanged; a refused non-auth step keeps its own list and goes on; answers that all succeed replace all three lists |
| Admin.UploadGate | src/pages/Admin.tsx:221-229 | an upload goes through exactly with a file, a non-blank title and a category; the category alert is given only when file and title are fine |
| Admin.UploadRefusal | src/pages/Admin.tsx:267-276 | a refusal alerts "Upload failed: " with its `detail`, or "Unknown error" when that is falsy, and logs "Failed to upload document: " with the `detail` interpolated ("undefined" when missing); an unreadable or `null` payload alerts the retry text and logs the thrown error's text |
| Admin.CreateUserAllowed | src/pages/Admin.tsx:433-436 | the form passes exactly when none of e-mail, password and full name is all whitespace |
| Admin.CreateUserRefusal | src/pages/Admin.tsx:456-472 | a refusal alerts its `detail` when truthy, else "Failed to create user"; an unreadable or `null` payload alerts "Network error: " followed by the thrown error's text |
| Admin.DeleteRemovesExactly | src/pages/Admin.tsx:347 | deleting by id removes exactly the records with that id, keeps every other record with all its copies, and a second delete changes nothing (also `:380`, `:413`) |
| Admin.RemoveDocument | src/pages/Admin.tsx:347 | the remaining documents are documents of the old list, none with that id, and no more of them |
| Admin.RemoveUser | src/pages/Admin.tsx:380 | the same for users |
| Admin.RemoveCategory | src/pages/Admin.tsx:413 | the same for categories |
| Admin.FilteredUsersSpec | src/pages/Admin.tsx:643-648 | a user is listed exactly when the lower-cased term occurs in the lower-cased name or e-mail and the role filter allows it; the order is kept; an empty search with "all" lists everyone |
| Admin.MatchesFilters | src/pages/Admin.tsx:643-648 | a matching user always has the filtered role (or the filter is "all"); an exact-case occurrence of the term in the name or e-mail always matches; an empty term filters by role only |
| Admin.FilterUsers | src/pages/Admin.tsx:643-648 | the listed users are users of the list that match the search and the role filter, and no more of them than there are users |
| Admin.FilenameMatch | src/pages/Admin.tsx:297 | a capture of `/filename="([^"]*)"/` contains no quote |
| Admin.FilenameMatchLeftmost | src/pages/Admin.tsx:297 | the capture is the one at the leftmost position where `filename="..."` matches, and there is no capture exactly when the pattern matches nowhere |
| Admin.ClosingQuote | src/pages/Admin.tsx:297 | the closing quote is the first quote after the opening one |
| Admin.DownloadName | src/pages/Admin.tsx:294-301 | with a non-empty header, a non-empty `filename="..."` capture is the name, and no capture or an empty one falls back to the file name; without a header the file name is used (FilenameMatchLeftmost says which capture) |
| Admin.DownloadNameRoundTrip | src/pages/Admin.tsx:294-301 | `attachment; filename="N"` saves under N for every non-empty, quote-free N |
| Admin.DownloadNameWithoutQuotedName | src/pages/Admin.tsx:297-300 | a header with only the `filename*` form falls back to the document's name |
| Admin.DownloadNameEmptyQuotes | src/pages/Admin.tsx:298 | an empty quoted name falls back to the document's name |
| Admin.AdminPage.constructor | src/pages/Admin.tsx:42-91 | the panel opens with empty lists, an empty log, no search, role filter "all" and empty dialogs |
| Admin.AdminPage.AddAuditLog | src/pages/Admin.tsx:98-104 | the log becomes `Logged` of the old log and stays within 50 entries |
| Admin.AdminPage.CheckAuth | src/pages/Admin.tsx:109-118 | on 401 or 403: returns false, removes both keys and goes to `/login`; otherwise returns true and changes nothing |
| Admin.AdminPage.Step | src/pages/Admin.tsx:155-165 | one refresh step ends as `FlowOf` says, ending the session on a stop |
| Admin.AdminPage.RefreshLists | src/pages/Admin.tsx:154-204 | the lists become `Refreshed` of the old lists, and the refresh ends at the first step that does not go on |
| Admin.AdminPage.FetchData | src/pages/Admin.tsx:143-211 | without a token: goes to `/login` and stays loading, changing nothing else. Otherwise the lists are `Refreshed`, the log records success or the error, an error is alerted, a stop ends the session and goes to `/login`, and loading ends |
| Admin.AdminPage.Mount | src/pages/Admin.tsx:120-141 | login or dashboard as the mount check decides, changing nothing else; only an admin loads the data, with the lists, log, storage, navigations and alerts left exactly as the refresh's outcome says |
| Admin.AdminPage.HandleLogout | src/pages/Admin.tsx:214-217 | both keys removed, then `/login` |
| Admin.AdminPage.UploadDisabled | src/pages/Admin.tsx:1247 | the button is disabled exactly while uploading or when `UploadGate` would refuse |
| Admin.AdminPage.CancelUpload | src/pages/Admin.tsx:1235-1238 | cancelling empties the dialog, which `UploadGate` then refuses |
| Admin.AdminPage.ToggleUploadCategory | src/pages/Admin.tsx:1219-1224 | the ticked ids become `Toggle` of the old ones |
| Admin.AdminPage.ToggleDocumentCategory | src/pages/Admin.tsx:1299-1304 | the same for the edit-document dialog |
| Admin.AdminPage.ToggleUserCategory | src/pages/Admin.tsx:1377-1382 | the same for the edit-user dialog |
| Admin.AdminPage.OpenEditDocument | src/pages/Admin.tsx:796-799 | the dialog opens on the document and its category ids |
| Admin.AdminPage.OpenEditUser | src/pages/Admin.tsx:904-908 | the dialog opens on the user, its role and its category ids |
| Admin.AdminPage.SendUpload | src/pages/Admin.tsx:243-277 | a 401/403 ends the session and goes to `/login`, with no alert and no log entry; a success records the upload, clears file, title and categories, and refreshes, with the refresh's own storage, navigation and alert effects; a refusal alerts `detail` or "Unknown error" and records it; an error alerts the retry text and records it; a refusal or error leaves storage and navigations alone; only a success changes the lists or the dialog; uploading ends in every case |
| Admin.AdminPage.HandleFileUpload | src/pages/Admin.tsx:220-277 | the request is sent exactly when `UploadGate` passes and there is a token; a refusal by `UploadGate` only alerts; with no token the page goes to `/login` and stays uploading; a sent request has, branch by branch, the effects `SendUpload` states, with the success flag cleared before it |
| Admin.AdminPage.HandleDownloadDocument | src/pages/Admin.tsx:281-325 | saves exactly when the answer is ok and its payload reads, under `DownloadName`, and records it; otherwise alerts and records the error |
| Admin.AdminPage.HandleDeleteDocument | src/pages/Admin.tsx:327-358 | without a token only goes to `/login`; on success removes the documents with that id, clears the target and records the old target's title ("undefined" without one), with no browser effect; a refusal or error only alerts; a 401/403 only ends the session and goes to `/login` |
| Admin.AdminPage.HandleDeleteUser | src/pages/Admin.tsx:360-391 | the same for users, recorded under the e-mail |
| Admin.AdminPage.HandleDeleteCategory | src/pages/Admin.tsx:393-424 | the same for categories, recorded under the name |
| Admin.AdminPage.HandleDelete | src/pages/Admin.tsx:426-430 | confirming deletes the dialog's target from its own list, leaves the other two lists alone and records the deletion under the target's kind; a refusal or error alerts that kind's failure text; a 401/403 ends the session; without a token only `/login` |
| Admin.AdminPage.HandleCreateUser | src/pages/Admin.tsx:432-473 | sent exactly with non-blank e-mail, password and name and a token; a created user is appended, the form resets to role "medewerker" with no categories, the entered e-mail is recorded and the lists refreshed, with the refresh's browser effects; a refusal alerts `detail` or the fixed text; an error alerts "Network error: ..."; those two change neither storage nor navigations; a 401/403 ends the session and goes to `/login` |
| Admin.AdminPage.AddCreatedUser | src/pages/Admin.tsx:463-468 | the created user is appended to the old list, the form resets, the entered e-mail is recorded before the refresh's own entry, the lists are refreshed, loading ends, and storage, navigations and alerts change exactly as the refresh's outcome says |
| Admin.AdminPage.HandleCreateCategory | src/pages/Admin.tsx:475-510 | a blank name does nothing; without a token only `/login`; a created category is appended, the form reset and the name recorded, with no browser effect; a 401/403 ends the session and goes to `/login`; anything else only alerts |
| UserDashboard.CategoriesPayload | src/pages/UserDashboard.tsx:101-108 | the list is the payload when it is an array, else its `categories` array, else its `data` array, else empty; a `null` payload throws and keeps the old list |
| UserDashboard.PayloadShapes | src/pages/UserDashboard.tsx:101-108 | the three shapes the back end may send give the same list; a non-array `categories` is passed over for `data` |
| UserDashboard.Reply | src/pages/UserDashboard.tsx:160-177 | the reply is the answer, or "No response" when it is missing, for an ok and readable answer, and the apology otherwise; it is never empty |
| UserDashboard.AppendExchange | src/pages/UserDashboard.tsx:144-171 | adding a question and its reply keeps the chat alternating |
| UserDashboard.UserDashboardPage.constructor | src/pages/UserDashboard.tsx:33-57 | the page opens with an empty, well-formed chat, empty forms and no categories |
| UserDashboard.UserDashboardPage.FetchCategories | src/pages/UserDashboard.tsx:86-120 | an ok, readable payload replaces the list by its normalised form; otherwise the list stays |
| UserDashboard.UserDashboardPage.Mount | src/pages/UserDashboard.tsx:59-76 | `/login` exactly when the gate refuses; otherwise the parsed user is kept, whatever its role, and the categories are replaced by a readable list or kept when the fetch fails |
| UserDashboard.UserDashboardPage.HandleSendMessage | src/pages/UserDashboard.tsx:140-180 | a blank input or a pending question is ignored; otherwise the trimmed question is appended, the input cleared, and exactly one reply appended after it; the chat stays alternating |
| UserDashboard.UserDashboardPage.SendQuestion | src/pages/UserDashboard.tsx:144-180 | once the checks pass, the question and then exactly one reply are appended, the input is cleared and nothing stays pending; an alternating chat stays alternating |
| UserDashboard.UserDashboardPage.HandleFileUpload | src/pages/UserDashboard.tsx:182-217 | sent exactly with a file and a non-blank title (no category needed); a success clears file, title and categories; a refusal alerts "Upload failed", an error "Upload error" |
| UserDashboard.UserDashboardPage.ToggleSelectedCategory | src/pages/UserDashboard.tsx:548-553 | the ticked ids become `Toggle` of the old ones |
| UserDashboard.UserDashboardPage.ToggleEditCategory | src/pages/UserDashboard.tsx:718-723 | the same for the edit dialog |
| UserDashboard.UserDashboardPage.HandleEditDocument | src/pages/UserDashboard.tsx:219-224 | the dialog opens on the document, its title and its category ids (none when missing) |
| UserDashboard.UserDashboardPage.HandleLogout | src/pages/UserDashboard.tsx:322-326 | both keys removed, then `/login` |
| Dashboard.EntryFor | src/pages/Dashboard.tsx:69-76 | an entry holds the question as typed, the payload's `answer` and `confidence`, and its `sources` or an empty list |
| Dashboard.AnswerPayload | src/pages/Dashboard.tsx:68 | the payload is read whatever the status; none when the request fails, the payload cannot be read, or is `null` |
| Dashboard.ConfidenceLabel | src/pages/Dashboard.tsx:227 | high exactly above 70, medium above 40 up to 70, low up to 40 |
| Dashboard.ConfidenceLabelMonotone | src/pages/Dashboard.tsx:227 | a higher confidence never gets a lower badge; 70 is medium and 40 is low |
| Dashboard.DashboardPage.constructor | src/pages/Dashboard.tsx:28-32 | the page opens with an empty question and history, not loading |
| Dashboard.DashboardPage.HandleAskQuestion | src/pages/Dashboard.tsx:51-84 | a blank question sends nothing; a readable answer puts its entry in front of the history and clears the question; otherwise history and question stay |
| Dashboard.DashboardPage.HandleLogout | src/pages/Dashboard.tsx:86-90 | both keys removed, then `/` |
| UploadModal.SpacesPassTheCheck | src/pages/UploadModal.tsx:54 | the dialog does not trim: a title of spaces passes its check although it is blank |
| UploadModal.CanUpload | src/pages/UploadModal.tsx:54 | nothing passes without a file; a file with a title that is not blank always passes, so the check is weaker than a trimmed one |
| UploadModal.ProposedTitleSplitsName | src/pages/UploadModal.tsx:38 | the proposed title is a prefix of the name, and with an extension the name is the title, a dot and the extension |
| UploadModal.UploadModalState.constructor | src/pages/UploadModal.tsx:11-15 | the dialog opens without a file, title or progress |
| UploadModal.UploadModalState.ChooseFile | src/pages/UploadModal.tsx:30-51 | choosing or dropping a file keeps it and replaces only an empty title by the stripped name; no file changes nothing |
| UploadModal.UploadModalState.HandleClose | src/pages/UploadModal.tsx:104-110 | file, title, progress and uploading are reset and the host is told |
| UploadModal.UploadModalState.UploadDisabled | src/pages/UploadModal.tsx:219 | the button is disabled while uploading or without a file; when idle, exactly when the dialog's check refuses |
| UploadModal.UploadModalState.HandleUpload | src/pages/UploadModal.tsx:53-102 | sent exactly with a file and a non-empty title, which for an idle dialog is exactly when the button is enabled; only status 200 tells the host of success and closes; any other status or a failed connection alerts and keeps file and title, and the button is enabled again; uploading ends |
| Upload.FailureAlert | src/pages/Upload.tsx:36 | a refused upload alerts its `detail` when truthy, else "Upload failed" |
| Upload.UploadPage.constructor | src/pages/Upload.tsx:7-9 | the form opens without a file or title, not uploading |
| Upload.UploadPage.HandleFileChange | src/pages/Upload.tsx:12-20 | a chosen file is kept and an empty title becomes its stripped name; no file changes nothing |
| Upload.UploadPage.SubmitDisabled | src/pages/Upload.tsx:116 | the button is disabled while uploading, without a file or without a title; when idle, exactly then |
| Upload.UploadPage.HandleSubmit | src/pages/Upload.tsx:22-40 | sent exactly with a file and a non-empty title, which for an idle page is exactly when the button is enabled; success alerts and goes to `/dashboard`; failure alerts `FailureAlert`; uploading ends and the button is enabled again |

## Left out

- HTTP itself (fetch, XMLHttpRequest, axios in `src/services/api.ts`). Each answer is a parameter of the handler, and request headers, URLs and form-data encoding are not modelled. `src/services/api.ts` is not part of this model beyond the upload call it makes for `src/pages/Upload.tsx`.
- Async interleaving. Each handler runs to completion with the answers it is given. Double submits, updates after unmount and stale closures between two events are not modelled.
- Admin.AdminPage.HandleCreateUser: the refresh it starts without awaiting is modelled as running after the rest of the handler.
- Timers. The 1.5 s and 2 s `setTimeout`s that hide the success banner and switch views are left out. ResetPassword.ResetPasswordPage.HandleSubmit navigates to `/login` at once instead of after 3 s.
- Floating point: `formatFileSize`, the upload progress percentage (only its reset to 0 and its 100 on success are kept), and MB sizes.
- Dashboard.ConfidenceLabel takes an integer. A fractional confidence, or one sent as a numeric string, is not modelled.
- Dates. The audit timestamp is an opaque number given to each handler, and `toLocaleDateString` is left out.
- `JSON.parse` is a function parameter that may fail. The JSON grammar itself is not modelled, and numbers are integers.
- `Js.Member` reads only the object's own properties. Keys inherited from `Object.prototype` are not modelled.
- Js.Lookup gives the first property with a key, while `JSON.parse` keeps the last of duplicate keys. Payloads that repeat a key are not modelled faithfully.
- Files.IconFor: a key inherited from `Object.prototype` (such as "constructor") finds a function in the pages' icon tables and shows it instead of the paperclip. The model's tables hold only their own keys.
- Success payloads are read as the type the page declares (`Response<seq<Document>>` and the like). A success whose JSON has another shape, such as an object where `src/pages/Admin.tsx:164-166` expects a list, is not modelled; only an unreadable payload is.
- Unicode. Lower-casing and whitespace are ASCII plus the common space characters, and lengths count code points, not UTF-16 units.
- The router's case-insensitive matching and trailing slashes.
- Icons are abstract values. Their glyph text is not modelled, including the mis-encoded glyph strings in `src/pages/UserDashboard.tsx:330-337`.
- The admin update handlers (`handleUpdateDocumentCategories`, `handleUpdateUser`, `handleUpdateCategory`, `src/pages/Admin.tsx:512-630`).
- On the user dashboard: `fetchDocuments`, `handleSaveEdit`, `confirmDelete` and `handleDownloadDocument` (`src/pages/UserDashboard.tsx:122-320`).
- On the question-and-answer dashboard: `fetchDocuments` (`src/pages/Dashboard.tsx:38-49`).
- The `onChange` setters of plain inputs, tab switches, and modal visibility flags.
- Admin.AdminPage.HandleDownloadDocument returns the name the file is saved under. The Blob, the object URL and the anchor click are left out.
- `src/types/index.ts` has types only. Its role union disagrees with the roles the pages compare against.

## Findings

| source | as written | input that shows it | evidently intended | confidence | as-written member | corrected member |
|---|---|---|---|---|---|---|
| src/App.tsx:50 with src/pages/Admin.tsx:131-133 | `/dashboard` always redirects to `/admin`, while the admin page sends every non-admin to `/dashboard` | a session whose stored user is `{"role":"medewerker"}`: `/admin` → `/dashboard` → `/admin` → … without end | `/dashboard` shows the user dashboard behind the session check, as `AdminRoute` (src/components/AdminRoute.tsx:20-23) and the login redirect (src/pages/Login.tsx:110-112) expect | high (not executed) | Routing.NonAdminNeverSettles | Routing.FixedRoutesSettle |
