# Campus-recruitment portal: a Dafny model of its core

The portal lets students share interview experiences, browse them by company
and role, and ask a campus-placement chatbot. Administrators review the
submitted experiences and student profiles. It has a React front end and a FastAPI back end.

This project models the deterministic logic under the user interface and the I/O.
Each source file has its own Dafny module.

**Front end**
- The session store and the route guard and route table.
- The HTTP client's interceptors and its error-message extraction.
- The sign-up / OTP / login / reset wizard.
- The admin login page and the admin review panel.
- The profile page and the experience form.
- The dashboard's company list, the company page, and the chat widget.

**Back end**
- The OTP table.
- The authentication endpoints with their "recently verified" grace map.
- Password truncation for bcrypt, and token claims.
- The admin endpoints and the eligibility score.
- The profile endpoints; experience create, list, update and bookmark.
- The chatbot's keyword gate, the company-suggestion extraction, the pattern extraction and roadmap, and the counting parts of the analytics endpoints.

**How the model is written**
- State the source mutates in place is a Dafny `class`. Each of its methods is specified by a pure transition function: `ensures State() == AfterX(old(State()), ...)`. This covers the React component states, the session store and the OTP table. The database tables are a `Db` class.
- Each back-end endpoint's result is tied to a pure `...Outcome` function of the table contents and the request. Mutating endpoints return a `Transaction`: the new tables together with the response.
- Everything outside the program is an input: the clock (`now`), generated OTP digits, network and model outcomes, health probes, bcrypt, JWT encoding and `JSON.stringify`. The functions among these are function-valued parameters.
- JavaScript values are the `Json.Js` datatype. Its property reads can throw, which the model shows as `None`.
- Integers are unbounded. Money, rates and averages are exact `real`s.
- The chatbot's reply is modelled as which text it sends: the fixed off-topic answer, the model's own text, the apology for a body without one, or a tier's canned text. `ChatbotApi.AnswerText` spells each out.

Shared modules:
- `Util`: strings, `Option`, counting and de-duplication.
- `Json`: JavaScript values, truthiness, `String(x)`, `includes`.
- `Utf8`: RFC 3629 encoding and decoding.
- `Uri`: `encodeURIComponent` and `decodeURIComponent`, with percent-encoding as in section 2.1 of RFC 3986.
- `PyDict`: insertion-ordered Python dictionaries.
- `Models`: the database rows and tables, and Python truthiness and hashing.

## Model

| member | source | states |
|---|---|---|
| AuthStore.SetAuthIsTotalOverwrite | frontend/src/store/authStore.ts:31-32 | `setAuth(u, t)` gives the same state from any starting state: the user and token set, authenticated, not admin, no admin id, so a regular login ends an admin session |
| AuthStore.AdminLoginKeepsUserSession | frontend/src/store/authStore.ts:33-34 | `adminLogin(id)` sets the admin flag and id and leaves user, token and the authentication flag as they were |
| AuthStore.LogoutRestoresInitial | frontend/src/store/authStore.ts:26-36 | `logout` gives the initial state and is idempotent (lines 26-30, 35-36) |
| AuthStore.SetAuthThenLogout | frontend/src/store/authStore.ts:26-36 | logging in then out yields the initial state from any state |
| AuthStore.UpdateUserMerges | frontend/src/store/authStore.ts:37-40 | with no user, `updateUser` keeps no user; otherwise the merged user has the union of the keys, patched keys take the patch's values, others keep the user's |
| AuthStore.UpdateUserKeepsSession | frontend/src/store/authStore.ts:37-40 | `updateUser` never changes token, authentication flag, admin flag or admin id |
| AuthStore.Store.constructor | frontend/src/store/authStore.ts:25-30 | a new store holds the initial state |
| AuthStore.Store.SetAuth | frontend/src/store/authStore.ts:31-32 | the store's new state is the `setAuth` transition of the old |
| AuthStore.Store.AdminLogin | frontend/src/store/authStore.ts:33-34 | the new state is the `adminLogin` transition of the old |
| AuthStore.Store.Logout | frontend/src/store/authStore.ts:35-36 | the new state is the `logout` transition of the old |
| AuthStore.Store.UpdateUser | frontend/src/store/authStore.ts:37-40 | the new state is the `updateUser` merge of the old |
| ProtectedRoute.AdminOnlyGuard | frontend/src/components/ProtectedRoute.tsx:13-18 | an admin-only route renders iff `isAdmin`, otherwise redirects to `/admin/login`, and its outcome does not depend on `isAuthenticated` |
| ProtectedRoute.RegularGuard | frontend/src/components/ProtectedRoute.tsx:21-25 | a regular route renders iff `isAuthenticated`, otherwise redirects to `/auth`, and its outcome does not depend on `isAdmin` |
| ProtectedRoute.AdminOnlySession | frontend/src/components/ProtectedRoute.tsx:9-25 | an admin session without a user login opens the admin page and is redirected away from user pages |
| AppRoutes.Segments | frontend/src/App.tsx:20-87 | a path is matched by its non-empty `/`-separated segments |
| AppRoutes.AuthRoute | frontend/src/App.tsx:23 | `/auth` shows the sign-in page exactly when nobody is authenticated, and navigates to `/dashboard` otherwise |
| AppRoutes.AdminLoginIsPublic | frontend/src/App.tsx:24 | `/admin/login` is shown under every session |
| AppRoutes.UserPagesAreGuarded | frontend/src/App.tsx:27-74 | dashboard, company, profile, new-experience and edit-experience pages are all behind the regular guard |
| AppRoutes.OnlyAdminIsAdminOnly | frontend/src/App.tsx:77-86 | a path is behind the admin-only guard iff it is the one segment `admin` in any letter case, as the router matches paths case-insensitively |
| AppRoutes.CaseIgnored | frontend/src/App.tsx:77-86 | a segment such as `ADMIN` resolves exactly as `/admin` does: the panel for an admin session, a redirect to `/admin/login` otherwise |
| AppRoutes.GuardedPagesFollowGuard | frontend/src/App.tsx:27-86 | a user-guarded page shows iff the session is authenticated; the admin page shows iff the session is admin |
| ApiClient.Fallback | frontend/src/api/client.ts:41 | the last line's message is the status text when non-empty, else `Error <status>`, and is never empty, so the generic alternative there is unreachable |
| ApiClient.NoResponseMessage | frontend/src/api/client.ts:8-10 | without a response the message is the error's own message, or 'An unexpected error occurred' when that is empty |
| ApiClient.ValidationListMessage | frontend/src/api/client.ts:15-23 | a 422 with a list detail renders each item as itself if a string, else its `msg`, else its `message`, else its JSON, joins them with '. ', reads 'Validation error' exactly when the join is empty, and raises iff some item cannot be rendered |
| ApiClient.EmptyDetailList | frontend/src/api/client.ts:15-34 | an empty detail list gives 'Validation error' on a 422 and the empty string on any other status (lines 15-23, 26-34) |
| ApiClient.StringDetailVerbatim | frontend/src/api/client.ts:26-29 | a non-empty string detail is the message on every status |
| ApiClient.OtherListMessage | frontend/src/api/client.ts:30-34 | a list detail on a status other than 422 renders items as string, else truthy `msg`, else JSON, joined with '. ', raising iff an item cannot be rendered |
| ApiClient.MessageReadOnlyOn422 | frontend/src/api/client.ts:15-34 | an item with only a `message` yields that message on a 422 and its JSON on any other status (lines 15-23, 30-34) |
| ApiClient.ObjectDetailMessage | frontend/src/api/client.ts:35-41 | an object detail yields its truthy `msg`, else its truthy `message`, else the status-text fallback |
| ApiClient.NoDetailFallback | frontend/src/api/client.ts:26-41 | with a response and a falsy detail, the message is the status-text fallback and is never empty (lines 26, 41) |
| ApiClient.AuthorizedHeaders | frontend/src/api/client.ts:53-60 | with a truthy token the headers gain `Authorization: Bearer <token>`, otherwise they are unchanged; no other header changes |
| ApiClient.RequestConfig.constructor | frontend/src/api/client.ts:44-50 | a request configuration starts with the given headers |
| ApiClient.RequestConfig.Authorize | frontend/src/api/client.ts:53-60 | the interceptor sets the headers to those of the token read from the store |
| ApiClient.BearerIffToken | frontend/src/api/client.ts:55-58 | the request carries an Authorization header iff the store's token is non-empty, and then it is the RFC 6750 section 2.1 bearer form |
| ApiClient.MarkData | frontend/src/api/client.ts:120-122 | an object body gains `_extractedMessage` with every other property kept; any other body is left as it is |
| ApiClient.NoResponsePassesThrough | frontend/src/api/client.ts:71-132 | an error without a response is rejected unchanged, never ends the session, and starts the health probe exactly on the connection-failure wording (lines 71-108, 132) |
| ApiClient.RejectedCarriesExtracted | frontend/src/api/client.ts:111-129 | an error with a response is rejected as a new `Error` carrying the extracted message, an object body records it under `_extractedMessage`, and the session is torn down exactly on a 401 |
| ApiClient.UnauthorizedTearsDown | frontend/src/api/client.ts:124-127 | every 401 whose message can be extracted ends the session |
| ApiClient.AsWrittenDiffersOnlyOnPrimitiveBody | frontend/src/api/client.ts:120-122 | the handler as written and the corrected one agree on every error but one with a truthy primitive body |
| ApiClient.PlainTextBodyRaises | frontend/src/api/client.ts:120-122 | for a plain-text body the handler as written rejects with a TypeError about `_extractedMessage` and keeps the session even on a 401, while the corrected one rejects with the extracted text |
| ApiClient.HandleResponseError | frontend/src/api/client.ts:67-133 | the interceptor rejects with the modelled value; on teardown the store is back to its initial state and the page navigates to `/auth`, otherwise the store is unchanged and there is no navigation |
| ErrorMessages.StringUnchanged | frontend/src/main.tsx:11 | `safeErrorToString` of a thrown string is that string |
| ErrorMessages.ErrorMessageWins | frontend/src/main.tsx:12-13 | an `Error` whose `message` is a string yields that message, even when empty, and nothing else is consulted |
| ErrorMessages.ArrayMessageJoined | frontend/src/main.tsx:16-25 | a non-`Error` object whose `message` is a list yields the list rendered as string, else `msg`, else JSON, joined with '. ' |
| ErrorMessages.ExtractedBeforeDetail | frontend/src/main.tsx:16-41 | with a falsy `message`, a truthy `_extractedMessage` wins, then a non-empty string `detail`, then a list `detail` rendered and joined (lines 16, 30-41) |
| ErrorMessages.NothingMatches | frontend/src/main.tsx:10-42 | when no rule applies the text is 'An unexpected error occurred' |
| ErrorMessages.InterceptedErrorReadsExtracted | frontend/src/main.tsx:12-13 | every error the HTTP client rejects with for a failed response reads, through `safeErrorToString`, as the message the client extracted (with frontend/src/api/client.ts:111-129) |
| ErrorMessages.InterceptedErrorReadsExtractedAsWritten | frontend/src/main.tsx:12-13 | for the interceptor as written the same holds whenever the response body is not a truthy primitive (with frontend/src/api/client.ts:111-129) |
| ErrorMessages.HandlerPrecedence | frontend/src/pages/AdminPanel.tsx:56-73 | the handlers' inline chain takes a non-empty string `message`, else a truthy `_extractedMessage`, else a string or list `detail`, else the handler's default |
| ErrorMessages.HandlerReadsExtracted | frontend/src/pages/AdminPanel.tsx:56-73 | for an error from the HTTP client the chain yields the extracted message whenever it is non-empty, whatever the default (with frontend/src/api/client.ts:111-129) |
| ErrorMessages.HandlerReadsExtractedAsWritten | frontend/src/pages/AdminPanel.tsx:56-73 | for the interceptor as written the same holds whenever the response body is not a truthy primitive (with frontend/src/api/client.ts:111-129) |
| AdminApi.ListDetail | frontend/src/api/admin.ts:45-48 | a list `detail` gives its items, string or `msg` else JSON, joined with '. ' |
| AdminApi.ScalarDetail | frontend/src/api/admin.ts:41-53 | a string `detail` gives itself, an object `detail` with a truthy `msg` gives that `msg`, and a missing `detail` leaves 'Admin login failed' (lines 41, 49-53) |
| AdminApi.UnreadableBody | frontend/src/api/admin.ts:42-56 | an unreadable body, or a list with a `null` item, gives `HTTP <status>: <statusText>` |
| AdminApi.Login | frontend/src/api/admin.ts:21-101 | the login's result is the fetch's value or the classified error of the failed attempt, whatever the health probe answers |
| AdminApi.NotOkDetail | frontend/src/api/admin.ts:40-56 | the reassignments of `errorDetail` compute exactly the modelled detail message |
| AdminApi.Reclassify | frontend/src/api/admin.ts:61-99 | the `catch` block throws exactly the modelled classification of the error, whatever the probe answers |
| AdminApi.ThreeCases | frontend/src/api/admin.ts:70-99 | network wording in the message throws the not-running error, another non-empty message rethrows the error itself, an empty one throws the generic network error; the `Connection issue` error never escapes |
| AdminApi.EmptyDetailReadsAsNetworkError | frontend/src/api/admin.ts:49-99 | an empty string `detail` makes the login fail with the generic network error (lines 49-50, 96-99) |
| AuthPage.Suggest | frontend/src/pages/AuthPage.tsx:35-37 | the suggestions are the listed domains starting with the prefix, each after the local part, none left out and none added |
| AuthPage.EmailSuggestions | frontend/src/pages/AuthPage.tsx:30-48 | there are no suggestions without an '@' or with an empty domain part |
| AuthPage.SuggestionsSpec | frontend/src/pages/AuthPage.tsx:28-48 | a string is suggested iff the address has an '@', a non-empty domain part, and the string is the local part followed by a listed domain that starts with '@' and the lower-cased domain part |
| AuthPage.SuggestionShape | frontend/src/pages/AuthPage.tsx:33-37 | every suggestion keeps what precedes the '@' and ends in a listed domain |
| AuthPage.TabNeverCompletesTypedEmail | frontend/src/pages/AuthPage.tsx:55-59 | as written, Tab after typing never changes the form: suggestions exist only for an address with an '@', which the key handler excludes |
| AuthPage.PartsOf | frontend/src/pages/AuthPage.tsx:33 | an address with exactly one '@' splits into the text before it and the text after it |
| AuthPage.JohnParts | frontend/src/pages/AuthPage.tsx:33 | `'john@gm'.split('@')` gives the local part 'john' and the domain 'gm' |
| AuthPage.TabIgnoresShownSuggestion | frontend/src/pages/AuthPage.tsx:30-59 | typing 'john@gm' shows the suggestion list, and Tab as written leaves the address 'john@gm' |
| AuthPage.TabCompletesTypedEmail | frontend/src/pages/AuthPage.tsx:50-59 | the corrected Tab handler replaces a typed address by its first suggestion and hides the list |
| AuthPage.Chars | frontend/src/pages/AuthPage.tsx:654 | `otp.split('')` gives one-character strings, one per character |
| AuthPage.FlattenChars | frontend/src/pages/AuthPage.tsx:654-656 | joining the split characters gives the string back |
| AuthPage.FlattenEmpties | frontend/src/pages/AuthPage.tsx:655-656 | joining only the empty strings filling the holes of a sparse array gives the empty string |
| AuthPage.FlattenDigits | frontend/src/pages/AuthPage.tsx:655-656 | joining digit-only strings gives a digit-only string |
| AuthPage.AfterBoxInput | frontend/src/pages/AuthPage.tsx:653-657 | an OTP box's input leaves at most six characters |
| AuthPage.FlattenOne | frontend/src/pages/AuthPage.tsx:656 | joining one string gives that string |
| AuthPage.BoxInputFilled | frontend/src/pages/AuthPage.tsx:654-656 | typing in a filled box replaces that box's digit by the digits typed, cut to six |
| AuthPage.BoxInputPast | frontend/src/pages/AuthPage.tsx:654-656 | typing in a box past the end appends the digits typed, whichever box it was, cut to six |
| AuthPage.BoxInputDigits | frontend/src/pages/AuthPage.tsx:654-656 | a digit-only code stays digit-only and at most six long |
| AuthPage.ResetOtpInput | frontend/src/pages/AuthPage.tsx:1036 | the reset form's code is the first at most six of the digits typed |
| AuthPage.NoCallWithoutValidEmail | frontend/src/pages/AuthPage.tsx:66-280 | sign-up, login and forgot-password make no call and show the invalid-email toast for an empty address or one without '@' (lines 66-69, 219-222, 277-280) |
| AuthPage.EmailStepsAdvance | frontend/src/pages/AuthPage.tsx:62-308 | sign-up success moves to OTP entry and forgot-password success to the reset form, keeping every other field; failures keep the step; the call carries the address (lines 62-99, 273-308) |
| AuthPage.VerifyOtpOnlySpec | frontend/src/pages/AuthPage.tsx:101-136 | a code not six characters long is refused with no call; success keeps the code for the profile step, clears the input and moves to the profile step |
| AuthPage.ProfileChecksOrder | frontend/src/pages/AuthPage.tsx:141-157 | the profile checks run in order, short name, then mismatch, then short password, and nothing is refused exactly when all three pass |
| AuthPage.ProfileCallsOnlyWhenChecksPass | frontend/src/pages/AuthPage.tsx:138-170 | a refused profile makes no call and changes nothing; the call is made iff the checks pass |
| AuthPage.ProfileSuccess | frontend/src/pages/AuthPage.tsx:160-184 | success sends the kept code, stores the session with the trimmed name and returned id and token, clears the kept code and goes to the dashboard |
| AuthPage.ProfileFailure | frontend/src/pages/AuthPage.tsx:185-211 | a failure whose message contains both 'OTP' and 'expired' returns to OTP entry and forgets the kept code; another string message is shown and keeps the step; a message of another type makes the handler raise |
| AuthPage.ResetSuccess | frontend/src/pages/AuthPage.tsx:330-340 | a reset success returns to login with password, confirmation and code cleared |
| AuthPage.ChangeEmailKeepsEmail | frontend/src/pages/AuthPage.tsx:704-707 | 'Change email' returns to sign-up, clears the code, and keeps the address and the kept code |
| AuthPage.Wizard.constructor | frontend/src/pages/AuthPage.tsx:12-27 | the wizard starts on the sign-up step with every field empty |
| AuthPage.Wizard.EmailChanged | frontend/src/pages/AuthPage.tsx:30-535 | the new state is the `handleEmailChange` transition (lines 30-48, 535) |
| AuthPage.Wizard.EmailTyped | frontend/src/pages/AuthPage.tsx:899-993 | the login and forgot-password inputs only set the address (lines 899, 993) |
| AuthPage.Wizard.SuggestionClicked | frontend/src/pages/AuthPage.tsx:50-53 | the new state is the suggestion-click transition |
| AuthPage.Wizard.TabPressed | frontend/src/pages/AuthPage.tsx:55-60 | the new state is the corrected Tab transition |
| AuthPage.Wizard.OtpBoxChanged | frontend/src/pages/AuthPage.tsx:653-657 | only the code changes, to the box-input result |
| AuthPage.Wizard.ResetOtpChanged | frontend/src/pages/AuthPage.tsx:1036 | only the code changes, to the filtered input |
| AuthPage.Wizard.SubmitSignup | frontend/src/pages/AuthPage.tsx:62-99 | the new state and the effect are the `handleSignup` transition |
| AuthPage.Wizard.SubmitOtp | frontend/src/pages/AuthPage.tsx:101-136 | the new state and the effect are the `handleVerifyOTPOnly` transition |
| AuthPage.Wizard.SubmitProfile | frontend/src/pages/AuthPage.tsx:138-213 | the new state and the effect are the `handleCompleteProfile` transition, and the store gets `setAuth` exactly when the effect asks for it |
| AuthPage.Wizard.SubmitLogin | frontend/src/pages/AuthPage.tsx:215-271 | the effect is the `handleLogin` transition, the form is not changed, and the store gets `setAuth` exactly when the effect asks for it |
| AuthPage.Wizard.SubmitForgotPassword | frontend/src/pages/AuthPage.tsx:273-308 | the new state and the effect are the `handleForgotPassword` transition |
| AuthPage.Wizard.SubmitResetPassword | frontend/src/pages/AuthPage.tsx:310-367 | the new state and the effect are the `handleResetPassword` transition |
| AuthPage.Wizard.ResendOtp | frontend/src/pages/AuthPage.tsx:369-376 | the effect is the resend call and its toast, and the form is unchanged |
| AuthPage.Wizard.GoToLogin | frontend/src/pages/AuthPage.tsx:585 | only the step changes, to login |
| AuthPage.Wizard.ChangeEmail | frontend/src/pages/AuthPage.tsx:704-707 | back to sign-up with the code cleared |
| AuthPage.Wizard.BackToOtp | frontend/src/pages/AuthPage.tsx:845-850 | back to OTP entry with password, confirmation and name cleared |
| AuthPage.Wizard.ForgotLink | frontend/src/pages/AuthPage.tsx:950-953 | to the forgot-password step with the password cleared |
| AuthPage.Wizard.GoToSignup | frontend/src/pages/AuthPage.tsx:963 | only the step changes, to sign-up |
| AuthPage.Wizard.ForgotBack | frontend/src/pages/AuthPage.tsx:1003-1006 | back to login with the address cleared |
| AuthPage.Wizard.ResetBack | frontend/src/pages/AuthPage.tsx:1085-1090 | back to login with password, confirmation and code cleared |
| SignupFlow.DetailReachesHandler | frontend/src/api/client.ts:26-129 | a non-empty string `detail` on any status but 422 reaches a page handler's message chain as itself (lines 26-29, 111-129; with frontend/src/pages/AuthPage.tsx:185-200) |
| SignupFlow.AgainMessageLapsed | backend/app/api/v1/auth.py:100 | the back end's 'verify your OTP again' detail mentions both 'OTP' and 'expired', so the page reads it as a lapsed verification (with frontend/src/pages/AuthPage.tsx:202) |
| SignupFlow.GraceLapseReturnsToOtpEntry | backend/app/core/email.py:180-182 | once the 300-second window after `verify-otp-only` has passed, completing the profile fails with 400 'verify again' (the code was consumed on first use), and the page goes back to OTP entry with the kept code cleared (with backend/app/api/v1/auth.py:89-101, frontend/src/pages/AuthPage.tsx:202-206) |
| SignupFlow.GraceWindowCreatesAccount | backend/app/api/v1/auth.py:61-123 | inside the window the profile call creates the account for the verified address without checking the OTP it carries, appends exactly that user and closes the window (lines 61-62, 89-123) |
| AdminLoginPage.EmptyFieldRefused | frontend/src/pages/AdminLoginPage.tsx:78-81 | an empty address or password shows 'Please fill in all fields', makes no call and leaves the session as it was |
| AdminLoginPage.SuccessOpensPanel | frontend/src/pages/AdminLoginPage.tsx:35-39 | a successful login stores the admin id, keeps any user session, and navigates to `/admin` |
| AdminLoginPage.GreenIndicator | frontend/src/pages/AdminLoginPage.tsx:43-65 | with a green status indicator the extracted message is shown as it is, except that the not-running wording becomes the console hint |
| AdminLoginPage.RedIndicator | frontend/src/pages/AdminLoginPage.tsx:43-71 | with a red indicator a message containing 'fetch' or 'Network' becomes the start-the-server text; any other is shown as it is (lines 43-56, 66-71) |
| AdminLoginPage.NotRunningUnderGreen | frontend/src/api/admin.ts:88 | the login call's own not-running error reads as the console hint when the indicator is green (with frontend/src/pages/AdminLoginPage.tsx:59-63) |
| AdminLoginPage.GenericUnderRed | frontend/src/api/admin.ts:99 | the login call's generic network error reads as the start-the-server text when the indicator is red (with frontend/src/pages/AdminLoginPage.tsx:66-70) |
| AdminLoginPage.LoginForm.constructor | frontend/src/pages/AdminLoginPage.tsx:10-11 | both fields start empty |
| AdminLoginPage.LoginForm.Submit | frontend/src/pages/AdminLoginPage.tsx:33-83 | the submit handler's effect (toast, navigation) and the new session are those of the modelled transition |
| AdminPanel.HueOf | frontend/src/pages/AdminPanel.tsx:188-594 | green from 80, blue from 60 below 80, yellow from 40 below 60, red below 40, each exactly on its range (lines 188-200, 587-594) |
| AdminPanel.ColoursAgree | frontend/src/pages/AdminPanel.tsx:188-594 | the text class, the background class and the progress bar class always name the same colour tier (lines 188-200, 587-594) |
| AdminPanel.ColoursFollowStatus | frontend/src/pages/AdminPanel.tsx:188-193 | each colour tier is exactly one of the back end's eligibility statuses, on the same thresholds (with backend/app/api/v1/admin.py:276-287) |
| AdminPanel.ViewFor | frontend/src/pages/AdminPanel.tsx:28-36 | the panel renders iff an admin is signed in, and otherwise redirects to `/admin/login` |
| AdminPanel.ReasonArg | frontend/src/pages/AdminPanel.tsx:183-185 | an empty reason is sent as absent, any other as itself (lines 183, 185) |
| AdminPanel.TransitionsKeepDialog | frontend/src/pages/AdminPanel.tsx:79-763 | every handler keeps the dialog consistent: the title's flag agrees with which target is set while the dialog is open (lines 79-86, 138-146, 166-178, 228-248, 758-763) |
| AdminPanel.ConfirmAfterHandleReject | frontend/src/pages/AdminPanel.tsx:166-186 | after `handleReject(id)` the dialog targets that experience alone, and confirming rejects it with the typed reason (lines 166-171, 180-186) |
| AdminPanel.ConfirmAfterHandleRejectUser | frontend/src/pages/AdminPanel.tsx:173-186 | after `handleRejectUser(id)` the dialog targets that user alone, and confirming rejects that profile with the typed reason (lines 173-178, 180-186) |
| AdminPanel.ConfirmMatchesTitle | frontend/src/pages/AdminPanel.tsx:180-186 | with the dialog open, confirming rejects the entity its title names |
| AdminPanel.ZeroIdSendsNothing | frontend/src/pages/AdminPanel.tsx:181-183 | an id of 0 is falsy, so confirming makes no call (lines 181, 183) |
| AdminPanel.CancelKeepsUserTarget | frontend/src/pages/AdminPanel.tsx:758-763 | Cancel closes the dialog and clears the reason and the experience target only; the user target, the title's flag, the tab and the selections remain |
| AdminPanel.StaleUserTargetCleared | frontend/src/pages/AdminPanel.tsx:166-763 | a user target left behind by Cancel is cleared by the next `handleReject`, so it never leaks into an experience rejection (lines 166-171, 758-763) |
| AdminPanel.RejectSuccessResets | frontend/src/pages/AdminPanel.tsx:79-146 | each successful rejection closes the dialog and clears exactly its reason, target and selection; confirming again sends no second rejection of that kind (lines 79-86, 138-146) |
| AdminPanel.Page.constructor | frontend/src/pages/AdminPanel.tsx:15-22 | the panel opens on the experiences tab with the dialog closed and nothing selected |
| AdminPanel.Page.HandleReject | frontend/src/pages/AdminPanel.tsx:166-171 | the state becomes the modelled `handleReject` transition |
| AdminPanel.Page.HandleRejectUser | frontend/src/pages/AdminPanel.tsx:173-178 | the state becomes the modelled `handleRejectUser` transition |
| AdminPanel.Page.ConfirmReject | frontend/src/pages/AdminPanel.tsx:180-186 | the experience rejection wins when its truthy id is set, the user rejection is sent otherwise when its truthy id is set, and no call is made iff neither id is truthy |
| AdminPanel.Page.ReasonTyped | frontend/src/pages/AdminPanel.tsx:753 | only the reason changes |
| AdminPanel.Page.Cancel | frontend/src/pages/AdminPanel.tsx:758-763 | the state becomes the modelled Cancel transition |
| AdminPanel.Page.RejectSucceeded | frontend/src/pages/AdminPanel.tsx:79-86 | the state becomes the modelled rejection success |
| AdminPanel.Page.RejectUserSucceeded | frontend/src/pages/AdminPanel.tsx:138-146 | the state becomes the modelled user rejection success |
| AdminPanel.Page.ApproveSucceeded | frontend/src/pages/AdminPanel.tsx:50-55 | only the selected experience is cleared |
| AdminPanel.Page.ApproveUserSucceeded | frontend/src/pages/AdminPanel.tsx:110-114 | only the selected user is cleared |
| AdminPanel.Page.SelectTab | frontend/src/pages/AdminPanel.tsx:228-248 | the tab changes and the selection of that tab is cleared |
| ProfilePage.ChangedIffDiffers | frontend/src/pages/ProfilePage.tsx:42-52 | the change flag's test holds exactly when the form differs from the loaded user's values, `null` read as `''` |
| ProfilePage.LoadFillsForm | frontend/src/pages/ProfilePage.tsx:28-39 | loading a user fills every field from it, `null` as `''`, and shows no change |
| ProfilePage.TransitionsTrack | frontend/src/pages/ProfilePage.tsx:28-258 | loading, every field edit and Cancel keep the flag equal to "the form differs from the user" (lines 28-52, 160-216, 248-258) |
| ProfilePage.EditTouchesOneField | frontend/src/pages/ProfilePage.tsx:160-216 | an edit sets its own field to the typed value and leaves the other fields and the user alone (lines 160, 174, 188, 202, 216) |
| ProfilePage.EditBackIsClean | frontend/src/pages/ProfilePage.tsx:42-216 | typing a field and then typing it back to the loaded value gives back the freshly loaded state, flag cleared (lines 42-52, 160-216) |
| ProfilePage.CancelRestores | frontend/src/pages/ProfilePage.tsx:248-258 | Cancel after any edits gives the state right after loading, and a second Cancel changes nothing |
| ProfilePage.CancelWithoutUser | frontend/src/pages/ProfilePage.tsx:249 | before a user is loaded Cancel does nothing |
| ProfilePage.Page.constructor | frontend/src/pages/ProfilePage.tsx:13-20 | every field starts empty, no change is shown and no user is loaded |
| ProfilePage.Page.UserLoaded | frontend/src/pages/ProfilePage.tsx:28-52 | the state becomes the modelled load transition |
| ProfilePage.Page.Edit | frontend/src/pages/ProfilePage.tsx:42-216 | the state becomes the modelled edit, flag recomputed (lines 42-52, 160-216) |
| ProfilePage.Page.Cancel | frontend/src/pages/ProfilePage.tsx:248-258 | the state becomes the modelled Cancel |
| ProfilePage.Page.Submit | frontend/src/pages/ProfilePage.tsx:73-76 | the update sends the form as it stands |
| ProfilePage.Page.UpdateSucceeded | frontend/src/pages/ProfilePage.tsx:59-67 | the store's user is merged with the response and the change flag is cleared |
| ExperienceForm.RemoveAt | frontend/src/pages/ExperienceForm.tsx:117-297 | filtering out one index drops that position alone and shifts the rest down in order; an index outside the list changes nothing (lines 117, 295-297) |
| ExperienceForm.SubmitCall | frontend/src/pages/ExperienceForm.tsx:96-102 | the form is sent as an update of the route's experience iff the route carries a non-empty id, and as a new experience otherwise |
| ExperienceForm.StepsClamped | frontend/src/pages/ExperienceForm.tsx:10-460 | Previous and Next keep the step among the four, stop at the first and the last, and undo each other away from the ends (lines 10, 450, 460) |
| ExperienceForm.EditorsKeepStep | frontend/src/pages/ExperienceForm.tsx:104-298 | adding or removing a resource, a round or a question never moves the step (lines 104-150, 292-298) |
| ExperienceForm.AddResourceRule | frontend/src/pages/ExperienceForm.tsx:104-112 | a non-blank resource is appended trimmed and the input is cleared, nothing else in the form changing; a blank one changes nothing |
| ExperienceForm.RemoveResourceRule | frontend/src/pages/ExperienceForm.tsx:114-119 | removing a resource leaves the list with that position cut out, the others in order, one copy of it fewer |
| ExperienceForm.AddRoundRule | frontend/src/pages/ExperienceForm.tsx:121-133 | without a round type nothing changes; with one, a round named `Round <count + 1>` carrying the draft is appended and the draft is reset |
| ExperienceForm.DeleteRoundKeepsNames | frontend/src/pages/ExperienceForm.tsx:292-298 | deleting a round keeps every other round and its name, in order |
| ExperienceForm.RoundNamesCanRepeat | frontend/src/pages/ExperienceForm.tsx:123-298 | three rounds, the first deleted, then one added, leave two rounds both named 'Round 3' (lines 123, 292-298) |
| ExperienceForm.AddQuestionRule | frontend/src/pages/ExperienceForm.tsx:135-150 | a non-blank question is appended trimmed to its chosen category only, an existing category keeping its place and a new one going last, nothing else in the form changing, and the draft goes back to a blank DSA question; a blank one changes nothing |
| ExperienceForm.StartCategories | frontend/src/pages/ExperienceForm.tsx:22-27 | the form starts with the categories DSA, Technical, HR and Managerial in that order, each once and empty |
| ExperienceForm.Page.constructor | frontend/src/pages/ExperienceForm.tsx:16-40 | the form starts on the first step with empty fields, no rounds, four empty question categories, result 'Selected' and blank drafts |
| ExperienceForm.Page.Previous | frontend/src/pages/ExperienceForm.tsx:450 | the state becomes the modelled Previous |
| ExperienceForm.Page.Next | frontend/src/pages/ExperienceForm.tsx:460 | the state becomes the modelled Next |
| ExperienceForm.Page.ResourceTyped | frontend/src/pages/ExperienceForm.tsx:366 | only the resource input changes |
| ExperienceForm.Page.AddResource | frontend/src/pages/ExperienceForm.tsx:104-112 | the state becomes the modelled `addResource` |
| ExperienceForm.Page.RemoveResource | frontend/src/pages/ExperienceForm.tsx:114-119 | the state becomes the modelled `removeResource` |
| ExperienceForm.Page.RoundTypeChosen | frontend/src/pages/ExperienceForm.tsx:269 | only the draft round's type changes |
| ExperienceForm.Page.AddRound | frontend/src/pages/ExperienceForm.tsx:121-133 | the state becomes the modelled `addRound` |
| ExperienceForm.Page.DeleteRound | frontend/src/pages/ExperienceForm.tsx:292-298 | the state becomes the modelled round deletion |
| ExperienceForm.Page.QuestionTyped | frontend/src/pages/ExperienceForm.tsx:325-339 | only the question draft changes (lines 325, 339) |
| ExperienceForm.Page.AddQuestion | frontend/src/pages/ExperienceForm.tsx:135-150 | the state becomes the modelled `addQuestion` |
| ExperienceForm.Page.Submit | frontend/src/pages/ExperienceForm.tsx:96-102 | the submission is the modelled create-or-update call with the current form |
| Dashboard.PublishedOf | frontend/src/pages/Dashboard.tsx:128-130 | a company's experiences are exactly the loaded rows with that exact name that are published |
| Dashboard.SelectionRate | frontend/src/pages/Dashboard.tsx:134-138 | a company with no published experience has a selection rate of 0 |
| Dashboard.AvgPackage | frontend/src/pages/Dashboard.tsx:139-143 | with no experience carrying a truthy package the average is 0 |
| Dashboard.PrecedesTransitive | frontend/src/pages/Dashboard.tsx:156-159 | the comparator's order is transitive, so the sort is well defined |
| Dashboard.InsertCard | frontend/src/pages/Dashboard.tsx:155-160 | inserting a card into an ordered list keeps it ordered and adds exactly that card |
| Dashboard.SortCompanies | frontend/src/pages/Dashboard.tsx:155-160 | the sorted cards are ordered by the comparator and are a permutation of the input |
| Dashboard.CardsPerName | frontend/src/pages/Dashboard.tsx:126-127 | there is a card for a name iff some loaded row has that company name, published or not |
| Dashboard.CardsDistinct | frontend/src/pages/Dashboard.tsx:126-127 | no two cards share a name |
| Dashboard.CardCounts | frontend/src/pages/Dashboard.tsx:128-144 | a card's count is the number of published rows of exactly its company, with count 0 its rate and average are 0, and it is major iff some major company's name occurs in it, ignoring case |
| Dashboard.SortedCompanies | frontend/src/pages/Dashboard.tsx:121-164 | the dashboard's list holds every card once, all major companies come before the others, and within each group a larger count comes first |
| Dashboard.MajorIgnoresCase | frontend/src/pages/Dashboard.tsx:144 | the major-company test gives the same answer for a name and its lower-cased form |
| Dashboard.UpperCaseIsMajor | frontend/src/pages/Dashboard.tsx:121-144 | 'GOOGLE' counts as a major company (lines 121, 144) |
| Dashboard.LongerNameIsMajor | frontend/src/pages/Dashboard.tsx:121-144 | any name containing a major company's name, such as 'IBM India', counts as a major company, whatever surrounds it (lines 121, 144) |
| Dashboard.ProbeCondition | frontend/src/pages/Dashboard.tsx:60 | the health probe runs exactly when the message mentions 'Network' or 'Failed to fetch', or the error has no response |
| Dashboard.NoResponseProbes | frontend/src/pages/Dashboard.tsx:60-71 | an error without a response always shows 'Connection issue…' when the probe answers OK and 'Unable to connect…' otherwise, whatever its message |
| Dashboard.AnsweredPassesThrough | frontend/src/pages/Dashboard.tsx:42-73 | a message without network wording from a server that answered is shown as extracted (lines 42-60, 73) |
| Dashboard.ErrorMessageFirst | frontend/src/pages/Dashboard.tsx:43-44 | for the `Error` the HTTP client rejects with, the message read is its own message, even an empty one (with frontend/src/api/client.ts:129) |
| Dashboard.Page.constructor | frontend/src/pages/Dashboard.tsx:17-18 | no error and no message at first |
| Dashboard.Page.LoadFailedWith | frontend/src/pages/Dashboard.tsx:38-74 | the catch block always sets the error flag; it stores the modelled message, or keeps the old message exactly when reading `includes` on a non-string message throws |
| CompanyDetail.LinkRoundTrip | frontend/src/components/CompanyCard.tsx:50 | the page reads back the decoding of the name the card encoded into its link, since the router has already decoded it once: the name itself when it holds no `%`, the empty name included (with frontend/src/pages/CompanyDetailPage.tsx:38) |
| CompanyDetail.DoubleDecoding | frontend/src/pages/CompanyDetailPage.tsx:38 | decoding the router's already-decoded parameter again fails for a company named `100%` (a URIError) and reads the company `%41` as `A` |
| CompanyDetail.IntendedPageName | frontend/src/pages/CompanyDetailPage.tsx:38 | taking the router's parameter as it is gives back every name the card encodes |
| CompanyDetail.FirstTier | frontend/src/pages/CompanyDetailPage.tsx:12-31 | the chosen tier is the default or one of the tiers, and a non-default tier has one of its keywords in the role |
| CompanyDetail.RoleFollowsTier | frontend/src/pages/CompanyDetailPage.tsx:12-31 | `getRoleIcon` and `getRoleColor` both give the icon and colour of the first tier whose keyword occurs in the lower-cased role, and the default otherwise |
| CompanyDetail.EarlierTierWins | frontend/src/pages/CompanyDetailPage.tsx:15-18 | a role with both 'data' and 'intern', and no software keyword, gets the analyst icon |
| CompanyDetail.CompanyExperiences | frontend/src/pages/CompanyDetailPage.tsx:52-54 | with no data there are none; otherwise exactly the loaded rows with the decoded name that are published |
| CompanyDetail.PackagedSum | frontend/src/pages/CompanyDetailPage.tsx:61-63 | summing the `package_offered \|\| 0` of the rows with a truthy package is summing it over all rows |
| CompanyDetail.StatsBounds | frontend/src/pages/CompanyDetailPage.tsx:57-70 | selected and rejected together never exceed the total, and with no rows the rate and the average are 0 |
| CompanyDetail.AveragePackage | frontend/src/pages/CompanyDetailPage.tsx:61-64 | the `\|\| 1` divisor makes the average 0 without packaged rows and the sum over their number otherwise |
| CompanyDetail.MatchesCard | frontend/src/pages/CompanyDetailPage.tsx:52-70 | the page's total, selection rate and average package equal those on the company's dashboard card (with frontend/src/pages/Dashboard.tsx:128-143) |
| Uri.HexValue | frontend/src/pages/CompanyDetailPage.tsx:38 | a hexadecimal digit of either case has a value below 16 |
| Uri.RoundTrip | frontend/src/components/CompanyCard.tsx:50 | decoding the encoding of any string gives that string back (with frontend/src/pages/CompanyDetailPage.tsx:38) |
| Uri.UnreservedUnchanged | frontend/src/components/CompanyCard.tsx:50 | a name made only of unreserved characters is encoded as itself |
| Uri.Malformed | frontend/src/pages/CompanyDetailPage.tsx:38 | a `%` without two hexadecimal digits after it, and a lone UTF-8 lead byte, are decoding errors |
| Uri.NoEscapeUnchanged | frontend/src/pages/CompanyDetailPage.tsx:38 | text without a `%` decodes to itself |
| Uri.EscapedLetter | frontend/src/pages/CompanyDetailPage.tsx:38 | `%41` decodes to `A` |
| ChatWidget.DisabledIffNoop | frontend/src/components/Chatbot.tsx:24-147 | the send button is disabled exactly when sending would return early, and then sending changes nothing (lines 24, 147) |
| ChatWidget.RolePrefix | frontend/src/components/Chatbot.tsx:27-34 | the request carries `[Role: <role>] ` before the trimmed input iff a role is selected, with the current conversation id, while the user's message shown is the bare trimmed input, the input is cleared and loading starts |
| ChatWidget.NoSendWhileLoading | frontend/src/components/Chatbot.tsx:24-34 | once a send is accepted no second request can go out before the reply (lines 24, 34) |
| ChatWidget.SendThenReply | frontend/src/components/Chatbot.tsx:23-51 | a send and its reply add exactly the user's message and then the answer or the apology, clear the input, end loading, and store the new conversation id on success only |
| ChatWidget.UserMessageNonBlank | frontend/src/components/Chatbot.tsx:24-33 | the message added for the user is never blank (lines 24, 33) |
| ChatWidget.Widget.constructor | frontend/src/components/Chatbot.tsx:12-16 | closed, no messages, empty input, not loading, no conversation |
| ChatWidget.Widget.Toggle | frontend/src/components/Chatbot.tsx:158 | only the open flag flips |
| ChatWidget.Widget.Close | frontend/src/components/Chatbot.tsx:72 | only the widget closes |
| ChatWidget.Widget.Typed | frontend/src/components/Chatbot.tsx:140 | only the input changes |
| ChatWidget.Widget.Send | frontend/src/components/Chatbot.tsx:23-141 | the request made is the modelled outgoing message, and the state becomes the modelled send (lines 23-35, 141) |
| ChatWidget.Widget.Replied | frontend/src/components/Chatbot.tsx:36-51 | the state becomes the modelled reply |
| EmailOtp.GenerateOtp | backend/app/core/email.py:47-49 | the code has the requested length and consists of decimal digits only |
| EmailOtp.Verify | backend/app/core/email.py:167-183 | only the address's own entry can change, and only by being deleted; a success needs a stored, equal code and always deletes it; an address without an entry is refused and nothing changes |
| EmailOtp.VerifyAccepts | backend/app/core/email.py:167-183 | a code is accepted exactly when the entry exists, has not lapsed and holds that code |
| EmailOtp.ExpiryBoundary | backend/app/core/email.py:176-182 | a lapsed entry is refused and deleted, while at the deadline itself a matching code is still accepted |
| EmailOtp.MismatchKeepsEntry | backend/app/core/email.py:180-183 | a wrong code on a live entry is refused and the entry stays |
| EmailOtp.OneTimeUse | backend/app/core/email.py:180-182 | after one success the same address is refused at any later time with any code |
| EmailOtp.SentCodeWindow | backend/app/core/email.py:56-176 | a freshly sent code is accepted up to and including sixty seconds later and refused after that (lines 56, 176) |
| EmailOtp.SendReplacesOldCode | backend/app/core/email.py:56 | sending a new code overwrites the address's entry, so a different older code is refused |
| EmailOtp.OtpStore.constructor | backend/app/core/email.py:40-44 | both the OTP table and the verified-address table start empty |
| EmailOtp.OtpStore.SendOtpEmail | backend/app/core/email.py:52-165 | the entry, with a sixty-second deadline, is stored before the SMTP check, so it exists whatever the outcome; an unconfigured SMTP account gives the not-configured error |
| EmailOtp.OtpStore.VerifyOtp | backend/app/core/email.py:167-183 | the answer and the new table are those of the modelled check, and the verified addresses are untouched |
| AuthApi.AgainMentionsExpiredOtp | backend/app/api/v1/auth.py:100 | the second refusal's text contains both 'expired' and 'OTP' |
| AuthApi.SignupRegisteredUntouched | backend/app/api/v1/auth.py:17-23 | a registered address gets 400 'Email already registered' and nothing is stored |
| AuthApi.SignupStoresBeforeSending | backend/app/api/v1/auth.py:25-38 | otherwise the address has a fresh sixty-second entry afterwards even when sending failed, users and verified addresses are unchanged, and the endpoint succeeds iff the mail went out (with backend/app/core/email.py:56) |
| AuthApi.VerifyOtpOnlyOrder | backend/app/api/v1/auth.py:41-67 | a bad code gives 400 'Invalid or expired OTP' before registration is looked at; the call succeeds iff the code is good and the address unregistered, and only then is a 300-second window opened |
| AuthApi.VerifyOtpOrder | backend/app/api/v1/auth.py:70-109 | `verify-otp` refuses a mismatch first, then a password under six characters, then a bad OTP outside the window, then a registered address, each with its own message and without changing anything |
| AuthApi.VerifyOtpCreatesOneUser | backend/app/api/v1/auth.py:111-138 | a success appends exactly one verified user with a fresh id and the request's address, closes the window and answers with that user's id |
| AuthApi.LoginRefusals | backend/app/api/v1/auth.py:141-165 | an unknown user, a missing hash or a wrong password gives 401; 403 'Account is inactive' comes only after a correct password; a login succeeds iff the hash is there, the password checks and the account is active |
| AuthApi.ForgotPasswordUnknownEmail | backend/app/api/v1/auth.py:218-226 | an unknown address gets the same success-shaped answer and no OTP is stored |
| AuthApi.ResendWithoutEmail | backend/app/api/v1/auth.py:196-201 | a missing or empty address gives 400 'Email is required' and nothing is stored |
| AuthApi.ResetPasswordOrder | backend/app/api/v1/auth.py:240-270 | mismatch, then length, then the OTP, then the user: a valid OTP for an unknown address is spent and answers 404 |
| AuthApi.ResetChangesOnlyHash | backend/app/api/v1/auth.py:272-279 | a successful reset changes that user's password hash and nothing else |
| AuthApi.Signup | backend/app/api/v1/auth.py:14-38 | the answer and the new state are those of the modelled sign-up |
| AuthApi.VerifyOtpOnly | backend/app/api/v1/auth.py:41-67 | the answer and the new state are those of the modelled OTP-only check |
| AuthApi.VerifyOtpEndpoint | backend/app/api/v1/auth.py:70-138 | the answer and the new state are those of the modelled account creation |
| AuthApi.Login | backend/app/api/v1/auth.py:141-190 | the answer is that of the modelled login, which changes nothing |
| AuthApi.ResendOtp | backend/app/api/v1/auth.py:193-212 | the answer and the new state are those of the modelled resend |
| AuthApi.ForgotPassword | backend/app/api/v1/auth.py:215-237 | the answer and the new state are those of the modelled forgot-password |
| AuthApi.ResetPassword | backend/app/api/v1/auth.py:240-279 | the answer and the new state are those of the modelled reset |
| Security.TruncatePassword | backend/app/core/security.py:8-19 | the result is a character prefix of the password whose UTF-8 encoding fits in 72 bytes, the password itself when it fits, and the longest such prefix otherwise |
| Security.TruncateTo72Bytes | backend/app/api/v1/admin.py:31-48 | the same characterisation for the admin router's helper, which always re-decodes |
| Security.TruncationsAgree | backend/app/core/security.py:8-19 | the two truncation helpers give the same string for every input (with backend/app/api/v1/admin.py:31-48) |
| Security.TruncateIdempotent | backend/app/core/security.py:8-19 | truncating twice is truncating once |
| Security.Bytes72 | backend/app/core/security.py:25-52 | bcrypt receives the first `min(72, n)` bytes of the n-byte UTF-8 encoding (lines 25-27, 43-52) |
| Security.VerifyPassword | backend/app/core/security.py:22-33 | a password checks iff bcrypt answers true for its first 72 bytes; a bcrypt exception reads as a mismatch |
| Security.GetPasswordHash | backend/app/core/security.py:36-61 | the hash is bcrypt's over a prefix of at most 72 bytes of the encoding, the whole encoding when it fits |
| Security.OnlyFirst72BytesMatter | backend/app/core/security.py:25-31 | two passwords whose encodings agree on the first 72 bytes check the same against any hash |
| Security.HashThenVerify | backend/app/core/security.py:22-61 | given bcrypt's own correctness, a password checks against the hash made from it |
| Security.Lifetime | backend/app/core/security.py:67-70 | a falsy `expires_delta` falls back to the configured default minutes, any other is used as it is |
| Security.AccessTokenClaims | backend/app/core/security.py:64-72 | the payload has the input's claims plus `exp`, which is now plus the lifetime, and keeps every other claim's value |
| Security.DecodeAccessToken | backend/app/core/security.py:77-83 | decoding gives nothing exactly on a JWT error, and the decoded claims otherwise |
| Security.TokenRoundTrip | backend/app/core/security.py:64-83 | a token made by `create_access_token` decodes to its payload whenever the JWT library round-trips |
| Utf8.Encode | backend/app/core/security.py:10 | an encoding has at least one byte per character |
| Utf8.StrictAgreesWithIgnore | backend/app/core/security.py:14-18 | where strict decoding succeeds, decoding with `errors='ignore'` gives the same string |
| AdminBackend.AdminLoginRefusal | backend/app/api/v1/admin.py:58-66 | the admin login is refused with 401 'Invalid admin credentials', changing nothing, exactly when the two 72-byte truncations differ |
| AdminBackend.AdminLoginLongPassword | backend/app/api/v1/admin.py:58-62 | a password whose truncation equals the configured one's is as good as the configured password itself |
| AdminBackend.AdminLoginReuses | backend/app/api/v1/admin.py:68-81 | an existing admin row for the address is reused, nothing is written and its id is answered |
| AdminBackend.AdminLoginCreates | backend/app/api/v1/admin.py:68-81 | otherwise exactly one row is appended, with a fresh id, the address, the `super_admin` role, active, and the hash of the truncated password, and its id is answered |
| AdminBackend.AdminLoginIdempotent | backend/app/api/v1/admin.py:51-81 | logging in a second time with the same inputs adds nothing and answers the same |
| AdminBackend.RejectMessageMisspelt | backend/app/api/v1/admin.py:156 | the format string gives 'Experience rejectd successfully' for `reject` |
| AdminBackend.ExperienceMessage | backend/app/api/v1/admin.py:156 | the intended message is the action's past tense: 'approved' or 'rejected' |
| AdminBackend.ApproveMessageUnchanged | backend/app/api/v1/admin.py:156 | for `approve` the format string already gives the intended message |
| AdminBackend.ApproveExperienceRefusals | backend/app/api/v1/admin.py:125-143 | a missing experience gives 404 before the action is looked at, an unknown action gives 400, neither changes anything, and the call succeeds iff the experience exists and the action is known |
| AdminBackend.ApproveExperienceEffect | backend/app/api/v1/admin.py:133-154 | a decision sets both `is_approved` and `is_published` to whether it approves, touches no other column or row, and appends one audit row naming the admin, the action, the experience and the reason |
| AdminBackend.TallyCounts | backend/app/api/v1/admin.py:207-271 | the score is the points of the passing checks, never above their total, with one strength per passing check and one issue per failing check that has one |
| AdminBackend.TallyMembers | backend/app/api/v1/admin.py:207-271 | every passing check's strength and every failing check's issue is reported, and nothing else |
| AdminBackend.OwnExperiences | backend/app/api/v1/admin.py:253 | the user's experiences are exactly the rows with the user's id |
| AdminBackend.ApprovedCount | backend/app/api/v1/admin.py:262 | the approved count is positive iff some of them is approved |
| AdminBackend.PercentageIsScore | backend/app/api/v1/admin.py:274 | with a maximum of 100 the percentage is the score capped at 100 |
| AdminBackend.TierThresholds | backend/app/api/v1/admin.py:276-287 | 'approve' from 60, 'review' from 40 below 60 and 'reject' below 40; 'Highly Eligible' from 80 and 'Not Eligible' below 40 |
| AdminBackend.ComponentScoreRange | backend/app/api/v1/admin.py:215-269 | the sum of the check points is a multiple of 5 and at most 105 |
| AdminBackend.EligibilityScore | backend/app/api/v1/admin.py:207-271 | the score is the sum over the name, email, college, branch, LinkedIn and GitHub columns, the capped experience points, any approved experience and a complete profile |
| AdminBackend.EligibilityScoreRange | backend/app/api/v1/admin.py:207-271 | the score is a multiple of 5 and at most 105, so it can exceed `max_score` |
| AdminBackend.EligibilityPercentage | backend/app/api/v1/admin.py:274 | the percentage is the score capped at 100, between 0 and 100 |
| AdminBackend.EligibilityReportCount | backend/app/api/v1/admin.py:215-271 | a report lists nine entries when some experience is approved and eight otherwise |
| AdminBackend.EligibilityReportMembers | backend/app/api/v1/admin.py:215-271 | each passing check's strength and each failing check's issue is listed, and every issue listed belongs to a failing check |
| AdminBackend.CompleteProfileHighlyEligible | backend/app/api/v1/admin.py:207-299 | a complete profile with four experiences, one approved, scores 105, is capped at 100, is 'Highly Eligible' with 'approve' and lists no issue |
| AdminBackend.Credit | backend/app/api/v1/admin.py:215-271 | one check's step adds its points and its strength when it passes, and its issue, if any, when it fails |
| AdminBackend.CalculateEligibility | backend/app/api/v1/admin.py:207-299 | the loop over the checks computes exactly the modelled eligibility report |
| AdminBackend.Classify | backend/app/api/v1/admin.py:276-288 | the endpoint's if-chain on the percentage picks the status and recommendation of the tier whose thresholds `TierThresholds` states |
| AdminBackend.ApproveUserProfileRefusals | backend/app/api/v1/admin.py:370-390 | a missing user gives 404 before the action is looked at, an unknown action gives 400, neither changes anything, and the call succeeds iff the user exists and the action is known |
| AdminBackend.ApproveUserProfileEffect | backend/app/api/v1/admin.py:378-403 | a decision sets `is_verified` and `is_active` to whether it approves, touches nothing else, answers the matching message and appends one audit row for the user |
| AdminBackend.RejectedUserLocked | backend/app/api/v1/admin.py:383-385 | a rejected user whose address is their own can no longer log in, whatever the password (with backend/app/api/v1/auth.py:147-163) |
| AdminBackend.AdminLogin | backend/app/api/v1/admin.py:51-81 | the answer and the new tables are those of the modelled admin login |
| AdminBackend.ApproveExperience | backend/app/api/v1/admin.py:118-156 | the answer and the new tables are those of the modelled experience decision |
| AdminBackend.ApproveUserProfile | backend/app/api/v1/admin.py:363-403 | the answer and the new tables are those of the modelled profile decision |
| UsersApi.CompletedFields | backend/app/api/v1/users.py:13-21 | at most six columns are counted |
| UsersApi.CompletionIsQuotient | backend/app/api/v1/users.py:22 | the percentage `int((c / 6) * 100)` is the integer quotient of `100 * c` by 6 |
| UsersApi.CompletionValues | backend/app/api/v1/users.py:11-22 | the percentage is one of 0, 16, 33, 50, 66, 83 and 100, is 100 exactly when all six columns are truthy, and never falls as more of them are |
| UsersApi.UpdateData | backend/app/api/v1/users.py:41 | the items are exactly the fields the request sets, each once, with the value sent (with backend/app/schemas/user.py:6-11) |
| UsersApi.NullNameItem | backend/app/api/v1/users.py:41 | a `null` full name is among the items exactly when the request sends one |
| UsersApi.SetAttr | backend/app/api/v1/users.py:44 | `setattr` changes its own column only, to the value given, and never the address, id, flags or hash |
| UsersApi.SetAllField | backend/app/api/v1/users.py:43-44 | after the loop each column holds the value of the last item naming it, or its old value when none does |
| UsersApi.Recomputed | backend/app/api/v1/users.py:47-48 | the stored percentage is the recomputed one and the flag is set exactly when it is 100 |
| UsersApi.UpdateProfileEffect | backend/app/api/v1/users.py:34-53 | every column the request sets takes the value sent, every other keeps its value, only that user's row is written, and the percentage and flag are recomputed |
| UsersApi.EmptyUpdate | backend/app/api/v1/users.py:41-48 | an empty request only recomputes the percentage and the flag |
| UsersApi.UpdateIdempotent | backend/app/api/v1/users.py:34-53 | sending the same update twice leaves the same tables and answer as sending it once |
| UsersApi.SetAllKeepsRest | backend/app/api/v1/users.py:43-44 | the loop touches only the five profile columns |
| UsersApi.CompletionReportOf | backend/app/api/v1/users.py:56-72 | the report carries the stored percentage and flag and each column's truthiness |
| UsersApi.ReportAfterUpdate | backend/app/api/v1/users.py:47-72 | for a row an update has written, the report says completed exactly when all six columns are truthy (lines 47-48, 56-72) |
| UsersApi.UpdateProfile | backend/app/api/v1/users.py:34-53 | the answer and the new tables are those of the modelled update |
| ExperiencesApi.UserName | backend/app/api/v1/experiences.py:71-248 | a name is attached exactly for a row that is not anonymous, has a truthy owner id and whose owner is found, and it is that owner's full name (lines 71-74, 120-123, 245-248) |
| ExperiencesApi.Views | backend/app/api/v1/experiences.py:64-81 | the answer has one view per row, in order, each the row with its attached name |
| ExperiencesApi.ViewsHideAnonymous | backend/app/api/v1/experiences.py:64-81 | no anonymous row is ever shown with a name, and the views carry the rows unchanged |
| ExperiencesApi.CreateExperienceEffect | backend/app/api/v1/experiences.py:16-36 | a new row owned by the current user, awaiting review, with a fresh id and the current time, is appended and nothing else changes; the author's name is in the answer exactly when the row is not anonymous |
| ExperiencesApi.CreateThenGet | backend/app/api/v1/experiences.py:16-125 | reading the created experience back by id gives the same answer as the creation, for a stored author with a truthy id (lines 16-36, 104-125) |
| ExperiencesApi.InsertByDate | backend/app/api/v1/experiences.py:59 | inserting a row into a latest-first list keeps it latest first and adds exactly that row |
| ExperiencesApi.ByDate | backend/app/api/v1/experiences.py:59-99 | the ordering is latest first and a permutation of the rows (lines 59, 99) |
| ExperiencesApi.ListingContents | backend/app/api/v1/experiences.py:39-88 | the listing is latest first, names no anonymous author, and holds each stored row that passes the filters once per row |
| ExperiencesApi.ListingMembers | backend/app/api/v1/experiences.py:50-57 | a row is listed exactly when it is stored, is published when only published rows are asked for, and contains the company and role filters, ignoring case |
| ExperiencesApi.FiltersIgnoreCase | backend/app/api/v1/experiences.py:54-57 | the company and role filters give the same listing as their lower-cased forms (lines 54, 57) |
| ExperiencesApi.EmptyFilterIgnored | backend/app/api/v1/experiences.py:53 | an empty company filter is no filter |
| ExperiencesApi.GetExperiences | backend/app/api/v1/experiences.py:39-88 | the loop over the sorted rows builds exactly the modelled listing |
| ExperiencesApi.MyExperiencesOutcome | backend/app/api/v1/experiences.py:91-101 | "my experiences" never carry an author name |
| ExperiencesApi.MyExperiencesMembers | backend/app/api/v1/experiences.py:97-99 | they are latest first and are exactly the current user's rows |
| ExperiencesApi.GetExperienceCases | backend/app/api/v1/experiences.py:104-125 | 404 exactly when no row has the id; otherwise a stored row with that id, its author hidden when anonymous |
| ExperiencesApi.SetAllPatched | backend/app/api/v1/experiences.py:156-158 | assigning the request's set fields one after another gives the column-by-column patch |
| ExperiencesApi.UpdateExperienceRefusals | backend/app/api/v1/experiences.py:136-154 | 404 for a missing row, then 403 for another user's row, then 400 for an approved row, each exactly in its case and none changing a table |
| ExperiencesApi.UpdateExperienceEffect | backend/app/api/v1/experiences.py:156-163 | an accepted update rewrites exactly that row as sent, keeping its id, owner, review flags and date |
| ExperiencesApi.ApprovedRowsFrozen | backend/app/api/v1/experiences.py:150-154 | an approved row is never changed by an update |
| ExperiencesApi.FindBookmark | backend/app/api/v1/experiences.py:182-214 | the lookup finds the first bookmark of the user on the experience, and nothing exactly when there is none (lines 182-186, 210-214) |
| ExperiencesApi.BookmarkEffect | backend/app/api/v1/experiences.py:166-200 | 404 for a missing experience, then 400 for a stored pair, neither changing anything; otherwise exactly one bookmark of that pair is appended, and unique pairs stay unique |
| ExperiencesApi.BookmarkSet | backend/app/api/v1/experiences.py:194-198 | the user's bookmarked ids gain the experience and no other user's change |
| ExperiencesApi.RemoveBookmarkEffect | backend/app/api/v1/experiences.py:203-224 | 404 exactly when the pair is not stored; otherwise that bookmark alone goes, the others keep their order, and unique pairs stay unique |
| ExperiencesApi.RemoveBookmarkSet | backend/app/api/v1/experiences.py:210-222 | with unique pairs, removal takes the experience out of the user's set and leaves other users' sets alone |
| ExperiencesApi.BookmarkThenRemove | backend/app/api/v1/experiences.py:166-224 | bookmarking and then removing the bookmark gives back the original tables |
| ExperiencesApi.BookmarkedMembers | backend/app/api/v1/experiences.py:227-251 | a row is listed exactly when the user has a bookmark on its id, and no anonymous author is named |
| ExperiencesApi.CreateExperience | backend/app/api/v1/experiences.py:16-36 | the answer and the new tables are those of the modelled creation |
| ExperiencesApi.UpdateExperience | backend/app/api/v1/experiences.py:128-163 | the answer and the new tables are those of the modelled update |
| ExperiencesApi.AssignAll | backend/app/api/v1/experiences.py:156-160 | the loop assigns every item in order and notes exactly when one puts `null` in a NOT NULL column |
| ExperiencesApi.RefusedIffClears | backend/app/api/v1/experiences.py:156-160 | the commit is refused exactly when the request sets the company, role or result to `null` |
| ExperiencesApi.BookmarkExperience | backend/app/api/v1/experiences.py:166-200 | the answer and the new tables are those of the modelled bookmark |
| ExperiencesApi.RemoveBookmark | backend/app/api/v1/experiences.py:203-224 | the answer and the new tables are those of the modelled removal |
| ExperiencesApi.GetBookmarkedExperiences | backend/app/api/v1/experiences.py:227-251 | the loop builds exactly the modelled bookmarked listing |
| ChatbotApi.TierOf | backend/app/api/v1/chatbot.py:88-130 | the fallback tier is the first of DSA, resume, HR and technical whose words occur in the lower-cased message, and the general text when none does |
| ChatbotApi.ConversationId | backend/app/api/v1/chatbot.py:42-84 | the conversation id is never empty, and is the request's own when that is non-empty (lines 42, 84) |
| ChatbotApi.OffTopicNoModelCall | backend/app/api/v1/chatbot.py:39-43 | an off-topic message gets the fixed specialised answer whatever the model would say |
| ChatbotApi.ConversationKept | backend/app/api/v1/chatbot.py:42-84 | every answer carries the request's conversation id, or 'default' (lines 42, 84) |
| ChatbotApi.ModelAnswerKept | backend/app/api/v1/chatbot.py:71-73 | an on-topic message answered with status 200 gets the model's `response` text, or the apology when the body has none |
| ChatbotApi.ModelDownFallback | backend/app/api/v1/chatbot.py:71-80 | with the model unreachable or answering another status than 200, an on-topic message gets the canned answer of its tier |
| ChatbotApi.GateIgnoresCase | backend/app/api/v1/chatbot.py:29-32 | the topic gate gives the same answer for a message and its lower-cased form |
| ChatbotApi.GateMonotone | backend/app/api/v1/chatbot.py:29-32 | adding text before or after an on-topic message keeps it on topic |
| ChatbotApi.TechnicalTierOnTopic | backend/app/api/v1/chatbot.py:21-119 | a message in the technical tier, or one containing 'resume', always passes the gate (lines 21-32, 119) |
| ChatbotApi.CodingFirst | backend/app/api/v1/chatbot.py:92 | a message containing 'coding' falls in the DSA tier whatever else it says |
| CompaniesApi.CategoryHeads | backend/app/api/v1/companies.py:43-45 | one dict of questions contributes at most three per category |
| CompaniesApi.Labels | backend/app/api/v1/companies.py:50-53 | one list of rounds contributes at most one label per round |
| CompaniesApi.StripMarkers | backend/app/api/v1/companies.py:89 | `lstrip('-•*')` removes exactly the leading run of markers, leaving a suffix that does not start with one |
| CompaniesApi.TipOf | backend/app/api/v1/companies.py:86-91 | a tip kept from a guide line is longer than ten characters and is stripped |
| CompaniesApi.TipsOf | backend/app/api/v1/companies.py:85-91 | the tips of a guide are at most one per line, each well formed |
| CompaniesApi.NoMatchEmpty | backend/app/api/v1/companies.py:20-32 | the answer is the name with four empty lists and no total exactly when no published row's name contains the requested one, ignoring case |
| CompaniesApi.MatchAssembled | backend/app/api/v1/companies.py:20-131 | with a match the answer is assembled from the questions, skills, tips and rounds lists and the number of matching rows, which are exactly the published rows whose name contains the request (lines 20-23, 114-131) |
| CompaniesApi.CategoryHeadsMembers | backend/app/api/v1/companies.py:43-45 | a question comes from one experience exactly when it is among the first three of a list-valued category |
| CompaniesApi.QuestionsReturned | backend/app/api/v1/companies.py:69-116 | the questions returned are distinct, at most eight, and each is among the first three of some category of a matching experience (lines 69, 116) |
| CompaniesApi.RoundLabelRule | backend/app/api/v1/companies.py:52 | a round's label is its truthy `round_name`, else its `round_type` as stored, else 'Unknown' |
| CompaniesApi.LabelsMembers | backend/app/api/v1/companies.py:50-53 | a label comes from a rounds list exactly when it is some dict round's label |
| CompaniesApi.RoundsReturned | backend/app/api/v1/companies.py:71-129 | without any round the three default rounds are returned; otherwise the rounds are distinct, at most five, each the label of a dict round of a matching experience (lines 71, 125-129) |
| CompaniesApi.SkillRules | backend/app/api/v1/companies.py:56-66 | each skill is named exactly when its keywords occur in the strategy, ignoring case, and only the four known skills can be named |
| CompaniesApi.SkillsReturned | backend/app/api/v1/companies.py:70-123 | the default five skills come back exactly when no strategy names a skill; otherwise the distinct named skills, at most four, so the cuts at eight and six never bite (lines 70, 117-123) |
| CompaniesApi.TipsReturned | backend/app/api/v1/companies.py:74-124 | between five and seven tips: a text or falsy guide gives its parsed tips topped up with the five defaults when fewer than five and cut at seven; any other guide value raises and gives the seven fallback tips (lines 74-112, 124) |
| CompaniesApi.TipsMembers | backend/app/api/v1/companies.py:85-91 | a parsed tip comes from a line of the guide |
| CompaniesApi.TipRule | backend/app/api/v1/companies.py:87-91 | a parsed tip is a marker line with its markers and surrounding white space stripped |
| CompaniesApi.UnhashableRaises | backend/app/api/v1/companies.py:69-71 | the endpoint fails exactly when a list or dict is among the collected questions or round labels, which `set()` cannot hash (lines 69, 71) |
| CompaniesApi.GetCompanySuggestions | backend/app/api/v1/companies.py:13-131 | the answer is the modelled suggestions outcome |
| CompaniesApi.CollectPatterns | backend/app/api/v1/companies.py:39-66 | the loop collects exactly the modelled questions, skills and round labels |
| CompaniesApi.ExtendQuestions | backend/app/api/v1/companies.py:43-45 | the inner loop appends the heads of each list-valued category |
| CompaniesApi.ExtendRounds | backend/app/api/v1/companies.py:50-53 | the inner loop appends the label of each dict round |
| CompaniesApi.ExtendSkills | backend/app/api/v1/companies.py:58-66 | the four keyword tests append the named skills in order |
| CompaniesApi.GuideTips | backend/app/api/v1/companies.py:74-112 | the tips are the modelled parse with padding, or the fallback list |
| AiService.SelectedAt | backend/app/services/ai_service.py:30-32 | a company's selected count never exceeds its experience count |
| AiService.AddCompanyEntry | backend/app/services/ai_service.py:22-44 | one experience creates or credits its own company's entry only, keeping each company once (lines 22-32, 43-44) |
| AiService.CompanyKeys | backend/app/services/ai_service.py:16-28 | the companies appear once each, in order of first appearance |
| AiService.CompanyTallies | backend/app/services/ai_service.py:20-44 | in the dictionaries the loop builds, each company's entry holds its experience count, its selected count, an empty questions list and its rounds in order (a list's items, a dict's keys, a string's characters); a company no experience names has no entry |
| AiService.NoneBefore | backend/app/services/ai_service.py:22-28 | a company not yet seen has no count, selection or rounds |
| AiService.SelectedBounded | backend/app/services/ai_service.py:30-32 | in the result, selection never exceeds the count |
| AiService.AddQuestionEntry | backend/app/services/ai_service.py:36-40 | one category item creates its category if new and extends it only with a list value, leaving every other category alone |
| AiService.AddQuestionsEntry | backend/app/services/ai_service.py:35-40 | the items of one experience's question dict extend exactly the categories they name, each by its list values in order |
| AiService.CommonQuestions | backend/app/services/ai_service.py:18-40 | in the dictionaries the loop builds, `common_questions[cat]` is the in-order concatenation of the list values filed under it, empty for a category with only other values, and absent for one never seen |
| AiService.RolesEmpty | backend/app/services/ai_service.py:17-49 | `roles` is always empty (lines 17, 49) |
| AiService.ExtractPatterns | backend/app/services/ai_service.py:13-50 | the loop raises (`None`) iff some experience has a truthy `questions_asked` that is not a dict or a truthy `interview_rounds` that cannot be iterated, and otherwise answers the patterns of all the experiences |
| AiService.CreditCompany | backend/app/services/ai_service.py:22-44 | the company part of one iteration creates or credits the entry and extends its rounds by what iterating `interview_rounds` yields; `None`, the TypeError of `extend`, exactly on a truthy non-iterable value (lines 22-32, 43-44) |
| AiService.MergeQuestions | backend/app/services/ai_service.py:36-40 | the inner loop over one dict's items is the modelled question merge |
| AiService.Iteration | backend/app/services/ai_service.py:20-44 | one loop iteration adds the experience to the patterns, or raises (`None`) iff `.items()` or `extend` raises on it |
| AiService.RaisesAt | backend/app/services/ai_service.py:35-44 | one experience the body cannot get through makes the whole call raise |
| AiService.ExtractedPatterns | backend/app/services/ai_service.py:13-50 | when the call does not raise, its answer holds each company's tally, each category's questions and no roles |
| AiService.RoundsOfShapes | backend/app/services/ai_service.py:43-44 | rounds stored as a dict contribute its keys, as text its characters, as a list its items |
| Models.Iterated | backend/app/services/ai_service.py:43-44 | iterating a list yields its items, a dict its keys, a string its characters |
| AiService.PersonalizedRoadmap | backend/app/services/ai_service.py:139-160 | the roadmap echoes the skills, role and companies, with four fixed recommendations and an '8-12 weeks' timeline |
| AnalyticsApi.Occurrences | backend/app/api/v1/analytics.py:44 | a value's count is at most the list's length, and positive exactly when the value occurs |
| AnalyticsApi.SortByCount | backend/app/api/v1/analytics.py:57 | the ranking is ordered by count, most frequent first, and is a permutation of the tally |
| AnalyticsApi.MostCommon | backend/app/api/v1/analytics.py:57-62 | `most_common(n)` keeps at most `n` tally entries, most frequent first (lines 57, 61-62) |
| AnalyticsApi.TallyMembers | backend/app/api/v1/analytics.py:44-47 | a `Counter` entry is exactly a value that occurs, paired with its number of occurrences (lines 44, 47) |
| AnalyticsApi.TopRanked | backend/app/api/v1/analytics.py:57-61 | a value dropped from `most_common(n)` means `n` values were kept, each at least as frequent (lines 57, 61) |
| AnalyticsApi.MostCommonCounts | backend/app/api/v1/analytics.py:57-62 | every entry of the top list is a value that occurs, with its count (lines 57, 61-62) |
| AnalyticsApi.Selected | backend/app/api/v1/analytics.py:36 | the selected count never exceeds the number of rows |
| AnalyticsApi.CompanyStatsEmpty | backend/app/api/v1/analytics.py:18-32 | the zero response comes exactly when no published row matches the filter |
| AnalyticsApi.CompanyStatsCounts | backend/app/api/v1/analytics.py:35-66 | the total is the number of matching rows, selected at most that, and at most ten companies, roles and questions, most frequent first, each with its count |
| AnalyticsApi.CompanyStatsRaises | backend/app/api/v1/analytics.py:50-57 | the handler raises exactly when a matching row's truthy questions are not a dict or a listed question is unhashable |
| AnalyticsApi.RoleStatsCounts | backend/app/api/v1/analytics.py:75-106 | the role is echoed, the total counts the matching published rows, and the companies are at most ten, most frequent first, empty exactly when no row matches |
| AnalyticsApi.RoleTopCompanies | backend/app/api/v1/analytics.py:98-103 | a company left out of the role's top ten is no more frequent than each of the ten listed (lines 98, 103) |
| AnalyticsApi.DifficultiesMembers | backend/app/api/v1/analytics.py:135-137 | a rating is collected exactly when some dict round carries it under `difficulty` |
| AnalyticsApi.LevelsMembers | backend/app/api/v1/analytics.py:132-137 | the levels collected are exactly the ratings of the rows' rounds |
| AnalyticsApi.TrendsCounts | backend/app/api/v1/analytics.py:112-146 | the published total, the count of rejections with a reason, and at most ten resources most frequent first with their counts |
| AnalyticsApi.DifficultyDistribution | backend/app/api/v1/analytics.py:132-144 | the distribution holds exactly the ratings that occur, each with its number of rated rounds (lines 132-139, 144) |
| AnalyticsApi.RejectionCountBounded | backend/app/api/v1/analytics.py:126-143 | the rejection count never exceeds the total nor the number of rejected rows (lines 126-129, 143) |
| AnalyticsApi.CollegeGroupsEntry | backend/app/api/v1/analytics.py:152-167 | the grouping holds one entry per college named by a user, holding that college's rows |
| AnalyticsApi.CollegeRowsMembers | backend/app/api/v1/analytics.py:152-167 | a college's rows are exactly the published experiences of its users |
| AnalyticsApi.StatsOfAt | backend/app/api/v1/analytics.py:169-176 | a college is listed exactly when its group is non-empty, with its size and selected count |
| AnalyticsApi.CollegeStatsMembers | backend/app/api/v1/analytics.py:149-178 | each college appears once, listed exactly when its users have published rows, with their number and the selected among them |
| AnalyticsApi.CompanyStatistics | backend/app/api/v1/analytics.py:12-66 | the handler computes exactly the modelled outcome |
| AnalyticsApi.CollectQuestions | backend/app/api/v1/analytics.py:50-55 | the loop raises exactly when a row's truthy questions are not a dict, and otherwise gathers every listed question in order |
| AnalyticsApi.ExtendListValues | backend/app/api/v1/analytics.py:53-55 | the inner loop appends exactly the list values, in order |
| AnalyticsApi.GetTrends | backend/app/api/v1/analytics.py:109-146 | the handler computes exactly the modelled outcome |
| AnalyticsApi.CollectResources | backend/app/api/v1/analytics.py:117-121 | the loop gathers every truthy list of resources, in order |
| AnalyticsApi.CollectRejections | backend/app/api/v1/analytics.py:126-129 | one reason is kept per rejected row with a non-empty reason |
| AnalyticsApi.CollectLevels | backend/app/api/v1/analytics.py:132-137 | the loop raises exactly when a row's rounds cannot be iterated, and otherwise gathers every rating |
| AnalyticsApi.CollectDifficulties | backend/app/api/v1/analytics.py:135-137 | the inner loop appends exactly the ratings of dict rounds with the key |
| AnalyticsApi.CollegeStatistics | backend/app/api/v1/analytics.py:149-178 | the handler computes exactly the modelled outcome |
| AnalyticsApi.GroupByCollege | backend/app/api/v1/analytics.py:152-167 | the loop over users builds exactly the modelled grouping |
| AnalyticsApi.CollegeTotals | backend/app/api/v1/analytics.py:169-176 | the loop over groups computes exactly the modelled statistics |
| Models.DictGet | backend/app/api/v1/companies.py:52 | a missing key gives the default |
| Models.NewUser | backend/app/api/v1/auth.py:115-120 | the new user has the given email, name and hash, is verified and active, and its profile is at the column defaults |
| Models.NextId | backend/app/db/models.py:10 | a new row's id is larger than every id in its table, so it is fresh |
| Models.UserByEmail | backend/app/api/v1/auth.py:18 | `.first()` finds the first user with the email, and nothing exactly when none has it |
| Models.UserById | backend/app/api/v1/admin.py:339 | the first user with the id, and nothing exactly when none has it |
| Models.ExperienceById | backend/app/api/v1/experiences.py:110 | the first experience with the id, and nothing exactly when none has it |
| Models.AdminByEmail | backend/app/api/v1/admin.py:69 | nothing exactly when no admin has the email; otherwise an admin with it |
| Json.Lookup | frontend/src/api/client.ts:36 | a property read finds a field with that key, and `undefined` when none has it |
| Json.Member | frontend/src/api/client.ts:36 | reading a property throws exactly on `null` and `undefined` |
| Json.OptMember | frontend/src/api/admin.ts:51 | optional chaining gives `undefined` on `null`/`undefined` and the plain read otherwise |
| Json.ItemText | frontend/src/api/client.ts:16-32 | a string item is itself; a `null` item throws; a truthy `msg` wins; otherwise the rule falls back to `JSON.stringify` (lines 16-21, 31-32) |
| Json.JoinItems | frontend/src/api/client.ts:16-33 | the join succeeds exactly when no item throws, and is then the item texts joined by the separator (lines 16-22, 31-33) |
| Json.StringItemsJoin | frontend/src/api/client.ts:31-33 | a list of plain strings joins to those strings, whatever `JSON.stringify` does |
| Json.NullItemRaises | frontend/src/api/client.ts:31-32 | one `null` item makes the whole rendering throw |
| Json.Includes | frontend/src/api/admin.ts:87 | `includes` is a substring test on a string, an element test on an array, and throws on anything else |

## Left out

Inputs and the outside world
- Clock and randomness: `time.time()`, the token's expiry time and the digits from `random.choices` are parameters (`now`, the generated code).
- Mail: SMTP sending is an outcome the endpoint receives; the mail text is not modelled.
- Cryptography: bcrypt hashing and checking, and JWT encoding and decoding, are function-valued parameters. Only the claims and the 72-byte truncation are modelled.
- Language model: the chatbot's call becomes a `ModelReply` input; a non-string `response` from it is not modelled.
- `generate_preparation_guide` and `analyze_resume_feedback` in `backend/app/services/ai_service.py` are not modelled. The guide sends a prompt to the local model over the network and falls back to `_generate_fallback_guide` when that fails; it reaches the companies endpoint as an input JSON value. `analyze_resume_feedback` answers a fixed dictionary, and no endpoint of this model calls it.
- Health probes: the dashboard's backend probe and the admin login page's five-second health polling are inputs.
- Browser state: `sessionStorage`, the welcome banner, scrolling, toasts (the admin panel's notices use `HandlerMessage` for their text only), and `window.location` beyond the teardown flag are left out.
- Request validation: FastAPI checks each request body against its Pydantic schema before the endpoint runs, and answers 422 for an invalid `EmailStr`, a missing field or an experience whose JSON fields have the wrong type. The modelled endpoints receive requests that passed that check; the check itself is not modelled.

Corrected behaviour
Where a finding below shows the program wrong, the members standing for the running program use the corrected half:
- ApiClient.HandleResponseError: runs the corrected interceptor. For a truthy primitive body the program as written rejects with a TypeError and keeps the session even on a 401 (`ApiClient.OnResponseErrorAsWritten`).
- ErrorMessages.InterceptedErrorReadsExtracted: is proved over the corrected interceptor. For the program as written it holds when the body is not a truthy primitive (`ErrorMessages.InterceptedErrorReadsExtractedAsWritten`); a plain-text body reads as the TypeError's text instead.
- ErrorMessages.HandlerReadsExtracted: is proved over the corrected interceptor. For the program as written it holds when the body is not a truthy primitive (`ErrorMessages.HandlerReadsExtractedAsWritten`).
- AuthPage.Wizard.TabPressed: runs the corrected Tab transition. In the program as written Tab never completes a typed address (`AuthPage.AfterTabAsWritten`).
- AdminBackend.ApproveExperience: answers 'Experience rejected successfully' for a rejection, as `AdminBackend.ApproveExperienceOutcome` does. The program answers 'Experience rejectd successfully' (`AdminBackend.ExperienceMessageAsWritten`).

Numbers and text
- Floating point: `selection_rate`, `average_package` and Python's `round(..., 2)` in the analytics endpoints, the dashboard and company-page statistics, `toFixed` and the `/100000` lakh display. The model keeps exact `real`s, or the selected count from which a rate is computed.
- Profile completion: `int((completed / 6) * 100)` is computed in exact arithmetic, not in IEEE doubles. For the seven possible counts both give the same integers.
- Case and whitespace: Python's `strip`/`lower` and JavaScript's `toLowerCase` are modelled on ASCII letters only. `Trim` removes ASCII whitespace only, while JavaScript's `trim` also removes the other Unicode spaces.
- `encodeURIComponent` on a lone surrogate throws; Dafny's `char` cannot hold one, so that case is not representable. The router's decoding of a URL parameter is modelled as one `decodeURIComponent` of the path segment, kept as it is when that fails.
- SQL `ilike`: the `%` and `_` wildcards inside a user's filter text are not interpreted; the filter is a plain case-insensitive substring test.

Database
- Timestamps: `updated_at` and the bookmark's `created_at` are not modelled. `created_at` is an integer the caller supplies, and the order among rows with equal `created_at` is not modelled.
- `is_anonymous = null`: not modelled; the column is a plain boolean.
- `full_name` is a plain string: the column is NOT NULL (`backend/app/db/models.py:11`), so no stored row and no response holds a `null` one. A `null` sent to the profile update is not left out: the failed commit is the 500 of `UsersApi.UpdateProfileOutcome`.
- `get_experiences`: its `try`/`except` that returns `[]` on any error is not modelled.
- Set iteration order in the companies endpoint is Python's hash order; the model uses first-occurrence order (`Dedup`). Python's `1 == True` hashing and duplicate JSON keys are not modelled. `experiences[:10]` only feeds the guide, which is an input.
- Admin back end: the 500 path of `admin_login`, the read-only listings (pending experiences, all experiences, audit logs, users, one user's profile) and `get_current_user` are not modelled.

Front end
- Ids: an id of 0 is falsy in the panels' `if (id)` tests, and the model keeps that.
- AdminPanel: selected experiences and users are kept by id, not as object references.
- ExperienceForm: the edit-mode load effect (`frontend/src/pages/ExperienceForm.tsx:49-69`) and the text fields' other `onChange` handlers are not modelled.
- ProfilePage: between a successful update and the refetch, `hasChanges` is false while the form may differ from the stale `user`. Whether the new user then arrives is an input event, not modelled as a promise.
- ChatWidget: a second send before React re-renders with `isLoading` set is not modelled; each event sees the previous event's state. The welcome message is left out.
- CompanyDetail: the `selectedExperience` modal is not modelled.
- Dashboard: react-query retries are not modelled, so the last error message wins. The duplicate `onError` in the query options is not modelled.
- Models.AdminByEmail: the contract does not say the admin found is the first one with the email; the column is unique, so at most one row matches.

## Findings

| source | as written | input that shows it | evidently intended | confidence | as-written member | corrected member |
|---|---|---|---|---|---|---|
| frontend/src/api/client.ts:120-122 | `error.response.data._extractedMessage = …` runs for any truthy body; in an ES module (strict mode), assigning a property on a string throws a TypeError | a 401 (or any error status) whose body is the plain text 'Internal Server Error' | put the extracted message on object bodies only, reject with the extracted message, and end the session on a 401 | not executed | ApiClient.OnResponseErrorAsWritten (shown by ApiClient.PlainTextBodyRaises) | ApiClient.OnResponseError (ApiClient.RejectedCarriesExtracted, ApiClient.UnauthorizedTearsDown) |
| frontend/src/pages/AuthPage.tsx:55-59 | Tab accepts the first suggestion only when the address has no '@', yet suggestions exist only for an address with an '@' (lines 30-48), so Tab never completes | typing 'john@gm', which shows 'john@gmail.com', then pressing Tab leaves 'john@gm' | Tab accepts the first suggestion whenever suggestions are shown | not executed | AuthPage.AfterTabAsWritten (shown by AuthPage.TabNeverCompletesTypedEmail, AuthPage.TabIgnoresShownSuggestion) | AuthPage.AfterTab (AuthPage.TabCompletesTypedEmail) |
| backend/app/api/v1/admin.py:156 | the message appends 'd' to the action | action 'reject' gives 'Experience rejectd successfully' | 'Experience rejected successfully', with 'approve' unchanged | not executed | AdminBackend.ExperienceMessageAsWritten (shown by AdminBackend.RejectMessageMisspelt) | AdminBackend.ExperienceMessage (AdminBackend.ApproveMessageUnchanged) |
| frontend/src/pages/CompanyDetailPage.tsx:38 | the page calls `decodeURIComponent` on the router's parameter, which the router has already decoded once | a company named '100%' (the second decode throws a URIError) or one named '%41' (the page asks for company 'A') | use the router's parameter as it is | not executed | CompanyDetail.PageName (shown by CompanyDetail.DoubleDecoding) | CompanyDetail.IntendedPageName |
