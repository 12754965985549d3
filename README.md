# Heli-Band screens in Dafny

Heli-Band is a mocked mobile front end for a UV-exposure wristband. It has
no back end: every "server" answer is a timer, and every sensor reading is a
random number. This project models the state logic behind its screens and
proves properties of that model:

- **Session gate.** Who is logged in, and which authentication screen is
  mounted (`app.dfy`).
- **Login.** The trimmed-field guard and the delayed `onLogin` call
  (`login.dfy`).
- **Password recovery.** A four-step wizard: email → code → new password →
  success. It includes the four one-character code slots and their focus
  rules (`forgot_password.dfy`).
- **Registration.** An ordered validation chain: fields, then match, then
  terms (`create_account.dfy`).
- **Profile.** Skin type, the simulated skin scan, the SPF stepper,
  notifications, the edit toggle and the delayed logout (`profile.dfy`).
- **Dashboard.** The UV traffic light and the advice texts. The menu hides
  on scroll. A refresh takes a new reading and prepends a recommendation.
  The floating card can be closed (`dashboard.dfy`).
- **History view.** Bar colours, bar selection, weekly total and average,
  and the truncated recommendation list (`historical_uv.dfy`).

Two further modules are shared:

- `js_strings.dfy` models the JavaScript `trim`, `join("")` and `length`
  that the handlers rely on. `length` counts UTF-16 code units.
- `wrappers.dfy` holds `Option`.

Each component is modelled in two layers:

- A datatype snapshot of all its `useState` variables, an invariant `Inv`,
  and pure transition functions. One function per handler and one per
  timer completion. They carry the properties.
- A class with the same fields. Its methods mirror the handlers' bodies
  and are proved to move the snapshot exactly as the functions say, while
  keeping `Inv`.

Each `setTimeout` becomes an entry in a pending queue or counter, plus a
separate completion step, which the caller fires when it chooses.
`Math.random()` and `Date.now()` become parameters.

Where the code and the written description of the system differ, the model
follows the code:

- The recovery email button is disabled on an *empty* field (`!email`),
  while its handler rejects a *blank* one (`!email.trim()`). So in the
  component's own state a whitespace-only email enables the button and then
  does nothing (`ForgotPassword.BlankEmailEnablesButton`). The input is also
  `type="email" required`. A browser that enforces those attributes strips
  the surrounding whitespace and blocks the submit before the handler runs.
  That browser layer is not modelled (see "Left out").
- The registration checks use JavaScript truthiness of the raw strings,
  not trimmed strings. A name of one space counts as filled in
  (`CreateAccount.WhitespaceCountsAsFilled`).
- The two seeded history entries on the dashboard carry labels and texts
  that `getUVStatus` and `getRecommendationText` would not give their UV
  values. Entry 6.2 is labelled "Moderado" but is "Alto"; entry 4.5 is
  labelled "Bajo" but is "Moderado" (`Dashboard.SeedHistoryInconsistent`).
  The invariant `Dashboard.Inv` therefore only promises consistency for the
  entries a refresh adds.

## Model

| member | source | states |
|---|---|---|
| JsStrings.TrimStart | src/app/components/LoginScreen.tsx:31 | the result is the suffix of the input starting at its first non-whitespace character; everything dropped is ECMAScript whitespace |
| JsStrings.TrimEnd | src/app/components/LoginScreen.tsx:31 | the result is the prefix ending at the last non-whitespace character; everything dropped is whitespace |
| JsStrings.Trim | src/app/components/LoginScreen.tsx:31 | `s.trim()` is the slice of `s` that remains once its leading and trailing characters are dropped; everything dropped is ECMAScript whitespace, and the result has whitespace at neither end |
| JsStrings.TrimSlice | src/app/components/LoginScreen.tsx:31 | trimming the front and then the back leaves a slice of `s` with only whitespace around it and none at its own ends |
| JsStrings.TrimEmptyIff | src/app/components/ForgotPasswordScreen.tsx:42 | `s.trim()` is empty (falsy) exactly when every character of `s` is whitespace |
| JsStrings.Length | src/app/components/ForgotPasswordScreen.tsx:76 | `s.length` counts UTF-16 code units: between one and two per character, and zero exactly for the empty string |
| JsStrings.LengthIsSizeIff | src/app/components/ForgotPasswordScreen.tsx:97 | the length equals the number of characters exactly when every character lies in the Basic Multilingual Plane |
| JsStrings.LengthConcat | src/app/components/ForgotPasswordScreen.tsx:57 | the length of a concatenation is the sum of the lengths |
| JsStrings.SumLengths | src/app/components/ForgotPasswordScreen.tsx:57 | the summed length of the parts is zero exactly when every part is empty |
| JsStrings.Join | src/app/components/ForgotPasswordScreen.tsx:57 | the length of `parts.join("")`, in code units, is the sum of the parts' lengths; parts of one character each join into the string of those characters, in order |
| JsStrings.JoinShortIff | src/app/components/ForgotPasswordScreen.tsx:57-59 | with parts of at most one code unit each, the joined length is below the number of parts exactly when some part is empty |
| JsStrings.JoinAtMost | src/app/components/ForgotPasswordScreen.tsx:57 | with parts of at most one code unit each, the join has at most one code unit per part |
| App.Offered | src/app/App.tsx:36-58 | `onLogin` is offered only by the login screen, `onLogout` only by the dashboard, and the dashboard offers nothing else |
| App.Rendered | src/app/App.tsx:27-61 | the dashboard, with the stored name, is shown exactly when logged in; otherwise the screen `authView` names, each view to its own screen |
| App.Login | src/app/App.tsx:16-19 | after `handleLogin(user)` the user is logged in under `user`, `authView` is kept, the invariant holds and the dashboard for `user` is rendered |
| App.Logout | src/app/App.tsx:21-25 | after `handleLogout` the user is logged out, the name is empty, `authView` is the login view and the login screen is rendered |
| App.Navigate | src/app/App.tsx:41-44 | a navigation callback sets `authView` and keeps the login flag and the name, preserving the invariant |
| App.Apply | src/app/App.tsx:16-58 | every callback preserves the invariant "logged out implies no name" |
| App.InitialState | src/app/App.tsx:8-14 | the initial state is logged out with an empty name, satisfies the invariant and shows the login screen |
| App.LoginThenLogout | src/app/App.tsx:16-25 | login followed by logout returns to the initial state from any state |
| App.DashboardIgnoresAuthView | src/app/App.tsx:27-34 | while logged in, changing `authView` does not change what is shown |
| App.NavigationGraph | src/app/App.tsx:36-58 | from the login screen its callbacks reach recovery, registration or the dashboard; every callback of recovery and registration returns to the login screen; the dashboard's logout returns to the initial state |
| App.SessionGate.HandleLogin | src/app/App.tsx:16-19 | the gate's fields move as `App.Login` says and keep the invariant |
| App.SessionGate.HandleLogout | src/app/App.tsx:21-25 | the gate's fields move as `App.Logout` says |
| App.SessionGate.SetAuthView | src/app/App.tsx:41-57 | the navigation callbacks change only `authView` |
| Login.Submit | src/app/components/LoginScreen.tsx:29-37 | a blank username or password changes nothing; otherwise the spinner starts and a timer holding the current username is queued; loading is never cleared; the invariant is kept |
| Login.FireTimer | src/app/components/LoginScreen.tsx:33-35 | the oldest timer fires and calls `onLogin` with the name it captured; only the queue changes and the spinner stays on |
| Login.SetUsername | src/app/components/LoginScreen.tsx:87-90 | only the username changes |
| Login.SetPassword | src/app/components/LoginScreen.tsx:101-104 | only the password changes |
| Login.ToggleShowPassword | src/app/components/LoginScreen.tsx:109-111 | only the visibility flag flips |
| Login.CanSubmit | src/app/components/LoginScreen.tsx:31 | the guard `username.trim() && password.trim()` passes exactly when neither field is all whitespace |
| Login.SubmitDisabled | src/app/components/LoginScreen.tsx:124-128 | the button is disabled exactly while loading or when either field is all whitespace |
| Login.ButtonMatchesGuard | src/app/components/LoginScreen.tsx:124-128 | the submit button is enabled exactly when not loading and the handler would accept the submission |
| Login.SubmitThenFire | src/app/components/LoginScreen.tsx:31-35 | a valid submit followed by its timer calls `onLogin` with the untrimmed username |
| Login.LoadingIsSticky | src/app/components/LoginScreen.tsx:27-35 | once loading, no handler or timer of the screen turns the spinner off |
| Login.LoginScreen.HandleSubmit | src/app/components/LoginScreen.tsx:29-37 | the screen's fields move as `Login.Submit` says |
| Login.LoginScreen.Fire | src/app/components/LoginScreen.tsx:33-35 | the oldest timer fires and returns the name passed to `onLogin`, as `Login.FireTimer` says |
| Login.LoginScreen.HandleUsernameInput | src/app/components/LoginScreen.tsx:87-90 | only the username changes |
| Login.LoginScreen.HandlePasswordInput | src/app/components/LoginScreen.tsx:101-104 | only the password changes |
| Login.LoginScreen.HandleToggleShowPassword | src/app/components/LoginScreen.tsx:109-111 | only the visibility flag flips |
| ForgotPassword.InitialInv | src/app/components/ForgotPasswordScreen.tsx:24-34 | the wizard starts on the email step, not loading, with no timer pending and four empty slots, satisfying its invariant |
| ForgotPassword.CodeError | src/app/components/ForgotPasswordScreen.tsx:55-62 | the code is rejected exactly when the joined code has fewer than four UTF-16 code units, which for one-unit slots is exactly when some slot is empty; the error is the incomplete-code one |
| ForgotPassword.ResetError | src/app/components/ForgotPasswordScreen.tsx:76-85 | "too short" exactly when under six UTF-16 code units; "mismatch" exactly when long enough but different; accepted exactly when long enough and equal |
| ForgotPassword.SendEmail | src/app/components/ForgotPasswordScreen.tsx:40-52 | a blank email changes nothing; otherwise the spinner starts and the "code sent" timer is queued; step and email are untouched; the invariant is kept |
| ForgotPassword.VerifyCode | src/app/components/ForgotPasswordScreen.tsx:55-70 | a code with an empty slot changes nothing; a full code starts the spinner and queues "code verified" |
| ForgotPassword.ResetPassword | src/app/components/ForgotPasswordScreen.tsx:73-93 | a rejected password changes nothing; an accepted one starts the spinner and queues "password updated" |
| ForgotPassword.FireTimer | src/app/components/ForgotPasswordScreen.tsx:45-51 | the oldest timer fires: spinner off, step set to that timer's target, no entered field touched |
| ForgotPassword.Back | src/app/components/ForgotPasswordScreen.tsx:144-155 | the back arrow exits exactly on the email step; from the code step it goes to email and from new-password to code, clearing nothing |
| ForgotPassword.SignIn | src/app/components/ForgotPasswordScreen.tsx:400-401 | the success step's only button exits through `onBack` |
| ForgotPassword.SetEmail | src/app/components/ForgotPasswordScreen.tsx:198-200 | only the email changes |
| ForgotPassword.SetNewPassword | src/app/components/ForgotPasswordScreen.tsx:310-311 | only the new password changes |
| ForgotPassword.SetConfirmPassword | src/app/components/ForgotPasswordScreen.tsx:349-352 | only the confirmation changes |
| ForgotPassword.ToggleShowPassword | src/app/components/ForgotPasswordScreen.tsx:321-322 | only the visibility flag flips |
| ForgotPassword.CodeChange | src/app/components/ForgotPasswordScreen.tsx:96-104 | a value longer than one UTF-16 code unit is ignored; otherwise only slot `i` changes, still four one-character slots; focus moves to `i+1` only for a non-empty value below the last slot |
| ForgotPassword.KeyDown | src/app/components/ForgotPasswordScreen.tsx:106-113 | the code is unchanged; focus moves to `i-1` only on Backspace in an empty slot with `i > 0` |
| ForgotPassword.SendEmailThenFire | src/app/components/ForgotPasswordScreen.tsx:44-51 | a valid email submit and its timer land on the code step with the spinner off and every field as it was |
| ForgotPassword.VerifyCodeThenFire | src/app/components/ForgotPasswordScreen.tsx:64-69 | a full code and its timer land on the new-password step |
| ForgotPassword.ResetPasswordThenFire | src/app/components/ForgotPasswordScreen.tsx:87-92 | an accepted password and its timer land on the success step |
| ForgotPassword.CodeButtonMatchesGuard | src/app/components/ForgotPasswordScreen.tsx:266-268 | when not loading, the code button is enabled exactly when the handler would accept the code |
| ForgotPassword.EmailSubmitDisabled | src/app/components/ForgotPasswordScreen.tsx:211 | the email button is disabled while loading and on an empty email, and enabled whenever not loading and the email is not blank |
| ForgotPassword.CodeSubmitDisabled | src/app/components/ForgotPasswordScreen.tsx:266-268 | for one-unit slots, the code button is disabled exactly while loading or when the joined code is shorter than four |
| ForgotPassword.PasswordSubmitDisabled | src/app/components/ForgotPasswordScreen.tsx:365-369 | the password button is disabled while loading or when either field is empty, and enabled whenever not loading and the handler would accept the password |
| ForgotPassword.BlankEmailEnablesButton | src/app/components/ForgotPasswordScreen.tsx:211 | a whitespace-only email enables the button, yet the handler ignores it |
| ForgotPassword.EnabledPasswordButtonMayReject | src/app/components/ForgotPasswordScreen.tsx:365-369 | the password button can be enabled for a password the handler rejects |
| ForgotPassword.SuccessOnlyByPasswordTimer | src/app/components/ForgotPasswordScreen.tsx:88-92 | from a non-success step, a timer leads to success exactly when it is the "password updated" timer |
| ForgotPassword.BackWhileVerifying | src/app/components/ForgotPasswordScreen.tsx:144-155 | the back arrow stays live during a pending verification; going back and then letting the timer fire jumps from email to new-password |
| ForgotPassword.TypeCode | src/app/components/ForgotPasswordScreen.tsx:96-104 | typing 1, 2, 3, 4 into the slots in turn gives exactly the state with that code and focus on the last slot |
| ForgotPassword.EmailPhase | src/app/components/ForgotPasswordScreen.tsx:40-52 | typing a non-blank email, submitting and letting the timer fire gives exactly the old state with that email on the code step |
| ForgotPassword.CodePhase | src/app/components/ForgotPasswordScreen.tsx:55-70 | typing 1 2 3 4, submitting and letting the timer fire gives exactly the old state with that code, focus on the last slot, on the new-password step |
| ForgotPassword.PasswordPhase | src/app/components/ForgotPasswordScreen.tsx:73-93 | typing a password of at least six code units twice, submitting and letting the timer fire gives exactly the old state with both passwords set, on the success step |
| ForgotPassword.HappyPath | src/app/components/ForgotPasswordScreen.tsx:40-93 | from any email-step state with nothing pending (the initial one included), a non-blank email, the code 1 2 3 4 and a password of at least six code units typed twice move the wizard through code and new-password to success, and each phase keeps every value entered before it |
| ForgotPassword.ExampleRecovery | src/app/components/ForgotPasswordScreen.tsx:40-93 | from the initial state, "a@b.com", the code 1 2 3 4 and "secret1" reach the success step with that email and password, the spinner off and nothing pending |
| ForgotPassword.SurrogatePairsCount | src/app/components/ForgotPasswordScreen.tsx:76-97 | three U+1F600 characters have length 6, so they pass the password checks; one U+1F600 typed into a slot has length 2 and is ignored |
| ForgotPassword.MismatchStays | src/app/components/ForgotPasswordScreen.tsx:82-85 | a mismatched confirmation reports the mismatch and keeps the state |
| ForgotPassword.ForgotPasswordScreen.HandleSendEmail | src/app/components/ForgotPasswordScreen.tsx:40-52 | the screen moves as `ForgotPassword.SendEmail` says |
| ForgotPassword.ForgotPasswordScreen.HandleVerifyCode | src/app/components/ForgotPasswordScreen.tsx:55-70 | the screen moves as `ForgotPassword.VerifyCode` says and reports the toast error `ForgotPassword.CodeError` gives |
| ForgotPassword.ForgotPasswordScreen.HandleResetPassword | src/app/components/ForgotPasswordScreen.tsx:73-93 | the screen moves as `ForgotPassword.ResetPassword` says and reports the error `ForgotPassword.ResetError` gives |
| ForgotPassword.ForgotPasswordScreen.Fire | src/app/components/ForgotPasswordScreen.tsx:45-51 | the oldest timer fires as `ForgotPassword.FireTimer` says |
| ForgotPassword.ForgotPasswordScreen.HandleBack | src/app/components/ForgotPasswordScreen.tsx:144-155 | exits exactly when `ForgotPassword.Back` exits, leaving the state; otherwise the state becomes the one `Back` gives |
| ForgotPassword.ForgotPasswordScreen.HandleSignIn | src/app/components/ForgotPasswordScreen.tsx:400-401 | the success button exits |
| ForgotPassword.ForgotPasswordScreen.HandleEmailInput | src/app/components/ForgotPasswordScreen.tsx:198-200 | only the email changes |
| ForgotPassword.ForgotPasswordScreen.HandleNewPasswordInput | src/app/components/ForgotPasswordScreen.tsx:310-311 | only the new password changes |
| ForgotPassword.ForgotPasswordScreen.HandleConfirmPasswordInput | src/app/components/ForgotPasswordScreen.tsx:349-352 | only the confirmation changes |
| ForgotPassword.ForgotPasswordScreen.HandleToggleShowPassword | src/app/components/ForgotPasswordScreen.tsx:321-322 | only the visibility flag flips |
| ForgotPassword.ForgotPasswordScreen.HandleCodeChange | src/app/components/ForgotPasswordScreen.tsx:96-104 | the slots and focus move as `ForgotPassword.CodeChange` says |
| ForgotPassword.ForgotPasswordScreen.HandleKeyDown | src/app/components/ForgotPasswordScreen.tsx:106-113 | the focus moves as `ForgotPassword.KeyDown` says |
| CreateAccount.Validate | src/app/components/CreateAccountScreen.tsx:38-53 | exactly one verdict, and it is the first failing check in the order fields, match, terms: missing fields exactly when a field is empty; mismatch exactly when present but different; terms exactly when everything else passes but terms are unchecked; accepted otherwise |
| CreateAccount.Submit | src/app/components/CreateAccountScreen.tsx:35-63 | a rejected form changes nothing; an accepted one starts the spinner and queues the timer; the invariant is kept |
| CreateAccount.FireTimer | src/app/components/CreateAccountScreen.tsx:56-62 | the timer clears the spinner and leaves form, terms and visibility as they were |
| CreateAccount.ToggleTerms | src/app/components/CreateAccountScreen.tsx:189-190 | only `acceptTerms` flips |
| CreateAccount.ToggleShowPassword | src/app/components/CreateAccountScreen.tsx:173-174 | only the visibility flag flips |
| CreateAccount.Edit | src/app/components/CreateAccountScreen.tsx:118-169 | each input replaces its own field of the form and no other |
| CreateAccount.ButtonIgnoresValidation | src/app/components/CreateAccountScreen.tsx:212 | the button is disabled exactly while loading and does not depend on the terms box, so it is enabled whenever not loading, even for the initial form, which `Validate` rejects and `Submit` leaves unchanged |
| CreateAccount.TermsCheckedLast | src/app/components/CreateAccountScreen.tsx:38-53 | a missing-fields or mismatch error does not depend on the terms checkbox |
| CreateAccount.WhitespaceCountsAsFilled | src/app/components/CreateAccountScreen.tsx:39-41 | a name of one space passes the missing-fields check |
| CreateAccount.SubmitThenFire | src/app/components/CreateAccountScreen.tsx:55-62 | an accepted submit shows the spinner, and its timer returns to the state before the submit |
| CreateAccount.CreateAccountScreen.HandleSubmit | src/app/components/CreateAccountScreen.tsx:35-63 | the screen moves as `CreateAccount.Submit` says and reports the error `CreateAccount.Validate` gives |
| CreateAccount.CreateAccountScreen.Fire | src/app/components/CreateAccountScreen.tsx:56-62 | a timer fires as `CreateAccount.FireTimer` says and calls `onRegisterSuccess` |
| CreateAccount.CreateAccountScreen.HandleToggleTerms | src/app/components/CreateAccountScreen.tsx:189-190 | only `acceptTerms` flips |
| CreateAccount.CreateAccountScreen.HandleToggleShowPassword | src/app/components/CreateAccountScreen.tsx:173-174 | only the visibility flag flips |
| CreateAccount.CreateAccountScreen.HandleInput | src/app/components/CreateAccountScreen.tsx:118-169 | only the edited field of the form changes |
| Profile.InitialInv | src/app/components/Profile.tsx:51-59 | the profile starts at skin type III and SPF 50, inside the invariant (SPF is one of the options) |
| Profile.IndexOf | src/app/components/Profile.tsx:96 | `indexOf`: -1 exactly when absent, otherwise the first position holding the value |
| Profile.NextSpf | src/app/components/Profile.tsx:95-100 | the result is an option; it is the next larger option, with no option in between; 100 stays 100; a value outside the list gives 15 |
| Profile.PrevSpf | src/app/components/Profile.tsx:102-106 | the result is an option; it is the next smaller option, with no option in between; 15 stays 15 |
| Profile.DecreaseDisabled | src/app/components/Profile.tsx:217 | the minus button is disabled exactly at SPF 15 |
| Profile.IncreaseDisabled | src/app/components/Profile.tsx:233 | the plus button is disabled exactly at SPF 100 |
| Profile.StepperDisabledAtClamps | src/app/components/Profile.tsx:217-233 | each stepper button is disabled exactly where pressing it would change nothing |
| Profile.StepperRoundTrips | src/app/components/Profile.tsx:95-106 | up then down restores any SPF but 100; down then up restores any SPF but 15 |
| Profile.IncreaseSpf | src/app/components/Profile.tsx:95-100 | only the SPF changes, to `Profile.NextSpf`, keeping the invariant |
| Profile.DecreaseSpf | src/app/components/Profile.tsx:102-106 | only the SPF changes, to `Profile.PrevSpf`, keeping the invariant |
| Profile.ToggleNotifications | src/app/components/Profile.tsx:108-113 | only the notifications flag flips |
| Profile.ToggleNotificationsTwice | src/app/components/Profile.tsx:108-113 | toggling twice restores the state |
| Profile.SelectSkinType | src/app/components/Profile.tsx:86-91 | the selected option's index becomes the skin type and nothing else changes |
| Profile.ToggleEditing | src/app/components/Profile.tsx:143 | only the editing flag flips |
| Profile.Description | src/app/components/Profile.tsx:199 | the description shown is that of the selected skin type and of no other |
| Profile.ScanDisablesShutter | src/app/components/Profile.tsx:340 | the shutter is disabled right after a scan starts and enabled again once the scan fires or the camera closes; under the invariant it is disabled only while a scan timer is pending |
| Profile.StartCamera | src/app/components/Profile.tsx:62-64 | the camera overlay opens and nothing else changes |
| Profile.StopCamera | src/app/components/Profile.tsx:66-69 | the overlay closes and scanning stops, but pending scan timers are kept |
| Profile.ScanSkin | src/app/components/Profile.tsx:71-73 | scanning starts and one scan timer is queued |
| Profile.DetectedIndex | src/app/components/Profile.tsx:74 | `floor(random * 3) + 1` lies in 1..3 and is the third of [0, 1) the random value falls in |
| Profile.FireScan | src/app/components/Profile.tsx:73-82 | a scan timer sets the skin type to one of types II-IV, stops scanning, closes the camera and leaves SPF, notifications, editing and logouts alone |
| Profile.StopCameraDoesNotCancelScan | src/app/components/Profile.tsx:66-82 | closing the camera during a scan does not cancel it: the timer still overwrites the chosen skin type |
| Profile.LogoutClick | src/app/components/Profile.tsx:115-119 | a logout timer is queued and nothing else changes |
| Profile.FireLogout | src/app/components/Profile.tsx:116-118 | a logout timer fires and nothing else changes |
| Profile.ProfileScreen.HandleIncreaseSpf | src/app/components/Profile.tsx:95-100 | the screen moves as `Profile.IncreaseSpf` says |
| Profile.ProfileScreen.HandleDecreaseSpf | src/app/components/Profile.tsx:102-106 | the screen moves as `Profile.DecreaseSpf` says |
| Profile.ProfileScreen.HandleToggleNotifications | src/app/components/Profile.tsx:108-113 | only the notifications flag flips |
| Profile.ProfileScreen.HandleSelectChange | src/app/components/Profile.tsx:86-91 | only the skin type changes |
| Profile.ProfileScreen.HandleToggleEditing | src/app/components/Profile.tsx:143 | only the editing flag flips |
| Profile.ProfileScreen.HandleStartCamera | src/app/components/Profile.tsx:62-64 | the overlay opens |
| Profile.ProfileScreen.HandleStopCamera | src/app/components/Profile.tsx:66-69 | the overlay closes and scanning stops |
| Profile.ProfileScreen.HandleScanSkin | src/app/components/Profile.tsx:71-73 | scanning starts and a timer is queued |
| Profile.ProfileScreen.FireScanTimer | src/app/components/Profile.tsx:73-82 | a scan timer fires as `Profile.FireScan` says |
| Profile.ProfileScreen.HandleLogoutClick | src/app/components/Profile.tsx:115-119 | a logout timer is queued |
| Profile.ProfileScreen.FireLogoutTimer | src/app/components/Profile.tsx:116-118 | a logout timer fires and calls `onLogout` |
| Dashboard.UVStatus | src/app/components/Dashboard.tsx:103-135 | low exactly up to 2.9, moderate exactly above 2.9 up to 5.9, high exactly above 5.9 up to 7.9, very high exactly above 7.9 |
| Dashboard.LevelEncodingsDistinct | src/app/components/Dashboard.tsx:103-135 | the four levels have four different labels and four different ranks |
| Dashboard.StatusMonotone | src/app/components/Dashboard.tsx:103-135 | a higher UV never gets a lower label |
| Dashboard.AdviceFor | src/app/components/Dashboard.tsx:138-142 | safe exactly below 3, hat and shade exactly from 3 to below 6, alert exactly from 6 |
| Dashboard.AdviceTextsDistinct | src/app/components/Dashboard.tsx:138-142 | the three advice texts are pairwise different |
| Dashboard.TenthsGap | src/app/components/Dashboard.tsx:157 | a one-decimal value above k/10 is at least (k+1)/10 |
| Dashboard.BandsAgreeOnTenths | src/app/components/Dashboard.tsx:103-142 | on one-decimal values, low goes exactly with the safe text, moderate with hat and shade, and high or very high with the alert |
| Dashboard.BandsDisagreeOffGrid | src/app/components/Dashboard.tsx:104-139 | off the one-decimal grid the bands part: 2.95 is moderate but gets the safe text |
| Dashboard.RoundToTenths | src/app/components/Dashboard.tsx:157 | `toFixed(1)` gives a one-decimal value within half a tenth of its input |
| Dashboard.RefreshReading | src/app/components/Dashboard.tsx:157 | a refreshed reading is a one-decimal value from 1.0 to 11.0 |
| Dashboard.RecommendationFor | src/app/components/Dashboard.tsx:165-174 | a new entry carries the given UV, id and timestamp, with the message and label that UV gets |
| Dashboard.SeedHistoryInconsistent | src/app/components/Dashboard.tsx:57-72 | neither seeded entry has the label or text its UV would get: 6.2 is high with the alert, 4.5 moderate with hat and shade |
| Dashboard.InitialInv | src/app/components/Dashboard.tsx:36-72 | the dashboard starts on home with the menu shown, UV 7.5 and the seeded history, inside the invariant |
| Dashboard.Scroll | src/app/components/Dashboard.tsx:145-152 | scrolling down past 20 hides the menu, scrolling up shows it, any other move keeps it; the offset is always recorded and nothing else changes |
| Dashboard.ScrollDownThenUp | src/app/components/Dashboard.tsx:145-152 | after a hiding scroll, scrolling back to the earlier offset shows the menu again |
| Dashboard.Refresh | src/app/components/Dashboard.tsx:154-156 | the spinner starts and one refresh timer is queued, keeping the invariant |
| Dashboard.FireRefresh | src/app/components/Dashboard.tsx:156-176 | the reading is a one-decimal value from 1 to 11 that becomes the current UV; the card shows; exactly one entry for that reading, with its message and label, is put in front of the unchanged history; view, menu and last recommendation are kept |
| Dashboard.CloseRecommendation | src/app/components/Dashboard.tsx:250-264 | the card hides and an entry for the current UV and its label becomes the last recommendation; nothing else changes |
| Dashboard.SetView | src/app/components/Dashboard.tsx:439-469 | a tab sets the view and nothing else |
| Dashboard.PrependKeepsHistory | src/app/components/Dashboard.tsx:165-175 | putting a consistent one-decimal entry in front of a well-formed history keeps it well formed |
| Dashboard.RefreshEntriesAgree | src/app/components/Dashboard.tsx:165-175 | in every entry a refresh added, the label and the message agree: low with safe, moderate with hat and shade, high or very high with the alert |
| Dashboard.DashboardScreen.HandleScroll | src/app/components/Dashboard.tsx:145-152 | the screen moves as `Dashboard.Scroll` says |
| Dashboard.DashboardScreen.HandleRefresh | src/app/components/Dashboard.tsx:154-156 | the screen moves as `Dashboard.Refresh` says |
| Dashboard.DashboardScreen.FireRefreshTimer | src/app/components/Dashboard.tsx:156-176 | the screen moves as `Dashboard.FireRefresh` says |
| Dashboard.DashboardScreen.HandleCloseRecommendation | src/app/components/Dashboard.tsx:250-264 | the screen moves as `Dashboard.CloseRecommendation` says |
| Dashboard.DashboardScreen.SetCurrentView | src/app/components/Dashboard.tsx:439-469 | only the view changes |
| HistoricalUV.BarColorFor | src/app/components/HistoricalUV.tsx:43-50 | grey exactly for the selected bar; an unselected bar is green exactly below 20 minutes, yellow exactly from 20 to below 40, red exactly from 40 |
| HistoricalUV.FillsDistinct | src/app/components/HistoricalUV.tsx:43-50 | the four bar fills are pairwise different colour codes |
| HistoricalUV.BarColorMonotone | src/app/components/HistoricalUV.tsx:47-49 | more minutes never cool an unselected bar's colour |
| HistoricalUV.UVStatus | src/app/components/HistoricalUV.tsx:52-76 | the view's copy of `getUVStatus` agrees with the dashboard's on every value |
| HistoricalUV.TotalMinutesFromFront | src/app/components/HistoricalUV.tsx:83-86 | the left fold of `reduce` equals the first day's minutes plus the total of the rest |
| HistoricalUV.TotalBounds | src/app/components/HistoricalUV.tsx:83-86 | with every day in [lo, hi], the total lies in [lo·n, hi·n] |
| HistoricalUV.RoundHalfUp | src/app/components/HistoricalUV.tsx:78 | `Math.round` gives the integer within half of its input, the larger one on a tie |
| HistoricalUV.AverageMinutes | src/app/components/HistoricalUV.tsx:78-81 | the average is within half a minute of the mean of the daily minutes |
| HistoricalUV.AverageWithinRange | src/app/components/HistoricalUV.tsx:78-81 | the rounded average lies within the range of the daily minutes |
| HistoricalUV.HoursMinutes | src/app/components/HistoricalUV.tsx:87-88 | `hours * 60 + minutes` is the total, with `0 <= minutes < 60` |
| HistoricalUV.HoursMinutesUnique | src/app/components/HistoricalUV.tsx:87-88 | that split is the only one with minutes below 60 |
| HistoricalUV.WeeklyFigures | src/app/components/HistoricalUV.tsx:27-88 | the fixed week totals 250 minutes, averages 36 per day and shows 4h 10m |
| HistoricalUV.ClickBar | src/app/components/HistoricalUV.tsx:90-92 | clicking the selected bar deselects it; clicking any other bar selects it |
| HistoricalUV.ClickTwiceRestores | src/app/components/HistoricalUV.tsx:90-92 | two clicks on one bar restore the selection when nothing, or that bar, was selected |
| HistoricalUV.ClickTwiceFromOtherBar | src/app/components/HistoricalUV.tsx:90-92 | when another bar was selected, two clicks leave nothing selected |
| HistoricalUV.VisibleRecommendations | src/app/components/HistoricalUV.tsx:285 | collapsed, the first min(3, n) entries in order; expanded, all n |
| HistoricalUV.ExpandButton | src/app/components/HistoricalUV.tsx:305-310 | the button exists exactly for more than three entries, and reads "Ver menos" exactly when expanded |
| HistoricalUV.HistoryShownIffVisible | src/app/components/HistoricalUV.tsx:277-285 | the history block is rendered exactly when its list, collapsed or expanded, shows at least one entry |
| HistoricalUV.ShowMoreCountsHidden | src/app/components/HistoricalUV.tsx:285-310 | the count on "Ver más" plus the entries shown collapsed is the whole history |
| HistoricalUV.HistoricalUVScreen.HandleBarClick | src/app/components/HistoricalUV.tsx:90-92 | the selection moves as `HistoricalUV.ClickBar` says and stays a day of the week |
| HistoricalUV.HistoricalUVScreen.HandleCloseDetail | src/app/components/HistoricalUV.tsx:240 | the detail card's close button clears the selection |
| HistoricalUV.HistoricalUVScreen.HandleToggleShowAll | src/app/components/HistoricalUV.tsx:305-307 | the expand button flips the list between collapsed and expanded |

## Left out

- Rendering is not modelled: JSX, styles, icons, animations and the Recharts chart. Only the values the handlers compute and the disabled flags of the buttons are modelled.
- Toast notifications are not modelled. For a rejected submit the model records which error toast is chosen; success toasts and their texts are left out.
- Dates and the clock are not modelled: `Date`, `toLocaleTimeString`, `toLocaleDateString` and the one-minute interval that refreshes the clock. The id and timestamp of a recommendation are parameters.
- `Math.random()` is a parameter `r` with `0 <= r < 1`.
- Dashboard: the constants `exposureTime`, `isConnected` and `maxSafeTime` are not modelled, nor is the floating-point `exposurePercentage`, since no handler changes them.
- Dashboard.UVStatus: the colour tokens `getUVStatus` returns are not modelled; only the label is. The same holds for the history view's copy.
- The `console.log` stubs are not modelled: calculating risk, downloading the report, the calendar and the wristband settings.
- `BottomNav.tsx` is not part of this model. The dashboard's own tab buttons are modelled as `Dashboard.SetView`.
- Dashboard.RoundToTenths: UV values are exact reals, not IEEE doubles. The model's real thresholds 2.9, 5.9 and 7.9 and its rounding do not carry binary floating-point error.
- Timers: each screen's timers are a queue or a counter, fired one at a time whenever the caller chooses. Relative timing and the ordering of timers with different delays are not constrained.
- Unmounting is not modelled. A timer that completes after its screen has been replaced (for example a login-screen timer after logout) is not tracked. The history view's state, which React resets when the tab is left, is modelled only for as long as the view stays mounted.
- Focus is an index into the code slots. The DOM `focus()` call and optional chaining on missing refs are not modelled beyond that index.
- Strings are sequences of Unicode scalar values. `JsStrings.Length` counts them in UTF-16 code units, as JavaScript's `length` does. A JavaScript string holding an unpaired surrogate has no counterpart here.
- Browser input sanitisation and constraint validation are not modelled: `type="email"` stripping whitespace, `required` blocking a submit, and `maxLength={1}` capping what is typed. Handlers are modelled as the component code runs them on its state. The one-unit cap on the code slots appears only as the invariant `ForgotPassword.SlotsWellFormed`, which the handler's own length check in `ForgotPassword.CodeChange` keeps without help from the browser.
- The `username = "Usuario"` default of the dashboard's username prop is not modelled, because `App` always passes a name.
- HistoricalUV.AverageMinutes: requires a non-empty week. The source divides by the length of its fixed seven-day array, which is never empty.
- Profile.SelectSkinType: requires an index of the list. The selector offers only those indexes, so `parseInt` always sees one of them.
