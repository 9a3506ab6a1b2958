# MyData NG privacy console — a Dafny model of its client logic

MyData NG is a React console. Through it a person signs in, confirms a one-time code, reviews
what organizations ask of their personal data, and reacts to suspicious access. This project
models the deterministic logic behind those screens and proves properties of it. The screens
themselves are not modelled.

- **Request executor** (`src/services/api.js`), module `Api`.
  - How `apiCall` builds the request: base URL, header merge, bearer token.
  - How it settles a reply: the body on success; otherwise a thrown message, picked as
    `message`, then `errors[0].message`, then a fixed fallback.
  - The `authAPI`/`userAPI`/`dashboardAPI` endpoint tables.
  - `fetch` is not performed. A call yields the request it would send, and the reply is a
    parameter.
- **Auth session flow** (`SignIn.jsx`, `SignUp.jsx`, `OTPVerification.jsx`), modules `SignIn`,
  `SignUp`, `OtpVerification`, `Session` and `Storage`.
  - `localStorage` is a class over a string map.
  - Each handler is a class method. It is proved equal to a pure transition function, and the
    properties are lemmas about those functions.
  - Login and registration write a pending-auth marker (`userId`, plus `tempEmail` at login).
  - OTP entry refuses to send without the marker or with a code that is not six characters
    long. On success it swaps the marker for `accessToken`, `refreshToken` and `user`.
- **Routing and form state** (`App.js`), module `AppShell`: the eight-field form, the
  one-field update and the view switch.
- **Consent decision** (`ConsentSummary.jsx`), module `ConsentSummary`.
  - The field selection is an insertion-ordered object, modelled as a sequence of pairs.
  - Also modelled: toggling, the approved-field filter, the approve-disabled predicate, the
    decision payload with its expiry, the compliance bands and the language fallback.
- **Alerts** (`AnomalyDetection.jsx`), module `AnomalyDetection`: acknowledgement by id,
  severity defaults, the severity and risk lookups, and the count badge.
- **Policy analyzer** (`PolicyAnalyzer.jsx`), module `PolicyAnalyzer`.
  - `analyzePolicy`: validation, the trimmed payload and the error chosen on failure.
  - The guarded analyze button.
  - The score, status, export-filename and risk-flag lookups.
- **Integrated dashboard** (`Dashboard.jsx`), module `Dashboard`.
  - Its own view switch, the feature cards and the embedded full-screen anomaly and consent
    screens.
  - Its severity default is `high`, where the standalone screen's is `medium`.
- **Shared modules.**
  - `Common` holds `Option`, `Result` and the lookup in an ordered list of named entries.
    The same lookup serves JSON objects, headers and tables.
  - `Json` holds parsed JSON values and the JavaScript semantics the code relies on:
    truthiness, property access that throws on `null`, optional chaining, `String(v)` and
    `JSON.stringify`.
  - `JsStrings` holds `trim`, `\s+`, `toLowerCase`, `includes` and number printing.
  - `Scores` holds the 85/70/50 bands.

Behaviour is modelled as the code has it, including these quirks:

- The one-time code is checked for length only, although the screen's own texts ask for a
  6-digit code (`OTPVerification.jsx:41` and `:143`). The model follows the check at
  `OTPVerification.jsx:40`.
- The policy text's minimum length is measured before trimming, but the payload is trimmed.
- Because `...options` is spread after `headers`, a caller's own headers object replaces the
  merged one.
- Phone-mode sign-in sends the e-mail field.
- "Ongoing" (0 days) becomes a `one_time` consent.
- Registration sends `organizationName` for every role other than `user`, not only for
  `organization`.

## Model

| member | source | states |
|---|---|---|
| `Api.BaseUrl` | src/services/api.js:4 | A set, non-empty `REACT_APP_API_URL` is the base URL; otherwise `http://localhost:5000/api/v1` is. |
| `Api.WithHeader` | src/services/api.js:28 | After `h[name] = value`, `name` reads back as `value` and every other header reads as before. An existing entry keeps its place; a new one adds one entry. |
| `Api.Spread` | src/services/api.js:17-21 | In `{...h, ...extra}`, each name present in `extra` takes `extra`'s value (for an object without repeated names), and each name absent from `extra` keeps its value from `h`. |
| `Api.RequestFor` | src/services/api.js:7-29 | The URL is the base URL followed by the endpoint. Method and body are the caller's. A non-empty stored token yields `Authorization: Bearer <token>`. Without caller headers, exactly `Content-Type: application/json` is sent, followed by exactly `Authorization: Bearer <token>` when a non-empty token is stored and nothing else. |
| `Api.BuildRequest` | src/services/api.js:9-29 | The step-by-step construction of `config` computes exactly the request `RequestFor` describes: the merge, then the trailing `...options`, then the in-place token write. |
| `Api.Settle` | src/services/api.js:40-48 | A transport or parse failure is rethrown unchanged. An ok reply returns its body unchanged. A non-ok reply throws the normalised message. |
| `Api.MessageComesFirst` | src/services/api.js:41 | A non-empty `message` in the body is the thrown message. |
| `Api.FirstErrorComesSecond` | src/services/api.js:41 | Without a truthy `message`, a non-empty `errors[0].message` is the thrown message. |
| `Api.FallbackComesLast` | src/services/api.js:41 | With no truthy `message` and no truthy `errors?.[0]?.message`, the thrown message is `Something went wrong`. That covers a missing or empty `errors` and a first entry with no usable `message`, such as `{msg: …}` or `{}`. |
| `Api.ApiCall` | src/services/api.js:7-48 | The whole call sends the request for the stored token and returns or throws what the reply settles to. |
| `Api.CallFor` | src/services/api.js:54-159 | Every auth operation is a POST with a body, and none passes headers. `passwordlessLogin`/`forgotPassword` wrap their argument as `{email}` and `logout` as `{refreshToken}`. The other auth bodies are the argument itself. `updateProfile` is a PUT of its argument. Every resource getter has no method and no body. |
| `Api.WrapperRequests` | src/services/api.js:54-159 | Every wrapper request carries the JSON content type. It carries `Authorization` iff a non-empty token is stored, with exactly `Bearer <token>`. It has no method exactly for the seven getters. |
| `Api.CallerHeadersKept` | src/services/api.js:17-23 | A caller's own headers object is sent as it is, apart from `Authorization`. |
| `Api.CallerHeadersReplaceDefaults` | src/services/api.js:17-23 | When the caller's headers lack `Content-Type`, none is sent: the merged default is lost. |
| `AppShell.InitialForm` | src/App.js:14-23 | The form has exactly the eight named fields, all empty. |
| `AppShell.App.constructor` | src/App.js:11-23 | Initial state: view `landing`, method `email`, role `user`, an empty form. |
| `AppShell.App.HandleInputChange` | src/App.js:32-34 | The named field takes the new value. Every other field keeps its presence and its value. |
| `AppShell.ScreenFor` | src/App.js:48-65 | Each of the seven known view names selects the screen of that name; any other name selects the landing page. |
| `AppShell.ScreenForViewName` | src/App.js:48-62 | Routing by a screen's own name returns that screen. |
| `SignIn.LoginSendsCredentials` | src/components/auth/SignIn.jsx:27-35 | The login request is a POST to `/auth/login` whose body is exactly `{email, password, role}` from the form and the role. |
| `SignIn.PhoneTabSendsEmail` | src/components/auth/SignIn.jsx:144-171 | With the phone tab selected, submit runs the password login. It sends the e-mail field and no phone number. |
| `SignIn.SuccessWritesMarker` | src/components/auth/SignIn.jsx:37-44 | A `success` reply stores the returned `userId` and the typed e-mail as `tempEmail`, changes nothing else in the store, clears the error and moves to `otp`. |
| `SignIn.FailureKeepsSession` | src/components/auth/SignIn.jsx:45-48 | A thrown error is displayed as is, and the store and the view stay unchanged. |
| `SignIn.PasswordlessKeepsSession` | src/components/auth/SignIn.jsx:60-68 | Passwordless login sends `{email}`, never changes the store or the view, and displays a thrown error's message. |
| `SignIn.SignInScreen.constructor` | src/components/auth/SignIn.jsx:18-19 | Not loading, no error. |
| `SignIn.SignInScreen.HandleSignIn` | src/components/auth/SignIn.jsx:21-52 | The handler's effect on the store, view, error and sent request is the sign-in transition; `loading` ends false. |
| `SignIn.SignInScreen.Land` | src/components/auth/SignIn.jsx:35-48 | The handling of the settled login call is the login outcome: error, unchanged state, or marker and `otp`. |
| `SignIn.SignInScreen.HandlePasswordlessLogin` | src/components/auth/SignIn.jsx:54-72 | It sets the error and sends the request of the passwordless transition; `loading` ends false. |
| `SignIn.SignInScreen.Submit` | src/components/auth/SignIn.jsx:144-225 | While loading nothing happens. Otherwise the passwordless handler runs exactly for `passwordless` and the password handler for every other tab. |
| `SignUp.PayloadKeys` | src/components/auth/SignUp.jsx:26-39 | The payload's keys, in order, are `email, phone, password, role`, then `firstName, lastName` for `user` or `organizationName` otherwise. |
| `SignUp.PayloadValues` | src/components/auth/SignUp.jsx:26-39 | E-mail, phone and password are the form's values and role is the chosen role. For `user`, `firstName` and `lastName` carry the form's names. For any other role, `organizationName` carries the form's organization name. No `confirmPassword` is sent. |
| `SignUp.OrganizationNameIffNotUser` | src/components/auth/SignUp.jsx:34-39 | `organizationName` is sent iff the role is not `user`; `firstName` is sent iff it is. |
| `SignUp.ConfirmationIgnored` | src/components/auth/SignUp.jsx:26-43 | Changing only `confirmPassword` changes nothing about the transition. |
| `SignUp.SuccessStoresUserIdOnly` | src/components/auth/SignUp.jsx:45-51 | A `success` reply stores only `userId` (`tempEmail` is left as it was) and moves to `otp`. |
| `SignUp.FailureKeepsSession` | src/components/auth/SignUp.jsx:52-55 | A thrown error is displayed as is, and the store and the view stay unchanged. |
| `SignUp.SignUpScreen.constructor` | src/components/auth/SignUp.jsx:16-17 | Not loading, no error. |
| `SignUp.SignUpScreen.HandleSignUp` | src/components/auth/SignUp.jsx:19-59 | The handler's effect on the store, view, error and sent request is the registration transition; `loading` ends false. |
| `SignUp.SignUpScreen.Land` | src/components/auth/SignUp.jsx:43-55 | The handling of the settled registration call is the registration outcome. |
| `OtpVerification.MarkerUserId` | src/components/auth/OTPVerification.jsx:16-25 | A user id is picked up iff `userId` is stored and non-empty, and it is the stored value. |
| `OtpVerification.ContactShown` | src/components/auth/OTPVerification.jsx:17 | The contact is a non-empty stored `tempEmail`, else the form's e-mail. |
| `OtpVerification.RejectedBeforeSending` | src/components/auth/OTPVerification.jsx:36-42 | Without a user id, or with a code whose length is not 6, nothing is sent. The store and the view stay unchanged, and the matching error is set, user id first. |
| `OtpVerification.LengthIsTheOnlyCheck` | src/components/auth/OTPVerification.jsx:40-52 | Any six characters are sent to `/auth/verify-otp` as `{userId, otp, purpose: "login"}`. |
| `OtpVerification.SignedStore` | src/components/auth/OTPVerification.jsx:56-62 | After the session writes, the store holds both tokens and the user. It holds no marker, and every unrelated key is unchanged. |
| `OtpVerification.VerifiedSession` | src/components/auth/OTPVerification.jsx:54-66 | A verified code stores the tokens and the serialised user, removes the marker, clears the error and opens the dashboard. |
| `OtpVerification.SessionAuthorizesCalls` | src/components/auth/OTPVerification.jsx:56 | Once the session is stored, every later wrapper call carries `Bearer <accessToken>`. |
| `OtpVerification.RegisterThenVerify` | src/components/auth/OTPVerification.jsx:16-48 | Registration's returned user id is the marker this screen picks up, and the one the code is sent for. |
| `OtpVerification.LoginThenVerify` | src/components/auth/OTPVerification.jsx:16-48 | Password login's returned user id is the marker this screen picks up, and the one the code is sent for. |
| `OtpVerification.LoginShowsTypedEmail` | src/components/auth/OTPVerification.jsx:17 | After password login the contact shown is the non-empty e-mail typed at sign-in. |
| `OtpVerification.OtpScreen.constructor` | src/components/auth/OTPVerification.jsx:9-12 | Not loading, no error, no user id or contact. |
| `OtpVerification.OtpScreen.LoadMarker` | src/components/auth/OTPVerification.jsx:14-28 | Without a usable marker the session-expired error is set and `userId` is kept. Otherwise the user id and the contact are taken from the store. |
| `OtpVerification.OtpScreen.HandleVerify` | src/components/auth/OTPVerification.jsx:30-74 | The handler's effect on the store, view, error and sent request is the verification transition; `loading` ends false. |
| `OtpVerification.OtpScreen.Land` | src/components/auth/OTPVerification.jsx:52-73 | The handling of the settled call (three writes, two removals, then the view) is the verification outcome. |
| `OtpVerification.OtpScreen.Submit` | src/components/auth/OTPVerification.jsx:147-151 | While loading, or without a user id, nothing happens. Otherwise the verification transition runs. |
| `Common.Keys` | src/components/AIFeatures/ConsentSummary.jsx:71 | `Object.keys` lists every entry's key in insertion order. |
| `ConsentSummary.Lookup` | src/components/AIFeatures/ConsentSummary.jsx:66 | A lookup is `undefined` exactly for a key that is not present. |
| `ConsentSummary.Put` | src/components/AIFeatures/ConsentSummary.jsx:64-67 | The written key reads back as the new value and every other key reads as before. An existing key keeps its position; a new key goes last. |
| `ConsentSummary.PutKeepsUnique` | src/components/AIFeatures/ConsentSummary.jsx:64-67 | Writing a key never creates a duplicate key. |
| `ConsentSummary.InitialSelectionLookup` | src/components/AIFeatures/ConsentSummary.jsx:34-40 | After initialisation a field is present iff it was requested, and then it is `true`. |
| `ConsentSummary.InitialSelectionAllTrue` | src/components/AIFeatures/ConsentSummary.jsx:34-40 | After initialisation no key repeats, and every value is `true`, even when the request repeats a field. |
| `ConsentSummary.InitialSelectionOrder` | src/components/AIFeatures/ConsentSummary.jsx:34-40 | For a request without repeats, the keys are the requested fields in request order. |
| `ConsentSummary.ToggleFlipsOne` | src/components/AIFeatures/ConsentSummary.jsx:63-68 | Toggling sets the field to the negation of its old value (`undefined` becomes `true`), leaves every other field as it was, and keeps the key order of a present field. |
| `ConsentSummary.ToggleTwice` | src/components/AIFeatures/ConsentSummary.jsx:63-68 | Toggling a present field twice restores the selection exactly. |
| `ConsentSummary.ApprovedFields` | src/components/AIFeatures/ConsentSummary.jsx:71-77 | Every approved entry has `approved: true` and the request's purpose. No entry is produced beyond the selection. |
| `ConsentSummary.ApprovedFieldsAppend` | src/components/AIFeatures/ConsentSummary.jsx:71-77 | The filter keeps key order: it distributes over concatenation. |
| `ConsentSummary.ApprovedIffSelected` | src/components/AIFeatures/ConsentSummary.jsx:71-77 | A field appears among the approved entries iff it is selected `true`; denied fields never appear. |
| `ConsentSummary.DisabledIffNothingApproved` | src/components/AIFeatures/ConsentSummary.jsx:250 | Approve is disabled iff nothing would be approved, which includes the empty selection. |
| `ConsentSummary.BuildDecision` | src/components/AIFeatures/ConsentSummary.jsx:79-89 | The decision is `one_time` with no expiry iff the window is 0 days. Otherwise it expires `now + days` whole days later. Organization id, purpose and language pass through, and the fields are the approved ones. |
| `ConsentSummary.OngoingIsOneTime` | src/components/AIFeatures/ConsentSummary.jsx:205-209 | Of the four expiry buttons, exactly "Ongoing" gives a one-time consent with no expiry. |
| `ConsentSummary.ComplianceColor` | src/components/AIFeatures/ConsentSummary.jsx:92-96 | Green iff the score is at least 85, yellow iff it is from 70 to below 85, red iff it is below 70. |
| `ConsentSummary.ColorMatchesLabel` | src/components/AIFeatures/ConsentSummary.jsx:92-103 | Green iff "Excellent", yellow iff "Good", red iff "Fair" or "Poor". |
| `Common.GetFinds` | src/components/AIFeatures/ConsentSummary.jsx:54 | An entry (here a language's summary) is found iff some entry has that key, and what is found is that entry's value. The same lookup reads JSON members and headers. |
| `ConsentSummary.UnknownLanguageFallsBack` | src/components/AIFeatures/ConsentSummary.jsx:54 | A language not in the table shows the English summary. A language with non-empty text shows its own. |
| `ConsentSummary.ConsentScreen.constructor` | src/components/AIFeatures/ConsentSummary.jsx:5-9 | Empty selection, 30 days, English, no summary, loading; the no-repeated-key invariant `Valid` holds. |
| `ConsentSummary.ConsentScreen.InitializeSelection` | src/components/AIFeatures/ConsentSummary.jsx:34-40 | The `forEach` loop builds exactly the initial selection of the requested fields, with no key twice. |
| `ConsentSummary.ConsentScreen.ToggleField` | src/components/AIFeatures/ConsentSummary.jsx:63-68 | The selection becomes its toggle at the field, and still holds no key twice. |
| `ConsentSummary.ConsentScreen.ChooseExpiration` | src/components/AIFeatures/ConsentSummary.jsx:205-215 | A button sets the expiry window to its own number of days. |
| `ConsentSummary.ConsentScreen.ChooseLanguage` | src/components/AIFeatures/ConsentSummary.jsx:30-32 | A language change reloads the summary for that language and ends not loading. |
| `ConsentSummary.ConsentScreen.Approve` | src/components/AIFeatures/ConsentSummary.jsx:70-112 | A decision is produced iff an `onApprove` callback exists, the screen is not loading (while loading only the spinner renders), and the button is enabled. It is the decision for the current selection, window and language, and a field is in its `dataFields` iff it is selected `true`. |
| `AnomalyDetection.WithoutId` | src/components/AIFeatures/AnomalyDetection.jsx:67 | The result holds exactly the alerts whose id differs, and no longer list. |
| `AnomalyDetection.WithoutIdAppend` | src/components/AIFeatures/AnomalyDetection.jsx:67 | The filter keeps the remaining alerts in order: it distributes over concatenation. |
| `AnomalyDetection.WithoutAbsentId` | src/components/AIFeatures/AnomalyDetection.jsx:65-68 | An id no alert has leaves the list unchanged. |
| `AnomalyDetection.WithoutIdIdempotent` | src/components/AIFeatures/AnomalyDetection.jsx:65-68 | Acknowledging the same id twice equals acknowledging it once. |
| `AnomalyDetection.DispositionCode` | src/components/AIFeatures/AnomalyDetection.jsx:299-334 | Each of the four buttons reports one of the four disposition codes. |
| `AnomalyDetection.DispositionCodesDistinct` | src/components/AIFeatures/AnomalyDetection.jsx:299-334 | The four buttons report four different codes. |
| `AnomalyDetection.CardSeverity` | src/components/AIFeatures/AnomalyDetection.jsx:202 | The first sub-alert's non-empty severity, else the fallback. |
| `AnomalyDetection.SeverityLookups` | src/components/AIFeatures/AnomalyDetection.jsx:74-98 | Both lookups give grey exactly for values other than high/medium/low, and the three known severities get pairwise distinct colours and styles. |
| `AnomalyDetection.RiskBand` | src/components/AIFeatures/AnomalyDetection.jsx:246-251 | Severe iff the score is at least 70, moderate iff below 40, elevated in between. |
| `AnomalyDetection.RiskBandMonotone` | src/components/AIFeatures/AnomalyDetection.jsx:246-251 | A higher score never gets a lower risk band. |
| `AnomalyDetection.CountBadge` | src/components/AIFeatures/AnomalyDetection.jsx:124-136 | "All Clear" iff there are no alerts. Otherwise the badge is the count followed by exactly ` Active Alert`, or ` Active Alerts` when the count exceeds one. The integrated dashboard renders the same expression (`src/components/dashboard/Dashboard.jsx:93-103`), so this member stands for both badges. |
| `AnomalyDetection.CountBadgeInjective` | src/components/AIFeatures/AnomalyDetection.jsx:124-136 | Different alert counts show different badges. |
| `AnomalyDetection.AnomalyScreen.constructor` | src/components/AIFeatures/AnomalyDetection.jsx:5-7 | No alerts, nothing selected. |
| `AnomalyDetection.AnomalyScreen.Select` | src/components/AIFeatures/AnomalyDetection.jsx:154 | The clicked alert becomes the selection. |
| `AnomalyDetection.AnomalyScreen.Acknowledge` | src/components/AIFeatures/AnomalyDetection.jsx:65-68 | The alerts with that id are removed, the selection is cleared, and the disposition has no effect. |
| `PolicyAnalyzer.ValidationError` | src/components/AIFeatures/PolicyAnalyzer.jsx:34-42 | Blank text or name gives the missing-input error. Otherwise untrimmed text under 100 characters gives the too-short error. No error iff both are non-blank and the untrimmed text has at least 100 characters. |
| `PolicyAnalyzer.Outcome` | src/components/AIFeatures/PolicyAnalyzer.jsx:72-85 | There is an analysis iff the reply is ok and its body is not `null`, and then it is the body. An ok reply sets no error, and a `null` body leaves the analysis null. Otherwise there is no analysis and the error is non-empty; a transport failure with a non-empty message shows that message. |
| `PolicyAnalyzer.FailureMessage` | src/components/AIFeatures/PolicyAnalyzer.jsx:73 | A failed reply with a non-empty `message` reports it. With a missing or falsy `message` (`""`, `null`, `false`, `0`) it reports `Analysis failed`. |
| `PolicyAnalyzer.SilentFailureShowsBackendDown` | src/components/AIFeatures/PolicyAnalyzer.jsx:81 | An error with an empty message shows the backend-not-running text. |
| `PolicyAnalyzer.PaddingCountsTowardMinimum` | src/components/AIFeatures/PolicyAnalyzer.jsx:39-52 | Text padded with white space to 100 characters passes validation. It is then sent trimmed, shorter than the minimum. |
| `PolicyAnalyzer.EnabledButtonChecksOnlyBlankText` | src/components/AIFeatures/PolicyAnalyzer.jsx:221 | When the button is enabled, the handler's only remaining refusal is blank policy text. |
| `PolicyAnalyzer.BlankTextEnablesButton` | src/components/AIFeatures/PolicyAnalyzer.jsx:34-37 | One hundred white-space characters enable the button and are then refused as missing input. |
| `PolicyAnalyzer.ColorAndLabelAgree` | src/components/AIFeatures/PolicyAnalyzer.jsx:93-105 | Two scores share a colour iff they share a label, iff they fall in the same 85/70/50 band; the label text is that band's name. |
| `PolicyAnalyzer.StatusStyles` | src/components/AIFeatures/PolicyAnalyzer.jsx:107-114 | `compliant` gets the compliant style and `partially_compliant` the partial style. Every other status gets the `non_compliant` style, and only those do. |
| `PolicyAnalyzer.ExportFilename` | src/components/AIFeatures/PolicyAnalyzer.jsx:130 | The name ends in `_NDPR_Analysis.json`, and the part before it contains no white space. |
| `PolicyAnalyzer.ExportFilenameJoinsWords` | src/components/AIFeatures/PolicyAnalyzer.jsx:130 | Two words separated by any run of white space are joined by exactly one `_`. |
| `PolicyAnalyzer.ExportStemStable` | src/components/AIFeatures/PolicyAnalyzer.jsx:130 | Renaming an already renamed name changes nothing. |
| `PolicyAnalyzer.RiskSeverityOf` | src/components/AIFeatures/PolicyAnalyzer.jsx:440-445 | High iff the lower-cased risk contains `high`. Medium iff it contains `medium` but not `high`. Low otherwise. |
| `PolicyAnalyzer.RiskIgnoresCase` | src/components/AIFeatures/PolicyAnalyzer.jsx:442-443 | Lower-casing the risk first does not change its colour. |
| `PolicyAnalyzer.PolicyScreen.constructor` | src/components/AIFeatures/PolicyAnalyzer.jsx:5-11 | Empty inputs, not analyzing, no analysis, no error. |
| `PolicyAnalyzer.PolicyScreen.AnalyzePolicy` | src/components/AIFeatures/PolicyAnalyzer.jsx:29-86 | An invalid form sets its error and sends nothing. A valid form sends the trimmed payload, ends with the reply's outcome, and ends not analyzing. |
| `PolicyAnalyzer.PolicyScreen.Send` | src/components/AIFeatures/PolicyAnalyzer.jsx:44-64 | The POST to `/analyze-policy` carries only the JSON content type and the trimmed payload. |
| `PolicyAnalyzer.PolicyScreen.Receive` | src/components/AIFeatures/PolicyAnalyzer.jsx:69-85 | The reply handling leaves analysis and error as `Outcome` describes, including a null analysis for an ok `null` body. |
| `PolicyAnalyzer.PolicyScreen.ClickAnalyze` | src/components/AIFeatures/PolicyAnalyzer.jsx:378-386 | A disabled button changes nothing. An enabled one refuses blank text, or else sends the request and records the outcome. |
| `Dashboard.RouteFor` | src/components/dashboard/Dashboard.jsx:9-21 | Each of the three named views selects its screen; every other value selects the dashboard. |
| `Dashboard.CardLabel` | src/components/dashboard/Dashboard.jsx:802 | "Launch" iff the card has a click handler, else "Explore". |
| `Dashboard.LaunchCardsOpenScreens` | src/components/dashboard/Dashboard.jsx:610-720 | Exactly the first three of the nine cards read "Launch", and each opens a screen other than the dashboard. |
| `Dashboard.IntegratedDashboard.constructor` | src/components/dashboard/Dashboard.jsx:6 | The dashboard view is shown first. |
| `Dashboard.IntegratedDashboard.Open` | src/components/dashboard/Dashboard.jsx:612-643 | A live card's click sets its view. |
| `Dashboard.IntegratedDashboard.Back` | src/components/dashboard/Dashboard.jsx:10-18 | Every `onBack` returns to the dashboard. |
| `Dashboard.SeverityDefaultsDiffer` | src/components/dashboard/Dashboard.jsx:121 | The embedded and standalone cards disagree exactly when the first sub-alert has no severity. |
| `Dashboard.AnomalyDetectionFull.constructor` | src/components/dashboard/Dashboard.jsx:26-28 | No alerts, nothing selected. |
| `Dashboard.AnomalyDetectionFull.Select` | src/components/dashboard/Dashboard.jsx:127 | The clicked alert becomes the selection. |
| `Dashboard.AnomalyDetectionFull.Acknowledge` | src/components/dashboard/Dashboard.jsx:53-56 | The alerts with that id are removed and the selection is cleared. |
| `Dashboard.InitialSelectionAllTrue` | src/components/dashboard/Dashboard.jsx:273-278 | The four fields start selected, in order, each once. |
| `Dashboard.ConsentSummaryFull.constructor` | src/components/dashboard/Dashboard.jsx:273-278 | The selection starts as the four selected fields, with no key twice. |
| `Dashboard.ConsentSummaryFull.ToggleField` | src/components/dashboard/Dashboard.jsx:288-290 | The selection becomes its toggle at the field, and still holds no key twice. |
| `JsStrings.Trim` | src/components/AIFeatures/PolicyAnalyzer.jsx:34 | The trimmed text is no longer and neither starts nor ends with white space. |
| `JsStrings.TrimStart` | src/components/AIFeatures/PolicyAnalyzer.jsx:34 | The result is a suffix of the text. Everything before it is white space, and it does not begin with white space. |
| `JsStrings.TrimEnd` | src/components/AIFeatures/PolicyAnalyzer.jsx:34 | The result is a prefix of the text. Everything after it is white space, and it does not end with white space. |
| `JsStrings.TrimRemovesOnlyWhite` | src/components/AIFeatures/PolicyAnalyzer.jsx:49-52 | The text is a white-space prefix, then its trimmed value, then a white-space suffix: `trim` removes white space and nothing else. |
| `JsStrings.TrimEmptyIffAllWhite` | src/components/AIFeatures/PolicyAnalyzer.jsx:34 | A text trims to nothing iff all its characters are white space. |
| `JsStrings.TrimDropsTrailingWhite` | src/components/AIFeatures/PolicyAnalyzer.jsx:51 | Trimming a core followed by white space yields the core. |
| `JsStrings.CollapseWhite` | src/components/AIFeatures/PolicyAnalyzer.jsx:130 | Replacing white-space runs leaves no white space and never lengthens the text. |
| `JsStrings.CollapseNoWhite` | src/components/AIFeatures/PolicyAnalyzer.jsx:130 | A text without white space is unchanged. |
| `JsStrings.CollapseIdempotent` | src/components/AIFeatures/PolicyAnalyzer.jsx:130 | Replacing a second time changes nothing. |
| `JsStrings.CollapseRun` | src/components/AIFeatures/PolicyAnalyzer.jsx:130 | A white-space run before a non-white character becomes one `_`. |
| `JsStrings.ToLower` | src/components/AIFeatures/PolicyAnalyzer.jsx:442 | Lower-casing keeps the length and maps each character on its own. |
| `JsStrings.ToLowerIdempotent` | src/components/AIFeatures/PolicyAnalyzer.jsx:442 | Lower-casing twice equals once. |
| `JsStrings.Includes` | src/components/AIFeatures/PolicyAnalyzer.jsx:442 | `includes` is true iff the text occurs at some position. |
| `JsStrings.NatToString` | src/components/AIFeatures/AnomalyDetection.jsx:133 | A count prints as one or more digits, exactly one digit below ten. |
| `JsStrings.NatToStringInjective` | src/components/AIFeatures/AnomalyDetection.jsx:133 | Different counts print differently. |
| `Json.Or` | src/services/api.js:41 | The logical or of two values is the first when it is truthy, else the second. |
| `Json.Prop` | src/services/api.js:41 | Reading a property throws a `TypeError` exactly on `null` or `undefined`, and otherwise reads like optional chaining. |
| `Json.ToText` | src/components/auth/SignIn.jsx:39 | A string value is stored as it is. |
| `Scores.BandOf` | src/components/AIFeatures/PolicyAnalyzer.jsx:93-105 | Excellent iff at least 85, good iff from 70 to below 85, fair iff from 50 to below 70, poor iff below 50. |
| `Scores.BandMonotone` | src/components/AIFeatures/PolicyAnalyzer.jsx:93-97 | A higher score never gets a lower band. |
| `Scores.LabelInjective` | src/components/AIFeatures/ConsentSummary.jsx:98-103 | Distinct bands have distinct labels. |
| `Storage.ItemOf` | src/services/api.js:26 | On a store's contents, `getItem` is `null` exactly for an absent key, and the stored value otherwise. It is also how `apiCall` reads `accessToken`. |
| `Storage.LocalStorage.Item` | src/components/auth/OTPVerification.jsx:16 | `getItem` is `null` exactly for an absent key, and is the stored value otherwise. |
| `Storage.LocalStorage.GetItem` | src/services/api.js:26 | Reading the store returns `getItem`'s answer. |
| `Storage.LocalStorage.SetItem` | src/components/auth/OTPVerification.jsx:56-58 | The key is written and nothing else changes. |
| `Storage.LocalStorage.RemoveItem` | src/components/auth/OTPVerification.jsx:61-62 | The key is removed and nothing else changes. |

## Left out

- `fetch`, `response.json()` and the backend. A reply is a parameter: a transport or parse failure with its message, or an `ok` flag with a parsed body. Request bodies are the JSON value passed to `JSON.stringify`, not its text.
- `console.*`, `alert()`, and the `e.preventDefault()` calls. They have no effect on the modelled state.
- React scheduling and asynchrony. Each handler is one sequential transition, and functional updates are read as applied to the current state.
- Rendering, styles, hover state, icons, and the props bundle every screen receives (`src/App.js:36-46`). Only the text or colour a lookup returns is modelled.
- The `setTimeout`/`setInterval` mock loaders and their hard-coded data, including the translated summaries. `ChooseLanguage` takes the summary table as a parameter, and the loading wait is left out.
- `LandingPage.jsx`, `ForgotPassword.jsx` and `ResetConfirmation.jsx` only navigate and render, so they are not part of this model. The social-login and resend-code stubs only alert, and are left out too.
- PolicyAnalyzer's `industry`, `language` and recommendation state, and the `exportAnalysis` Blob plumbing. Only the download file name is modelled, and the `if (!analysis) return` guard in front of it is not.
- The compliance-score-truthy guard around the consent screen's compliance badge: it only decides whether the badge renders.
- Calendar arithmetic. `setDate(getDate() + n)` is read as adding `n` whole days of milliseconds, so DST shifts and ISO formatting are not modelled.
- JavaScript numbers are integers here: no fractions, NaN or exponent notation. String lengths count characters, not UTF-16 code units.
- `toLowerCase` maps only the ASCII capitals. Other Unicode case mappings are not modelled.
- Objects are modelled as ordered key/value lists, with several JavaScript details missing:
  - built-in prototype properties such as `constructor` are not found by a lookup;
  - integer-like keys are not hoisted to the front of `Object.keys`;
  - a header whose value is explicitly `undefined` is not distinguished from an absent one.
- `localStorage.setItem` never fails on quota. Every value is written with `String(v)` semantics, and `user` is written with `JSON.stringify` semantics.
- Api.BuildRequest: when a caller passes its own headers object, `api.js:28` writes `Authorization` into that same object, so the caller's object is changed too. The model builds a new header list instead and does not capture this aliasing. No wrapper in `api.js` passes headers, so nothing in the modelled core can observe it.
- A sub-alert's array being absent (`alert.alerts` undefined). The model always carries a sequence.
- The SignUp submit button being disabled while loading (`src/components/auth/SignUp.jsx:210`). `HandleSignUp` always ends not loading, so the guard never binds between sequential calls.
- PolicyAnalyzer.ExportFilename: its contract only says the part before the suffix holds no white space and ends in the fixed suffix. How each run maps to one `_` is stated separately, by `ExportFilenameJoinsWords` and `JsStrings.CollapseRun`.
- ConsentSummary.Lookup: its contract states when a key is absent. It does not state which entry supplies the value; `UniqueLookup` and `Put`'s contract cover that.
- The blank-text case of the analyze button is modelled as written: 100 blank characters enable the button, and the handler then refuses them.
