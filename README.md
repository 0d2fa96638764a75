# CivicTrack authentication and complaint forms in Dafny

This project models the client-side logic of two screens of CivicTrack, a civic-issue
reporting site: the authentication page (`src/Login.jsx`) and the complaint form
(`src/complaintpage.jsx`). Neither screen has a backend of its own: the only network call is
the assistant's request to a text-generation service. The rest of their behaviour is
field validation, small error maps, a four-view router, a persisted dark-mode flag and
a bounded list of staged images. The model states each of these as a contract and proves it.

Modules, one per component of the source:

- `Text`: JavaScript's `\s` character class and `String.prototype.trim`.
- `EmailPattern`: the unanchored test `/\S+@\S+\.\S+/.test(email)` used by three forms. It is
  computed by a left-to-right scan and proved equal to an existential description of a match.
  `EmailError` holds the "required, else invalid" rule that the three forms share.
- `LoginForm`, `SignUpForm` and `ForgotPasswordForm`: each form's state is a record.
  Each handler (`handleChange`, `validateForm`, `handleSubmit`, the timer completion) is a
  function from the old state to the new one. `SignUpForm` also holds the password-strength meter.
- `PostSignupAssistant`: the assistant shown after registration, as a class. Its fields are
  the description, the drafted report, the loading flag and the error. The request to the
  text-generation service appears only as its three outcomes.
- `LoginPage`: the page component `Login`, as a class. Its fields are the current view, the
  user name, the notification, the dark-mode flag and device storage (a `map<string, string>`).
  `RenderView` is the view router.
- `ComplaintPage`: the complaint component, as the class `ComplaintForm`. Its fields are
  `formData`, `errors`, `isSubmitting` and `showSuccess`. Each handler is a method.
  Its invariant is that at most five images are staged.

Each `setTimeout` completion is an explicit step: `Complete`, `CompleteSubmit` and
`DismissNotification`. The three outcomes of the assistant's awaited `fetch`
(`src/Login.jsx:364-388`) are explicit steps too: `DraftSucceeded`, `DraftParsedToNothing` and
`DraftFailed`. A timer callback reads values it captured
when it was started. Two of these are kept in the form state as `pending`: the address in the
reset form and the first name in the sign-up form. The system colour-scheme preference and
geolocation support are parameters. Device storage is a field of `Login`.

A failed drafting request leaves no draft on screen, because the previous draft is cleared
before the request is sent (`src/Login.jsx:340`). `DraftFailed` and
`RetryAfterSuccessThenFailure` state this.

## Model

| member | source | states |
|---|---|---|
| `Text.IsSpace` | src/Login.jsx:129 | JavaScript's `\s`: the white-space and line-terminator characters the e-mail test and `trim()` both use |
| `Text.Trim` | src/complaintpage.jsx:76-79 | `trim()`: the result is empty or starts and ends with a non-space character |
| `Text.TrimStartDropsSpace` | src/complaintpage.jsx:76 | trimming the start keeps a suffix and drops only white space |
| `Text.TrimEndDropsSpace` | src/complaintpage.jsx:76 | trimming the end keeps a prefix and drops only white space |
| `Text.TrimIsSlice` | src/complaintpage.jsx:76-79 | `trim()` returns the slice `s[i..j]` of its argument, and everything before `i` and from `j` on is white space |
| `Text.TrimEmptyIffBlank` | src/Login.jsx:334 | a trimmed string is empty exactly when every character is white space |
| `Text.TrimsToEmpty` | src/complaintpage.jsx:76-79 | `!s.trim()` holds exactly for blank strings |
| `EmailPattern.DomainFrom` | src/Login.jsx:129 | scanning from a '@' finds a completing '.' exactly when a match with that '@' exists |
| `EmailPattern.SearchFrom` | src/Login.jsx:129 | scanning the '@' positions from an index finds a match exactly when one exists there or later |
| `EmailPattern.ContainsEmailPattern` | src/Login.jsx:129 | the unanchored test holds exactly when some substring is non-space, '@', non-space run, '.', non-space |
| `EmailPattern.EmailError` | src/Login.jsx:128-129 | an empty address gets 'Email is required', else a failed test gets 'Email is invalid', never both |
| `EmailPattern.PlainAddressAccepted` | src/Login.jsx:129 | "jo@city.in" passes the test |
| `EmailPattern.SymbolsMatchNonSpace` | src/Login.jsx:214 | '@' and '.' count as non-space characters: "@@@.." passes |
| `EmailPattern.UnanchoredMatch` | src/Login.jsx:298 | if a string passes the test, so does that string with any text added before and after it |
| `EmailPattern.NoAtSignRejected` | src/Login.jsx:129 | a string without '@' (such as "not-an-email") fails |
| `EmailPattern.SpaceInDomainRejected` | src/Login.jsx:129 | "a@b .c" fails: a space between '@' and the last '.' breaks the match |
| `LoginForm.Validate` | src/Login.jsx:126-134 | the error map holds the e-mail error iff `EmailError` reports one, and 'Password is required' iff the password is empty |
| `LoginForm.ValidIff` | src/Login.jsx:133 | the form is valid iff the address is non-empty and passes the test and the password is non-empty |
| `LoginForm.HandleChange` | src/Login.jsx:121-124 | only the edited field changes; a shown error on it becomes '' (the key is kept); other errors are unchanged |
| `LoginForm.Submit` | src/Login.jsx:136-140 | errors become the validation result; loading starts only when that result is empty |
| `LoginForm.Complete` | src/Login.jsx:140-145 | only once a submit has started loading: loading stops and 'Login successful!' is raised |
| `LoginForm.NotAnEmailRejected` | src/Login.jsx:126-138 | "not-an-email" with any password is reported 'Email is invalid' and does not start loading |
| `SignUpForm.PasswordError` | src/Login.jsx:215-216 | 'Password is required' iff empty, 'Password must be at least 8 characters' iff 1 to 7 characters long, none iff at least 8 |
| `SignUpForm.Validate` | src/Login.jsx:210-221 | exactly which key gets which message: first name, e-mail, password, mismatch iff password differs from confirmation, terms iff not accepted; never last name or phone |
| `SignUpForm.ValidIff` | src/Login.jsx:220 | registration is valid iff first name, a passing address, an 8+ character password equal to its confirmation and accepted terms |
| `SignUpForm.EmptyPasswordsNoMismatch` | src/Login.jsx:215-217 | two empty password fields give 'Password is required' and no mismatch |
| `SignUpForm.ShortPasswordReported` | src/Login.jsx:216 | a 1 to 7 character password is reported too short and blocks success |
| `SignUpForm.HandleChange` | src/Login.jsx:205-208 | only the edited field changes; a shown error on it becomes ''; other errors are unchanged |
| `SignUpForm.SetAcceptTerms` | src/Login.jsx:272 | the checkbox changes only the terms flag |
| `SignUpForm.Submit` | src/Login.jsx:223-226 | errors become the validation result; only a valid form starts loading and captures the first name |
| `SignUpForm.Complete` | src/Login.jsx:227-230 | loading stops and the captured first name is handed to the page |
| `SignUpForm.CompletedNameNonEmpty` | src/Login.jsx:225-229 | the name handed on after a valid submit is the form's non-empty first name |
| `SignUpForm.CountMet` | src/Login.jsx:236-242 | the number of criteria met is at most the number tested and at least 1 when one is met |
| `SignUpForm.NonEmptyMeetsSome` | src/Login.jsx:238-241 | every non-empty password meets the upper, lower, digit or symbol criterion |
| `SignUpForm.PasswordStrength` | src/Login.jsx:233-243 | strength is 0 for an empty password, else the number of the five criteria met, between 1 and 5 |
| `SignUpForm.StrengthLabel` | src/Login.jsx:245-265 | `strengthLabels[strength - 1]` is defined for every strength from 1 to 5 |
| `ForgotPasswordForm.EditEmail` | src/Login.jsx:315 | typing stores the address and clears the error |
| `ForgotPasswordForm.Submit` | src/Login.jsx:295-300 | empty or invalid addresses set their message and change nothing else; otherwise loading starts, the error is cleared, the address is captured for the timer, and nothing else changes |
| `ForgotPasswordForm.Complete` | src/Login.jsx:301-305 | success is shown and the notification names the captured address |
| `ForgotPasswordForm.StartedOnlyForValidAddress` | src/Login.jsx:297-299 | a reset request is only started for an address that passed both checks |
| `PostSignupAssistant.Assistant.constructor` | src/Login.jsx:328-331 | empty description, no draft, not loading, no error |
| `PostSignupAssistant.Assistant.EditDescription` | src/Login.jsx:399 | typing stores the description and clears the error |
| `PostSignupAssistant.Assistant.HandleDraftReport` | src/Login.jsx:333-340 | a blank description sets 'Please describe the issue first.' and starts nothing; otherwise loading starts, the error clears and the old draft is dropped |
| `PostSignupAssistant.Assistant.DraftSucceeded` | src/Login.jsx:376-378 | the parsed report is shown and loading stops |
| `PostSignupAssistant.Assistant.DraftParsedToNothing` | src/Login.jsx:377-387 | a reply text that parses to a falsy value such as `null` shows no draft and no error, and stops loading |
| `PostSignupAssistant.Assistant.DraftFailed` | src/Login.jsx:383-388 | any failure shows the single advisory, stops loading and leaves no draft |
| `PostSignupAssistant.RetryAfterSuccessThenFailure` | src/Login.jsx:338-340 | a failed retry after a successful draft shows no draft, only the advisory |
| `LoginPage.RenderView` | src/Login.jsx:479-491 | 'signup', 'forgot-password' and 'post-signup' render their forms; every other value renders the login form |
| `LoginPage.StoredTheme` | src/Login.jsx:453 | the stored value is 'dark' iff the mode is dark, otherwise 'light' |
| `LoginPage.ThemeOnLoad` | src/Login.jsx:458-462 | a non-empty saved value decides the mode (dark iff 'dark'); otherwise the system preference does |
| `LoginPage.ThemeRoundTrip` | src/Login.jsx:450-462 | saving a mode and loading it again gives the same mode |
| `LoginPage.Login.constructor` | src/Login.jsx:440-443 | light mode, view 'login', no user name, no notification |
| `LoginPage.Login.CurrentScreen` | src/Login.jsx:479-491 | the page shows the login form exactly in the 'login' view |
| `LoginPage.Login.LoadTheme` | src/Login.jsx:458-462 | on mount the mode becomes `ThemeOnLoad` of storage and the system preference; nothing else changes |
| `LoginPage.Login.ToggleDarkMode` | src/Login.jsx:450-456 | the mode flips and storage gets the new mode's value under 'theme' |
| `LoginPage.Login.ShowNotification` | src/Login.jsx:445-448 | the notification becomes the given message and kind |
| `LoginPage.Login.DismissNotification` | src/Login.jsx:447 | the notification is cleared |
| `LoginPage.Login.SwitchToSignup` | src/Login.jsx:489 | from the login form the view becomes 'signup' |
| `LoginPage.Login.SwitchToForgotPassword` | src/Login.jsx:489 | from the login form the view becomes 'forgot-password' |
| `LoginPage.Login.BackToLogin` | src/Login.jsx:482-484 | from the sign-up or reset form the view becomes 'login' |
| `LoginPage.Login.HandleSignupSuccess` | src/Login.jsx:468-472 | the user name is set, the view becomes 'post-signup' and a welcome names the user |
| `LoginPage.Login.HandleReportSubmitted` | src/Login.jsx:474-477 | from the assistant the view returns to 'login' with a confirmation |
| `LoginPage.ToggleThenReload` | src/Login.jsx:450-462 | toggling and mounting again over the same storage restores the toggled mode whatever the system prefers |
| `LoginPage.RegistrationJourney` | src/Login.jsx:468-489 | a valid registration, submitted and completed, makes the page's user name the form's non-empty first name; submitting the report ends in 'login' with that name kept |
| `ComplaintPage.ComplaintErrors` | src/complaintpage.jsx:74-83 | a key is in the error map iff its field is missing (blank title, description or location; empty category); urgency and images never are |
| `ComplaintPage.AcceptedIff` | src/complaintpage.jsx:82 | a complaint is valid iff title, description and location are not blank and a category is chosen |
| `ComplaintPage.Without` | src/complaintpage.jsx:67-72 | removing index i gives the list without its i-th element; an index out of range changes nothing |
| `ComplaintPage.WithoutKeepsOrder` | src/complaintpage.jsx:70 | removal in range shortens the list by one and keeps the other elements in order |
| `ComplaintPage.ComplaintForm.constructor` | src/complaintpage.jsx:6-16 | the initial record (empty strings, urgency 'medium', no images), no errors, not submitting |
| `ComplaintPage.ComplaintForm.HandleInputChange` | src/complaintpage.jsx:48-54 | only the named field changes; a shown error on it becomes ''; images and other errors are unchanged |
| `ComplaintPage.ComplaintForm.HandleImageUpload` | src/complaintpage.jsx:56-65 | a batch that would pass five is refused whole with 'Maximum 5 images allowed'; otherwise it is appended in order and the error is blanked; at most five images are ever staged |
| `ComplaintPage.ComplaintForm.RemoveImage` | src/complaintpage.jsx:67-72 | the images become `Without(images, index)`; errors and other fields are unchanged |
| `ComplaintPage.ComplaintForm.ValidateForm` | src/complaintpage.jsx:74-83 | the error map is replaced by `ComplaintErrors` of the form; valid iff it is empty |
| `ComplaintPage.ComplaintForm.HandleSubmit` | src/complaintpage.jsx:85-89 | errors are revalidated; submitting starts iff the form is valid |
| `ComplaintPage.ComplaintForm.CompleteSubmit` | src/complaintpage.jsx:92-103 | submitting stops, success shows and the form is exactly the initial record |
| `ComplaintPage.ComplaintForm.SubmitAnother` | src/complaintpage.jsx:140 | the success screen is closed |
| `ComplaintPage.ComplaintForm.GetCurrentLocation` | src/complaintpage.jsx:106-123 | without geolocation the location error is 'Geolocation is not supported'; the form data is never touched |
| `ComplaintPage.ComplaintForm.LocationFound` | src/complaintpage.jsx:109-114 | the formatted coordinates become the location; errors are not touched |
| `ComplaintPage.ComplaintForm.LocationFailed` | src/complaintpage.jsx:116-119 | the location error becomes 'Unable to get current location'; the form data is untouched |
| `ComplaintPage.SixthImageRefused` | src/complaintpage.jsx:56-61 | after five images, a sixth is refused with the message and five stay staged |
| `ComplaintPage.OversizedBatchRefused` | src/complaintpage.jsx:56-61 | a batch of six is refused whole: none is staged |
| `ComplaintPage.SubmitAndComplete` | src/complaintpage.jsx:48-104 | a valid complaint entered through the field and image handlers yields exactly that record; submitted and completed, it shows success and leaves the initial record |

## Left out

- The request to the text-generation service (src/Login.jsx:342-381): the prompt, the HTTP call and `JSON.parse` of the reply are outside the model. Only their outcomes are modelled: `DraftSucceeded` (the reply parses to a report), `DraftParsedToNothing` (it parses to a falsy value such as `null`, `0` or `false`) and `DraftFailed` (any exception). A reply that parses to a truthy value that is not an object with the three fields is shown by the source with missing fields. The model has no such value: `DraftSucceeded` takes a complete `Report`.
- Timers: the 1500 ms simulated latencies and the 5 s notification auto-dismiss are modelled as explicit steps, not as durations. Their ordering against other events is not constrained, except that a completion follows its start.
- Coordinate formatting (`toFixed(6)`) and the geolocation callback: `LocationFound` takes the already formatted text.
- `URL.createObjectURL`, the `Date.now()` tracking id, `document.documentElement.classList` and real `localStorage`/`matchMedia`: storage is a map field and the system preference is a parameter.
- Rendering: JSX, CSS classes, icons, the show-password toggles, the "remember me" checkbox and the strength-bar colours. These are presentation state that no rule reads.
- The complaint page's own dark-mode toggle (src/complaintpage.jsx:36-46) is not persisted and decides nothing else.
- `Header`'s `onBack` prop (src/Login.jsx:502) is never called by `Header`, which navigates to "/" instead. Navigation between pages is not modelled.
- Strings are sequences of `char`, and a Dafny `char` is a Unicode scalar value. JavaScript strings are sequences of UTF-16 code units, and `.length` counts code units. The two lengths agree on characters of the Basic Multilingual Plane. A character outside it (an emoji, say) is one element in the model and two code units in JavaScript.
- `SignUpForm.PasswordError` compares the number of Unicode characters with 8, but the source compares UTF-16 code units (src/Login.jsx:216). So a password of four emoji has length 8 in JavaScript and passes there, but the model reports it as too short.
- `SignUpForm.PasswordStrength` checks the length criterion on Unicode characters, not UTF-16 code units (src/Login.jsx:237). So a password of four emoji meets the length criterion in JavaScript but not in the model.
- src/home.jsx and src/App.jsx are not part of this model. They hold presentation, carousels and the route table.
- `LoginPage.Login.SwitchToSignup`, `SwitchToForgotPassword`, `BackToLogin` and `HandleReportSubmitted` require the screen that shows their button. `HandleSignupSuccess` has no such requirement, because its timer is not cancelled when the user leaves the sign-up form.
- `PostSignupAssistant.Assistant.HandleDraftReport` requires that no request is outstanding, because the button is disabled while loading. The source does not guard a second trigger in any other way.
- `ComplaintPage.ComplaintForm.HandleSubmit` requires that no submission is outstanding, because the submit button is disabled while submitting.
