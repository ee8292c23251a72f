# VaultBox UI logic, modelled in Dafny

VaultBox is a personal-vault web front end. Most of its React components only
draw markup. Five of them hold real decision logic, and this project models
those five and proves properties about them:

- **Password strength meter** (`PasswordStrength`). It scores a password from
  0 to 4. Length gives up to two points. Each of four character classes gives
  one point. A common word standing alone costs two points. The score is then
  clamped, and it picks a label and the colours of a four-segment bar.
- **Trusted contacts** (`TrustedContacts`). This is a list of e-mail addresses.
  Adding one passes an ordered chain of guards: the input is non-empty, then it
  has an `@` and a `.`, then it is not already listed. Removing drops every
  equal entry.
- **Login form** (`Login`). Login has two stages. A complete e-mail and
  password only reveal the verification-code input. A later submission with a
  non-empty code logs in and goes to `/dashboard`.
- **Signup form** (`Signup`). An ordered guard chain runs first: all fields
  filled, then the passwords match, then the terms are accepted. Only then
  does the user go to `/onboarding`. An inline hint flags a mismatched
  confirmation.
- **Onboarding stepper** (`Onboarding`). It walks through three steps with
  Next and Back. Next on the last step goes to the dashboard.

Each handler's visible effect is a value of `Ui.Outcome`. `toast.error` and
`toast.success` become `Error` and `Success`, `navigate(path)` becomes
`Navigate`, and a success toast followed by a navigation becomes
`SuccessAndNavigate`. A component whose handlers update state is a class with
the component's state fields. Each handler is a method whose `ensures` ties the
new state and the outcome to a pure function of the old state. The properties
are lemmas about those functions. For the login form and the stepper, they also
cover whole sequences of user interactions (`Login.Run`, `Onboarding.Run`).

The `/i` flag of the common-word pattern matches letters case-insensitively.
Without the `u` flag, only ASCII letters can case-match the pattern's ASCII
characters, so `FoldCase` folds `A`-`Z` only. `\b` uses the word characters
`[A-Za-z0-9_]`.

## Model

| member | source | states |
|---|---|---|
| `PasswordStrength.LengthPoints` | src/components/auth/password-strength.tsx:18-19 | length gives 0 points below 8 characters, 1 from 8 to 11, 2 from 12 on |
| `PasswordStrength.ClassPoints` | src/components/auth/password-strength.tsx:22-25 | at most 4 class points; 4 exactly when upper, lower, digit and other characters all occur; 0 exactly for the empty password |
| `PasswordStrength.FoldCase` | src/components/auth/password-strength.tsx:28 | the `i` flag maps an ASCII capital to its lower-case partner (code point + 32) and leaves every other character alone |
| `PasswordStrength.WordBoundary` | src/components/auth/password-strength.tsx:28 | `\b` at either end of the string holds exactly when the end character is a word character; inside, it needs a word character on one side |
| `PasswordStrength.MatchesAt` | src/components/auth/password-strength.tsx:28 | a match lies inside the string; each lower-case letter of the word matches itself or its capital, and each non-letter only itself |
| `PasswordStrength.WholeWordAt` | src/components/auth/password-strength.tsx:28 | a whole-word match of a word made of word characters is neither preceded nor followed by a word character |
| `PasswordStrength.HasCommonWord` | src/components/auth/password-strength.tsx:28 | a password the pattern matches has at least five characters, the length of "admin" |
| `PasswordStrength.RawScore` | src/components/auth/password-strength.tsx:15-28 | the unclamped score lies in -2..6 |
| `PasswordStrength.Max` | src/components/auth/password-strength.tsx:31 | `Math.max` is the larger of its arguments |
| `PasswordStrength.Min` | src/components/auth/password-strength.tsx:31 | `Math.min` is the smaller of its arguments |
| `PasswordStrength.Clamp` | src/components/auth/password-strength.tsx:31 | the result is in 0..4, equals the score inside that range, 0 below it and 4 above it |
| `PasswordStrength.Strength` | src/components/auth/password-strength.tsx:13-31 | the final strength is an integer in 0..4 |
| `PasswordStrength.Message` | src/components/auth/password-strength.tsx:35-43 | the label is one of the five messages |
| `PasswordStrength.Meter.constructor` | src/components/auth/password-strength.tsx:10-11 | strength starts at 0 and the message empty |
| `PasswordStrength.Meter.Recalculate` | src/components/auth/password-strength.tsx:13-45 | the accumulator effect leaves `strength == Strength(password)` in 0..4 and `message == messages[strength]` |
| `PasswordStrength.Segment` | src/components/auth/password-strength.tsx:51-63 | segment i is coloured exactly when i < strength, muted exactly when not coloured, and each colour only on its own segment |
| `PasswordStrength.LabelColour` | src/components/auth/password-strength.tsx:69-76 | for a strength in 0..4 exactly one label colour is set |
| `PasswordStrength.StrengthIndexesMessages` | src/components/auth/password-strength.tsx:31-43 | the strength is always a valid index into the five messages |
| `PasswordStrength.EmptyIsVeryWeak` | src/components/auth/password-strength.tsx:15-68 | the empty password scores 0 and reads "Very weak", and its label is not drawn |
| `PasswordStrength.ClassCountsOnce` | src/components/auth/password-strength.tsx:22-25 | appending a character adds at most one class point, and none when its class is already present |
| `PasswordStrength.PenaltyIsTwo` | src/components/auth/password-strength.tsx:28 | a whole-word common word lowers the raw score by exactly 2 before clamping, and its absence costs nothing |
| `PasswordStrength.PasswordIsVeryWeak` | src/components/auth/password-strength.tsx:18-31 | "password" matches the pattern and scores 1 + 1 - 2 = 0, "Very weak" |
| `PasswordStrength.WordCharIgnoresCase` | src/components/auth/password-strength.tsx:28 | two characters that fold alike are both word characters or both not |
| `PasswordStrength.WholeWordIgnoresCase` | src/components/auth/password-strength.tsx:28 | a whole-word match survives changing the case of any letters of the password |
| `PasswordStrength.CommonWordIgnoresCase` | src/components/auth/password-strength.tsx:28 | two passwords equal up to ASCII letter case are penalised alike |
| `PasswordStrength.UpperCaseIsPenalised` | src/components/auth/password-strength.tsx:28 | "PASSWORD" matches the pattern |
| `PasswordStrength.UpperCaseIsVeryWeak` | src/components/auth/password-strength.tsx:18-31 | "PASSWORD" scores 1 + 1 - 2 = 0 |
| `PasswordStrength.CommonWordNeedsBoundary` | src/components/auth/password-strength.tsx:28 | "Password123!" is not penalised, because no word boundary follows "Password", so it scores 4 |
| `PasswordStrength.AllClassesLongIsVeryStrong` | src/components/auth/password-strength.tsx:18-43 | 12 or more characters with all four classes and no common word score 4, "Very strong" |
| `PasswordStrength.BarMatchesStrength` | src/components/auth/password-strength.tsx:51-78 | each segment is either coloured (i < strength) or muted, never both, and the label takes the colour of the highest coloured segment |
| `TrustedContacts.LooksLikeEmail` | src/components/trusted-contacts/TrustedContactsView.tsx:29 | an address passing the format check has at least two characters |
| `TrustedContacts.ContactsValid` | src/components/trusted-contacts/TrustedContactsView.tsx:20-39 | a list kept by the guards holds no empty entry, and every entry would be refused as a duplicate |
| `TrustedContacts.AddCheck` | src/components/trusted-contacts/TrustedContactsView.tsx:23-37 | the add passes exactly when the input is non-empty, contains `@` and `.`, and is not already listed; otherwise the error is that of the first failing guard, in the order empty, format, duplicate |
| `TrustedContacts.Without` | src/components/trusted-contacts/TrustedContactsView.tsx:45 | the filtered list is never longer than the original |
| `TrustedContacts.TrustedContactsView.constructor` | src/components/trusted-contacts/TrustedContactsView.tsx:19-20 | the page starts with an empty input and the one initial contact, satisfying the list invariant |
| `TrustedContacts.TrustedContactsView.SetEmail` | src/components/trusted-contacts/TrustedContactsView.tsx:77 | typing replaces the input and leaves the list alone |
| `TrustedContacts.TrustedContactsView.AddContact` | src/components/trusted-contacts/TrustedContactsView.tsx:23-42 | a failed guard reports its error and changes neither list nor input; a passed one appends the input at the end, clears the input and reports success; the invariant is kept |
| `TrustedContacts.TrustedContactsView.RemoveContact` | src/components/trusted-contacts/TrustedContactsView.tsx:44-47 | the list becomes the list without every entry equal to the argument; the input is untouched; the invariant is kept, and under it removing a listed contact shrinks the list by exactly one |
| `TrustedContacts.InitialValid` | src/components/trusted-contacts/TrustedContactsView.tsx:20 | the initial list is duplicate-free and its entry contains `@` and `.` |
| `TrustedContacts.AddKeepsValid` | src/components/trusted-contacts/TrustedContactsView.tsx:29-39 | a guarded add keeps the list duplicate-free and well-formed, grows it by one, puts the address last and keeps earlier entries in place |
| `TrustedContacts.WithoutMembers` | src/components/trusted-contacts/TrustedContactsView.tsx:45 | an address survives removal of x exactly when it was listed and differs from x |
| `TrustedContacts.WithoutConcat` | src/components/trusted-contacts/TrustedContactsView.tsx:45 | removal distributes over concatenation, so survivors keep their order |
| `TrustedContacts.WithoutAbsent` | src/components/trusted-contacts/TrustedContactsView.tsx:45 | removing an unlisted address leaves the list unchanged |
| `TrustedContacts.WithoutLength` | src/components/trusted-contacts/TrustedContactsView.tsx:45 | removal shrinks the list by the number of entries equal to the argument |
| `TrustedContacts.RemovePresentShrinksByOne` | src/components/trusted-contacts/TrustedContactsView.tsx:45 | in a duplicate-free list, removing a listed address shrinks it by exactly one |
| `TrustedContacts.WithoutKeepsValid` | src/components/trusted-contacts/TrustedContactsView.tsx:45 | removal keeps the list duplicate-free and well-formed |
| `Login.CredentialsDisabled` | src/components/auth/login-form.tsx:79-108 | between interactions, the e-mail and password inputs are disabled exactly in the code stage |
| `Login.CodeEditable` | src/components/auth/login-form.tsx:114-125 | between interactions, the code input is editable exactly in the code stage, and never together with the credential inputs |
| `Login.LimitCode` | src/components/auth/login-form.tsx:126 | a typed code is cut to a prefix of it that is exactly six characters long when the input is longer, and is unchanged when already short enough |
| `Login.Submit` | src/components/auth/login-form.tsx:22-58 | submission never changes the inputs; empty credentials give the credentials error and change nothing; the stage only moves forward; a first complete submission only opens the code stage; an empty code gives the code error; login to `/dashboard` happens exactly from the code stage with e-mail, password and code all non-empty; past the guard the form is never left loading |
| `Login.Step` | src/components/auth/login-form.tsx:79-168 | no interaction moves the stage back; in the code stage e-mail and password cannot change; the two link buttons go to `/forgot-password` and `/signup` at any time and change nothing; only a submission in the code stage reaches `/dashboard`; typing and the checkbox never navigate |
| `Login.Run` | src/components/auth/login-form.tsx:22-168 | a run yields one outcome per interaction, and without a submission it never changes the stage |
| `Login.LoginForm.constructor` | src/components/auth/login-form.tsx:15-20 | the form starts empty, in the credentials stage, not loading |
| `Login.LoginForm.TypeEmail` | src/components/auth/login-form.tsx:79-81 | the e-mail changes only while the input is enabled (not loading, not in the code stage) |
| `Login.LoginForm.TypePassword` | src/components/auth/login-form.tsx:106-108 | the password changes only while the input is enabled |
| `Login.LoginForm.TypeCode` | src/components/auth/login-form.tsx:114-126 | the code changes only while its input is shown and enabled, and is cut to six characters |
| `Login.LoginForm.CheckRemember` | src/components/auth/login-form.tsx:137-141 | the remember flag changes only while not loading |
| `Login.LoginForm.HandleSubmit` | src/components/auth/login-form.tsx:22-58 | the new form and the outcome are those of `Submit` on the old form |
| `Login.EmptyCredentialsChangeNothing` | src/components/auth/login-form.tsx:25-28 | an empty e-mail or password yields the credentials error with every field, `isLoading` included, unchanged |
| `Login.FirstSubmitOnlyOpensCodeStage` | src/components/auth/login-form.tsx:37-41 | the first complete submission does not log in; it sets `showTwoFactor` and clears `isLoading` |
| `Login.StepKeepsAtRest` | src/components/auth/login-form.tsx:18-20 | every interaction keeps the form idle, code-free before the code stage, and within the code length |
| `Login.RunKeepsAtRest` | src/components/auth/login-form.tsx:18-58 | the initial form is at rest and every form reached from one at rest is at rest, so `isLoading` is false whenever a handler returns |
| `Login.SecondStageIsFinal` | src/components/auth/login-form.tsx:38-108 | once in the code stage, no sequence of interactions leaves it or changes the e-mail or password |
| `Login.LoginNeedsSubmits` | src/components/auth/login-form.tsx:25-51 | a login to `/dashboard` in a run needs one submission from the code stage and two from the credentials stage |
| `Login.LoginTakesTwoSubmits` | src/components/auth/login-form.tsx:37-51 | from the freshly rendered form, any navigation to `/dashboard` is the login and is preceded by at least two submissions |
| `Login.OnlyLoginReachesDashboard` | src/components/auth/login-form.tsx:49-168 | every navigation in a run is the login to `/dashboard` or one of the two link buttons' navigations, each caused by its own button, and only the login reaches `/dashboard` |
| `Signup.SubmitOutcome` | src/components/auth/signup-form.tsx:28-61 | any empty field gives "Please fill in all fields"; a mismatch is reported exactly when all fields are filled and the passwords differ; the terms error exactly when otherwise valid and unchecked; navigation to `/onboarding` exactly when all three guards pass; every other outcome is an error |
| `Signup.MismatchHint` | src/components/auth/signup-form.tsx:139-148 | the hint is hidden while the confirmation is empty or equal to the password, and shown as soon as a typed confirmation differs |
| `Signup.SignupForm.constructor` | src/components/auth/signup-form.tsx:21-26 | the form starts empty, unchecked and not loading |
| `Signup.SignupForm.HandleSubmit` | src/components/auth/signup-form.tsx:28-61 | the outcome is `SubmitOutcome` of the inputs; the inputs never change; a rejected guard leaves `isLoading` as it was; a completed submission leaves it false |
| `Signup.EmptyFieldWins` | src/components/auth/signup-form.tsx:31-34 | with any field empty the result is the fill-in error, whatever the checkbox says |
| `Signup.GuardOrder` | src/components/auth/signup-form.tsx:31-44 | the three errors come in the order fill, match, terms, and every outcome is one of them or the onboarding navigation |
| `Signup.HintAgreesWithSubmit` | src/components/auth/signup-form.tsx:139-149 | with all fields filled, the inline hint shows exactly when a submission would report a mismatch; an empty confirmation hides it; while it shows, a submission never navigates |
| `Onboarding.AfterNext` | src/components/auth/onboarding.tsx:34-41 | below the last step, Next moves one step forward with direction 'next'; on the last step it keeps the step and navigates to `/dashboard`; the range is kept |
| `Onboarding.AfterBack` | src/components/auth/onboarding.tsx:43-48 | Back at step 0 is a no-op; otherwise it moves one step back with direction 'prev'; the range is kept |
| `Onboarding.IsLastStep` | src/components/auth/onboarding.tsx:50 | the last step is step 2, the "trusted-contacts" step |
| `Onboarding.BackDisabled` | src/components/auth/onboarding.tsx:142 | within the steps, Back is disabled exactly where clicking it would do nothing |
| `Onboarding.NextCaption` | src/components/auth/onboarding.tsx:50-147 | the forward button reads "Get Started" exactly on the last step |
| `Onboarding.IndicatorOf` | src/components/auth/onboarding.tsx:62-66 | an indicator is current, completed or upcoming exactly when its index is equal to, below or above the current step |
| `Onboarding.ShowsCheckmark` | src/components/auth/onboarding.tsx:69 | the check mark replaces the number exactly on completed indicators |
| `Onboarding.Connector` | src/components/auth/onboarding.tsx:77-81 | every indicator but the last is followed by a connector line, filled exactly after a completed step |
| `Onboarding.Panel` | src/components/auth/onboarding.tsx:94-96 | each content panel has exactly one of the shown, off-right and off-left classes |
| `Onboarding.Run` | src/components/auth/onboarding.tsx:34-48 | a run of clicks either stays on the page or navigates to `/dashboard`, and without a Next click it stays |
| `Onboarding.OnboardingView.constructor` | src/components/auth/onboarding.tsx:31-32 | the stepper starts at step 0 with direction 'next' |
| `Onboarding.OnboardingView.NextStep` | src/components/auth/onboarding.tsx:34-41 | the new state and the outcome are those of `AfterNext`; the step stays in 0..2 |
| `Onboarding.OnboardingView.PrevStep` | src/components/auth/onboarding.tsx:43-48 | the new state is that of `AfterBack`; the step stays in 0..2 |
| `Onboarding.RunStaysInRange` | src/components/auth/onboarding.tsx:31-48 | under any sequence of clicks the step stays in 0..2, and any navigation away is to `/dashboard` from the last step |
| `Onboarding.BackUndoesNext` | src/components/auth/onboarding.tsx:34-48 | Back after a Next that moved forward restores the previous step |
| `Onboarding.NextLeavesOnlyFromLastStep` | src/components/auth/onboarding.tsx:35-147 | Next leaves the page exactly on the last step, where the button reads "Get Started"; Back does nothing while it is disabled |
| `Onboarding.IndicatorsPartition` | src/components/auth/onboarding.tsx:62-96 | the check mark shows, and the connector after it is filled, exactly on completed steps; the content panel's placement agrees with the indicator |

## Left out

- The awaited `setTimeout` delays in the login and signup handlers are modelled as instantaneous and successful. Their `catch` branches ("Login failed…", "Failed to create account…") are therefore not modelled.
- React batches state updates asynchronously. Each handler is modelled as one sequential step over the state it sees on entry, so `isLoading` is never observed as true between handlers.
- The browser's own form validation is not modelled. This covers `required` on the inputs and `type="email"`, both of which could stop a submit before `handleSubmit` runs. The model runs the handler on every submit.
- `PasswordStrength.LengthPoints` counts characters, while JavaScript's `length` counts UTF-16 code units. The two differ for characters outside the Basic Multilingual Plane. Likewise `HasOther` sees such a character as one character, where the regular expression sees two code units.
- `handleSendTestNotification` (TrustedContactsView.tsx:49-51) only raises a toast with no state change, so it is left out.
- The inactivity-period input (TrustedContactsView.tsx:89-95) stores `Number(value)` with no bound check and no logic behind it, so it is left out.
- `animationDirection` is kept in the onboarding state, but the render never reads it, so nothing about animations is modelled.
- CSS class strings are reduced to the conditional flags that pick them.
- Signup's "Login" button and terms links are plain navigations or `window.open` calls with no state. Login's two link buttons are modelled as events (`Login.ForgotPassword`, `Login.CreateAccount`).
- `Login.LimitCode` takes a prefix of the whole new value. The browser's `maxLength` counts UTF-16 code units and cuts the text being inserted, so a paste into the middle of a code keeps the code's tail. The model covers typing and pasting into an empty or short code.
- `TrustedContacts.AddCheck` sees the input as typed. The page's `type="email"` input strips leading and trailing whitespace from its value, so on the page `" "` gives the empty-address error where the model gives the format error.
- Auto-lock, the emergency-access waiting period, rate limiting and second-factor lockout have no implementation in these components. Any non-empty verification code is accepted (login-form.tsx:43-51), and the model says exactly that.
- The other components are layout, theming or static markup and are not part of this model: settings, vault layout, new entry, dashboard, security, the auth page and the app router.
