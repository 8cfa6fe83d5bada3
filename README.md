# Admin frontend forms, dashboards and caches — a Dafny model

This project models the decision logic of the Welin admin frontend, a React single-page
application whose users are admins, vendors, agents and members. The modelled code is the
part that rules on data:

- the field checks of every form: add member (a four-step wizard), add user / edit user,
  add agent, add vendor, loan, and login;
- what each of those forms does with its state when a field is edited, when it is
  submitted and when the server answers;
- `formatErrorMessage` of the Tirumalla vendor dashboard, which turns a failed save into a
  notice, and that dashboard's preview / confirm / back-to-edit flow;
- the loan-protection calculator's date checks, year count and premium breakdown;
- the optimistic updates of the users query cache and their rollback (`useUserForm`);
- the member list filter of the Tirumalla admin dashboard (by agent and by date window);
- the product cards and expandable rows of the members table, and the loan section of the
  loan display;
- the price table's profit and GST arithmetic;
- the route guard.

Each source file is a Dafny module of its own. A React component becomes a `class` whose
fields are its `useState` variables, and its handlers become methods. The `ensures` of a
method tie the new state to pure functions of the old state and the inputs. The lemmas
beside those functions then state what the form promises: an error map is empty exactly
when the form may be sent, a field edit clears only that field's message, and a failed
mutation restores the cache.

Shared modules:

- `Wrappers` holds `Option` and `Result`.
- `JsString` holds the JavaScript string primitives: the `\s` set, `trim`, `includes`,
  `indexOf`, `toLowerCase`, and the `replace(/([A-Z])/g, ' $1')` spacing.
- `Patterns` gives every regular expression the forms use as a scan. The two e-mail
  expressions are proved equal to a direct reading of the expression.
- `FormState` holds the error map. A key is present once its check has run. Its note is
  `Says(message)` or `Cleared`, the blank string a handler writes on edit.
- `UserFields` holds the checks that the add-user and edit-user forms share.
- `LoanRules` holds the loan checks that the loan form and step 4 of the add-member wizard
  share.

Inputs from outside are parameters:

- the server's replies;
- the current day;
- whether a number is already registered;
- the date-preset bounds.

A JavaScript number is a `real`. A date is a whole day number. An empty input is `None`.

## Model

| member | source | states |
|---|---|---|
| JsString.Utf16Length | src/components/AddVendorForm.jsx:26-33 | `length` counts UTF-16 units: between one and two per character, and exactly one per character when none lies outside the Basic Multilingual Plane |
| JsString.TrimStartSpec | src/components/AddVendorForm.jsx:22-36 | `trimStart` removes exactly a whitespace prefix and leaves a text that does not start with whitespace |
| JsString.TrimEndSpec | src/components/AddVendorForm.jsx:22-36 | `trimEnd` removes exactly a whitespace suffix and leaves a text that does not end with whitespace |
| JsString.TrimSpec | src/components/AddVendorForm.jsx:22-36 | `trim()` gives a piece of the text with no whitespace at either end; it is empty exactly when the text is all whitespace |
| JsString.BlankIsTrimmedEmpty | src/components/UserForm/UserForm.js:88-93 | the blank test `!s.trim()` holds exactly when every character is whitespace |
| JsString.OrElse | src/hooks/useUserForm.js:59 | `x \|\| fallback`: a present, non-empty text wins; otherwise the fallback; the result is never empty when the fallback is not |
| JsString.IndexOf | src/dashboards/Tirumalla/Tirumalla.jsx:15-17 | returns the first occurrence at or after `from`, and nothing when the text does not occur |
| JsString.IncludesIff | src/dashboards/Tirumalla/Tirumalla.jsx:27-39 | `includes` holds exactly when the text occurs at some position |
| JsString.ToLower | src/dashboards/Tirumalla/Tirumalla.jsx:31 | the lower-cased text has the same length and lower-cases each character |
| JsString.SpaceBeforeCapitals | src/dashboards/Tirumalla/Tirumalla.jsx:31 | the result is longer by one per capital and never starts with a capital |
| JsString.NoCapitalsUnchanged | src/components/MembersTable.jsx:162-165 | a text without capitals is left unchanged by the spacing and by lower-casing |
| JsString.SpacingRoundTrip | src/components/withLoanDisplay.jsx:12-16 | the camelCase spacing loses nothing: removing each space that precedes a capital gives back the original |
| Patterns.PersonNameLengthInUnits | src/components/AddMemberForm.jsx:24 | `name.length >= 2` with the letters-and-spaces pattern accepts the same names whether the length is counted in characters or in UTF-16 units |
| Patterns.IndianMobileIsTenDigits | src/components/AddVendorForm.jsx:53-64 | `/^[6-9]\d{9}$/` accepts exactly the ten-digit numbers that start with 6–9 |
| Patterns.EmailScanMatches | src/components/UserForm/UserForm.js:30-33 | a text the e-mail scan accepts matches `/^[^\s@]+@[^\s@]+\.[^\s@]+$/` |
| Patterns.EmailMatchScans | src/components/UserForm/UserForm.js:30-33 | a text that matches the e-mail expression passes the scan |
| Patterns.EmailRegexIff | src/components/UserForm/UserForm.js:30-33 | the scan and the e-mail expression accept the same texts |
| Patterns.TrailingLetters | src/components/AddVendorForm.jsx:38-51 | the length of the longest all-letter suffix; the character before that suffix is not a letter |
| Patterns.VendorEmailScanMatches | src/components/AddVendorForm.jsx:38-51 | a text the vendor scan accepts matches `/^[a-zA-Z0-9._%+-]+@[a-zA-Z0-9.-]+\.[a-zA-Z]{2,}$/` |
| Patterns.VendorEmailMatchScans | src/components/AddVendorForm.jsx:38-51 | a text that matches the vendor expression passes the scan |
| Patterns.VendorEmailRegexIff | src/components/AddVendorForm.jsx:38-51 | the vendor scan and the vendor expression accept the same texts |
| FormState.ClearOnEdit | src/components/UserForm/UserForm.js:183-190 | after an edit the field's message is no longer shown; other keys and the key set are unchanged; a map showing nothing for the field is left as it was |
| FormState.ClearOnEditShown | src/components/AddUserForm/index.js:158-165 | after the edit, a key shows a message exactly when it is another key that showed one before |
| FormState.Put | src/components/AddAgentForm/index.jsx:59-83 | a failing check records its message under the key; a passing check leaves the map as it was |
| UserFields.Edit.Apply | src/components/UserForm/UserForm.js:183-190 | an edit sets the named field to the typed value and leaves every other field as it was |
| UserFields.NameProblemIff | src/components/UserForm/UserForm.js:88-93 | the name passes exactly when it is not blank and is two or more letters and spaces; an all-space name is refused as required although it matches the pattern |
| UserFields.EmailProblemIff | src/components/UserForm/UserForm.js:95-99 | the e-mail passes exactly when it matches the e-mail expression |
| UserFields.PasswordProblemIff | src/components/UserForm/UserForm.js:101-106 | the password passes exactly when it is six or more letters and digits with at least one of each |
| UserFields.MobileFormatProblemIff | src/components/UserForm/UserForm.js:108-111 | the mobile has no format problem exactly when it is ten digits |
| UserForm.FromProfile | src/components/UserForm/UserForm.js:73-83 | editing starts from the profile's name, e-mail and mobile (missing ones blank), a blank password, and the profile's role or `user` |
| UserForm.FormErrorsEmptyIff | src/components/UserForm/UserForm.js:85-136 | the error map is empty exactly when every check passes |
| UserForm.NoProblemIff | src/components/UserForm/UserForm.js:85-136 | no key has a problem exactly when the form passes |
| UserForm.UpdateIgnoresPassword | src/components/UserForm/UserForm.js:101-106 | in update mode the password never affects the errors |
| UserForm.UnchangedMobileNotChecked | src/components/UserForm/UserForm.js:112-115 | in update mode an unchanged mobile is never reported as already registered |
| UserForm.PayloadOf | src/components/UserForm/UserForm.js:141-144 | the payload omits the password exactly when updating with a blank password, and otherwise carries the form's fields |
| UserForm.Checks | src/components/UserForm/UserForm.js:85-136 | the checks build exactly the specified error map; the server is asked about the mobile exactly when it is ten digits and, in update mode, changed |
| UserForm.Dialog.constructor | src/components/UserForm/UserForm.js:59-83 | the form starts from the profile being edited, or blank, with no errors |
| UserForm.Dialog.ValidateForm | src/components/UserForm/UserForm.js:85-136 | the errors become the specified map; the result is true exactly when it is empty |
| UserForm.Dialog.Submit | src/components/UserForm/UserForm.js:138-181 | a request is sent exactly when the form passes: a create with the payload, or an update of the edited user's id |
| UserForm.Dialog.Saved | src/components/UserForm/UserForm.js:148-159 | a successful save resets the form to blank with no errors |
| UserForm.Dialog.Change | src/components/UserForm/UserForm.js:183-190 | an edit changes one field and clears only that field's message |
| AddUserForm.NoProblemIff | src/components/AddUserForm/index.js:82-129 | no key has a problem exactly when the form passes |
| AddUserForm.FormErrorsEmptyIff | src/components/AddUserForm/index.js:82-129 | the error map is empty exactly when every check passes |
| AddUserForm.CheckFailureNeverShown | src/components/AddUserForm/index.js:37-45 | the "could not check" message is never shown, because the lookup turns a failed request into "not registered" |
| AddUserForm.Checks | src/components/AddUserForm/index.js:82-129 | the checks build exactly the specified error map; the server is asked exactly when the mobile is ten digits |
| AddUserForm.Dialog.constructor | src/components/AddUserForm/index.js:71-77 | the form starts blank with role `user` and no errors |
| AddUserForm.Dialog.ValidateForm | src/components/AddUserForm/index.js:82-129 | the errors become the specified map; the result is true exactly when it is empty |
| AddUserForm.Dialog.Submit | src/components/AddUserForm/index.js:151-156 | the form's data is sent exactly when the form passes |
| AddUserForm.Dialog.Saved | src/components/AddUserForm/index.js:133-145 | success resets the form to its initial values and clears the errors |
| AddUserForm.Dialog.Change | src/components/AddUserForm/index.js:158-165 | an edit changes one field and clears only that field's message |
| AddUserForm.Dialog.Failed | src/components/AddUserForm/index.js:146-148 | the toast is never empty: the server's message, or "Failed to create user" when there is none |
| AgentForm.Blank | src/components/AddAgentForm/index.jsx:46-54 | a blank agent has empty fields and the role `agent` with the given component |
| AgentForm.Input.KeyOf | src/components/AddAgentForm/index.jsx:113-119 | each input names one of the three checked fields |
| AgentForm.Edit.Apply | src/components/AddAgentForm/index.jsx:113-119 | an edit sets its own field and never touches the role |
| AgentForm.FormErrorsEmptyIff | src/components/AddAgentForm/index.jsx:59-83 | the error map is empty exactly when every check passes |
| AgentForm.Checks | src/components/AddAgentForm/index.jsx:59-83 | the checks build exactly the specified error map |
| AgentForm.Dialog.constructor | src/components/AddAgentForm/index.jsx:46-54 | the form starts blank, with the agent role of the given component |
| AgentForm.Dialog.ValidateForm | src/components/AddAgentForm/index.jsx:59-83 | the errors become the specified map; the result is true exactly when the form passes |
| AgentForm.Dialog.Submit | src/components/AddAgentForm/index.jsx:106-111 | the agent is sent exactly when the form passes, always with the agent role of this component |
| AgentForm.Dialog.Saved | src/components/AddAgentForm/index.jsx:87-100 | success resets the form to blank with the same role and clears the errors |
| AgentForm.Dialog.Change | src/components/AddAgentForm/index.jsx:113-119 | an edit changes one field and clears only that field's message |
| AgentForm.Dialog.Failed | src/components/AddAgentForm/index.jsx:101-103 | the toast is never empty: the server's message, or "Failed to create agent" when there is none |
| VendorForm.NameProblemIff | src/components/AddVendorForm.jsx:22-36 | the name passes exactly when, trimmed, it is 2 to 50 letters and spaces |
| VendorForm.NameLengthInUnits | src/components/AddVendorForm.jsx:22-36 | the too-short and too-long messages follow the trimmed name's `length` in UTF-16 units; the letters message covers the rest of the failures; for a name without astral characters the units are the characters |
| VendorForm.EmojiNameIsNotLetters | src/components/AddVendorForm.jsx:26-33 | a single emoji is two units long, so it gets the letters-and-spaces message, not the too-short one |
| VendorForm.EmailProblemIff | src/components/AddVendorForm.jsx:38-51 | the e-mail passes exactly when, trimmed, it matches the vendor expression and is at most 100 characters; a non-empty mismatch is reported as invalid |
| VendorForm.MobileProblemIff | src/components/AddVendorForm.jsx:53-64 | the mobile passes exactly when it matches `/^[6-9]\d{9}$/`, which is the form's two tests together: ten digits, and a first digit from 6 to 9 |
| VendorForm.NoteOf | src/components/AddVendorForm.jsx:66-78 | a passing check is stored as a cleared note, a failing one as its message |
| VendorForm.FormErrors | src/components/AddVendorForm.jsx:66-78 | the error map holds all four keys, each with its own check's outcome |
| VendorForm.FormErrorsIff | src/components/AddVendorForm.jsx:66-78 | no message is shown exactly when the vendor is valid |
| VendorForm.Edit.Apply | src/components/AddVendorForm.jsx:119-131 | a name, e-mail or mobile edit stores the value in its own field and a component edit stores it in `role.componentId`, the rest of the vendor unchanged; the role stays `vendor`, and only the edited field's check can move |
| VendorForm.Dialog.constructor | src/components/AddVendorForm.jsx:10-19 | the form starts from the empty vendor with no errors |
| VendorForm.Dialog.ValidateForm | src/components/AddVendorForm.jsx:66-78 | the errors become the full map; the result is true exactly when the vendor is valid |
| VendorForm.Dialog.InputChange | src/components/AddVendorForm.jsx:119-153 | an edit re-checks only the edited field |
| VendorForm.Dialog.Submit | src/components/AddVendorForm.jsx:112-117 | the vendor is sent exactly when it is valid |
| VendorForm.Dialog.Created | src/components/AddVendorForm.jsx:85-99 | success resets the form and clears the errors |
| VendorForm.Dialog.Failed | src/components/AddVendorForm.jsx:100-109 | "Email already exists" becomes the e-mail field's message with no toast; any other failure leaves the errors and toasts the server's text or "Failed to create vendor" |
| LoanRules.LoanErrorsEmptyIff | src/components/LoanForm.jsx:40-65 | the loan errors are empty exactly when there is a type, a positive amount, both dates, and the start is not after the end |
| LoanRules.LoanErrorsAreMessages | src/components/LoanForm.jsx:40-65 | every loan error is a message, never a cleared note |
| LoanRules.StartAfterEndReported | src/components/LoanForm.jsx:52-61 | a start after the end is reported on the end date, never on the start date |
| LoanRules.SameDayPasses | src/components/LoanForm.jsx:55-61 | equal start and end dates raise no date error |
| LoanRules.NonPositiveAmountRejected | src/components/LoanForm.jsx:46-48 | a missing, zero or negative amount is reported as invalid |
| LoanRules.EditTouchesOwnMessages | src/components/LoanForm.jsx:40-77 | an edit changes no other field's check, except that a new start date can change the end date's |
| LoanForm.Checks | src/components/LoanForm.jsx:40-65 | the checks build exactly the specified loan error map |
| LoanForm.LoanDialog.constructor | src/components/LoanForm.jsx:4-9 | the form starts from the empty loan with no errors |
| LoanForm.LoanDialog.Open | src/components/LoanForm.jsx:29-38 | opening loads the given loan, or the empty one, and clears the errors |
| LoanForm.LoanDialog.ValidateForm | src/components/LoanForm.jsx:40-65 | the errors become the specified map; the result is true exactly when it is empty |
| LoanForm.LoanDialog.InputChange | src/components/LoanForm.jsx:67-77 | an edit changes one field and clears only that field's message |
| LoanForm.LoanDialog.Close | src/components/LoanForm.jsx:87-91 | closing resets the form and clears the errors |
| LoanForm.LoanDialog.Submit | src/components/LoanForm.jsx:79-85 | a valid loan is handed over and the form reset; an invalid one keeps the form and shows its errors |
| AddMemberForm.Write | src/components/AddMemberForm.jsx:289-310 | writing a field makes it read back the new value and leaves every other field, the birth date and the loan as they were |
| AddMemberForm.WriteReadIdentity | src/components/AddMemberForm.jsx:289-310 | writing back a field's own value changes nothing |
| AddMemberForm.Edit.Apply | src/components/AddMemberForm.jsx:289-310 | a personal, address or nominee edit never touches the loan |
| AddMemberForm.Ceil | src/components/AddMemberForm.jsx:177 | `Math.ceil`: the least integer not below the value |
| AddMemberForm.DurationYears | src/components/AddMemberForm.jsx:177 | the least whole number of 365-day years covering the loan |
| AddMemberForm.GstOf | src/components/AddMemberForm.jsx:128 | the GST is 18% of the premium, rounded up |
| AddMemberForm.TestLoanIsFiveYears | src/components/AddMemberForm.jsx:60-61 | the test loan's dates span five years |
| AddMemberForm.WithQuote | src/components/AddMemberForm.jsx:125-148 | a quote fills the base premium, the GST (18%, rounded up), the total and the duration, and keeps the loan's inputs |
| AddMemberForm.Unquoted | src/components/AddMemberForm.jsx:333-344 | the derived premium fields are cleared and the inputs kept |
| AddMemberForm.StepErrorsAreMessages | src/components/AddMemberForm.jsx:185-280 | every error a step reports is a message |
| AddMemberForm.StepFourIsLoanPlusPremium | src/components/AddMemberForm.jsx:247-275 | step 4 reports exactly the loan errors, plus a premium error exactly when the quote is incomplete |
| AddMemberForm.StepErrorsEmptyIff | src/components/AddMemberForm.jsx:185-280 | a step's error map is empty exactly when the step passes |
| AddMemberForm.StepFourEmptyIff | src/components/AddMemberForm.jsx:247-275 | step 4's error map is empty exactly when the loan passes and the quote is complete |
| AddMemberForm.PassingStepIsEmpty | src/components/AddMemberForm.jsx:189-245 | a passing step 1, 2 or 3 reports nothing |
| AddMemberForm.FailingStepIsNotEmpty | src/components/AddMemberForm.jsx:189-245 | a failing step 1, 2 or 3 reports at least one error |
| AddMemberForm.ZeroPremiumNeverPasses | src/components/AddMemberForm.jsx:267-274 | a zero premium, GST, total or duration is treated as missing and blocks step 4 |
| AddMemberForm.SameDayLoanNeverCompletes | src/components/AddMemberForm.jsx:267-274 | a loan that starts and ends on the same day passes the date checks, but its quote has zero years, so step 4 never passes |
| AddMemberForm.CollectedIsStepMap | src/components/AddMemberForm.jsx:185-280 | running a step's checks in order gives the map of every failing key to its message |
| AddMemberForm.PersonalChecks | src/components/AddMemberForm.jsx:189-213 | step 1's checks build exactly step 1's specified error map |
| AddMemberForm.AddressChecks | src/components/AddMemberForm.jsx:215-231 | step 2's checks build exactly step 2's specified error map |
| AddMemberForm.NomineeChecks | src/components/AddMemberForm.jsx:233-245 | step 3's checks build exactly step 3's specified error map |
| AddMemberForm.LoanChecks | src/components/AddMemberForm.jsx:247-275 | step 4's checks build exactly step 4's specified error map |
| AddMemberForm.Wizard.constructor | src/components/AddMemberForm.jsx:65-89 | the wizard starts on step 1 with the empty form, no errors and no quote pending |
| AddMemberForm.Wizard.Progress | src/components/AddMemberForm.jsx:391-395 | progress is (step − 1) quarters of 100, between 0 and 75 |
| AddMemberForm.Wizard.Open | src/components/AddMemberForm.jsx:151-160 | opening loads the given member, else the test draft when `useTestData` is "true", else the empty form; errors are cleared |
| AddMemberForm.Wizard.ValidateStep | src/components/AddMemberForm.jsx:185-280 | the errors become the step's map; the result is true exactly when the step passes and the map is empty |
| AddMemberForm.Wizard.Next | src/components/AddMemberForm.jsx:361-369 | the wizard advances one step exactly when the current step passes and is not the last |
| AddMemberForm.Wizard.Previous | src/components/AddMemberForm.jsx:371-373 | the wizard goes back one step |
| AddMemberForm.Wizard.Close | src/components/AddMemberForm.jsx:282-287 | closing returns to step 1 with the empty form and no errors |
| AddMemberForm.Wizard.Submit | src/components/AddMemberForm.jsx:375-389 | the member is submitted exactly when on step 4 and it passes |
| AddMemberForm.Wizard.InputChange | src/components/AddMemberForm.jsx:289-310 | an edit changes one field, clears only its message and keeps the loan |
| AddMemberForm.Wizard.LoanInputChange | src/components/AddMemberForm.jsx:312-359 | a loan edit sets its field and clears the derived premium; the type edit keeps the errors, the others clear their own |
| AddMemberForm.Wizard.CalculatePremium | src/components/AddMemberForm.jsx:162-183 | with amount and both dates the quote is requested for those inputs; otherwise the premium error asks to fill the loan first |
| AddMemberForm.Wizard.ApplyQuote | src/components/AddMemberForm.jsx:125-148 | a reply fills the premium fields for the requested year and clears the premium error, whatever the inputs are now |
| AddMemberForm.Wizard.ApplyQuoteIfCurrent | src/components/AddMemberForm.jsx:125-148 | a reply is applied only when it was requested for the current inputs, and the form is then current whatever it was before; otherwise nothing changes |
| AddMemberForm.StaleQuoteScenario | src/components/AddMemberForm.jsx:125-148 | a quote for 100000 applied after the amount became 200000 lets step 4 pass with a premium for the wrong amount |
| AddMemberForm.StaleQuoteRefused | src/components/AddMemberForm.jsx:125-148 | with the corrected effect the same late quote is refused: the premium stays empty and step 4 does not pass |
| LoanCalculator.LoanPeriod | src/components/LoanProtectionCalculator.jsx:34-40 | the least whole number of 365-day years, at least one, covering the gap between the dates |
| LoanCalculator.LoanPeriodSymmetric | src/components/LoanProtectionCalculator.jsx:34-40 | the period does not depend on which date comes first |
| LoanCalculator.LoanPeriodIsLeast | src/components/LoanProtectionCalculator.jsx:34-40 | no smaller whole number of years covers the gap |
| LoanCalculator.DateCheck | src/components/LoanProtectionCalculator.jsx:42-73 | the dates pass exactly when both are given, the start is not in the past, and the end is after the start; the one-year minimum never fires |
| LoanCalculator.DateCheckOrder | src/components/LoanProtectionCalculator.jsx:42-73 | which date problem is reported first: missing dates, then a past start, then an end not after the start |
| LoanCalculator.Plan | src/components/LoanProtectionCalculator.jsx:76-92 | a query is sent exactly when a member and an amount are chosen and the dates pass, with that amount and the loan period |
| LoanCalculator.Details | src/components/LoanProtectionCalculator.jsx:93-107 | the reply's amounts and period are kept; the GST is one twentieth of the base; the total is base plus GST |
| LoanCalculator.TotalIsBasePlusFivePercent | src/components/LoanProtectionCalculator.jsx:93-107 | the total premium is 105% of the base premium |
| LoanCalculator.ErrorToast | src/components/LoanProtectionCalculator.jsx:108-113 | the server's message when there is one, else the generic calculation error |
| LoanCalculator.Calculator.constructor | src/components/LoanProtectionCalculator.jsx:9-13 | no member, amount or dates are chosen and no premium is shown |
| LoanCalculator.Calculator.Calculate | src/components/LoanProtectionCalculator.jsx:42-113 | a refused plan toasts its date problem and a failure; a sent plan shows the reply's details, or toasts the error and keeps the old details |
| LoanCalculator.PressedRefusalIsADateProblem | src/components/LoanProtectionCalculator.jsx:189-197 | with every field filled, the only refusals are a past start and an end not after the start |
| UserCache.Appended | src/hooks/useUserForm.js:23-35 | the new user is added at the end with a temporary id, after the old users unchanged |
| UserCache.MergedById | src/hooks/useUserForm.js:82-95 | users with the id get the new fields merged over theirs; all others are unchanged |
| UserCache.WithActive | src/hooks/useUserForm.js:127-138 | users with the id get the new active flag; all others are unchanged |
| UserCache.FindUser | src/hooks/useUserForm.js:142 | the first user with the id, and nothing exactly when none has it |
| UserCache.Adjusted | src/hooks/useUserForm.js:140-157 | only the counter of the user's own role, `user` or `vendor`, moves by the delta; a missing counter counts as 0 |
| UserCache.CreatedCounts | src/hooks/useUserForm.js:38-47 | creating a user adds one to the active users, whatever the role |
| UserCache.MergeIdempotent | src/hooks/useUserForm.js:82-95 | applying the same update twice is the same as once |
| UserCache.LastActivationWins | src/hooks/useUserForm.js:127-138 | of two toggles of the same user, the last decides |
| UserCache.ActivateThenDeactivate | src/hooks/useUserForm.js:140-224 | activating then deactivating restores the counters, except that a missing counter becomes 0 |
| UserCache.DeactivateCanGoNegative | src/hooks/useUserForm.js:207-224 | deactivating a user takes one from whatever active-user count is cached (a missing one read as 0), with no floor at zero, and leaves the vendor count alone |
| UserCache.MobileExists | src/hooks/useUserForm.js:247-255 | a number counts as registered exactly when the lookup succeeds and says so; a failed lookup counts as not registered |
| UserCache.FailureToast | src/hooks/useUserForm.js:51-60 | the server's message, or the mutation's own fallback text |
| UserCache.QueryCache.constructor | src/hooks/useUserForm.js:19-20 | the cache holds the given users, counts and vendors |
| UserCache.QueryCache.CreateMutate | src/hooks/useUserForm.js:13-50 | saves the users and counts, appends the new user and adds one active user |
| UserCache.QueryCache.UpdateMutate | src/hooks/useUserForm.js:73-98 | saves the users and merges the update into the user with the id |
| UserCache.QueryCache.ToggleMutate | src/hooks/useUserForm.js:118-160 | saves all three queries, sets the flag, and moves the counter of the role of the user found before the change |
| UserCache.QueryCache.Rollback | src/hooks/useUserForm.js:51-60 | each query with a saved value gets it back; the others keep theirs |
| UserCache.FailedCreateRestores | src/hooks/useUserForm.js:13-60 | a failed create leaves the cache exactly as it was |
| UserCache.FailedUpdateRestores | src/hooks/useUserForm.js:73-105 | a failed update leaves the cache exactly as it was |
| UserCache.FailedToggleRestores | src/hooks/useUserForm.js:118-172 | a failed activation leaves the cache exactly as it was |
| Tirumalla.DupKeyIndex | src/dashboards/Tirumalla/Tirumalla.jsx:28 | the first position at or after `from` where the duplicate-key pattern matches, or nothing when it matches nowhere |
| Tirumalla.MatchAtSound | src/dashboards/Tirumalla/Tirumalla.jsx:28 | a match the scan finds is a match of `/dup key: { ([^:]+): "([^"]+)" }/` |
| Tirumalla.MatchAtComplete | src/dashboards/Tirumalla/Tirumalla.jsx:28 | every match of the pattern at a position is found there |
| Tirumalla.MatchAtIff | src/dashboards/Tirumalla/Tirumalla.jsx:28 | the scan at a position finds a key exactly when the pattern matches it there |
| Tirumalla.FindDupKeyIsLeftmost | src/dashboards/Tirumalla/Tirumalla.jsx:28 | the key found is the leftmost match; nothing is found exactly when nothing matches |
| Tirumalla.ClassifyMessage | src/dashboards/Tirumalla/Tirumalla.jsx:27-47 | a server message is never turned into the save-failed fallback; a raw notice is the message itself |
| Tirumalla.FormatErrorMessage | src/dashboards/Tirumalla/Tirumalla.jsx:13-48 | the notice is never the save-failed fallback; shown verbatim only when the body carries that message |
| Tirumalla.NoMessageIsUnexpected | src/dashboards/Tirumalla/Tirumalla.jsx:15-22 | an HTML text body is a server error, any other text or a missing message is unexpected |
| Tirumalla.DuplicateNamesLeftmostKey | src/dashboards/Tirumalla/Tirumalla.jsx:27-34 | a duplicate-key message names the leftmost key's field, spaced and lower-cased, and its value |
| Tirumalla.KeywordPrecedence | src/dashboards/Tirumalla/Tirumalla.jsx:37-47 | without a duplicate key, "validation failed" wins over "TypeError", and otherwise the message is shown as it is |
| Tirumalla.FormatErrorMessageAsWritten | src/dashboards/Tirumalla/Tirumalla.jsx:13-48 | as written the function throws exactly on an object body |
| Tirumalla.AsWrittenAgreesOffRecords | src/dashboards/Tirumalla/Tirumalla.jsx:13-22 | off object bodies the code as written and the corrected one agree |
| Tirumalla.ValidationReplyThrows | src/dashboards/Tirumalla/Tirumalla.jsx:15 | a validation-failed reply throws as written, where the corrected version asks to check the input |
| Tirumalla.Dashboard.constructor | src/dashboards/Tirumalla/Tirumalla.jsx:51-58 | the dashboard starts with the modal closed and no messages, preview or form data |
| Tirumalla.Dashboard.Show | src/dashboards/Tirumalla/Tirumalla.jsx:71-77 | opening the modal clears the messages, the preview and the form data |
| Tirumalla.Dashboard.Hide | src/dashboards/Tirumalla/Tirumalla.jsx:79-83 | closing the modal drops the preview and the form data |
| Tirumalla.Dashboard.FormSubmit | src/dashboards/Tirumalla/Tirumalla.jsx:85-92 | a finished member is kept and previewed, and the modal closes |
| Tirumalla.Dashboard.ConfirmSubmit | src/dashboards/Tirumalla/Tirumalla.jsx:94-116 | the previewed member is sent; success shows its name, phone, e-mail and Welin id and clears the preview; a failure keeps the preview; the handler throws exactly on an object error body and then leaves the alert as it was, and otherwise shows the notice `formatErrorMessage` returns as written |
| Tirumalla.Dashboard.ConfirmSubmitCorrected | src/dashboards/Tirumalla/Tirumalla.jsx:94-116 | the same handler over the corrected classifier: every failure shows its notice and keeps the preview |
| Tirumalla.ValidationReplyAtConfirm | src/dashboards/Tirumalla/Tirumalla.jsx:111-115 | a save refused with `{ message: "validation failed" }` leaves the alert empty as written, and asks to check the input once corrected |
| Tirumalla.Dashboard.BackToEdit | src/dashboards/Tirumalla/Tirumalla.jsx:118-122 | going back reopens the modal without the preview or the error |
| Tirumalla.Dashboard.DismissError | src/dashboards/Tirumalla/Tirumalla.jsx:146 | dismissing the alert clears the error |
| Tirumalla.BackToEditRoundTrip | src/dashboards/Tirumalla/Tirumalla.jsx:234-241 | after preview and back-to-edit, the wizard reopens on the same member with no errors |
| MemberFilter.CustomBounds | src/dashboards/Tirumalla/TirumallaAdmin.jsx:119-124 | a custom window runs from the start day's first millisecond to the end day's last |
| MemberFilter.Keep | src/dashboards/Tirumalla/TirumallaAdmin.jsx:95-99 | `filter`: keeps exactly the members satisfying the test, never more than given |
| MemberFilter.KeepIsSubsequence | src/dashboards/Tirumalla/TirumallaAdmin.jsx:95-99 | filtering keeps the members in their order |
| MemberFilter.KeepKeep | src/dashboards/Tirumalla/TirumallaAdmin.jsx:95-132 | filtering by agent and then by date is filtering by both tests at once |
| MemberFilter.MembersQuery | src/dashboards/Tirumalla/TirumallaAdmin.jsx:88-138 | the query's result is the fetched members listed by the view, in their order |
| MemberFilter.NoFilterKeepsAll | src/dashboards/Tirumalla/TirumallaAdmin.jsx:95-102 | with no agent and the `all` filter every fetched member is shown |
| MemberFilter.CustomWithoutDatesIsEmpty | src/dashboards/Tirumalla/TirumallaAdmin.jsx:119-124 | a custom filter missing either date shows nobody |
| MemberFilter.UnknownFilterIgnoresDates | src/dashboards/Tirumalla/TirumallaAdmin.jsx:125-126 | an unknown filter value shows what `all` shows |
| MemberFilter.CustomWindowInclusive | src/dashboards/Tirumalla/TirumallaAdmin.jsx:119-132 | a custom window lists a member of the chosen agent exactly when it was created on a day from the start day to the end day |
| MemberFilter.Dashboard.constructor | src/dashboards/Tirumalla/TirumallaAdmin.jsx:74-78 | no agent, the `all` filter and no dates |
| MemberFilter.Dashboard.Members | src/dashboards/Tirumalla/TirumallaAdmin.jsx:88-138 | a member is shown exactly when it was fetched and the current view lists it |
| MemberFilter.Dashboard.SelectAgent | src/dashboards/Tirumalla/TirumallaAdmin.jsx:144-146 | the chosen agent becomes the filter |
| MemberFilter.Dashboard.ChangeDateFilter | src/dashboards/Tirumalla/TirumallaAdmin.jsx:148-154 | the filter changes; any choice but custom also clears both dates |
| MemberFilter.Dashboard.SetDates | src/dashboards/Tirumalla/TirumallaAdmin.jsx:216-229 | the custom dates become the ones typed |
| MembersTable.FormatProductType | src/components/MembersTable.jsx:162-165 | a missing type shows "-"; otherwise each capital gains a space before it and all is lower case |
| MembersTable.LowerCaseTypeUnchanged | src/components/MembersTable.jsx:162-165 | a type without capitals is shown as it is |
| MembersTable.BadgeColours | src/components/MembersTable.jsx:103-122 | green for active, yellow for pending, grey for anything else |
| MembersTable.BadgeColoursDistinct | src/components/MembersTable.jsx:103-122 | active and pending each have colours no other status shares |
| MembersTable.BadgeLabel | src/components/MembersTable.jsx:411-413 | the status, or "N/A" when there is none |
| MembersTable.DetailsOf | src/components/MembersTable.jsx:391-403 | a loan-cover product gets its own details view; any other shows its formatted type |
| MembersTable.ActionsFor | src/components/MembersTable.jsx:331-352 | only an admin gets actions, and "Add Payment" is offered exactly when the payment is neither completed nor paid |
| MembersTable.CardOf | src/components/MembersTable.jsx:405-422 | a card shows the formatted type, the badge, the actions and the details of its product |
| MembersTable.PanelOf | src/components/MembersTable.jsx:383-422 | loading first, then "no products", otherwise one card per product in order |
| MembersTable.CardsOf | src/components/MembersTable.jsx:405-422 | one card per product, in order |
| MembersTable.ProductActions.constructor | src/components/MembersTable.jsx:328-329 | menu and payment modal start hidden |
| MembersTable.ProductActions.ToggleMenu | src/components/MembersTable.jsx:339 | the button flips the menu |
| MembersTable.ProductActions.ChooseAddPayment | src/components/MembersTable.jsx:344-352 | "Add Payment" opens the payment modal and closes the menu |
| MembersTable.ProductActions.HidePaymentModal | src/components/MembersTable.jsx:359 | hiding closes the payment modal |
| MembersTable.Toggled | src/components/MembersTable.jsx:453-456 | toggling flips one row's expansion and leaves the others |
| MembersTable.ToggleTwice | src/components/MembersTable.jsx:453-456 | toggling twice restores every row's expansion; the map itself returns unless the row was never toggled, which then holds false |
| MembersTable.Table.constructor | src/components/MembersTable.jsx:427 | no row starts expanded |
| MembersTable.Table.Toggle | src/components/MembersTable.jsx:447-456 | one row's expansion flips and every other row's stays |
| LoanDisplay.FormatLoanType | src/components/withLoanDisplay.jsx:12-16 | empty stays empty; otherwise the first letter is capitalised and each later capital gains a space |
| LoanDisplay.FormatLoanTypeRoundTrip | src/components/withLoanDisplay.jsx:12-16 | the loan type after its first letter can be recovered from the label |
| LoanDisplay.LoanTypeLines | src/components/withLoanDisplay.jsx:31-36 | one label per loan, in order |
| LoanDisplay.LoanSection | src/components/withLoanDisplay.jsx:21-24 | the section appears exactly when there are loans, with one line per loan, in order, each the loan's formatted type |
| PriceTable.JsRound | src/utils/Table.jsx:59 | `Math.round`: the nearest integer, halves upward |
| PriceTable.RoundOfInteger | src/utils/Table.jsx:59 | rounding a whole number gives it back |
| PriceTable.PriceRow | src/utils/Table.jsx:57-75 | the total is the rounded premium plus the profit; the GST is the rounded 5% of the total; the final price is the total plus the GST |
| PriceTable.PriceRows | src/utils/Table.jsx:57-75 | one row per item, in order |
| PriceTable.ProfitEndpoints | src/utils/Table.jsx:57-75 | at 0% profit the total is the rounded premium, at 100% twice that |
| PriceTable.PricesGrow | src/utils/Table.jsx:57-75 | with a non-negative premium and profit the total is at least the rounded premium and the final price at least the total |
| PriceTable.Table.constructor | src/utils/Table.jsx:50-55 | the table holds the given items at 100% profit |
| PriceTable.Table.SetData | src/utils/Table.jsx:53-55 | new data replaces the items and resets the profit to 100% |
| PriceTable.Table.SetPercentage | src/utils/Table.jsx:77-79 | the profit becomes the chosen one and the rows are recomputed |
| PriceTable.Table.Rendered | src/utils/Table.jsx:81-108 | no table without data; otherwise one priced row per item |
| Login.Endpoint | src/pages/Login.jsx:117-118 | the member endpoint exactly on the member tab |
| Login.PreCheck | src/pages/Login.jsx:105-113 | empty fields, then a bad e-mail, are refused with their toast; otherwise the credentials are built, and the tab's endpoint is put into them |
| Login.SentEmailMatches | src/pages/Login.jsx:97-100 | an e-mail that is sent matches the e-mail expression |
| Login.FailureToast | src/pages/Login.jsx:121 | the thrown error's own message, or "Login failed" when it has none |
| Login.Page.constructor | src/pages/Login.jsx:91-94 | empty fields, not loading, on the vendor tab |
| Login.Page.SelectTab | src/pages/Login.jsx:138-149 | the chosen tab becomes active |
| Login.Page.Submit | src/pages/Login.jsx:102-125 | a refused form toasts and sends nothing; an accepted one calls `login` with the credentials under the loading flag, clears the flag afterwards, and toasts the error's message when the call rejects |
| Login.Page.KeyDown | src/pages/Login.jsx:127-131 | Enter submits; any other key does nothing |
| PrivateRoute.Guard | src/components/PrivateRoute.jsx:5-25 | loading shows the loading screen; no user goes to login; another role goes to its own dashboard; the children render exactly for the right role |
| PrivateRoute.RedirectLeavesRoute | src/components/PrivateRoute.jsx:20-22 | a refused user is never redirected to the route they were refused |

## Left out

- Numbers are exact reals. Floating-point rounding, `NaN` from `parseFloat` on a non-number, and `Infinity` are not modelled.
- Case mapping (`toLowerCase`, `toUpperCase`) covers ASCII letters only.
- Dates are whole day numbers in UTC, and "today" is a parameter. Time zones are not modelled. The date-fns windows for today, this week and this month are passed in as bounds, not computed.
- The react-query lifecycle is not modelled: cancelling, invalidating and refetching queries, `isPending`, retries and the network. Server replies are parameters. Each mutation is split into its `onMutate` step and its `onSuccess` / `onError` step.
- Toasts are returned as values, not displayed.
- The auth context (`useAuth`) is not modelled. The user is a parameter. The context never supplies `loading`.
- AddMemberForm.Wizard.LoanInputChange: the final else-branch of `handleLoanInputChange` (src/components/AddMemberForm.jsx:345-352) cannot be reached through the form's inputs, so it is not modelled.
- PriceTable.Table.SetPercentage: the two effects of the price table are merged into one step. The render between them, with stale rows, is not modelled. The percentage is a number, not the string the input yields.
- Tirumalla.FormatErrorMessage: a body that is a JSON array is modelled as a record.
- AddUserForm.Dialog.ValidateForm: the `isCheckingMobile` flag around the awaited lookup is modelled as one synchronous step.
- UserForm.Dialog.ValidateForm: the same holds for this form's `isCheckingMobile` flag.
- Login.Page.Submit: the auth context's `login` ignores `endpoint` (it always posts to `/auth/login`) and never rejects, because it only starts the request. The `Err` outcome and "loading while waiting" model what the login page assumes of `login`, not what the context provides. In the application the flag drops before the reply arrives, and failures reach the user through the context's own toasts, which are not modelled.
- Login.Page.SelectTab: each tab is a button without a `type` inside the form, so a click also submits the form. Once the browser's own check of the required e-mail input passes, that submit runs `handleSubmit` as well. The model only changes the active tab, and the browser's input validation is not modelled.
- Rendering and styling are not modelled: the layout, icons, the JSON dump of the product details, and the table library.
- The internals of the payment status modal are not modelled.
- The Tirumalla dashboard's switch between test data and real data is not modelled; `useTestData` is a parameter of the wizard.
- UserForm.Dialog.constructor: an update-mode form without initial data renders blank in the source, but validating it throws where `initialData.mobile` is read (src/components/UserForm/UserForm.js:114) and saving it throws where `initialData._id` is read (:163). The model rules that state out by requiring initial data in update mode.
- AddMemberForm.Wizard.Next: the contract describes the submit handler once the browser's own form checks have let the submit through. The inputs carry `required`, `type='email'` and `min` attributes, and the browser refuses a submit that breaks them before the handler runs, so an empty required field never reaches the handler's "required" message and an address such as "a@-b.co", which the forms' expressions accept, can still be refused. Those browser checks are not modelled. The Next button is `type='submit'` (src/components/AddMemberForm.jsx:873) and the inputs are those of src/components/AddMemberForm.jsx:410-758.
- AddMemberForm.Wizard.Submit: the contract describes the submit handler once the browser's own form checks (`required`, `type='email'`, `min`) have let the submit through, and those checks are not modelled. The inputs are those of src/components/AddMemberForm.jsx:410-758.
- AddUserForm.Dialog.Submit: the contract describes the submit handler once the browser's own form checks (`required`, `type='email'`, `min`) have let the submit through, and those checks are not modelled. The inputs are those of src/components/AddUserForm/index.js:176-219.
- AgentForm.Dialog.Submit: the contract describes the submit handler once the browser's own form checks (`required`, `type='email'`, `min`) have let the submit through, and those checks are not modelled. The inputs are those of src/components/AddAgentForm/index.jsx:130-148.
- UserForm.Dialog.Submit: the contract describes the submit handler once the browser's own form checks (`required`, `type='email'`, `min`) have let the submit through, and those checks are not modelled. The inputs are those of src/components/UserForm/UserForm.js:205-245.
- VendorForm.Dialog.Submit: the contract describes the submit handler once the browser's own form checks (`required`, `type='email'`, `min`) have let the submit through, and those checks are not modelled. The inputs are those of the form at src/components/AddVendorForm.jsx:182.
- LoanForm.LoanDialog.Submit: the contract describes the submit handler once the browser's own form checks (`required`, `type='email'`, `min`) have let the submit through, and those checks are not modelled. The inputs are those of src/components/LoanForm.jsx:111-170, and the amount has `min='0'` (:135).
- UserCache.QueryCache.constructor: a users query without `data.data` is modelled as a missing list.
- The vendor form's list of component choices is not modelled; the component id is a free text.

## Findings

| source | as written | input that shows it | evidently intended | confidence | as-written member | corrected member |
|---|---|---|---|---|---|---|
| src/dashboards/Tirumalla/Tirumalla.jsx:15 | `data?.includes('<!DOCTYPE html>')` is called on every non-null body, so an object body throws (`includes` is not a function) before the message is classified, and the catch block of `handleConfirmSubmit` (:111-115) rethrows without setting the alert (Tirumalla.Dashboard.ConfirmSubmit, Tirumalla.ValidationReplyAtConfirm) | a save that fails with the body `{ message: "validation failed" }` | the HTML test applies only to a text body, and object bodies reach the duplicate-key, validation and TypeError branches | not executed | Tirumalla.FormatErrorMessageAsWritten | Tirumalla.FormatErrorMessage |
| src/components/AddMemberForm.jsx:125-148 | a premium reply fills the derived premium fields without checking that it was asked for the current amount and dates | the test loan is quoted for 100000; the amount is changed to 200000 before the reply arrives; step 4 then passes with the premium for 100000 | a reply is applied only while the loan it was asked for is still the one entered | not executed | AddMemberForm.StaleQuoteScenario | AddMemberForm.Wizard.ApplyQuoteIfCurrent |
