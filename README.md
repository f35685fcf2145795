# SecurePay+ frontend logic in Dafny

SecurePay+ is a web frontend for a consumer payments product. It is built on a
hosted identity and database service. Most of the frontend renders pages and
calls that service. This project models the logic beneath it, with every answer
from the service (a user or none, an error, a returned row) taken as an input:

- **The optimistic lists.** The scheduled-payments page keeps a list of
  `schedules`, and the dashboard keeps a list of transactions `txs`. A write
  prepends a row with a `temp-…` id. That row is then either swapped for the
  stored row or filtered out when the write fails. A refresh overwrites the
  whole list.
  - The list operations are in `RowLists`: filter by id, map-replace, and count
    rows by id.
  - The pages are the classes `ScheduledPayments.SchedulesPage` and
    `Dashboard.Ledger`. Each has a method per state updater.
  - `TransactionForm.FormState.HandleSubmit` drives the dashboard's `Ledger`
    through the form's add, replace and revert callbacks, as the code is
    written. Its `onAdded` refetch is the separate step
    `Dashboard.Ledger.HandleAdded`.
- **Row normalisation.** A partial remote row becomes a closed record with
  fixed defaults: `ToScheduled`, `ToTransaction` and `RealRow`.
- **Validators and gating.**
  - The sign-up password rules, the submit checks and the button enablement.
  - The transaction-form, schedule-form and savings-goal checks.
- **Savings-goal arithmetic.** The duration floor, the amount per period, the
  weeks-to-months estimate, the amount remaining, the amount needed per month
  and per week, and the progress percentage. All of it is over exact `real`s.
- **Small string and route rules.**
  - The display-name fallback: the name, else the email prefix before `@`,
    else "".
  - The login redirect precedence, and the pending route kept in browser
    storage across the provider redirect.
  - The schedule summary wording and the avatar initial.

The modules follow the source files. `Common` holds what several files share:
`Option`, JavaScript's `||` on strings, `split("@")[0]`, `trim()`,
`Math.round`, `Math.ceil` and `toFixed(2)`. `RowLists` holds the generic list
operations.

JavaScript semantics and how the model renders them:

- `??` becomes `Option`. `||` treats "" as false.
- `Math.round(x)` is `Floor(x + 1/2)`, and `Math.ceil(x)` is `-Floor(-x)`.
- `toFixed(2)` rounds half away from zero to a whole number of cents.
- A `type="number"` input holds either nothing or a number (`BudgetGoal.NumText`).
- Where the page parses text with `Number(...)` or `parseFloat`, the parsed
  value is a parameter.

Facts about the code that the model keeps as they are:

- A refresh overwrites pending optimistic rows (`Dashboard.Ledger.FetchTransactions`).
- New rows are prepended rather than placed by sort order.
- The dashboard's replace does not collapse duplicate ids (`RowLists.CountReplace`).
  The scheduled-payments confirm does collapse them (`ScheduledPayments.ConfirmLeavesOne`).
- A missing transaction merchant becomes "Unknown".
- A missing schedule category stays null.
- A remote amount is not rounded to two decimals on normalisation.
- The profile page's fallback uses `??`, so an empty metadata name is kept.

A further consequence, not a defect: a savings-goal target below half a cent
passes the checks and is saved as 0 (`BudgetGoal.SubCentTargetSavedAsZero`).

## Model

| member | source | states |
|---|---|---|
| Common.Or | app/auth/login/page.tsx:112 | a non-empty first string is the result, otherwise the second (JavaScript's logical or on strings) |
| Common.BeforeAt | app/auth/login/page.tsx:42 | `split("@")[0]`: a prefix of the input with no `@`, ending at the first `@` or the end; empty exactly when the input is empty or starts with `@` |
| Common.NameOrEmailPrefix | app/auth/login/page.tsx:42 | the name if non-empty; otherwise the email's part before the first `@`; otherwise ""; empty exactly when the name is empty and there is no email prefix |
| Common.Trim | components/transaction-form.tsx:102 | no longer than the input; empty exactly when the input is all white space; starts and ends with non-space; a string with no surrounding white space is unchanged |
| Common.IntText | app/scheduled-payments/page.tsx:258 | a number's decimal text is non-empty, starts with a digit or `-`, and has `-` exactly for negative numbers |
| Common.DigitsRoundTrip | components/budget-goal.tsx:65 | the decimal text of a non-negative clock reading reads back as that reading |
| Common.DigitsInjective | components/budget-goal.tsx:65 | different non-negative numbers have different digit strings |
| Common.IntTextInjective | components/budget-goal.tsx:65 | different numbers, negative ones included, have different decimal texts |
| Common.Round | components/budget-goal-list.tsx:38 | `Math.round`: the integer r with r - 1/2 <= x < r + 1/2 |
| Common.Ceil | components/budget-goal-list.tsx:70 | `Math.ceil`: the integer r with r - 1 < x <= r |
| Common.Cents | components/transaction-form.tsx:117 | the cents of `toFixed(2)`: within half a cent of 100·x, with the sign of x |
| Common.Fixed2 | components/transaction-form.tsx:117 | `Number(x.toFixed(2))`: within 0.005 of x, of the same sign, and a whole number of cents |
| RowLists.Without | app/dashboard/page.tsx:178 | the filter keeps exactly the rows whose id is not removed (both directions) and is never longer |
| RowLists.Replace | app/dashboard/page.tsx:182 | the map keeps the length; each row with the id becomes the new row, every other row is unchanged |
| RowLists.WithoutAppend | app/scheduled-payments/page.tsx:220 | filtering distributes over concatenation, so the kept rows keep their relative order |
| RowLists.WithoutAbsent | app/dashboard/page.tsx:178 | filtering an id no row has changes nothing |
| RowLists.WithoutIdempotent | app/scheduled-payments/page.tsx:226 | filtering twice by the same ids equals filtering once |
| RowLists.CountWithout | app/scheduled-payments/page.tsx:220 | after the filter, no row has a removed id, and every other id keeps its number of rows |
| RowLists.CountReplace | app/dashboard/page.tsx:182 | after the map, the new row's id gains one row per replaced row and the replaced id is gone: duplicates are not collapsed |
| RowLists.ReplaceAbsent | app/dashboard/page.tsx:182 | replacing an id no row has changes nothing |
| RowLists.RevertAfterAdd | app/dashboard/page.tsx:174-178 | a revert right after a prepend, with an id the list did not hold, gives back the list exactly |
| RowLists.ReplaceAfterAdd | app/dashboard/page.tsx:174-182 | a replace right after such a prepend gives the new row in front of the untouched old list |
| ScheduledPayments.ToScheduled | app/scheduled-payments/page.tsx:28-42 | `mapRowToScheduled`: missing amount 0, currency "INR", schedule type "monthly", `active` true unless a boolean; optional columns pass through; never optimistic |
| ScheduledPayments.ToScheduledRoundTrip | app/scheduled-payments/page.tsx:28-42 | normalising the stored form of a confirmed record gives the record back |
| ScheduledPayments.ToScheduledIdempotent | app/scheduled-payments/page.tsx:28-42 | normalising a normalised row changes nothing |
| ScheduledPayments.MapRows | app/scheduled-payments/page.tsx:82-83 | the fetched list has one normalised row per remote row, in remote order |
| ScheduledPayments.IntervalText | app/scheduled-payments/page.tsx:258-260 | `interval_value ?? "—"` in a template is never empty |
| ScheduledPayments.Summary | app/scheduled-payments/page.tsx:255-262 | "Every day" for daily; weekly, monthly and custom embed the interval or "—"; any other type is returned itself |
| ScheduledPayments.SummaryMarker | app/scheduled-payments/page.tsx:257-260 | the seventh character of a known summary is determined by the type |
| ScheduledPayments.SummaryTellsTypesApart | app/scheduled-payments/page.tsx:257-260 | summaries of two different known types always differ |
| ScheduledPayments.SaveError | app/scheduled-payments/page.tsx:166-169 | the save is refused, with "Please provide payee and amount.", exactly when payee or amount is empty |
| ScheduledPayments.MakePayload | app/scheduled-payments/page.tsx:179-192 | the upsert payload: amount to the cent, empty currency becomes "INR", empty category/note/interval become null, and the id is set exactly when an edited row has one |
| ScheduledPayments.TempId | app/scheduled-payments/page.tsx:195 | the temporary id is "temp-" followed by the clock reading's decimal text |
| ScheduledPayments.TempIdsDiffer | app/scheduled-payments/page.tsx:195 | saves at different clock readings get different temporary ids |
| ScheduledPayments.OptimisticRow | app/scheduled-payments/page.tsx:195-211 | the temporary row has the temporary id, is active and optimistic, and carries the payload's owner, payee and amount |
| ScheduledPayments.ConfirmLeavesOne | app/scheduled-payments/page.tsx:232 | after a confirm the canonical row is first, exactly one row has its id, none has the temporary id, and every other id keeps its rows |
| ScheduledPayments.ConfirmCollapsesEditedRow | app/scheduled-payments/page.tsx:192-232 | confirming an edit whose id the list shows leaves one row with that id |
| ScheduledPayments.SchedulesPage.constructor | app/scheduled-payments/page.tsx:45-59 | loading, an empty list, no error, closed form, nothing edited, the empty form |
| ScheduledPayments.SchedulesPage.Prepend | app/scheduled-payments/page.tsx:212 | the row goes in front of the unchanged old list |
| ScheduledPayments.SchedulesPage.Drop | app/scheduled-payments/page.tsx:220 | the list becomes the old list without the id |
| ScheduledPayments.SchedulesPage.Confirm | app/scheduled-payments/page.tsx:232 | the list becomes the canonical row followed by the old rows with neither id |
| ScheduledPayments.SchedulesPage.FetchSchedules | app/scheduled-payments/page.tsx:62-91 | no user empties the list; a failure keeps it and sets the message or "Failed to load schedules."; a success overwrites it with the normalised rows, none optimistic; loading ends false |
| ScheduledPayments.SchedulesPage.ResetForm | app/scheduled-payments/page.tsx:132-141 | the form is empty, with "INR" and "monthly" |
| ScheduledPayments.SchedulesPage.OpenAdd | app/scheduled-payments/page.tsx:143-147 | empty form, nothing edited, form open |
| ScheduledPayments.SchedulesPage.OpenEdit | app/scheduled-payments/page.tsx:149-161 | the form shows the schedule, with a zero or missing interval as "" and missing category/note as "" |
| ScheduledPayments.SchedulesPage.SaveSchedule | app/scheduled-payments/page.tsx:164-237 | a refused or signed-out save leaves the list and form alone; otherwise the form closes, the optimistic row with id `TempId(stamp)` is prepended, and then dropped (with the error or "No row returned from upsert") or confirmed |
| ScheduledPayments.SchedulesPage.DeleteSchedule | app/scheduled-payments/page.tsx:239-253 | unconfirmed, nothing changes; the row is filtered out, and the prior list comes back exactly if the remote delete fails |
| Dashboard.ToTransaction | app/dashboard/page.tsx:86-95 | `mapRowToTransaction`: income exactly when the raw type is "income"; merchant "Unknown", category "Other", amount 0; icon the card glyph unless a non-empty string; date from `created_at` if present |
| Dashboard.MapRows | app/dashboard/page.tsx:111 | one normalised row per remote row, in remote order |
| Dashboard.BalanceAppend | app/dashboard/page.tsx:223 | the balance sum splits over concatenation |
| Dashboard.BalanceThroughWrite | app/dashboard/page.tsx:223 | the balance counts a pending optimistic row; a revert takes it out; a replace counts the canonical row instead |
| Dashboard.CalcInsights | app/dashboard/page.tsx:186-196 | `last7Days` is the seven-day sum and `avgPerDay` times 7 is `last7Days` |
| Dashboard.Last7Append | app/dashboard/page.tsx:187-193 | the seven-day sum splits over concatenation |
| Dashboard.Last7NonNegative | app/dashboard/page.tsx:193 | expenses count by absolute value, so the sum is not negative when income amounts are not |
| Dashboard.Last7IgnoresOld | app/dashboard/page.tsx:188-192 | rows outside the window or with an unparseable date add nothing |
| Dashboard.TriggersRefresh | app/dashboard/page.tsx:142-147 | a change refreshes exactly when a user is known and the record (new, else old) belongs to that user |
| Dashboard.OtherOwnersIgnored | app/dashboard/page.tsx:142-147 | a new row of another owner never refreshes, whatever the old row says |
| Dashboard.Ledger.constructor | app/dashboard/page.tsx:50-55 | empty list, not loading, no error, no user |
| Dashboard.Ledger.OptimisticAdd | app/dashboard/page.tsx:172-175 | one longer, the new row first, the old list after it |
| Dashboard.Ledger.RevertOptimistic | app/dashboard/page.tsx:177-179 | the old list without the temporary id; no row has it afterwards |
| Dashboard.Ledger.ReplaceOptimistic | app/dashboard/page.tsx:181-183 | every row with the temporary id becomes the canonical row, the rest unchanged |
| Dashboard.Ledger.FetchTransactions | app/dashboard/page.tsx:97-119 | no user id, nothing happens; a failure keeps the list with the message or "Failed to load transactions"; a success overwrites it, pending optimistic rows included |
| Dashboard.Ledger.UserLoaded | app/dashboard/page.tsx:122-132 | no user changes nothing; a user sets the id and email the page keeps; with an empty id nothing else changes; otherwise loading ends false and a failure keeps the list with the message or "Failed to load transactions", a success overwrites it with no error |
| Dashboard.Ledger.HandleAdded | app/dashboard/page.tsx:161-169 | without a user (or with an empty id) nothing changes; otherwise loading ends false and a failure keeps the list with its message, a success overwrites it with no error |
| Dashboard.Ledger.OnChange | app/dashboard/page.tsx:140-151 | refetches exactly when `TriggersRefresh` holds and otherwise changes nothing; a failed refetch keeps the list with its message, a successful one overwrites it with no error |
| TransactionForm.MakeTempId | components/transaction-form.tsx:38-43 | every temporary id starts with "temp-", followed by the UUID or by the clock and random parts |
| TransactionForm.TempIdsDiffer | components/transaction-form.tsx:38-40 | two different UUIDs give two different temporary ids |
| TransactionForm.SubmitError | components/transaction-form.tsx:102-109 | accepted exactly when the merchant is not blank and the amount is non-empty and positive; merchant message first |
| TransactionForm.OptimisticRowAsWritten | components/transaction-form.tsx:113-122 | the row as written: the temporary id, kind expense, the flag set, the form's merchant and category, the amount to the cent, and the garbled icon literal rather than the card glyph |
| TransactionForm.OptimisticRow | components/transaction-form.tsx:113-122 | the optimistic row has the temporary id, kind expense, the flag set, the form's fields and amount to the cent, and the card glyph |
| TransactionForm.OptimisticIconGarbled | components/transaction-form.tsx:119 | the two rows differ only by the icon literal |
| TransactionForm.MakeInsertPayload | components/transaction-form.tsx:146-159 | the insert sends "debit", "INR", the optimistic amount, category and merchant, and the description (or null) as both purpose and note |
| TransactionForm.RealRow | components/transaction-form.tsx:168-176 | each missing inserted column falls back to the optimistic row; the kind is kept only if "income" or "expense"; never optimistic |
| TransactionForm.DebitShownAsExpense | components/transaction-form.tsx:151-175 | a row echoing "debit" or with no kind is shown as an expense, with either optimistic row |
| TransactionForm.MissingIconStaysGarbled | components/transaction-form.tsx:119-174 | as written, a stored row without an icon inherits the garbled literal; with the corrected row it gets the card glyph |
| TransactionForm.SubmitFailure | components/transaction-form.tsx:136-193 | after the checks, the submit ends in an error exactly unless the user is signed in and the insert returned a row: the lookup error or "An unexpected error occurred.", the signed-out message, the insert error, or the TypeError of reading a missing row |
| TransactionForm.FormState.constructor | components/transaction-form.tsx:54-66 | the form starts with category "Food", other fields empty, no messages, picker closed |
| TransactionForm.FormState.HandleChange | components/transaction-form.tsx:69-76 | only the named field changes; error and success are cleared |
| TransactionForm.FormState.HandleAmountChange | components/transaction-form.tsx:79-88 | the picker is open exactly when the amount has non-blank text |
| TransactionForm.FormState.PickCategory | components/transaction-form.tsx:240-243 | the category is set and the picker closes |
| TransactionForm.FormState.ResetForm | components/transaction-form.tsx:90-95 | category "Food", every other field empty, picker closed, no messages |
| TransactionForm.FormState.FinishSuccessAsWritten | components/transaction-form.tsx:185-186 | as written, the success message is cleared by the reset right after it is set |
| TransactionForm.FormState.FinishSuccess | components/transaction-form.tsx:185-186 | with the reset first, the form is reset and the success message stays |
| TransactionForm.FormState.HandleSubmit | components/transaction-form.tsx:97-196 | as written: a refused form changes only the error; otherwise the optimistic row with the garbled icon is added, the insert payload is sent when signed in, and then the row is reverted by that same id with the `SubmitFailure` message, keeping the form and picker, or replaced by the real row with the form reset; loading ends false and the success message is always left null |
| Signup.Matches | app/auth/signup/page.tsx:27-29 | `/[lo-hi]/.test(s)` holds exactly when some character lies in the range |
| Signup.PasswordStrength | app/auth/signup/page.tsx:26-31 | the four rules: an ASCII capital, an ASCII lower-case letter, a digit, length at least 8 |
| Signup.StrongPasswordMeaning | app/auth/signup/page.tsx:26-33 | strong exactly when all four rules hold |
| Signup.ApplyChange | app/auth/signup/page.tsx:68-73 | only the named field changes; the checkbox gives `checked`, text inputs `value` |
| Signup.GateError | app/auth/signup/page.tsx:97-104 | the terms error wins over the password error; none exactly when agreed and strong |
| Signup.ButtonMatchesGate | app/auth/signup/page.tsx:265 | when not loading, the button is enabled exactly when the submit checks pass |
| Signup.MakeProfile | app/auth/signup/page.tsx:78-90 | the profile row has the id and display name; the full name is the form name, else the display name |
| Signup.SignupNames | app/auth/signup/page.tsx:122 | with a form name both names are it; without one the full name is the email prefix |
| Signup.MountRedirect | app/auth/signup/page.tsx:37-39 | a signed-in visitor is sent to "/dashboard", and only then |
| Signup.SignupPage.constructor | app/auth/signup/page.tsx:15-24 | empty form, terms unchecked, not loading, no messages |
| Signup.SignupPage.HandleChange | app/auth/signup/page.tsx:68-76 | the form becomes `ApplyChange` of the event; error and message are cleared |
| Signup.SignupPage.HandleSubmit | app/auth/signup/page.tsx:92-135 | sign-up is called exactly when the checks pass; then the error, the thrown message or "Signup failed. Try again." (with no message), a profile upsert with redirect, or the confirm-by-email message; loading ends false |
| Signup.SignupPage.HandleGoogle | app/auth/signup/page.tsx:137-151 | messages cleared; a failure shows its message or "Google sign-in failed." |
| Signup.OnAuthStateChange | app/auth/signup/page.tsx:35-66 | as written: a session upserts the profile with the display name from the metadata name or email prefix and, through the first render's empty form name, the same full name; then goes to "/dashboard" |
| Signup.OnAuthStateChangeCurrentForm | app/auth/signup/page.tsx:84 | with the current form name, the full name is that name if non-empty, else the display name |
| Signup.StaleListenerDropsFormName | app/auth/signup/page.tsx:47-84 | the listener as written equals the corrected one with an empty form name, and drops any typed name that differs from the display name ("Ann" with "ann@x.com" gives "ann") |
| Login.NextParam | app/auth/login/page.tsx:18 | "/dashboard" without a `next` query, else the query, even an empty one |
| Login.AfterLogin | app/auth/login/page.tsx:112 | `nextParam` if non-empty, else "/dashboard"; never empty |
| Login.NoQueryLandsOnDashboard | app/auth/login/page.tsx:18 | without a `next` the password login lands on "/dashboard" |
| Login.OAuthTarget | app/auth/login/page.tsx:47 | the pending route if non-empty, else `nextParam` if non-empty, else "/dashboard" |
| Login.Pending | app/auth/login/page.tsx:46 | the stored route, present exactly when the key is stored |
| Login.StoreNext | app/auth/login/page.tsx:130-132 | the route is stored only when `nextParam` is non-empty |
| Login.ConsumeNext | app/auth/login/page.tsx:50 | the key is removed and every other key is kept |
| Login.ProviderReturnsToNext | app/auth/login/page.tsx:46-131 | a provider sign-in started with a non-empty `next` returns to it; with an empty one, to an earlier stored route or "/dashboard" |
| Login.ConsumedOnce | app/auth/login/page.tsx:46-50 | once consumed, the stored route cannot steer a second sign-in event |
| Login.SignInProfile | app/auth/login/page.tsx:40-43 | the display name is the metadata name if non-empty, else the email prefix, else "" |
| Login.LoginPage.constructor | app/auth/login/page.tsx:18-24 | `nextParam` from the query; empty form, no messages, not loading |
| Login.LoginPage.MountRedirect | app/auth/login/page.tsx:28-31 | a signed-in visitor goes to `AfterLogin(nextParam)`, and only then |
| Login.LoginPage.HandleChange | app/auth/login/page.tsx:67-72 | only the named field changes; error and message cleared |
| Login.LoginPage.HandleSubmit | app/auth/login/page.tsx:86-123 | an error, the thrown message or "Login failed. Try again.", an upsert and redirect to `AfterLogin(nextParam)`, or the check-email message; loading ends false |
| Login.LoginPage.HandleGoogle | app/auth/login/page.tsx:125-144 | the route is stored per `StoreNext` before the provider call, and stays stored if that call fails |
| Login.LoginPage.OnAuthStateChange | app/auth/login/page.tsx:35-57 | a session upserts the profile, redirects to `OAuthTarget` of the stored route, and removes the stored route |
| Profile.FallbackRow | app/profile/page.tsx:59-66 | with `??`: the metadata name (even empty), else the email prefix, else null; the full name is the metadata name; the user's id and email |
| Profile.SeedForm | app/profile/page.tsx:71-79 | the demo fields become "" when missing; the email is the row's, else the signed-in email; id and names copied |
| Profile.SeedIdempotent | app/profile/page.tsx:71-79 | seeding a seeded form changes nothing |
| Profile.FallbackSeed | app/profile/page.tsx:59-79 | a form seeded from the fallback carries the user's id and email |
| Profile.Set | app/profile/page.tsx:112-114 | key k holds v afterwards; every other key is unchanged |
| Profile.SetSetSame | app/profile/page.tsx:112-114 | a later change of a key overrides an earlier one |
| Profile.SetCommutes | app/profile/page.tsx:112-114 | changes of different keys commute |
| Profile.UpsertRow | app/profile/page.tsx:130-138 | the upsert is keyed by the signed-in user's id and carries the names and demo fields, with no email column |
| Profile.UpsertIgnoresIdAndEmail | app/profile/page.tsx:130-138 | editing the form's id or email cannot change what is saved |
| Profile.Upper | app/profile/page.tsx:258 | ASCII upper-casing: never a lower-case ASCII letter; other characters unchanged |
| Profile.AvatarInitial | app/profile/page.tsx:258 | one character: "U" for a missing or empty display name, else its first character upper-cased |
| Profile.AvatarInitialStable | app/profile/page.tsx:258 | the initial of an initial is itself |
| Profile.ProfilePage.constructor | app/profile/page.tsx:22-30 | no profile, loading, not editing or saving, no messages, an empty form |
| Profile.ProfilePage.LoadProfile | app/profile/page.tsx:36-86 | no user clears profile and email; a failure sets "Failed to load profile."; a user sets the stored row or the fallback and seeds the form; loading ends false |
| Profile.ProfilePage.StartEdit | app/profile/page.tsx:88-92 | messages cleared and editing on |
| Profile.ProfilePage.CancelEdit | app/profile/page.tsx:94-110 | the form is reseeded from the profile when there is one; editing off; messages cleared |
| Profile.ProfilePage.HandleChange | app/profile/page.tsx:112-114 | the form becomes `Set` of the key and value |
| Profile.ProfilePage.SaveProfile | app/profile/page.tsx:116-158 | "Not authenticated." without a user; a failed upsert sets its message or "Save failed" and keeps editing, profile, form, email and loading; a success sets "Profile saved.", ends editing, and reloads as `LoadProfile` does on each of its paths, loading ending false; saving ends false |
| BudgetGoal.TargetNum | components/budget-goal.tsx:33 | an empty target reads as 0 |
| BudgetGoal.DurationNum | components/budget-goal.tsx:34 | never below 1; the floor of a duration of at least 1, else 1 |
| BudgetGoal.PerPeriod | components/budget-goal.tsx:37-40 | the per-period amount times the duration is the target; 0 for a zero target; positive and at most the target for a positive one |
| BudgetGoal.FriendlyUnit | components/budget-goal.tsx:42 | "month" for months, "week" for weeks |
| BudgetGoal.FriendlyUnitInjective | components/budget-goal.tsx:42 | two units read the same exactly when they are the same unit |
| BudgetGoal.PerMonthIfWeeks | components/budget-goal.tsx:43-50 | present exactly for a weekly goal with a positive amount, and then the weekly amount times 52/12 |
| BudgetGoal.Validate | components/budget-goal.tsx:52-58 | a blank name is refused first, a target not above 0 next; a duration of at least 1 passes |
| BudgetGoal.DurationCheckNeverFires | components/budget-goal.tsx:34-58 | the duration message can never appear; the form passes exactly when the name is not blank and the target is positive |
| BudgetGoal.NonEmpty | components/budget-goal.tsx:70-71 | the logical or with null: present exactly for a non-empty text |
| BudgetGoal.MakeGoal | components/budget-goal.tsx:64-73 | id "local-" and the clock; trimmed name; target to the cent; duration the floored value; empty start date and note become null |
| BudgetGoal.SavedGoalShape | components/budget-goal.tsx:52-73 | a goal that passed the checks has a non-empty name, a duration of at least 1, a non-negative whole-cent target, and a "local-" id |
| BudgetGoal.GoalIdsDiffer | components/budget-goal.tsx:65 | goals saved at different clock readings get different ids |
| BudgetGoal.SubCentTargetSavedAsZero | components/budget-goal.tsx:52-68 | a target of 0.001 passes the checks and is saved as 0 |
| BudgetGoal.GoalForm.constructor | components/budget-goal.tsx:24-31 | the given defaults, else empty fields, duration 3 and months; no error |
| BudgetGoal.GoalForm.ShownPerPeriod | components/budget-goal.tsx:37-40 | the shown amount times the form's duration is the form's target |
| BudgetGoal.GoalForm.HandleSave | components/budget-goal.tsx:60-82 | the goal is handed on exactly when the checks pass, with the error otherwise; a failing callback sets "Save failed."; saving ends false |
| BudgetGoal.GoalForm.Reset | components/budget-goal.tsx:162-171 | name "", no target, duration 3, months, no start date, note "", no error |
| BudgetGoalList.Saved | components/budget-goal-list.tsx:32 | missing savings count as 0 |
| BudgetGoalList.Remaining | components/budget-goal-list.tsx:33 | never negative; at most the target when savings and target are not negative; 0 once savings reach the target |
| BudgetGoalList.Divisor | components/budget-goal-list.tsx:34-37 | at least 1 and at least the duration |
| BudgetGoalList.PerOwnPeriod | components/budget-goal-list.tsx:34-37 | the base figure times the divisor is the remaining amount |
| BudgetGoalList.MonthlyNeeded | components/budget-goal-list.tsx:34-35 | never negative; for a monthly goal it spreads the remainder over the months |
| BudgetGoalList.WeeklyNeeded | components/budget-goal-list.tsx:36-37 | never negative; for a weekly goal it spreads the remainder over the weeks |
| BudgetGoalList.MonthlyIsWeeklyTimesWeeks | components/budget-goal-list.tsx:34-37 | for either unit the monthly figure is the weekly one times 4.345 |
| BudgetGoalList.ReachedNeedsNothing | components/budget-goal-list.tsx:33-37 | a reached goal has nothing remaining and needs 0 a month and 0 a week |
| BudgetGoalList.ShownAmountCoversRemaining | components/budget-goal-list.tsx:34-73 | the rounded-up amount shown, saved every period of the goal's unit, covers the remainder |
| BudgetGoalList.Percent | components/budget-goal-list.tsx:38 | at most 100 for a non-zero target and the rounded ratio below that; a zero target gives 100, not-a-number or minus infinity by the sign of the savings |
| BudgetGoalList.PercentBounds | components/budget-goal-list.tsx:38 | between 0 and 100 with savings towards a positive target, and 100 once it is reached |

## Left out

- All calls to the identity and database service are left out: sign-up, sign-in, the provider redirect, the queries, upserts, inserts and deletes. Their answers are parameters (the `…Outcome` datatypes).
- Realtime channels, subscribing and unsubscribing are left out. The only part modelled is the dashboard handler's owner check. The scheduled-payments channel is filtered by the service, so every change it delivers refetches.
- Asynchrony is left out. Each state update is one atomic step, and the interleavings of awaits, change events and refetches are not modelled. For example, the sign-in event that a password login also raises is not modelled.
- Clocks, `toLocaleString`, ISO timestamps and date parsing are left out. They are parameters: `now`, `toLocale`, `parse`, `stamp`.
- The uniqueness of temporary ids is left out, because it rests on `crypto.randomUUID`, `Date.now` and `Math.random`. Only the "temp-" prefix and the injectivity of the UUID part are proved.
- Number parsing (`Number`, `parseFloat`, an input left as NaN) is left out. Number inputs hold nothing or a number, and parsed values are parameters.
- Common.Fixed2: rounds exact reals. JavaScript's `toFixed` works on binary doubles, so for inputs such as 1.005 the result can differ by a cent.
- BudgetGoalList.Percent: models infinity and not-a-number only for a zero target. Double overflow is not modelled.
- Common.Trim: knows ASCII white space, the no-break space, the byte-order mark and the line and paragraph separators. Other Unicode space characters are not modelled.
- Profile.Upper: upper-cases ASCII letters only. Other characters, and upper-casing that yields two characters, are not modelled.
- Signup.PasswordStrength: the length rule counts characters. JavaScript counts UTF-16 code units, so the two differ for characters outside the Basic Multilingual Plane.
- The field setters are left out: the scheduled-payments form's `setForm` calls and the goal form's `setName`, `setTarget` and the like. Each assigns one field.
- The category picker's "Choose" toggle is left out, as are the show-password toggles. They only flip a display flag.
- Login.LoginPage.OnAuthStateChange and Signup.OnAuthStateChange: a failed profile upsert is logged and ignored, so the model treats the upsert as always sent.
- Presentational and decorative files are left out: the navbar, footer, hero, cards, charts, the stats and transaction-list components, the marketing pages, the insights animation and the quick-actions modal.
- The stray JSX at app/dashboard/page.tsx:20-24 is left out. It has no behaviour.
- TransactionForm.FormState.HandleSubmit: the `onAdded` callback at components/transaction-form.tsx:187 is not called from it. That refetch is the separate step `Dashboard.Ledger.HandleAdded`, with its own remote answer.
- TransactionForm.MissingRowError: the text of the TypeError thrown when no row comes back is one browser engine's wording. Other engines word it differently.
- ScheduledPayments.MakePayload: the parsed interval is an integer. `Number(form.interval_value)` at app/scheduled-payments/page.tsx:186 can also be a fraction or NaN, and the model does not cover those.
- The goal list is not wired to the goal form in the code. The two keep their own conversion constants (52/12 and 4.345) and are not joined.

## Findings

The page methods follow the code as written and use the as-written members.
The corrected members stand beside them with the intended property proved.

| source | as written | input that shows it | evidently intended | confidence | as-written member | corrected member |
|---|---|---|---|---|---|---|
| components/transaction-form.tsx:185-186 | the success message is set and then cleared at once by `resetForm`, so it never shows | any successful submit | the form is reset and "Transaction added successfully." stays shown | not executed | TransactionForm.FormState.FinishSuccessAsWritten | TransactionForm.FormState.FinishSuccess |
| components/transaction-form.tsx:119 | the optimistic row's icon is the literal "ðŸ’³": the card glyph's UTF-8 bytes read as Windows-1252 text | any submit that passes the checks: the pending row shows four odd characters | the card glyph "💳", which the dashboard uses elsewhere (app/dashboard/page.tsx:93) | not executed | TransactionForm.OptimisticIconGarbled | TransactionForm.OptimisticRow |
| app/auth/signup/page.tsx:84 | the sign-in listener is registered once on mount, so the `upsertProfile` it calls reads the first render's form, whose name is "": the full name is always the display name | an auto-confirmed email sign-up with the name "Ann" and the email "ann@x.com": the listener upserts the full name "ann" | the full name is the typed name when there is one, as after an email sign-up | not executed | Signup.StaleListenerDropsFormName | Signup.OnAuthStateChangeCurrentForm |
