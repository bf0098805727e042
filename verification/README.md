# Dashboard session, API and page-state model

This project models the logic of a small React dashboard for browsing
transactions and sales summaries. The dashboard has:

- two axios clients that keep a session token and a default `Bearer` header;
- an `AuthProvider` that holds the signed-in flag and the user;
- a route guard;
- API functions that turn every failure into one `Error` message;
- a normaliser that copies camelCase wire fields of transaction items to
  snake_case keys;
- the sign-up, login and change-password forms with their validation rules;
- pages that fetch data and derive what they show from loading, error and
  data state.

Each core source file becomes one module:

| source file | module |
|---|---|
| `src/lib/api/auth.api.ts` | `AuthApi` |
| `src/lib/api.ts` | `LegacyApi` |
| `src/context/AuthContext.tsx` | `AuthContext` |
| `src/components/protected-route.tsx` | `ProtectedRoute` |
| `src/lib/api/transaction.api.ts` | `TransactionApi` |
| `src/lib/api/summary.api.ts` | `SummaryApi` |
| `src/lib/api/profile.api.ts` | `ProfileApi` |
| `src/lib/utils/format.ts` | `Format` |
| `…/Transaction/components/filter-transaction.tsx` | `FilterTransaction` |
| `…/Transaction/components/transaction-components.tsx` | `TransactionComponents` |
| `…/Profile/components/form-reset-password.tsx` | `ResetPassword` |
| `src/components/signup-form.tsx` | `SignupForm` (rules shared with the login form in `FormRules`) |
| `src/components/login-form.tsx` | `LoginForm` |
| `…/Profile/profile-page.tsx` | `ProfilePage` |
| `…/Summary/monthly-summary-page.tsx` | `MonthlySummary` |
| `…/Summary/yearly-summary-page.tsx` | `YearlySummary` |
| `…/Summary/top-customer-summary-page.tsx` | `TopCustomer` |
| `…/Transaction/transaction-page.tsx` | `TransactionPage` |
| `…/Transaction/detail-transaction-page.tsx` | `DetailTransaction` |

Supporting modules:

- `Wrappers`: `Option` and `Result`.
- `Js`: the JavaScript semantics the code relies on. This covers truthiness,
  `||` and `??`, `includes`, ASCII `toLowerCase`, `split`/`join` on one
  separator, `Number(...)` and `String(n)`, the `\s` class, and JSON values.
- `Http`: the GET request, the duck-typed error that axios rejects with, and
  the message resolution shared by the data-fetching functions.
- `TokenStore`: the token and header state as a value. Both clients'
  classes are proved against it.
- `ViewState`: the error > loading > empty > rows precedence of the summary
  tables.

State that the source changes in place is kept in classes:

- the two clients' token and header;
- the provider's flag and user;
- each form's error, loading and field messages;
- each page's loading, error, data and request log.

The methods' postconditions tie the new state to pure functions of the old
state and of the reply. The network is a parameter. It is either the reply
a call settles with, or a server function from request to reply. The model
therefore states what each completed call does.

Facts about the code that the model keeps as written:

- Normalisation does not convert values; `amount_due` stays a string.
- The 401 interceptor in `auth.api.ts` is commented out. It leaves the token
  alone, and only the older client in `api.ts` clears on 401.
- `logout` only clears local state; it does not ask the server.
- There is no clamping of the page number and no whitelist of page sizes.

Observations the proofs make precise:

- Some fallbacks in the forms and pages are unreachable. The API functions
  always throw an `Error` with a non-empty message. So the forms'
  `err instanceof Error ? err.message : "An error occurred"` always takes the
  message, and the profile page's `?? "Failed to load profile"` never applies.
- The app renders under `<StrictMode>`, so in development the profile page's
  effect runs, is cleaned up and runs again. Each run has its own `mounted`
  flag, so only the second run's reply reaches the page
  (`ProfilePage.StrictModeLoadsTwice`).
- `login` and `registerUser` catch their own validation throws. The caller
  therefore sees "An unexpected error occurred. Please try again." and never
  the specific text.
- A token restored from storage after a reload is reported as logged in,
  but no `Authorization` header is set (`TokenStore.RestoredTokenHasNoHeader`).

## Model

| member | source | states |
|---|---|---|
| TokenStore.SetAuthToken | src/lib/api/auth.api.ts:14-19 | a falsy token (absent or "") changes nothing; a non-empty token is stored and the header becomes `Bearer <token>` |
| TokenStore.ClearAuthToken | src/lib/api/auth.api.ts:21-24 | afterwards no token is stored at all (not even ""), so the user is not logged in, and no header is set |
| TokenStore.SetLogsIn | src/lib/api/auth.api.ts:14-26 | after storing a non-empty token `isLoggedIn()` is true and the header reads "Bearer " + token |
| TokenStore.ClearLogsOut | src/lib/api/auth.api.ts:21-26 | after clearing, `isLoggedIn()` is false and the header agrees |
| TokenStore.TransitionsKeepHeaderInSync | src/lib/api/auth.api.ts:14-24 | set and clear both keep "header present iff a token is stored, and it is that token's Bearer value" |
| TokenStore.RestoredTokenHasNoHeader | src/lib/api/auth.api.ts:4-26 | a token persisted from an earlier session counts as logged in while the fresh client sends no header |
| AuthApi.ServerText | src/lib/api/auth.api.ts:90-91 | `responseMessage \|\| message \|\| error \|\| fallback`, each empty string skipped; never empty for a non-empty fallback |
| AuthApi.LoginErrorMessage | src/lib/api/auth.api.ts:82-101 | "Network Error" in the message gives the connection text; else a 401 gives the invalid-credentials text even if the server wrote one; else a response gives the server text or "Login failed"; else the generic text |
| AuthApi.RegisterErrorMessage | src/lib/api/auth.api.ts:129-140 | the same order without a 401 case, with the fallback "Registration failed" |
| AuthApi.LocalErrorsAreUnexpected | src/lib/api/auth.api.ts:66-68 | the errors that `login` and `registerUser` throw themselves are caught by their own catch and become the generic message |
| AuthApi.LoginCall | src/lib/api/auth.api.ts:64-102 | an empty phone or password sends nothing and fails with the generic message; success iff the reply carries a non-empty `accessToken`, returning the whole body; a failure reply is worded by `LoginErrorMessage` |
| AuthApi.RegisterCall | src/lib/api/auth.api.ts:121-141 | an empty name, phone, email or password sends nothing and fails with the generic message; otherwise the body is returned unchanged or the error is worded by `RegisterErrorMessage`; the token store is not touched |
| AuthApi.UnauthorizedWordingDiffers | src/lib/api/auth.api.ts:91-97 | for the same 401 error with a server `responseMessage`, login hides it and registration reports it |
| AuthApi.AuthClient.constructor | src/lib/api/auth.api.ts:4-12 | a new client holds the persisted token and no header |
| AuthApi.AuthClient.SetAuthToken | src/lib/api/auth.api.ts:14-19 | the new state is `TokenStore.SetAuthToken` of the old one |
| AuthApi.AuthClient.ClearAuthToken | src/lib/api/auth.api.ts:21-24 | the new state is `TokenStore.ClearAuthToken` of the old one |
| AuthApi.AuthClient.IsLoggedIn | src/lib/api/auth.api.ts:26 | true iff a non-empty token is stored |
| AuthApi.AuthClient.OnRejected | src/lib/api/auth.api.ts:28-36 | the interceptor re-rejects the same error and leaves the token and header alone, even on a 401 |
| AuthApi.AuthClient.Login | src/lib/api/auth.api.ts:64-102 | returns `LoginCall`'s result; on success the token is stored as by `setAuthToken`, so the user is logged in; on failure the store is unchanged |
| AuthApi.AuthClient.Logout | src/lib/api/auth.api.ts:104-106 | only the local token and header are cleared |
| LegacyApi.LegacyLoginErrorMessage | src/lib/api.ts:73-98 | network text, then 401, then `message \|\| error \|\| "Login failed"` for any other status, including 400; `responseMessage` is not read |
| LegacyApi.ResponseMessageIgnored | src/lib/api.ts:83 | changing only `responseMessage` never changes the message |
| LegacyApi.ClientsDisagreeOnResponseMessage | src/lib/api.ts:83 | for a 500 whose body sets only `responseMessage`, the newer client reports that text and the older one "Login failed" |
| LegacyApi.LegacyLoginCall | src/lib/api.ts:55-99 | an empty field sends nothing and ends in the generic message; success iff the reply has a non-empty `token`, returning `user` |
| LegacyApi.LegacyClient.SetAuthToken | src/lib/api.ts:14-19 | the same store contract as the main client |
| LegacyApi.LegacyClient.ClearAuthToken | src/lib/api.ts:21-24 | the same clear contract as the main client |
| LegacyApi.LegacyClient.IsLoggedIn | src/lib/api.ts:26 | true iff a non-empty token is stored |
| LegacyApi.LegacyClient.OnRejected | src/lib/api.ts:28-36 | a 401 clears token and header, any other error leaves them; the same error is re-rejected |
| LegacyApi.LegacyClient.Login | src/lib/api.ts:55-99 | returns `LegacyLoginCall`'s result; success stores `token`; a 401 reply to a sent request leaves the store cleared |
| LegacyApi.LegacyClient.Logout | src/lib/api.ts:101-103 | only local state is cleared |
| AuthContext.AuthProvider.constructor | src/context/AuthContext.tsx:7-12 | `isAuthenticated` starts as `isLoggedIn()` and `user` as null |
| AuthContext.AuthProvider.Login | src/context/AuthContext.tsx:14-21 | on success the flag is true, `user` is the returned data and that value is returned; a thrown error leaves flag, user and store unchanged |
| AuthContext.AuthProvider.Logout | src/context/AuthContext.tsx:23-27 | the token is cleared, the flag is false and `user` is null |
| AuthContext.HeldFlagOutlivesClear | src/context/AuthContext.tsx:7-12 | the flag is held state: clearing the token later leaves the provider reporting a session the store no longer has |
| ProtectedRoute.Guard | src/components/protected-route.tsx:6-14 | not authenticated gives a `replace` redirect to "/login"; authenticated renders the children unchanged |
| ProtectedRoute.GuardDependsOnlyOnFlag | src/components/protected-route.tsx:7-13 | the decision depends on the flag alone, and the redirect does not depend on the children |
| Http.FetchErrorMessage | src/lib/api/transaction.api.ts:108-113 | a non-empty server `message`, else the error's non-empty `message`, else the fallback; non-empty whenever the fallback is |
| TransactionApi.SpreadAssignFields | src/lib/api/transaction.api.ts:83-95 | a spread followed by assignments to distinct keys has the item's keys plus the targets; each target holds its source field, missing ones as undefined; every other key is untouched |
| TransactionApi.NormalizeItem | src/lib/api/transaction.api.ts:83-95 | every wire key is kept; every snake_case key holds its camelCase field verbatim; keys not renamed keep their value |
| TransactionApi.AmountsAndDatesCopied | src/lib/api/transaction.api.ts:86-92 | `amount_due`, `amount_total`, `date_due` and `created_at` are the wire values unconverted |
| TransactionApi.NormalizeKeepsWireFields | src/lib/api/transaction.api.ts:84 | each display item is a superset of its wire item |
| TransactionApi.WireItems | src/lib/api/transaction.api.ts:83 | `raw.items \|\| []`: a missing or falsy list gives none; otherwise the same objects in the same order |
| TransactionApi.Normalize | src/lib/api/transaction.api.ts:83-105 | items are normalised one for one in order; missing `total`, `currentPage`, `lastPage` and `perPage` are 0; a missing `responseMessage` is ""; `responseCode` is `Number(code ?? 0)` |
| TransactionApi.EmptyBodyDefaults | src/lib/api/transaction.api.ts:97-105 | an empty body gives no items, zero pagination, response code 0 and "" |
| TransactionApi.StringResponseCode | src/lib/api/transaction.api.ts:103 | a response code sent as "20000" becomes the number 20000 |
| TransactionApi.GetTransactions | src/lib/api/transaction.api.ts:77-114 | the query parameters go out unchanged to "/v1/transactions"; success gives `Normalize` of the body; failure gives `FetchErrorMessage` with "Failed to fetch transactions" |
| TransactionApi.GetTransactionDetail | src/lib/api/transaction.api.ts:116-126 | the body comes back without normalisation; failure gives `FetchErrorMessage` with "Failed to fetch transaction detail" |
| SummaryApi.DailyRequest | src/lib/api/summary.api.ts:17-22 | the request carries exactly the two dates as given |
| SummaryApi.GetDailySummary | src/lib/api/summary.api.ts:15-30 | success gives the body unchanged; every failure throws the server message, the error's message or "Failed to fetch daily summary" |
| ProfileApi.GetProfile | src/lib/api/profile.api.ts:12-23 | success gives the body unchanged; failure gives the server message, the error's message or "Failed to fetch profile" |
| Format.ColorByGrowth | src/lib/utils/format.ts:10-12 | "text-red-500" iff growth < 0, "text-green-500" iff growth ≥ 0, so zero is green; always one of the two |
| FilterTransaction.UpdateParams | src/Pages/Dashbaord/Transaction/components/filter-transaction.tsx:20-22 | the named key holds the new value and every other field, including page and perPage, is as before |
| FilterTransaction.UpdateWithCurrentValue | src/Pages/Dashbaord/Transaction/components/filter-transaction.tsx:20-22 | writing back the current value changes nothing |
| FilterTransaction.LaterUpdateWins | src/Pages/Dashbaord/Transaction/components/filter-transaction.tsx:20-22 | of two updates of one key, the later one wins |
| FilterTransaction.UpdatesOfDifferentKeysCommute | src/Pages/Dashbaord/Transaction/components/filter-transaction.tsx:20-22 | updates of different keys commute |
| FilterTransaction.SortByOptionsAreDisplayKeys | src/Pages/Dashbaord/Transaction/components/filter-transaction.tsx:57-59 | every sort-by choice (created_at, amount_due, status) is `status` or a key the normaliser writes |
| FilterTransaction.ApplyButton | src/Pages/Dashbaord/Transaction/components/filter-transaction.tsx:76-78 | the button is enabled iff not loading, and reads "Loading..." while loading |
| TransactionComponents.BadgeClass | src/Pages/Dashbaord/Transaction/components/transaction-components.tsx:39-53 | one of four classes; gray iff the lower-cased status is none of success, failed, pending |
| TransactionComponents.StatusBadge | src/Pages/Dashbaord/Transaction/components/transaction-components.tsx:55-59 | the badge shows the original status text with `BadgeClass`'s colour |
| TransactionComponents.LowerEqualsWord | src/Pages/Dashbaord/Transaction/components/transaction-components.tsx:40 | lower-casing yields a lower-case word iff the input spells it letter by letter in any mix of cases |
| TransactionComponents.BadgeColours | src/Pages/Dashbaord/Transaction/components/transaction-components.tsx:40-53 | green iff the status spells "success" in any case, red iff "failed", yellow iff "pending" |
| TransactionComponents.DetailCell | src/Pages/Dashbaord/Transaction/components/transaction-components.tsx:15-19 | a skeleton and no value iff loading |
| FormRules.EmailFromParts | src/components/signup-form.tsx:119 | any local part, host and last label without `@` or white space, joined as local@host.label, is accepted |
| FormRules.EmailParts | src/components/signup-form.tsx:119 | every accepted address is such a concatenation |
| FormRules.EmailHasOneAt | src/components/signup-form.tsx:119 | an accepted address has exactly one `@` and no white space |
| ResetPassword.Issues | src/Pages/Dashbaord/Profile/components/form-reset-password.tsx:26-39 | a current password under 6 characters, a new one under 8 characters, a new one failing the pattern, and a differing confirmation each give their issue; the mismatch is attached to `newPasswordConfirmation` |
| ResetPassword.AcceptedValues | src/Pages/Dashbaord/Profile/components/form-reset-password.tsx:26-39 | no issues iff the current password has ≥ 6 characters, the new one is strong and the confirmation repeats it |
| ResetPassword.PatternCoversLength | src/Pages/Dashbaord/Profile/components/form-reset-password.tsx:30-32 | a new password that passes the pattern always passes the `min(8)` check |
| ResetPassword.SamplePasswords | src/Pages/Dashbaord/Profile/components/form-reset-password.tsx:32 | "Secret1!" is strong; "secret12!" (no upper-case letter) is not |
| ResetPassword.FailureText | src/Pages/Dashbaord/Profile/components/form-reset-password.tsx:62-63 | `e.message \|\| "Failed to update password"`: never empty |
| ResetPassword.ResetPasswordDialog.constructor | src/Pages/Dashbaord/Profile/components/form-reset-password.tsx:42-52 | closed, idle, three empty fields |
| ResetPassword.ResetPasswordDialog.Submit | src/Pages/Dashbaord/Profile/components/form-reset-password.tsx:45-67 | invalid values only show their issues; valid ones are sent; success closes and resets to empty strings; failure stays open with the message; loading is over |
| SignupForm.PhoneError | src/components/signup-form.tsx:100-103 | "Phone is required" for "", "Invalid phone" unless 10–13 ASCII digits, otherwise none |
| SignupForm.EmailError | src/components/signup-form.tsx:117-120 | "Email is required" for "", "Invalid email" unless the address pattern holds, otherwise none |
| SignupForm.PasswordError | src/components/signup-form.tsx:140-143 | "Password is required" for "", the length message under 6 characters, otherwise none |
| SignupForm.Validate | src/components/signup-form.tsx:86-155 | no field messages iff the name is non-empty, the phone and email match, the password has ≥ 6 characters and the confirmation is non-empty |
| SignupForm.Payload | src/components/signup-form.tsx:52-58 | the fields as typed, an omitted address sent as "" |
| SignupForm.ValidDataIsSent | src/components/signup-form.tsx:52-58 | data that passes the form's rules always reaches the server |
| SignupForm.SignupFormState.Submit | src/components/signup-form.tsx:42-66 | rule failures only show messages; a differing confirmation sets "Passwords do not match" and sends nothing; success navigates to "/login" without logging in; failure shows the thrown message; loading is over whenever `onSubmit` ran |
| LoginForm.PhoneError | src/components/login-form.tsx:73-79 | "Phone number is required" for "", "Please enter a valid phone number" unless 10–13 ASCII digits |
| LoginForm.PasswordError | src/components/login-form.tsx:103-109 | "Password is required" for "", the length message under 6 characters |
| LoginForm.Validate | src/components/login-form.tsx:73-109 | no messages iff the phone matches and the password has ≥ 6 characters |
| LoginForm.ValidCredentialsAreSent | src/components/login-form.tsx:41-47 | credentials that pass the rules always reach the server |
| LoginForm.LoginFormState.Submit | src/components/login-form.tsx:41-53 | rule failures only show messages; success navigates to "/" with the provider authenticated and its `user` set to the returned body; failure leaves `user` and the flag alone, shows the thrown message and does not navigate; loading is over |
| ProfilePage.Initials | src/Pages/Dashbaord/Profile/profile-page.tsx:90 | "U" for an absent or empty name; at most two characters |
| ProfilePage.InitialsOfWords | src/Pages/Dashbaord/Profile/profile-page.tsx:90 | for words joined by single spaces, the initials are the first characters of the first two words, an empty word counting but adding nothing |
| ProfilePage.InitialsExamples | src/Pages/Dashbaord/Profile/profile-page.tsx:90 | "Ada Lovelace King" gives "AL" and " Ada" gives "A" |
| ProfilePage.LoadErrorText | src/Pages/Dashbaord/Profile/profile-page.tsx:45-46 | `e?.message ?? "Failed to load profile"`: only a missing message falls back |
| ProfilePage.Title | src/Pages/Dashbaord/Profile/profile-page.tsx:94 | the name whenever the field is set, since `??` keeps even ""; otherwise "Loading..." while loading and "No name" after |
| ProfilePage.FieldText | src/Pages/Dashbaord/Profile/profile-page.tsx:102-105 | a missing field shows "-" |
| ProfilePage.AccountPanel | src/Pages/Dashbaord/Profile/profile-page.tsx:120-143 | loading wins over a truthy error, which wins over the four fields with their "-" fallbacks |
| ProfilePage.ProfilePageState.RunEffect | src/Pages/Dashbaord/Profile/profile-page.tsx:36-40 | every run of the effect adds a new live `mounted` flag of its own and sets loading with no error; the profile is kept |
| ProfilePage.ProfilePageState.Cleanup | src/Pages/Dashbaord/Profile/profile-page.tsx:52-54 | the cleanup clears its own run's flag only, and changes nothing the page shows |
| ProfilePage.ProfilePageState.Settle | src/Pages/Dashbaord/Profile/profile-page.tsx:41-49 | while the run's own flag is live, the profile or the message is recorded and loading ends; after that run's cleanup nothing changes |
| ProfilePage.LateReplyIsDropped | src/Pages/Dashbaord/Profile/profile-page.tsx:37-54 | a reply arriving after unmount is never applied, so no profile is recorded and loading stays true |
| ProfilePage.StrictModeLoadsTwice | src/Pages/Dashbaord/Profile/profile-page.tsx:36-55 | effect, cleanup and effect (the development double run) send two loads; the first run's reply is dropped, and the page ends with the second reply's profile or message, no longer loading |
| ViewState.TableOf | src/Pages/Dashbaord/Summary/monthly-summary-page.tsx:222-235 | exactly one of: a truthy error; else the skeleton while loading; else the empty message; else the rows |
| MonthlySummary.HeadlineOf | src/Pages/Dashbaord/Summary/monthly-summary-page.tsx:67-76 | the last month's current, previous and growth, or zeros for no months |
| MonthlySummary.LatestMonthIsHeadline | src/Pages/Dashbaord/Summary/monthly-summary-page.tsx:67-76 | appending a month makes it the headline |
| MonthlySummary.HeadlineChange | src/Pages/Dashbaord/Summary/monthly-summary-page.tsx:207 | the amount under the headline, added to the last month's previous figure, gives its current figure; it is 0 with no months |
| MonthlySummary.HeadlineColor | src/Pages/Dashbaord/Summary/monthly-summary-page.tsx:78 | red iff the headline growth is negative |
| MonthlySummary.RowColor | src/Pages/Dashbaord/Summary/monthly-summary-page.tsx:248-249 | red iff the row's growth is negative |
| MonthlySummary.HeadlineColoredLikeLastRow | src/Pages/Dashbaord/Summary/monthly-summary-page.tsx:78 | the headline has the last row's colour, and is green with no rows |
| ViewState.ItemsOrEmpty | src/Pages/Dashbaord/Summary/monthly-summary-page.tsx:54 | a missing response or item list gives an empty list; otherwise the list as received (used by the monthly and top-customer pages) |
| MonthlySummary.MonthlySummaryPage.constructor | src/Pages/Dashbaord/Summary/monthly-summary-page.tsx:40-44 | both months start at the current one; loading starts true |
| MonthlySummary.MonthlySummaryPage.FetchSummary | src/Pages/Dashbaord/Summary/monthly-summary-page.tsx:46-61 | requests the picked months; success replaces the list and clears the error; failure keeps the list and records the message; loading ends false |
| MonthlySummary.MonthlySummaryPage.PickStartMonth | src/Pages/Dashbaord/Summary/monthly-summary-page.tsx:132 | a picked start month refetches with it; a cleared pick does nothing |
| MonthlySummary.MonthlySummaryPage.PickEndMonth | src/Pages/Dashbaord/Summary/monthly-summary-page.tsx:157 | a picked end month refetches with it; a cleared pick does nothing |
| MonthlySummary.MonthlySummaryPage.TotalMonth | src/Pages/Dashbaord/Summary/monthly-summary-page.tsx:184 | "Total Month" equals the number of rows whenever the table shows rows; once settled without an error it is 0 exactly when the table shows the empty notice |
| MonthlySummary.MonthlySummaryPage.Table | src/Pages/Dashbaord/Summary/monthly-summary-page.tsx:222-235 | a message with text shows the error; otherwise loading shows the skeleton; otherwise no months shows the empty notice; otherwise one row per month |
| MonthlySummary.TotalMonthFollowsFetch | src/Pages/Dashbaord/Summary/monthly-summary-page.tsx:54-57 | after a successful fetch "Total Month" is the number of months received, and a failed refresh leaves it there |
| MonthlySummary.FailedRefreshKeepsMonths | src/Pages/Dashbaord/Summary/monthly-summary-page.tsx:55-57 | after a failed refresh the old months are still held and the table shows the message |
| YearlySummary.OrZero | src/Pages/Dashbaord/Summary/yearly-summary-page.tsx:48-50 | `x \|\| 0`: missing, zero or NaN reads as 0 |
| YearlySummary.TotalsOf | src/Pages/Dashbaord/Summary/yearly-summary-page.tsx:48-50 | current, previous and percentage each `\|\| 0`, all zero before any data |
| YearlySummary.Difference | src/Pages/Dashbaord/Summary/yearly-summary-page.tsx:134 | the shown difference plus previous is current |
| YearlySummary.ColorOf | src/Pages/Dashbaord/Summary/yearly-summary-page.tsx:51 | red iff the percentage is a number below zero |
| YearlySummary.YearTextRoundTrip | src/Pages/Dashbaord/Summary/yearly-summary-page.tsx:34 | `String(year)` reads back as the year |
| YearlySummary.YearlySummaryPage.constructor | src/Pages/Dashbaord/Summary/yearly-summary-page.tsx:24-28 | the year starts at the current year; loading starts true |
| YearlySummary.YearlySummaryPage.FetchSummary | src/Pages/Dashbaord/Summary/yearly-summary-page.tsx:30-42 | requests `String(year)`; success replaces the data; failure keeps it and records the message; loading ends false |
| YearlySummary.YearlySummaryPage.SetYear | src/Pages/Dashbaord/Summary/yearly-summary-page.tsx:92 | a different year refetches; the same year fetches nothing |
| YearlySummary.FailedYearKeepsTotals | src/Pages/Dashbaord/Summary/yearly-summary-page.tsx:35-38 | a failed fetch for another year keeps the old totals on screen |
| Js.DecimalTextValue | src/Pages/Dashbaord/Summary/yearly-summary-page.tsx:34 | the decimal text of a non-negative integer reads back as that integer |
| TopCustomer.NumberedRows | src/Pages/Dashbaord/Summary/top-customer-summary-page.tsx:206-209 | one row per customer in order, numbered index + 1 |
| TopCustomer.RowNumbersAreConsecutive | src/Pages/Dashbaord/Summary/top-customer-summary-page.tsx:209 | the numbers run from 1 to the row count, strictly increasing |
| TopCustomer.TopCustomerPage.constructor | src/Pages/Dashbaord/Summary/top-customer-summary-page.tsx:41-46 | both dates start at today, the limit at 5, loading at true |
| TopCustomer.TopCustomerPage.FetchSummary | src/Pages/Dashbaord/Summary/top-customer-summary-page.tsx:48-62 | requests both dates and the limit; success replaces the list; failure keeps it and records the message; loading ends false |
| TopCustomer.TopCustomerPage.PickStartDate | src/Pages/Dashbaord/Summary/top-customer-summary-page.tsx:120 | a picked start date refetches with it, then shows the reply's customers or keeps the list and shows the message; a cleared pick changes nothing, not even loading or the error |
| TopCustomer.TopCustomerPage.PickEndDate | src/Pages/Dashbaord/Summary/top-customer-summary-page.tsx:145 | a picked end date refetches with it, then shows the reply's customers or keeps the list and shows the message; a cleared pick changes nothing, not even loading or the error |
| TopCustomer.TopCustomerPage.SelectLimit | src/Pages/Dashbaord/Summary/top-customer-summary-page.tsx:153-162 | the limit is always one of 5, 10, 20, 50; a new limit refetches and shows the reply's customers or keeps the list and shows the message; the same limit changes nothing, not even loading or the error |
| TopCustomer.TopCustomerPage.Table | src/Pages/Dashbaord/Summary/top-customer-summary-page.tsx:180-193 | a message with text shows the error; otherwise loading shows the skeleton; otherwise no customers shows the empty notice; otherwise one numbered row per customer |
| TopCustomer.LimitScenario | src/Pages/Dashbaord/Summary/top-customer-summary-page.tsx:153-162 | the first request asks for 5; choosing "Top 20" asks for 20 |
| TransactionPage.InitialParams | src/Pages/Dashbaord/Transaction/transaction-page.tsx:20-27 | page 1, perPage 100, created_at, desc, from "2023-01-01" to today |
| TransactionPage.InitialSortIsOffered | src/Pages/Dashbaord/Transaction/transaction-page.tsx:23-24 | the initial sort is among the filter card's options |
| TransactionPage.TransactionPageState.FetchData | src/Pages/Dashbaord/Transaction/transaction-page.tsx:80-92 | the current parameters go out; success shows the normalised items and clears the error; failure keeps the rows and shows the message; loading ends false |
| TransactionPage.TransactionPageState.ChangeParams | src/Pages/Dashbaord/Transaction/transaction-page.tsx:94-102 | new parameters replace the old ones and are fetched with |
| TransactionPage.TransactionPageState.EditFilter | src/Pages/Dashbaord/Transaction/transaction-page.tsx:100-105 | one filter edit changes one key and refetches; success shows the normalised items and clears the error, failure keeps the rows and shows the message |
| TransactionPage.TransactionPageState.ApplyFilter | src/Pages/Dashbaord/Transaction/transaction-page.tsx:103 | Apply refetches the same parameters; success shows the normalised items and clears the error, failure keeps the rows and shows the message |
| TransactionPage.StartDateEdit | src/Pages/Dashbaord/Transaction/transaction-page.tsx:100-105 | editing the start date keeps the rest of the initial query |
| DetailTransaction.ValuesOf | src/Pages/Dashbaord/Transaction/detail-transaction-page.tsx:42-96 | every unformatted row is "" while there is no data; the reference and the three payment rows are their field `?? ''`; the status is `sales`; both customer rows are "" without a customer, and "Customer Email" shows `customer.code` |
| DetailTransaction.Cells | src/Pages/Dashbaord/Transaction/detail-transaction-page.tsx:42-96 | the seven unformatted rows are skeletons iff loading |
| DetailTransaction.DetailPage.constructor | src/Pages/Dashbaord/Transaction/detail-transaction-page.tsx:11-14 | no data, loading true |
| DetailTransaction.DetailPage.FetchData | src/Pages/Dashbaord/Transaction/detail-transaction-page.tsx:16-30 | no id: nothing is requested and loading keeps its value; otherwise the body or the message is recorded and loading ends false |
| DetailTransaction.DetailPage.SetId | src/Pages/Dashbaord/Transaction/detail-transaction-page.tsx:33 | the effect re-runs only when the id changes; a new id is requested and shows the body or keeps the data and shows the message; the same id, or a missing one, changes nothing |
| DetailTransaction.MissingIdStaysLoading | src/Pages/Dashbaord/Transaction/detail-transaction-page.tsx:13-18 | a page without an id makes no request and shows skeletons for good |
| Js.SplitJoin | src/Pages/Dashbaord/Profile/profile-page.tsx:90 | splitting words joined by a separator gives the words back |
| Js.JoinSplit | src/Pages/Dashbaord/Profile/profile-page.tsx:90 | joining the parts of a split gives the string back |

## Left out

- HTTP transport is not modelled: axios instances, base URL, proxy and default headers other than `Authorization`. Each call is a reply value or a server function from request to reply.
- `localStorage` is each client's own `authToken` field. The two clients in fact share one storage key; the model does not connect their stores.
- Async timing and races between overlapping fetches are not modelled. Each method is the state change of one completed call. The one exception is the profile page, whose mount, unmount and settle are separate steps because of its liveness flag.
- `getDashboardData` in both API modules is left out: it is an unchecked pass-through that no core page calls.
- `formatCurrency`, the inline `Intl.NumberFormat` amounts and `date-fns` `format` are left out. So is `new Date()`. Dates enter the model as their formatted text, and "today" and the current year are constructor parameters.
- DetailTransaction.ValuesOf: covers the seven unformatted rows. The date and money rows are not modelled, because their text is locale formatting.
- YearlySummary.YearlySummaryPage.SetYear: only whole years are modelled. `Number(e.target.value)` on the number input can also give a decimal year such as 2024.5, or NaN, and `String(...)` of those is not modelled.
- `transaction.api.ts` and `summary.api.ts` import a named `api` from `auth.api.ts`, which only has a default export. The model treats both as using the main client and does not model the failed import.
- The summary functions `getMonthlySummary`, `getYearlySummary` and `getTopCustomersSummary` are not defined in the summary module, so each is a reply value. `updatePassword` is not defined in the profile module either; it too is a reply value.
- Js.ToNumber: covers numbers, booleans, null, "" and plain digit strings. Other strings become NaN. Surrounding white space, signs, decimals and hexadecimal are not read.
- Js.ToLower: lower-cases ASCII letters only; JavaScript also folds non-ASCII letters.
- JavaScript strings count UTF-16 code units while Dafny strings count characters, so length rules differ for text outside the Basic Multilingual Plane.
- TransactionApi.GetTransactions: requires a body whose `items` is missing, falsy or an array of objects, as the declared response type says. Other bodies would throw inside the `try` and end in the error message.
- FilterTransaction.UpdateParams: covers the four keys the card writes. `page` and `perPage` could also be written as strings through the spread, but the card never does so.
- The browser's own `type="email"` check, and react-hook-form's choice of which single message to show, are not modelled; the model keeps every rule's message.
- The hard-coded `value` on the login phone input is a UI quirk and is not modelled.
- Markup, styling, routing, the sidebar and bootstrapping are not part of this model.
