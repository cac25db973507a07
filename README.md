# gofinances: a Dafny model of the session, registration and summary logic

This project models the rule-based core of a personal-finance mobile app:

- the **authentication context** (`Auth.AuthProvider`): the signed-in `user`, the `userStorageLoading` flag, Google sign-in (OAuth implicit grant, then a user-info request), Apple sign-in, sign-out, and the restore of the stored session at mount;
- the **transaction registration** screen (`Register.RegisterScreen`): the form schema, the type and category selection, and the save that appends one record to the signed-in user's stored list;
- the **dashboard** (`Dashboard.DashboardScreen`): the stored list shown in order, the entry and expense totals, their difference, and the latest timestamp per type;
- the **monthly summary** (`Resume.ResumeScreen`): the month's expenses, their total, one entry per category with expenses (with its exact percentage), and the month selector.

The device key-value store (AsyncStorage) is a class `Storage.AsyncStore` over a map from keys to values that are already parsed (`Stored`: a user record or a list of transactions). The identity providers and the user-info request are function-typed parameters, from the URL or scope list sent to the result or failure received. Amounts are exact integers (cents). A date is its year, its month (0 to 11, as `getMonth` gives it) and its timestamp.

Two facts about the code shape the model:

- The register screen writes each user's list under `'@gofinances:transactions_user:' + user.id`. The dashboard and the summary both read `'@gofinances:transactions'`, so a saved transaction never reaches those two screens (`AppFlow.SaveLeavesScreenDataAlone`).
- The dashboard counts every type other than "positive" as an expense, not only "negative".

## Model

| member | source | states |
|---|---|---|
| `Storage.StoredTransactions` | src/screens/Dashboard/index.tsx:76-77 | an absent value reads as the empty list; a stored list reads as itself; any other value is not an array, so the next array operation throws |
| `Storage.AsyncStore.GetItem` | src/hooks/auth.tsx:112 | `getItem` returns the value under the key, or nothing when the key is absent |
| `Storage.AsyncStore.SetItem` | src/hooks/auth.tsx:69 | `setItem` sets one key and leaves every other key as it was |
| `Storage.AsyncStore.RemoveItem` | src/hooks/auth.tsx:107 | `removeItem` deletes one key and leaves every other key as it was |
| `Query.ParseQueryString` | src/hooks/auth.tsx:54 | round trip: a reader splitting a `k=v&k=v` query string recovers exactly the pairs written, when no key holds '&' or '=' and no value holds '&' |
| `Auth.GoogleAuthUrl` | src/hooks/auth.tsx:49-54 | the authorization URL is the Google endpoint followed by '?'; when neither the client id nor the redirect URI holds '&', its query reads back as exactly `client_id`, `redirect_uri`, `response_type=token` (the implicit grant of section 4.2.1 of RFC 6749) and `scope=profile%20email`, in that order |
| `Auth.UserInfoUrl` | src/hooks/auth.tsx:58 | the user-info request is the user-info endpoint followed by '?'; its query reads back as `alt=json` and the access token received |
| `Auth.AvatarUrl` | src/hooks/auth.tsx:88 | the Apple avatar URL is the avatar endpoint followed by '?'; its query reads back as the given name and `length=1` |
| `Auth.GoogleUser` | src/hooks/auth.tsx:61-66 | the session user takes `id` and `email` from the payload, `name` from `given_name` and `photo` from `picture` |
| `Auth.GoogleSignInResult` | src/hooks/auth.tsx:56-75 | a failed `startAsync` is rethrown; a result type other than "success" (a cancel) changes nothing and raises nothing; a "success" without params throws; a "success" whose user-info request resolves signs in the user mapped from that payload, and one whose request rejects rethrows that error; nothing else signs a user in |
| `Auth.AppleSignInResult` | src/hooks/auth.tsx:80-102 | a failed `signInAsync` is rethrown; a credential without a full name throws before any state change; otherwise the user has the credential's id and email, the given name, and the avatar URL for that name |
| `Auth.SignedIn` | src/hooks/auth.tsx:68-69 | a sign-in sets the user and stores that same record under `@gofinances:user`, touching no other key |
| `Auth.SignedOut` | src/hooks/auth.tsx:105-108 | a sign-out empties the user and removes the stored record; the transaction lists stay |
| `Auth.Restored` | src/hooks/auth.tsx:111-114 | a stored user record is adopted; with nothing stored, or a value under the key that is not a user record, the session is unchanged; the store is only read |
| `Auth.RestoreAfterSignIn` | src/hooks/auth.tsx:112-113 | after a sign-in, a restart restores that same user |
| `Auth.RestoreAfterSignOut` | src/hooks/auth.tsx:112-113 | after a sign-out, a restart finds no user |
| `Auth.AuthProvider.constructor` | src/hooks/auth.tsx:42-43 | the context starts with the empty user and loading on |
| `Auth.AuthProvider.LoadStoredUserData` | src/hooks/auth.tsx:110-115 | the session becomes its restore, and loading ends in either case |
| `Auth.AuthProvider.SignInWithGoogle` | src/hooks/auth.tsx:47-76 | the new session is the old one with the Google outcome applied: signed in on success, unchanged on cancel or failure; the call rejects exactly when the outcome is a failure; loading is untouched |
| `Auth.AuthProvider.SignInWithApple` | src/hooks/auth.tsx:78-103 | the new session is signed in with the Apple user on success and unchanged on failure; the call rejects exactly on failure |
| `Auth.AuthProvider.SignOut` | src/hooks/auth.tsx:105-108 | the new session is the signed-out one |
| `Register.Resolve` | src/screens/Register/index.tsx:38-41 | the form is accepted iff the name is non-empty and the amount is numeric and strictly positive; a rejection names each failing field: required name, required amount, non-numeric amount, amount not positive |
| `Register.UserIdText` | src/screens/Register/index.tsx:96 | the user's id as it appears in the key; the signed-out (empty) user renders as "undefined" |
| `Register.TransactionsKey` | src/screens/Register/index.tsx:96 | the list key is the prefix `@gofinances:transactions_user:` followed by the user id |
| `Register.TransactionsKeyInjective` | src/screens/Register/index.tsx:96 | different user ids give different keys |
| `Register.NewTransaction` | src/screens/Register/index.tsx:86-93 | the new record takes name and amount from the form, type from the selection, category from the category key, and the given id and date |
| `Register.AppendTo` | src/screens/Register/index.tsx:97-103 | the stored list grows by exactly one element at its end with earlier elements unchanged; an absent value gives a one-element list; a value that is not a list cannot be appended to |
| `Register.RegisterStep` | src/screens/Register/index.tsx:77-118 | no type selected gives the type alert with the store untouched, even when the category is also missing; the placeholder category gives the category alert with the store untouched; otherwise a stored value that cannot be appended to gives the save-error alert with the store untouched, and any other value is saved: the appended list is written under the given key and nothing else changes |
| `Register.RegisterScreen.constructor` | src/screens/Register/index.tsx:44-52 | no type selected, the placeholder category, an empty form |
| `Register.RegisterScreen.HandleTransactionTypeSelect` | src/screens/Register/index.tsx:65-67 | the selected type becomes "positive" or "negative"; nothing else changes |
| `Register.RegisterScreen.SelectCategory` | src/screens/Register/index.tsx:175-180 | the category picker sets the category; nothing else changes |
| `Register.RegisterScreen.EditForm` | src/screens/Register/index.tsx:132-147 | the inputs set the form values; nothing else changes |
| `Register.RegisterScreen.HandleSubmit` | src/screens/Register/index.tsx:169-172 | a form the schema rejects reports its field errors and changes nothing; an accepted form goes through the register step with the schema's values |
| `Register.RegisterScreen.HandleRegister` | src/screens/Register/index.tsx:77-120 | the store and the outcome are those of the register step under the signed-in user's key; after a save the type, category and form are reset, and after any other outcome the screen is unchanged |
| `Dashboard.OfKindMembers` | src/screens/Dashboard/index.tsx:67-68 | a record is selected for a type exactly when it is in the list and has that type; the other selection takes exactly the records of any other type |
| `Dashboard.OfKindConcat` | src/screens/Dashboard/index.tsx:67-68 | like `filter`, selecting by type keeps order and repetitions: the selection from two lists joined is the two selections joined |
| `Dashboard.NotOfKindConcat` | src/screens/Dashboard/index.tsx:85-87 | selecting every other type keeps order and repetitions in the same way |
| `Dashboard.KindPartition` | src/screens/Dashboard/index.tsx:82-88 | the two selections split the list: counted with repetitions, every record is in exactly one of them |
| `Dashboard.TotalEntriesArePositives` | src/screens/Dashboard/index.tsx:79-84 | the entries accumulator after the pass is the sum of the "positive" transactions |
| `Dashboard.TotalExpensesAreTheRest` | src/screens/Dashboard/index.tsx:79-87 | the expenses accumulator is the sum of every transaction whose type is not "positive", not only the "negative" ones |
| `Dashboard.TotalsPartition` | src/screens/Dashboard/index.tsx:82-88 | every amount goes to exactly one of the two totals |
| `Dashboard.LastTransactionDate` | src/screens/Dashboard/index.tsx:63-69 | none exactly when no transaction has the type; otherwise the timestamp of one transaction of that type, and no transaction of that type is later |
| `Dashboard.Listed` | src/screens/Dashboard/index.tsx:93-100 | a listed record copies id, name, type and category, and keeps amount and date |
| `Dashboard.Highlights` | src/screens/Dashboard/index.tsx:104-123 | entries and expenses are the two partition sums, which add up to the sum of all amounts; net is entries minus expenses; each card is dated by its own type's latest timestamp; the total card is dated by the latest expense |
| `Dashboard.MapTransactions` | src/screens/Dashboard/index.tsx:79-101 | the pass lists every record in order and ends with the two accumulators equal to the totals |
| `Dashboard.DashboardScreen.constructor` | src/screens/Dashboard/index.tsx:45-47 | loading on, no transactions, no cards |
| `Dashboard.DashboardScreen.LoadTransactions` | src/screens/Dashboard/index.tsx:74-126 | with a stored list: the screen lists it with the same length and order, shows its highlights and stops loading; with a stored value that is not a list: it rejects and the screen is unchanged (still loading) |
| `Resume.AddMonth` | src/screens/Resume/index.tsx:54 | the next month, one month index later, with December rolling into January of the next year |
| `Resume.SubMonth` | src/screens/Resume/index.tsx:54 | the previous month, one month index earlier, with January rolling back into December |
| `Resume.PrevAfterNext` | src/screens/Resume/index.tsx:53-56 | "prev" after "next" returns to the same month and year |
| `Resume.NextAfterPrev` | src/screens/Resume/index.tsx:53-56 | "next" after "prev" returns to the same month and year |
| `Resume.MonthExpenses` | src/screens/Resume/index.tsx:65-69 | a transaction is kept iff its type is "negative" and both its month and its year are the selected ones |
| `Resume.PercentOf` | src/screens/Resume/index.tsx:89 | the percentage is finite exactly when the month's total is not zero |
| `Resume.CategorySum` | src/screens/Resume/index.tsx:78-84 | the inner accumulator over the month's expenses filed under one key is never negative while amounts are positive |
| `Resume.CategorySumPositive` | src/screens/Resume/index.tsx:78-86 | with positive amounts, a category's sum passes the `> 0` test exactly when some expense of the month is filed under it |
| `Resume.Breakdown` | src/screens/Resume/index.tsx:75-100 | no more entries than categories; each entry's total is positive and equals the sum of that month's expenses filed under its key; name and colour come from that category; the percentage is against the month's total |
| `Resume.BreakdownHasEveryPositive` | src/screens/Resume/index.tsx:86 | every category whose sum is positive is emitted (with Breakdown's contract: emitted iff its sum is positive) |
| `Resume.BreakdownOfOne` | src/screens/Resume/index.tsx:77-99 | one category gives one entry, with its key, name, colour, sum and share, when its sum is positive, and no entry otherwise |
| `Resume.BreakdownKeysDistinct` | src/screens/Resume/index.tsx:77-99 | with distinct category keys, no key is emitted twice |
| `Resume.BreakdownConcat` | src/screens/Resume/index.tsx:77 | output follows the category list's order: the entries for two lists joined are those of the first followed by those of the second |
| `Resume.BreakdownAddsUpToTotal` | src/screens/Resume/index.tsx:71-100 | with distinct category keys, every expense's category listed, and positive amounts, the emitted totals add up to the month's total expense |
| `Resume.PercentsAddUpTo100` | src/screens/Resume/index.tsx:89 | under the same conditions, and with at least one expense, the exact percentages add up to 100 |
| `Resume.ResumeScreen.constructor` | src/screens/Resume/index.tsx:48-50 | not loading, the given current month selected, no entries |
| `Resume.ResumeScreen.HandleDataChange` | src/screens/Resume/index.tsx:53-56 | "next" selects the following month and "prev" the previous one; nothing else changes |
| `Resume.ResumeScreen.LoadData` | src/screens/Resume/index.tsx:58-104 | with a stored list: the entries are the breakdown of the selected month's expenses and loading ends; with a stored value that is not a list: it rejects with loading still on and the entries unchanged |
| `AppFlow.SaveLeavesScreenDataAlone` | src/screens/Register/index.tsx:96 | a save never changes the key the dashboard and the summary read, nor the session key |
| `AppFlow.AppendMovesOneTotal` | src/screens/Dashboard/index.tsx:83-87 | appending a transaction moves exactly one total by its amount: entries for "positive", expenses for any other type |
| `AppFlow.LastDateAfterAppend` | src/screens/Dashboard/index.tsx:63-69 | after appending, a type's latest timestamp is the larger of the old one and the new transaction's, when the new one has that type |
| `AppFlow.AppendToMonthExpenses` | src/screens/Resume/index.tsx:65-69 | an appended expense of the selected month joins the end of that month's expenses; any other appended transaction leaves them unchanged |
| `AppFlow.RestartAfterGoogleSignIn` | src/hooks/auth.tsx:47-115 | after a Google "success" whose user-info request resolves, the sign-in resolves and a restart on the same store restores the user mapped from that payload |
| `AppFlow.RestartAfterAppleSignIn` | src/hooks/auth.tsx:97-115 | after an Apple sign-in that resolves, a restart on the same store restores that user |
| `AppFlow.RestartAfterSignOut` | src/hooks/auth.tsx:105-115 | after a sign-out, a restart on the same store finds no user and ends loading; no other key changes |

## Left out

- Rendering: styled components, the loading indicator, the pie chart, the modal and its open/close handlers, alert display, navigation after a save (`navigate('Listagem')`), keyboard handling, and the dashboard header's fixed name and photo.
- Storage failures: every AsyncStorage call succeeds in the model. So a `getItem` rejection that leaves `userStorageLoading` on is not modelled. Neither is a `setItem` rejection after `setUser`, which would leave memory and store apart.
- JSON: the store holds parsed values. The only parse-related failure modelled is a value of the wrong kind (an object where an array is expected).
- `Auth.Restored`: a value under `@gofinances:user` that is not a user record leaves `user` unchanged. The source would adopt whatever `JSON.parse` returns; the app never writes such a value there.
- `Auth.AppleSignInResult`: the credential's email and given name are always strings. Apple's null email and name on repeat sign-ins are not modelled. A missing full name is modelled and throws.
- `Auth.GoogleUser`: the payload always has the four fields read. A payload lacking `given_name` or `picture` would give `undefined` fields in the source and cannot be expressed here.
- `encodeURI` in general: only its output on `profile email` is modelled, as a constant. The client id, redirect URI, access token and given name are not encoded by the source, and the URL contracts promise the read-back only when they hold no '&'.
- Provider SDKs, `fetch`, `response.json()`, the environment's client id and redirect URI, `uuid.v4()` and `new Date()`: all are parameters.
- Number formatting: amounts are exact integers rather than doubles, and `Number()` parsing is folded into the form's amount input. Locale currency and date formatting are dropped, so listed amounts, dates and card dates are the raw values. The percentage is exact, without `toFixed(0)` rounding.
- Dates: year, month and timestamp are independent fields, so time zones are not modelled. `addMonths`/`subMonths` day clamping (31 January to 28 February) is not modelled, because only the month and year are selected.
- The category list (`src/utils/categories`) is not part of this model; the summary takes it as a parameter.
- React timing: the summary reloading when `selectedDate` changes, concurrent sign-ins, and the stale `console.log(user)` are not modelled. That the summary's loading flag is on during a load can only be seen in the model when the load throws.
- `Dashboard.LastTransactionDate`: with no transaction of the type, the source's `Math.max` of nothing yields an invalid date, which then prints as text; the model returns none instead.
- Schema library internals beyond the two fields' rules; the field error messages are modelled as one value per message.
