# KB Gold Jewelry buy-back screen: a verified model of its logic

The application is a single React screen for a jewelry buy-back shop. The
operator unlocks it with a PIN and records a purchase from a customer, with a
signature and an optional photo of the customer's ID. The screen then lists
past purchases with a search box, prints a monthly report and shows
month-to-date figures on a dashboard. This project models the screen's logic
in Dafny and leaves out its rendering and its calls to the hosted database.
The logic comes in four parts:

- **The PIN lock** (`access.dfy`, module `Access`). The screen starts
  locked. The PIN `9812` unlocks it. Five wrong PINs in a row
  within one page load halt it; a reload resets the count, and only the halt
  flag is persisted. A
  halted screen accepts only the master reset code `159753`, which lifts the
  halt but leaves the screen locked. The halt is also written to the
  device's local storage under `gb_system_halted`, so it survives a reload.
  The state is a pure `Session` value stepped by `Submit` and `Lock`. The
  class `LockScreen` keeps the component's own state variables and the
  storage map, and its methods are proved to step exactly as those
  functions do. `Invariant` is proved to hold across every sequence of
  typing, submissions and locks (`RunKeepsInvariant`).
- **The history search** (`history.dfy`, module `History`). This is an
  order-preserving filter. It does a case-insensitive substring match of the
  search term on customer name, item description, brand and model. A
  missing field is searched as the empty string.
- **The monthly report and the dashboard figures** (`reports.dfy`, module
  `Reports`). These filter and sum over the purchase list. The generic
  filter, count and sum, with their lemmas, are in `seqs.dfy`.
- **Saving a purchase** (`submission.dfy`, module `Submission`). Saving is
  refused when no user is signed in or there is no signature. Otherwise the
  form becomes a document with the weight and price read as numbers, the
  time and the creating user. Only a successful add resets the form and
  switches to the history screen. `SubmitSpec` states this as a function,
  and the method `Desk.HandleSubmit` is proved to behave as it does.

Supporting modules: `Wrappers` (Option, Result), `Text` (`toLowerCase` and
`includes`), `Numbers` (`parseFloat(s) || 0`) and `Records` (dates, the
stored purchase, the form, the screens).

Modelling choices:
- A point in time is `Date(year, month, offset)`. `month` is numbered as
  `getMonth()` numbers it (0 is January). `offset` is the time elapsed since
  local midnight on the first of that month. The dates are ordered
  year, then month, then offset.
- Stored documents can lack any field, so every field of `Purchase` is an
  `Option`. A missing date makes every date test false. A missing price or
  weight counts as 0.
- Numbers are exact reals.
- The clock (`now`), the database's answer to the add (a new id or an
  error), the signed-in user and local storage are all given to the model
  as parameters or fields.

The model follows the code as written:
- The PIN and master code are hard-coded constants (src/App.js:148-149), not
  values loaded from settings.
- Saving makes no check on the price, so a zero, negative or unreadable price
  is saved (src/App.js:358, `Submission.NoPriceCheck`).
- The search looks at customer name, item description, brand and model
  (src/App.js:442-445). It does not look at phone or price.
- The report selects one calendar month and year (src/App.js:421), not a
  date range.
- Only one month-to-date window exists, and it has no upper end
  (src/App.js:427-428).

## Model

| member | source | states |
|---|---|---|
| `Access.Startup` | src/App.js:199-203 | Start-up leaves the screen locked with no failures and an empty PIN field. It is halted exactly when storage holds `'true'` under the halt key, and the invariant holds. |
| `Access.Submit` | src/App.js:270-303 | Every submission clears the PIN field. Halted with the master code: halt lifted in memory and in storage, counter 0, still locked. Halted with any other code, including the PIN: only the field changes. Correct PIN: unlocked, counter 0, halt flag and storage untouched. Wrong PIN: counter +1; halted and persisted exactly when it reaches 5; otherwise storage unchanged and `5 - n` tries reported. |
| `Access.Lock` | src/App.js:658 | The lock button leaves the screen locked and keeps the invariant. |
| `Access.RunKeepsInvariant` | src/App.js:270-303 | Across any sequence of typing, submissions and locks, four facts hold. The counter stays in 0..5. A count of 5 means halted. Halted means locked. The in-memory halt flag equals the persisted one. |
| `Access.RestartRestoresHalt` | src/App.js:200-203 | After any sequence of events, a reload comes back halted exactly when the screen was halted. |
| `Access.Apply` | src/App.js:270-303 | One event (typing, a PIN submission, the lock button) keeps the invariant. Only the operational PIN, entered while not halted, takes the screen from locked to unlocked. Only the master code lifts a halt. A submission while unlocked changes nothing. |
| `Access.HaltedIgnoresCodes` | src/App.js:273-284 | While halted, a sequence of codes without the master code changes nothing but the PIN field, even when it contains the operational PIN. |
| `Access.ConsecutiveFailures` | src/App.js:291-301 | From an unhalted locked state, after n codes none of which is the PIN the screen is still locked. It is halted exactly when the previous count plus n reaches 5, and the counter stops at 5. The master code counts as a wrong PIN up to the halt, and is excluded only after it. |
| `Access.FifthFailureHalts` | src/App.js:292-298 | From a fresh start with no stored halt, fewer than five wrong PINs never halt. Five or more halt the screen and persist the flag. The master code counts as wrong among the first five. |
| `Access.ReloadResetsCount` | src/App.js:200-203 | The failure count (src/App.js:145) is not persisted; only the halt flag is restored. After fewer than five wrong PINs and a reload, fewer than five more leave the screen locked but not halted, with only the new failures counted. |
| `Access.MasterThenPinUnlocks` | src/App.js:274-290 | From a halt, the master code lifts the halt but leaves the screen locked. Entering the PIN after it unlocks the screen with counter 0 and no stored halt. |
| `Access.LockScreen.constructor` | src/App.js:143-146 | The component's initial state followed by the start-up restore gives `Startup` of the stored flags. |
| `Access.LockScreen.TypePin` | src/App.js:496 | Typing replaces the PIN field and nothing else. |
| `Access.LockScreen.SubmitPin` | src/App.js:270-303 | The handler, run on the component's state while locked, yields the state and message `Submit` gives, and keeps the invariant. |
| `Access.LockScreen.LockNow` | src/App.js:658 | The lock button sets the locked flag and nothing else, and keeps the invariant. |
| `Text.Lower` | src/App.js:441-445 | Lower-casing keeps the length and maps each character on its own: A-Z to a-z, everything else unchanged, and no upper-case ASCII letter is left. Partner: `Text.LowerIdempotent`. |
| `Text.Contains` | src/App.js:447-450 | The empty needle is contained in every text, and a needle is never contained in a shorter text. Partner: `Text.ContainsIffOccurs`. |
| `Text.ContainsIffOccurs` | src/App.js:447-450 | `includes` holds exactly when the needle occurs at some position of the text. |
| `Text.LowerIdempotent` | src/App.js:441-445 | Lower-casing twice is lower-casing once. |
| `History.FilteredPurchases` | src/App.js:438-461 | The search result is no longer than the list, and each purchase in it comes from the list and, for a non-empty term, matches it. Characterised by `History.EmptySearchShowsAll`, `History.SearchSelectsExactly` and `History.SearchHitMeaning`. |
| `History.EmptySearchShowsAll` | src/App.js:439 | An empty search term returns the purchase list unchanged. |
| `History.SearchHitMeaning` | src/App.js:441-450 | A purchase matches exactly when the lowered term occurs at some position of its lowered customer name, item description, brand or model. |
| `History.SearchSelectsExactly` | src/App.js:438-461 | For a non-empty term the result is a subsequence of the list, in order. Each matching purchase occurs as often as in the list, and a non-matching one not at all. |
| `History.SearchIgnoresTermCase` | src/App.js:441 | Searching for a term and for its lower-cased form gives the same result. |
| `History.MissingFieldSearchesAsEmpty` | src/App.js:442-445 | A missing name, description, brand or model matches exactly as an empty one does. |
| `Records.DateLeqTotalOrder` | src/App.js:428 | The order on dates used by the window's `>=` is reflexive, total, antisymmetric and transitive. |
| `Records.StartOfMonth` | src/App.js:427 | The first of the month is no later than `now` and no later than any instant of the same month. |
| `Reports.ReportRows` | src/App.js:418-423 | The report rows are no more than the purchases, and each row comes from the list and is dated in the selected month and year. Characterised by `Reports.ReportRowsExact`. |
| `Reports.ReportTotal` | src/App.js:629 | The total of no rows is 0, and rows with no negative price total at least 0. Characterised by `Reports.ReportTotalMeaning` and `Reports.ReportTotalAppend`. |
| `Reports.GetAnalytics` | src/App.js:425-434 | The month count never exceeds the number of purchases, no purchases give all three figures 0, and with no negative price (weight) the spent (grams) total is not negative. Characterised by `Reports.AnalyticsCount`, `Reports.AnalyticsSums` and `Reports.AnalyticsAddOne`. |
| `Reports.ReportRowsExact` | src/App.js:418-423 | The report rows are a subsequence of the purchases, in order, holding exactly the purchases dated in the selected month and year, with their multiplicity. An undated purchase is never a row. |
| `Reports.ReportTotalMeaning` | src/App.js:629 | The report total is the sum, over all purchases, of the price of those in the selected month (a missing price counts 0), and 0 for the rest. |
| `Reports.ReportTotalAppend` | src/App.js:629 | The report total over two concatenated lists is the sum of their report totals. |
| `Reports.MonthWindowMeaning` | src/App.js:426-428 | A purchase is in the dashboard's window exactly when it is dated in the current month or any later month. The window has no upper end. |
| `Reports.AnalyticsCount` | src/App.js:428-433 | The month count is the number of purchases dated on or after the first of the current month. |
| `Reports.AnalyticsSums` | src/App.js:430-431 | Spent is the sum of the window's prices (missing as 0). Grams is the sum of the window's weights over `itemType` Gold only. |
| `Reports.AnalyticsAddOne` | src/App.js:425-434 | Adding one purchase changes count, spent and grams by exactly its own contribution. A purchase that is not Gold never changes grams. |
| `Reports.ReportWithinMonthCount` | src/App.js:418-434 | The current month's report never has more rows than the dashboard's month count. |
| `Reports.TwoPurchasesThisMonth` | src/App.js:425-434 | Two purchases dated now and priced 50 and 75 give a month total of 125 over 2 transactions. |
| `Numbers.ParseUnsigned` | src/App.js:357-358 | After the sign, the modelled `parseFloat` (Infinity is not read) finds a number exactly when the text starts with a digit or with a dot and a digit, and that number is not negative. |
| `Numbers.ParseSigned` | src/App.js:357-358 | In the modelled `parseFloat` (Infinity is not read), a leading `-` or `+` is skipped before the unsigned number, and only a leading minus gives a negative result. |
| `Numbers.ParseFloat` | src/App.js:357-358 | In the modelled `parseFloat` (Infinity is not read), a number is found only in text containing a digit, a negative one only in text containing a minus sign, and always when a digit follows the leading white space. Round trips and examples: `Numbers.NatRoundTrip`, `Numbers.ReadsUnsignedDecimal`, `Numbers.MinusNegates`. |
| `Numbers.Coerce` | src/App.js:357-358 | `parseFloat(s) \|\| 0` is 0 for text without a digit, and never negative for text without a minus sign. |
| `Numbers.NatRoundTrip` | src/App.js:357-358 | Reading back a whole number written in decimal yields that number. |
| `Numbers.ReadsUnsignedDecimal` | src/App.js:357-358 | `whole.frac` in digits reads as the exact decimal value. |
| `Numbers.MinusNegates` | src/App.js:357-358 | A leading minus negates the number that follows it and does not make it unreadable. |
| `Numbers.ReadsFivePointFive` | src/App.js:357 | A weight typed as "5.5" is saved as 5.5. |
| `Numbers.ReadsHundred` | src/App.js:358 | A price typed as "100.00" is saved as 100. |
| `Numbers.NonNumbersReadAsZero` | src/App.js:357-358 | An empty field or text without a number is saved as 0. |
| `Numbers.ReadsNegative` | src/App.js:358 | "-5" is saved as -5. |
| `Submission.SubmitSpec` | src/App.js:345-380 | Refused with no user exactly when none is signed in. Refused for the signature exactly when a user is present and the signature is null or empty. Saved exactly when both are present and the add succeeds, with the new id, the date `now` and the user's uid. Otherwise the store's error is reported with the document that was sent. |
| `Submission.ToSave` | src/App.js:355-361 | The document to save has no id, is stamped with `now` and the user's uid, passes both images through, and reads a price or weight typed without any digit as 0. Characterised by `Submission.SavedRecordMatchesForm`. |
| `Submission.SavedRecordMatchesForm` | src/App.js:355-361 | The saved record carries every form field unchanged. The weight and price are the form's text read by `parseFloat(...) \|\| 0`. |
| `Submission.GoldExampleSaved` | src/App.js:355-361 | A Gold 14k form with weight "5.5" and price "100.00" is saved with weight 5.5, price 100, type Gold and karat 14k. |
| `Submission.NoPriceCheck` | src/App.js:347-358 | With a user and a signature the purchase is saved whatever the price. An empty price is saved as 0 and "-5" as -5. |
| `Submission.SavedPurchaseCountsThisMonth` | src/App.js:355-361 | A purchase just saved adds one to this month's count and its price to the spent total. It adds its weight to grams only when it is Gold. |
| `Submission.Desk.constructor` | src/App.js:175-193 | The component starts with no user, the blank form (Gold, 14k, Cash, empty texts, no images), the dashboard and no purchases. |
| `Submission.Desk.AuthStateChanged` | src/App.js:225-226 | A signed-in user replaces the current one. A null identity leaves the current one in place. |
| `Submission.Desk.ReceiveSnapshot` | src/App.js:242-249 | Each snapshot replaces the purchase list wholesale. |
| `Submission.Desk.HandleSubmit` | src/App.js:345-380 | The handler returns what `SubmitSpec` gives for the current user and form. After a successful save the form is the blank form and the view is History. Otherwise form and view are unchanged. |

## Left out

- Connecting to the database and signing in anonymously are left out: they are asynchronous calls into an external service. The same goes for the settings read and save and the connection-status bookkeeping. The signed-in user and each snapshot enter the model through `Desk.AuthStateChanged` and `Desk.ReceiveSnapshot`. The add call's outcome is a parameter of `HandleSubmit`.
- The error text built in the save handler's `catch` is left out. It is display text made from the database's error codes; the model carries the error value unchanged in `SaveFailed`.
- The signature pad, ID photo capture and image encoding are left out: they are browser drawing and file APIs. Images are opaque strings.
- Alerts, printing, `setTimeout`, console logging and the e-mail reset link are left out: they are side effects with no state. The PIN messages are modelled as `Access.Alert` values. The receipt printed after a save is the `receipt` in `Saved`.
- All rendering, number and date formatting, the item icons, the report month and year pickers and the view-switching buttons are left out: they are presentational.
- The form's `required` input attributes are left out: the browser enforces them, not the handlers.
- The PIN field's `maxLength` of 6 (src/App.js:497) is left out: the browser enforces it, so the `Type` event accepts a typed text of any length.
- The form's per-field change handlers and the signature save and clear handlers are left out. They only overwrite one form field, and the model takes the form as it stands at submission.
- Numbers.ParseUnsigned, Numbers.ParseSigned, Numbers.ParseFloat, Numbers.Coerce: model `parseFloat` on exact reals and do not read `Infinity`. "Infinity", "+Infinity" and "-Infinity" give no number here, where JavaScript gives an infinity, so `Coerce` reads them as 0. The form's `type="number"` inputs (src/App.js:802, 836) never hold that text. Floating-point rounding of typed numbers and of sums is not modelled.
- Text.Lower: lower-cases the ASCII letters only. JavaScript's `toLowerCase` also maps the other Unicode letters.
- Records.Date: an abstract, totally ordered local time. Real calendar and time-zone arithmetic is not modelled.
- Submission.SubmitSpec: uses one clock reading `now` both for the stored date and for the receipt's date. The code reads the clock twice, once before and once after the add.
- Submission.Desk.HandleSubmit: modelled as one atomic step, although the handler awaits the add (src/App.js:363). A second Save pressed while an add is pending sends a second document, and form edits made during the await are discarded by the reset at src/App.js:373-379; neither interleaving is modelled.
- Access.RunKeepsInvariant, Access.RestartRestoresHalt: storage is modelled as written by this screen alone. Other tabs of the same site share `localStorage` and can set or remove the halt flag (src/App.js:277, 298) behind a running screen, and site data can be cleared; neither is modelled. The flag rule of `Access.Invariant` therefore holds per screen instance.
- Access.LockScreen.SubmitPin: requires the screen to be locked, because the PIN form is rendered only on the lock screen.
