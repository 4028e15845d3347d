# AltoqueFRONTEND loan and cash-desk rules, in Dafny

This project models the business rules of the AltoqueFRONTEND web client. The client is
used by a small lender to register clients, grant loans and take instalment payments at a
cash desk. The model covers:

- **Repayment schedule** (`ScheduleCalculator`). This is the French annuity rounded to
  cents, walked month by month, with the last instalment corrected so the loan closes. It
  is an imperative method, `CalculateLoanSchedule`, proved row by row against a
  specification function. The lemmas show that the principal portions repay exactly the
  amount lent. They also show that the unrounded annuity itself closes the loan.
- **Cash rounding and the browser-side cash ledger** (`OperationsData`). Rounding goes to
  the nearest 0.10 in integer cents. The register is a class holding the transaction log
  and the open/closed status. The summary is folded from the log.
- **Closing panel** (`ClosurePanel`). It compares the counted cash with the theoretical
  total, enables closing only within a cent, and hands the count on.
- **Transaction log filter** (`TransactionLogTable`). A payment-method filter that is
  toggled one method at a time.
- **Payment modal** (`TransactionModal`). It builds the suggested amounts, applies the
  cash-payment guards, shows the cash rounding preview and steps from input to success.
- **Loan form** (`NewLoan`). It covers the legal-age check, the one-UIT threshold, the
  email and phone patterns, and the validation chain before a client is saved. It also
  covers how the client is looked up and the guards before a loan is sent.
- **Dashboard** (`Dashboard`). It covers the DNI/RUC length guard, digit-only input, the
  active-loan filter and the stub handed to the loan form for a new document.

Supporting modules:

- `Wrappers`: `Option`, `Result`.
- `Lists`: `Array.prototype.filter` and subsequences.
- `Text`: digits, `\s`, `toLowerCase`, `includes`, `parseFloat`, `parseInt`.
- `Calendar`: dates, month arithmetic and `YYYY-MM-DD` parsing.
- `Clients`: the client and loan records.

How values are modelled:

- Money is an exact `real` in the schedule, the panel, the modal and the loan form.
- Money is whole cents (`int`) in the ledger. This keeps its sums and the 0.10 rounding
  exact.
- React state becomes class fields and handlers become methods.
- Every service call is a parameter holding the answer, with `None` standing for a
  thrown error. The same goes for `Date.now()` and the clock.

Behaviours of the code that the model keeps as they are:

- `calculateRounding` rounds every amount to the nearest 0.10, halves up (10.25 → 10.30),
  amounts ending in 5 cents included.
- `openCashRegister` on an open register appends a second opening instead of failing.
  `closeCashRegister` only flips the status and records no closing entry.
- No payment is ever recorded into the local ledger by these files.
- The regular payment is the annuity rounded once to cents: 346.75 a month for 1000 at
  24% over three months (`ScheduleCalculator.RegularPaymentExample`).
- The summary is dated by the first opening's timestamp, or by the clock when there is no
  opening or its timestamp is empty (`openingTx?.timestamp || …`).

One place where the model uses the corrected behaviour instead: the client form's
validation (`NewLoan.ValidateClientForm`) reads the age on the calendar date typed
(`NewLoan.IsOfLegalAge`), the corrected half of the finding below.
`NewLoan.IsOfLegalAgeAsWritten` is the check as the browser runs it.

An observation on the log table: its method filter offers the menu keys `cash`, `yape`,
`plin` and `card`, while the ledger sums transactions under the methods `EFECTIVO`,
`YAPE`, `PLIN` and `TARJETA` (the methods listed at `src/types/operations.ts:95`). On a
log whose methods are those, any selection from the menu shows no transaction
(`TransactionLogTable.MenuSelectionShowsNoLedgerEntry`). Which
method strings the backend sends to this table is not part of this model, so
`TransactionLogTable.FilteredTransactions` is stated for whatever strings are selected.

## Model

| member | source | states |
|---|---|---|
| ScheduleCalculator.CalculateLoanSchedule | src/lib/scheduleCalculator.ts:4-51 | one row per instalment (none for a non-positive count), row `k` being instalment `k`: due `k` months after the start, paying the rounded annuity, or in the last month the remaining balance plus its interest, rounded to cents |
| ScheduleCalculator.RoundCents | src/lib/scheduleCalculator.ts:19 | `Math.round(x*100)/100` yields a whole number of cents within half a cent of `x` |
| ScheduleCalculator.RoundCentsOfWholeCents | src/lib/scheduleCalculator.ts:45 | rounding an amount already in cents leaves it unchanged, so regular rows show the rounded annuity itself |
| ScheduleCalculator.RegularRowsPayTheRoundedAnnuity | src/lib/scheduleCalculator.ts:13-28 | every instalment but the last pays the annuity `P·r·(1+r)^n/((1+r)^n−1)` rounded to cents |
| ScheduleCalculator.RowAmountsAreCents | src/lib/scheduleCalculator.ts:45 | every row amount is whole cents and within half a cent of that month's payment |
| ScheduleCalculator.RowsFallDueMonthly | src/lib/scheduleCalculator.ts:38-39 | row `i` falls due `i` calendar months after the start, consecutive rows one month apart |
| ScheduleCalculator.PrincipalRepaidSoFar | src/lib/scheduleCalculator.ts:35-36 | before the last month, the principal repaid so far is the loan minus the balance still owed |
| ScheduleCalculator.PrincipalsRepayTheLoan | src/lib/scheduleCalculator.ts:30-36 | the last-instalment correction closes the loan: principal portions sum to the amount lent and the final balance is zero |
| ScheduleCalculator.BalanceClosedForm | src/lib/scheduleCalculator.ts:25-36 | after `k` payments of `p` the balance satisfies `r·B_k = P·r·(1+r)^k − p·((1+r)^k − 1)` |
| ScheduleCalculator.ExactAnnuityClosesTheLoan | src/lib/scheduleCalculator.ts:13-16 | paying the unrounded annuity every month leaves nothing owed after `n` months |
| ScheduleCalculator.RegularPaymentExample | src/lib/scheduleCalculator.ts:10-19 | 1000 at 24% a year over three months pays 346.75 a month |
| Calendar.AddMonths | src/lib/scheduleCalculator.ts:38-39 | moving `k` months on advances the month count by exactly `k`, keeps a valid month and the day of the month |
| Calendar.ParseIsoDate | src/pages/NewLoan.tsx:34 | a string that reads as a date reads as a valid calendar date with a four-digit year |
| Calendar.ParseFormatIso | src/pages/NewLoan.tsx:34 | every valid date with a year of at most four digits, written zero-padded as `YYYY-MM-DD`, reads back as itself |
| Calendar.ParsedDateIsFormatted | src/pages/NewLoan.tsx:34 | a string that reads as a date is exactly that date's zero-padded `YYYY-MM-DD` form, so no other string reads as it |
| Calendar.PreviousDay | src/pages/NewLoan.tsx:34-40 | the day before a valid date is a valid, earlier date with no valid date strictly between the two |
| OperationsData.CalculateRounding | src/lib/operationsData.ts:13-17 | the rounded amount is a multiple of ten cents, the adjustment is rounded minus original, within (−5, +5] cents |
| OperationsData.RoundingIsNearestTenCents | src/lib/operationsData.ts:14 | the rounded amount is the unique multiple of ten cents in (−5, +5] of the amount, hence the nearest, ties going up |
| OperationsData.RoundingIdempotent | src/lib/operationsData.ts:13-17 | rounding a rounded amount needs no adjustment |
| OperationsData.RoundingExamples | src/lib/operationsData.ts:13-17 | 10.25 → 10.30 (+0.05), 10.23 → 10.20 (−0.03), 10.27 → 10.30 (+0.03), 10.20 unchanged |
| OperationsData.FindOpening | src/lib/operationsData.ts:77 | `find` of the opening: the position of the first `APERTURA`, or none when there is none |
| OperationsData.OpeningTransaction | src/lib/operationsData.ts:43-53 | the opening entry is an `APERTURA` in cash whose system and real amounts are the initial balance, with no rounding |
| OperationsData.Summarize | src/lib/operationsData.ts:71-95 | opening balance of the first opening (0 without one); cash entries, rounding and digital entries are the filter-then-reduce sums of cash and digital payments; the theoretical total is opening balance plus cash entries; the log and status are passed through; dated by the first opening's timestamp, or by the clock when there is no opening or its timestamp is empty |
| OperationsData.TotalIsSumOfFiltered | src/lib/operationsData.ts:75-82 | summing the counted entries in one pass equals filtering the log and then reducing it |
| OperationsData.CashRegister.Summary | src/lib/operationsData.ts:71-95 | the register's summary shows its own log, reports it open exactly when it is, and totals the opening balance plus the cash payments |
| OperationsData.TotalAppend | src/lib/operationsData.ts:80-82 | a `reduce` sum over an extended log is the old sum plus the new entry's share when it is counted |
| OperationsData.CashRegister.constructor | src/lib/operationsData.ts:33-37 | the register holds the stored log and status |
| OperationsData.CashRegister.OpenRegister | src/lib/operationsData.ts:39-65 | a closed register restarts its log with the opening entry, an open one appends it; the register is then open and the entry returned |
| OperationsData.CashRegister.CloseRegister | src/lib/operationsData.ts:67-69 | closing only sets the status to closed; the log is untouched |
| OperationsData.SummaryAfterFreshOpening | src/lib/operationsData.ts:71-95 | right after opening from closed, the summary shows the initial balance as opening and theoretical total, zero entries and rounding, dated by the opening (by the clock if its timestamp is empty) |
| OperationsData.FindOpeningAppend | src/lib/operationsData.ts:77 | appending to the log keeps the first opening, or makes an appended opening the first |
| OperationsData.ReopeningKeepsTotals | src/lib/operationsData.ts:56-91 | opening an already open register changes no figure of the summary: the first opening still sets the balance |
| OperationsData.CashPaymentAddsToDrawer | src/lib/operationsData.ts:75-91 | a cash payment raises cash entries and the theoretical total by its real amount and the rounding total by its adjustment |
| OperationsData.DigitalPaymentSkipsDrawer | src/lib/operationsData.ts:76-91 | a Yape/Plin/card payment raises digital entries only; the theoretical total is unchanged |
| ClosurePanel.DifferenceVerdict | src/components/cashregister/ClosurePanel.tsx:108-121 | balanced exactly when the difference is under a cent in size; otherwise a surplus of the difference when positive, else a shortage of its opposite, at least a cent either way |
| ClosurePanel.CloseEnabled | src/components/cashregister/ClosurePanel.tsx:132 | the close button is enabled exactly when nothing is processing, a count was typed and the panel shows the balanced verdict |
| ClosurePanel.CloseEnabledIff | src/components/cashregister/ClosurePanel.tsx:132 | the close button is enabled exactly when nothing is processing, something was typed and counted minus theoretical lies strictly within ±0.01 |
| ClosurePanel.EmptyCountIsZero | src/components/cashregister/ClosurePanel.tsx:21 | an empty count reads as 0 and never enables closing |
| ClosurePanel.CountingTheTotalEnablesClose | src/components/cashregister/ClosurePanel.tsx:21-23 | typing the ledger's theoretical total as `whole.frac` enables closing |
| ClosurePanel.VerdictExamples | src/components/cashregister/ClosurePanel.tsx:108-121 | 620.00 counted against 623.50 is a 3.50 shortage, 623.50 balances, 623.52 is a 0.02 surplus |
| ClosurePanel.Panel.constructor | src/components/cashregister/ClosurePanel.tsx:17-19 | the panel starts with an empty count, not processing, no close requested |
| ClosurePanel.Panel.SetCountedCash | src/components/cashregister/ClosurePanel.tsx:84 | typing replaces the count and nothing else |
| ClosurePanel.Panel.HandleClose | src/components/cashregister/ClosurePanel.tsx:26-38 | closes exactly when a count was typed, handing the parsed count to `onCloseRegister` and ending not processing; otherwise nothing changes |
| TransactionLogTable.FilteredTransactions | src/components/cashregister/TransactionLogTable.tsx:44-46 | no selection shows the whole log in order; a selection shows exactly the transactions whose method is selected, each as many times as in the log, as a subsequence of the log |
| TransactionLogTable.ToggleFilter | src/components/cashregister/TransactionLogTable.tsx:48-54 | toggling removes a selected method, keeping the others in order and with their counts, or appends an unselected one at the end; every other method keeps its membership |
| TransactionLogTable.ToggleTwiceRestores | src/components/cashregister/TransactionLogTable.tsx:48-54 | toggling an unselected method twice gives the original selection back |
| TransactionLogTable.ToggleKeepsNoDuplicates | src/components/cashregister/TransactionLogTable.tsx:48-54 | toggling keeps the selection free of duplicates |
| TransactionLogTable.MenuSelectionShowsNoLedgerEntry | src/components/cashregister/TransactionLogTable.tsx:27-46 | on a log whose methods are the ledger's (`EFECTIVO`, `YAPE`, `PLIN`, `TARJETA`), any non-empty selection of menu keys shows no transaction |
| TransactionLogTable.SingleMethodFilter | src/components/cashregister/TransactionLogTable.tsx:44-53 | selecting one method on an empty selection shows exactly the transactions paid that way, in order |
| Lists.Filter | src/components/cashregister/TransactionLogTable.tsx:45 | `filter` keeps exactly the elements passing the test, each as many times as it occurs, in order |
| Text.KeepDigits | src/pages/Dashboard.tsx:178 | `replace(/\D/g, "")` keeps every digit typed, as many times as typed and in order, and nothing else |
| Text.SanitizeDigits | src/pages/Dashboard.tsx:178 | the first `max` of the kept digits: a prefix of all the digits typed, of length the smaller of their count and `max` |
| Text.SanitizeIdempotent | src/pages/Dashboard.tsx:178 | sanitising a sanitised value changes nothing |
| Text.ToLower | src/pages/Dashboard.tsx:120 | `toLowerCase` keeps the length and lower-cases character by character |
| Text.ParseFloat | src/components/cashregister/ClosurePanel.tsx:21 | `parseFloat` is NaN exactly when no digit follows the sign, neither at once nor after a point; the number read has the sign typed |
| Text.ParseInt | src/pages/NewLoan.tsx:279 | `parseInt` is NaN exactly when no digit follows the sign; the number read has the sign typed |
| Text.ParseIntTruncatesParseFloat | src/pages/NewLoan.tsx:277-279 | whenever `parseInt` reads a number, `parseFloat` reads one within a unit of it on the side of its sign: the fraction cut off |
| Text.ParseEmpty | src/components/cashregister/ClosurePanel.tsx:21 | `parseFloat("")` and `parseInt("")` are NaN |
| Text.ParseDigits | src/pages/NewLoan.tsx:277-279 | a plain string of digits parses, with both parsers, to the number it denotes |
| Text.ParseDecimal | src/components/cashregister/ClosurePanel.tsx:21 | `whole.frac` parses to the whole part plus the fraction |
| TransactionModal.Preview | src/components/operations/TransactionModal.tsx:44-45 | the cash preview of the typed amount is a multiple of 0.10 within 0.05 of it, and the shown change is a whole number of cents within half a cent of that difference |
| TransactionModal.PreviewOfWholeCents | src/lib/operationsData.ts:13-17 | on an amount in whole cents the preview equals the ledger's cash rounding of those cents, amount and change alike |
| TransactionModal.FirstOwing | src/components/operations/TransactionModal.tsx:51 | the current instalment is the first one with something to pay, or none when nothing is owed |
| TransactionModal.SuggestedAmounts | src/components/operations/TransactionModal.tsx:47-54 | "Deuda Total" is offered only for a positive debt, with "Cuota Actual" for the first owing instalment put in front |
| TransactionModal.CheckCashPayment | src/components/operations/TransactionModal.tsx:57-64 | a cash payment is accepted exactly when it is positive and at most 0.50 above the pending debt; a non-positive amount is refused first |
| TransactionModal.UnreadableAmountRefused | src/components/operations/TransactionModal.tsx:44-58 | an unreadable amount counts as 0 and is refused as invalid |
| TransactionModal.Modal.constructor | src/components/operations/TransactionModal.tsx:36-41 | the modal opens on the input step, cash tab, empty amount, no result |
| TransactionModal.Modal.SetAmount | src/components/operations/TransactionModal.tsx:139 | typing in the amount field stores the text and changes nothing else |
| TransactionModal.Modal.HandleCashProcess | src/components/operations/TransactionModal.tsx:56-84 | a refused amount sends nothing and changes nothing; an accepted one sends the unrounded parsed amount as `EFECTIVO` and, when the service answers, records it and moves to success |
| TransactionModal.Modal.HandleNewOperation | src/components/operations/TransactionModal.tsx:86-92 | back to a blank input step on the cash tab, then closed |
| TransactionModal.Modal.HandleClose | src/components/operations/TransactionModal.tsx:94-97 | closing from success resets the modal; closing from input keeps what was typed |
| NewLoan.AgeReachedIffBirthdayPassed | src/pages/NewLoan.tsx:36-44 | the decremented year difference reaches `k` exactly when the `k`-th birthday is on or before today |
| NewLoan.IsOfLegalAge | src/pages/NewLoan.tsx:32-45 | of legal age exactly when the birth date reads as a date whose 18th birthday is on or before today; an empty or unreadable date is not |
| NewLoan.EighteenthBirthday | src/pages/NewLoan.tsx:38-44 | on the 18th birthday the client is of age, the day before not yet |
| NewLoan.BirthDateAsRead | src/pages/NewLoan.tsx:34-40 | the local getters see the typed date, or in a browser behind UTC an earlier valid date with no valid date between it and the typed one: the day before |
| NewLoan.IsOfLegalAgeAsWritten | src/pages/NewLoan.tsx:32-45 | the check as written accepts exactly when the date the browser reads has its 18th birthday on or before today; at or ahead of UTC that is the intended check |
| NewLoan.AsWrittenAgreesAheadOfUtc | src/pages/NewLoan.tsx:32-45 | at or ahead of UTC the age check as written is the intended one |
| NewLoan.AsWrittenAdmitsTheDayBefore | src/pages/NewLoan.tsx:34-44 | behind UTC, a client born 2006-10-19 passes on 2024-10-18, the day before turning 18 |
| NewLoan.ExceedsUit | src/pages/NewLoan.tsx:79 | an amount exceeds one UIT exactly when it parses to a number above 5150; NaN never does |
| NewLoan.WholeAmountExceedsUit | src/pages/NewLoan.tsx:79 | a whole amount typed as digits exceeds one UIT exactly when its value is above 5150 |
| NewLoan.DecimalAmountExceedsUit | src/pages/NewLoan.tsx:79 | an amount `whole.frac` exceeds one UIT exactly when the whole part is above 5150, or is 5150 with a non-zero fraction |
| NewLoan.OneUitIsNotAbove | src/pages/NewLoan.tsx:79 | an amount of exactly 5150 does not exceed one UIT |
| NewLoan.AboveOneUit | src/pages/NewLoan.tsx:79 | 5150.5 exceeds one UIT |
| NewLoan.EmptyAmountIsNotAbove | src/pages/NewLoan.tsx:79 | an empty amount (NaN) never exceeds one UIT |
| NewLoan.EmailCheckMatchesPattern | src/pages/NewLoan.tsx:235-236 | the email regex matches exactly the strings with one '@' after a non-empty local part, a domain with an inner '.', and no whitespace |
| NewLoan.EmailCheckSound | src/pages/NewLoan.tsx:235 | every string of that shape matches the regex |
| NewLoan.EmailCheckComplete | src/pages/NewLoan.tsx:235 | every string the regex matches has that shape |
| NewLoan.ValidateClientForm | src/pages/NewLoan.tsx:195-243 | a form passes exactly when the company checks (juridical) or the personal and age checks (natural) hold and the email and nine-digit phone are valid; each error is reported only for its client type |
| NewLoan.CompanyValidationIgnoresBirthDate | src/pages/NewLoan.tsx:197-216 | a company's validation does not depend on the birth date or the day |
| NewLoan.RepresentativeDniInput | src/pages/NewLoan.tsx:443 | the representative's DNI field holds the first eight of the digits typed (all of them when fewer) |
| NewLoan.RepresentativeDniLengthCheck | src/pages/NewLoan.tsx:213 | that field passes the 8-digit check exactly when eight or more digits were typed |
| NewLoan.ClientLookup | src/pages/NewLoan.tsx:83-100 | without DNI and RUC the page goes back; a company with a RUC is always looked up by RUC, anyone else with a DNI by DNI; a person with only a RUC is exactly the error case |
| NewLoan.SubmitLoan | src/pages/NewLoan.tsx:264-302 | a loan is sent exactly when the client has an id, is saved, and amount, rate and instalments parse positive; it carries those parsed values; a missing id is reported first, then an unsaved client |
| NewLoan.AcceptedLoanScheduleCloses | src/pages/NewLoan.tsx:281-292 | an accepted loan has a positive rate and at least one instalment, so its schedule exists and closes exactly |
| NewLoan.DefaultTermsAreAccepted | src/pages/NewLoan.tsx:68-73 | with the defaults (24%, one instalment) and 1000 typed, a saved client's loan is sent as 1000 at 24% in one instalment |
| NewLoan.LoanForm.constructor | src/pages/NewLoan.tsx:52-77 | the page starts with blank client fields, 24% a year, one instalment, not registered, not loading |
| NewLoan.LoanForm.LoadClient | src/pages/NewLoan.tsx:101-126 | the fetched client replaces the loaded one, and one the backend already knows (`esNuevo` false) is marked registered without saving; a failed fetch changes nothing |
| NewLoan.LoanForm.SetRepresentativeDni | src/pages/NewLoan.tsx:442-445 | typing in the representative's DNI stores its sanitised value and changes nothing else |
| NewLoan.LoanForm.HandleRegisterClient | src/pages/NewLoan.tsx:189-262 | no client: nothing; failed checks: the first error and no change; otherwise the save answer, a saved client replacing the loaded one and marked registered |
| NewLoan.LoanForm.HandleSubmitLoan | src/pages/NewLoan.tsx:264-321 | the loan sent is what the guards let through, and the page ends not loading |
| Dashboard.DocumentInput | src/pages/Dashboard.tsx:178 | the document field holds the first eleven of the digits typed (all of them when fewer) |
| Dashboard.DocumentInputSearchable | src/pages/Dashboard.tsx:177-191 | the typed text can be searched exactly when it holds eight digits, or eleven or more |
| Dashboard.FilteredLoans | src/pages/Dashboard.tsx:117-124 | only active loans, in order; all of them with no term; with a term, exactly those whose DNI or RUC (missing read as empty) contains the lower-cased term, each as many times as listed |
| Dashboard.DocumentFindsItsLoan | src/pages/Dashboard.tsx:117-124 | typing a client's whole DNI or RUC keeps that client's active loan in the list |
| Dashboard.NewClientStub | src/pages/Dashboard.tsx:289-299 | the stub for an 11-character document is a company with that RUC and no DNI, for any other a person with that DNI and an empty RUC; no names, no active loan |
| Dashboard.StubIsLookedUpByItsDocument | src/pages/Dashboard.tsx:289-301 | the loan form looks the stub up by RUC for an 11-digit document and by DNI for an 8-digit one, and a loan may be started for it |
| Dashboard.Page.constructor | src/pages/Dashboard.tsx:42-46 | the page starts with an empty document, no client, not searched |
| Dashboard.Page.OnDocumentChange | src/pages/Dashboard.tsx:177-182 | typing stores the sanitised document and drops any earlier result |
| Dashboard.Page.HandleSearchClient | src/pages/Dashboard.tsx:70-107 | only a DNI or RUC length is searched; then the client found (or none, also on error) is shown as searched; the page keeps "a result is shown only for a DNI or RUC" |
| Dashboard.Page.HandleNewLoan | src/pages/Dashboard.tsx:109-113 | a loan is started only for a found client with no active loan, handing that client on |
| Dashboard.Page.StubAfterSearchIsLookedUp | src/pages/Dashboard.tsx:285-301 | after a search that found nobody, the stub for the searched document reaches the loan form's lookup by RUC or DNI |

## Findings

| source | as written | input that shows it | evidently intended | confidence | as-written member | corrected member |
|---|---|---|---|---|---|---|
| src/pages/NewLoan.tsx:34-40 | `new Date("YYYY-MM-DD")` is midnight UTC, read back with the local `getMonth`/`getDate` | birth date 2006-10-19, today 2024-10-18, browser at UTC−5 (Lima) | age counted on the calendar date typed, so the client is still 17 | not executed; follows from the ECMAScript date-only parsing rule | NewLoan.AsWrittenAdmitsTheDayBefore | NewLoan.IsOfLegalAge |

## Left out

- Network services, `localStorage` I/O, toasts, navigation and rendering. Service answers are method parameters and storage is the register's fields.
- `setTimeout` in the closing panel. The delayed completion runs straight after the click.
- The data loading in effects: the dashboard's loan list and the mapping of a fetched client into the form fields. The fetched client's registered flag is modelled (`NewLoan.LoanForm.LoadClient`).
- The PEP and UIT PDF downloads.
- The online payment tab, the Mercado Pago button, and `toFixed(2)` on a suggested amount clicked into the field.
- IEEE-754 doubles. All arithmetic is exact; `Math.pow`, `Math.round` and `toFixed` are modelled on exact values. `toFixed` is modelled as rounding halves away from zero.
- `parseFloat` and `parseInt`: leading whitespace, exponents and `Infinity` are not read. Only `[+-]digits[.digits]` prefixes are.
- `Number(idCliente)`: the id is passed on as the text stored.
- `toLowerCase` only maps ASCII letters.
- String lengths are counted in characters, not UTF-16 code units.
- ScheduleCalculator.CalculateLoanSchedule: requires a positive annual rate. The source divides by zero at 0%, and its only loan-creating caller refuses a rate that is not positive.
- ScheduleCalculator.CalculateLoanSchedule: due dates are the start date moved by calendar months with the day kept. The `setMonth` overflow of a day past the month's end into the next month is not modelled. Neither is the UTC/local shift of `new Date(startDate)` and `toISOString`.
- NewLoan.IsOfLegalAge: only `YYYY-MM-DD` strings are read as dates. Other strings `new Date` might accept count as unreadable.
- `ClientSearchCombobox` and the cash-register page that wires the closing panel are not part of this model.
