# Mock money manager: a Dafny model of its client-side logic

The application is a single-page banking demo. Almost all of it renders
screens. This project models the parts that decide something:

- the "New Transaction" form: per-field validators, input rewriting as the user
  types, and the whole-form check that gates the submit
  (`transaction_form.dfy`);
- the password-gated transfer flow. A transfer is checked and parked as pending.
  A correct password then settles it with two writes to the data service: the
  transaction insert, then the balance update (`transaction_handler.dfy`);
- the dashboard's local ledger: deposit, withdraw, history and statistics
  (`dashboard.dfy`, `quick_stats.dfy`);
- the guarded transfer submit and its button (`transfer.dfy`);
- the admin deposit form (`admin.dfy`);
- the virtual-card list operations (`virtual_cards.dfy`);
- the recipient account lookup (`account_lookup.dfy`);
- the masked account number (`balance_card.dfy`).

Shared pieces: `Wrappers` (Option), `Amounts` and `Text`. `Amounts` holds money
and the parser type. `Text` holds character classes, digit filtering and
decimal strings.

Modelling choices:

- Money is an exact `real`. The code only adds, subtracts and compares amounts.
- `parseFloat` is left abstract. Each operation that parses receives it as a
  function value `Parser = seq<char> -> Option<real>`, where `None` is NaN.
  NaN fails every comparison, as in JavaScript.
- State that a page or hook updates in place is a class. Pure rewrites of lists
  and strings are functions, and the methods reassign fields with them.
- The data service is reduced to the outcome of each call. A call succeeds,
  returns an error object, or throws. The writes the service accepted are kept
  in order in a `log` field.
- Randomness is a draw `roll` in [0, 1), passed in. `Math.floor(roll * 900) + 100`
  is computed explicitly. The clock (`Date.now()`, today's date, "k months from
  now") is also passed in.

Behaviour of the code worth noting:

- A rejected `initiateTransaction` leaves the pending transaction and the prompt
  as they were. It does not reset them.
- A wrong password keeps the pending transaction.
- `initiateTransaction` never compares the recipient with the sender's own
  account.
- Settlement always subtracts the amount. It writes nothing for the recipient.
- The hook accepts any stored balance, a negative one included. A parked
  transfer is always covered by the balance at the time it was parked.
- `handleTransfer` passes no recipient, so it is always refused with "Missing
  Account Number" once the amount and funds checks pass.

## Model

| member | source | states |
|---|---|---|
| `Text.Digits` | src/pages/TransactionPage.tsx:107 | `replace(/\D/g, '')` yields only digits, never lengthens, and leaves an all-digit string unchanged |
| `Text.DigitsKeepsDigits` | src/pages/TransactionPage.tsx:107 | the digit filter keeps every digit of the input as often as it occurs and drops every non-digit |
| `Text.LastChars` | src/components/BalanceCard.tsx:14 | `slice(-k)` yields the last min(k, n) characters, a suffix of the input |
| `Text.DecimalString` | src/components/BalanceCard.tsx:11 | `String(n)` of a non-negative integer is a non-empty digit string |
| `Text.IsBlank` | src/pages/TransactionPage.tsx:58 | `!value.trim()`: the value holds nothing but whitespace (a definition, no contract of its own) |
| `Text.DecimalRoundTrip` | src/components/BalanceCard.tsx:11 | reading the decimal string of n back gives n |
| `TransactionForm.FormData.Set` | src/pages/TransactionPage.tsx:115 | `{ ...prev, [name]: value }` sets the named field to the value and leaves the other five as they were |
| `TransactionForm.Acceptable` | src/pages/TransactionPage.tsx:56-94 | the rule table: what each field accepts, without messages or order (a definition, no contract of its own; `ValidateField` is tied to it) |
| `TransactionForm.ValidateField` | src/pages/TransactionPage.tsx:56-94 | a field's value is accepted iff it meets that field's rule (sort code `dd-dd-dd`; ten digits; letters and whitespace with length >= 2; 0 < amount <= 1,000,000; description 3..100; bank name >= 2; all non-blank); a blank value reports the field's "required" message first; every message is non-empty |
| `TransactionForm.FormatSortCode` | src/pages/TransactionPage.tsx:101-103 | the sort-code rewrite keeps exactly the digits of the input, in order; its output is a valid sort code iff the input held exactly six digits; with fewer than six it is the bare digits; with six or more it carries dashes at positions 2 and 5 and is two characters longer than the digits (seven digits give "12-34-567") |
| `TransactionForm.FormatSortCodeIdempotent` | src/pages/TransactionPage.tsx:101-103 | rewriting an already rewritten sort code changes nothing |
| `TransactionForm.AccountNumberInput` | src/pages/TransactionPage.tsx:106-108 | the account-number rewrite yields exactly the first min(10, n) of the input's n digits; the result is a valid account number iff the input held at least ten digits |
| `TransactionForm.AmountInput` | src/pages/TransactionPage.tsx:111-113 | the amount rewrite keeps only digits and '.', keeps every digit in order and every '.' and digit as often as the input has it, and leaves an already clean value unchanged |
| `TransactionForm.AmountInputAppend` | src/pages/TransactionPage.tsx:111-113 | the amount rewrite distributes over concatenation, so what it keeps stays in the input's order |
| `TransactionForm.Rewrite` | src/pages/TransactionPage.tsx:96-115 | what `handleChange` stores per field: digits-only account number of at most ten, the sort-code rewrite, the amount filter, and the raw value for the other fields |
| `TransactionForm.SixDigitsMakeValidSortCode` | src/pages/TransactionPage.tsx:101-103 | a sort code typed with exactly six digits, in any layout, is stored in a form the validator accepts |
| `TransactionForm.TenDigitsMakeValidAccountNumber` | src/pages/TransactionPage.tsx:106-108 | the stored account number passes validation iff at least ten digits were typed |
| `TransactionForm.CollectErrors` | src/pages/TransactionPage.tsx:129-135 | the `forEach` over the form's keys yields an error map holding exactly the failing fields, each with its validator message; it is empty iff every field is acceptable |
| `TransactionForm.TransactionPage.constructor` | src/pages/TransactionPage.tsx:29-38 | the form starts with six empty fields, no errors and nothing submitted |
| `TransactionForm.TransactionPage.HandleChange` | src/pages/TransactionPage.tsx:96-121 | stores the rewritten value in that field only and clears that field's error |
| `TransactionForm.TransactionPage.HandleBlur` | src/pages/TransactionPage.tsx:123-127 | sets or clears the error of the blurred field from the validator; other fields' errors are unchanged |
| `TransactionForm.TransactionPage.ValidateForm` | src/pages/TransactionPage.tsx:129-139 | replaces the errors by exactly the failing fields and returns true iff no field fails |
| `TransactionForm.TransactionPage.HandleSubmit` | src/pages/TransactionPage.tsx:141-157 | proceeds to confirmation with the current data iff every field is valid; otherwise only the errors change |
| `TransactionHandler.InitiateCheck` | src/hooks/useTransactionHandler.ts:32-68 | the checks run in order amount, funds, recipient, description; each rejection is named by the first failing check; a transaction is parked iff all pass |
| `TransactionHandler.HandleTransferNeverPends` | src/hooks/useTransactionHandler.ts:164-166 | with no recipient, initiation never reaches the pending state; past the amount and funds checks it reports the missing account number |
| `TransactionHandler.PasswordMatches` | src/hooks/useTransactionHandler.ts:75 | the typed password matches only a signed-in user's stored password, which may be absent (a definition, no contract of its own) |
| `TransactionHandler.VerifyPath` | src/hooks/useTransactionHandler.ts:74-156 | the password is wrong iff there is no user, the user has no stored password, or it differs from the typed one; nothing pending, a failed insert, a failed balance update after a successful insert, a throw from either call, and completion are each reported iff their condition holds |
| `TransactionHandler.InsertOf` | src/hooks/useTransactionHandler.ts:89-97 | the inserted record carries the user's id and the pending amount |
| `TransactionHandler.Handler.constructor` | src/hooks/useTransactionHandler.ts:27-30 | the hook starts with the prompt closed, an empty password and nothing pending |
| `TransactionHandler.Handler.SetPassword` | src/hooks/useTransactionHandler.ts:29 | the prompt's input sets the typed password |
| `TransactionHandler.Handler.InitiateTransaction` | src/hooks/useTransactionHandler.ts:32-72 | on success parks exactly the parsed amount, kind, recipient and description and opens the prompt; any rejection leaves pending and the prompt unchanged; a parked transaction is positive and covered by the balance |
| `TransactionHandler.Handler.HandleTransfer` | src/hooks/useTransactionHandler.ts:164-166 | never parks a transaction and never opens the prompt |
| `TransactionHandler.Handler.CancelTransaction` | src/hooks/useTransactionHandler.ts:158-162 | closes the prompt, clears the password and drops the pending transaction |
| `TransactionHandler.Handler.VerifyPassword` | src/hooks/useTransactionHandler.ts:74-156 | a wrong password, nothing pending or a failed insert write nothing and leave the prompt open; a failed balance update leaves the insert done, the balance unchanged and the prompt open; success writes the insert then the update to balance - amount, sets that balance, clears the transfer inputs (only for a transfer), reloads and resets; a throw resets with the balance unchanged; balance updates always follow their insert; a non-negative balance stays non-negative |
| `QuickStats.SumAmounts` | src/components/QuickStats.tsx:22 | the `reduce` sum of non-negative amounts is non-negative |
| `QuickStats.DepositCount` | src/components/QuickStats.tsx:20 | `depositCount` is at most the number of entries, and zero iff no entry is a deposit |
| `QuickStats.WithdrawalCount` | src/components/QuickStats.tsx:21 | `withdrawalCount` is at most the number of entries, and zero iff no entry is a withdrawal |
| `QuickStats.TotalDeposited` | src/components/QuickStats.tsx:22 | `totalDeposited` is zero when no entry is a deposit |
| `QuickStats.OfKind` | src/components/QuickStats.tsx:20-21 | the filter keeps exactly the entries of the given type |
| `QuickStats.CountsPartition` | src/components/QuickStats.tsx:20-21 | the deposit count plus the withdrawal count equals the number of entries |
| `QuickStats.PrependEntry` | src/components/QuickStats.tsx:20-22 | a new deposit raises the deposit count by one and the total deposited by its amount; a new withdrawal raises only the withdrawal count |
| `QuickStats.TotalDepositedSign` | src/components/QuickStats.tsx:22 | with positive amounts the total deposited is non-negative, and zero iff there is no deposit |
| `Dashboard.NextIdIsFresh` | src/pages/Index.tsx:61-62 | the new id `transactions.length + 1` is not in use, so ids stay distinct |
| `Dashboard.Ledger.constructor` | src/pages/Index.tsx:20-48 | the ledger starts at 2500.75 with the three sample entries, in a valid state |
| `Dashboard.Ledger.SetDepositAmount` | src/pages/Index.tsx:21 | the deposit input sets the typed amount |
| `Dashboard.Ledger.SetWithdrawAmount` | src/pages/Index.tsx:22 | the withdrawal input sets the typed amount |
| `Dashboard.Ledger.HandleDeposit` | src/pages/Index.tsx:50-78 | an unparsable or non-positive amount changes nothing; otherwise the balance rises by the amount, one 'deposit' entry with id length + 1 goes to the head with the old history behind it, the input clears, and the deposit statistics move; the balance stays equal to the opening amount plus the signed history |
| `Dashboard.Ledger.HandleWithdraw` | src/pages/Index.tsx:80-117 | an invalid amount, then an amount above the balance, is refused with nothing changed; otherwise the balance falls by the amount, one 'withdrawal' entry goes to the head, the input clears and the total deposited is unchanged; the balance never becomes negative |
| `Transfer.DescriptionOrDefault` | src/pages/Transfer.tsx:52 | an empty description becomes "Transfer", any other is kept |
| `Transfer.Covered` | src/pages/Transfer.tsx:44 | the submit guard `amount > 0 && amount <= balance`, false for NaN (a definition, no contract of its own) |
| `Transfer.SubmitDisabled` | src/pages/Transfer.tsx:199 | the button is disabled iff the amount is empty, the recipient is empty, or the amount parses to a value that is not in (0, balance]; an unparsable amount leaves it enabled |
| `Transfer.ButtonMatchesGuard` | src/pages/Transfer.tsx:199 | an enabled button with a parsable amount always passes the submit guard, and a passing amount with both fields filled never has a disabled button |
| `Transfer.TransferPage.constructor` | src/pages/Transfer.tsx:19-22 | the page starts with empty inputs and no navigation |
| `Transfer.TransferPage.HandleSubmitTransfer` | src/pages/Transfer.tsx:39-73 | the balance falls by exactly the amount and the page navigates with the receipt iff 0 < amount <= balance; anything else, NaN included, changes nothing and does not navigate; a non-negative balance stays non-negative |
| `Admin.AnyFieldMissing` | src/pages/Admin.tsx:17 | one of the three fields is empty; the same expression disables the button at line 114 (a definition, no contract of its own) |
| `Admin.DepositCheck` | src/pages/Admin.tsx:16-34 | a missing field is reported first, then a NaN or non-positive amount; otherwise the deposit carries the parsed positive amount |
| `Admin.AdminPage.constructor` | src/pages/Admin.tsx:12-14 | the three fields start empty |
| `Admin.AdminPage.SetFields` | src/pages/Admin.tsx:12-14 | the inputs set the three fields |
| `Admin.AdminPage.HandleDeposit` | src/pages/Admin.tsx:16-46 | the missing-information notice occurs exactly when a field is empty, which is when the button is disabled; success clears all three fields; every rejection leaves them unchanged |
| `VirtualCards.Toggled` | src/pages/VirtualCards.tsx:90 | toggling always changes the status |
| `VirtualCards.ToggleStatusOf` | src/pages/VirtualCards.tsx:88-92 | keeps the length and order; only cards with the id change, and only in their status |
| `VirtualCards.ToggleTwiceRestores` | src/pages/VirtualCards.tsx:88-92 | toggling the same card twice restores the list |
| `VirtualCards.WithCvv` | src/pages/VirtualCards.tsx:106-110 | keeps the length and order; only the cvv of cards with the id changes |
| `VirtualCards.RemoveCard` | src/pages/VirtualCards.tsx:99 | keeps exactly the cards whose id differs; with no such card the list is unchanged |
| `VirtualCards.RemoveCardAppend` | src/pages/VirtualCards.tsx:99 | deletion works piecewise over a concatenation, so the remaining cards keep their order |
| `VirtualCards.FindCard` | src/pages/VirtualCards.tsx:94 | finds the first card with the id, or reports that there is none |
| `VirtualCards.CvvFromRoll` | src/pages/VirtualCards.tsx:105 | a drawn CVV lies in 100..999 |
| `VirtualCards.LastFourFromRoll` | src/pages/VirtualCards.tsx:140 | a drawn last-four lies in 1000..9999 |
| `VirtualCards.CvvStringHasThreeDigits` | src/pages/VirtualCards.tsx:105-108 | a drawn CVV is written with three digits and reads back as the drawn number |
| `VirtualCards.LastFourHasFourDigits` | src/pages/VirtualCards.tsx:140 | a drawn last-four is written with four digits |
| `VirtualCards.AccountName` | src/pages/VirtualCards.tsx:187-194 | savings and business map to their names; every other key, primary included, gives "Primary Checking" |
| `VirtualCards.ExpiryDate` | src/pages/VirtualCards.tsx:167-185 | "custom" gives the custom value; one and six months give those offsets; every other type gives twelve months |
| `VirtualCards.MerchantLockOrNone` | src/pages/VirtualCards.tsx:147 | an empty merchant lock becomes "None", any other is kept |
| `VirtualCards.VirtualCardsPage.constructor` | src/pages/VirtualCards.tsx:28-85 | the page starts with the three sample cards, nothing selected or shown, and the default form |
| `VirtualCards.VirtualCardsPage.SelectCard` | src/pages/VirtualCards.tsx:70 | sets the selected card |
| `VirtualCards.VirtualCardsPage.EditNewCard` | src/pages/VirtualCards.tsx:76-85 | sets the creation form |
| `VirtualCards.VirtualCardsPage.OpenCreateForm` | src/pages/VirtualCards.tsx:71 | shows the creation form |
| `VirtualCards.VirtualCardsPage.ToggleCardStatus` | src/pages/VirtualCards.tsx:87-96 | the list becomes the toggled list; the notice names the card found before the change and its new state; with no such card the list is unchanged and no notice is added |
| `VirtualCards.VirtualCardsPage.DeleteCard` | src/pages/VirtualCards.tsx:98-102 | removes every card with the id, clears the selection and adds the notice |
| `VirtualCards.VirtualCardsPage.RegenerateCVV` | src/pages/VirtualCards.tsx:104-112 | only the matching cards' cvv changes, to the three-digit string of a draw in 100..999 |
| `VirtualCards.VirtualCardsPage.ToggleCVV` | src/pages/VirtualCards.tsx:114-116 | flips the visibility of that card only; an id never shown before becomes shown |
| `VirtualCards.VirtualCardsPage.CreateNewCard` | src/pages/VirtualCards.tsx:126-133 | the confirmation step opens iff nickname and spending limit are filled in; otherwise a notice is added |
| `VirtualCards.VirtualCardsPage.Confirm2FA` | src/pages/VirtualCards.tsx:135-165 | appends exactly one active card with balance 0, the form's nickname, parsed limit, expiry and account name, merchant lock "None" when empty, a last-four and a cvv that are the four- and three-digit decimal strings of the two draws; the earlier cards are untouched; the form resets to its defaults |
| `AccountLookup.LookupAccountName` | src/hooks/useAccountLookup.ts:10-59 | success iff the number has ten characters and a row is found, then with the row's name (null when the row's name is null) and no error; every failure has no name and an error, with the message of its cause |
| `AccountLookup.Malformed` | src/hooks/useAccountLookup.ts:13 | the number is missing or not ten characters long; its characters are not checked (a definition, no contract of its own) |
| `AccountLookup.MalformedIsNotQueried` | src/hooks/useAccountLookup.ts:13-19 | a missing or wrong-length number gets the same result whatever the query would return |
| `AccountLookup.Lookup.constructor` | src/hooks/useAccountLookup.ts:65-66 | nothing is being looked up and there is no result |
| `AccountLookup.Lookup.LookupAccount` | src/hooks/useAccountLookup.ts:68-77 | stores and returns the classification of the lookup and ends not looking up |
| `AccountLookup.Lookup.ClearLookup` | src/hooks/useAccountLookup.ts:79-81 | drops the result |
| `BalanceCard.LastFourDigits` | src/components/BalanceCard.tsx:14 | below 1000 the number has at most three digits; from 1000 on its last four characters denote the number modulo 10000 |
| `BalanceCard.MaskAccountNumber` | src/components/BalanceCard.tsx:10-18 | exactly three asterisks (not four, as the comment says) followed by the last min(4, n) digits; length 3 + min(4, n), at most 7; numbers below 1000 keep all their digits; from 1000 on the shown digits are the number modulo 10000 |

## Left out

- Rendering, styling, routing and the screens with no logic: account settings,
  my account, account summary, KYC status, login, success and failure pages,
  history tables, header, sidebar, layout and welcome message.
- The session: `AuthContext` (fixed demo user, reload on logout), `useBalance`,
  `useDarkMode` and `useTransactions` (fetching and date formatting). The
  handler receives the user and the balance when it is constructed.
- The balance as a prop that the parent can change between calls. The handler
  owns its balance.
- The hardcoded admin password in the admin modal and the always-successful
  confirm page. They are demo placeholders.
- Toast texts. Each operation returns a notice datatype that names the toast
  instead. Console logging.
- `TransactionPage`: the localStorage save and restore, the one-second
  simulated delay, and the `isSubmitting` flag, which is false again once the
  submit ends.
- `TransactionPage`: `handleChange` for a field name outside the six. The form
  has no such input.
- String lengths count Unicode characters. JavaScript counts UTF-16 code units,
  which differs only outside the Basic Multilingual Plane.
- Floating-point rounding and formatting (`toFixed`, currency display). Amounts
  are exact reals.
- The exact semantics of `parseFloat`. It is an abstract parser.
- TransactionHandler.InsertOf: the recipient is recorded as the typed string.
  The `parseInt` conversion to a number, with null for an empty recipient, is
  not modelled.
- TransactionHandler.Handler.VerifyPassword: each verification is taken to run
  to completion before the next event. The source awaits both writes with no
  in-flight guard, so a second confirmation or a cancel between the writes is
  not modelled; `InsertsPrecedeUpdates` holds only under that assumption.
- TransactionHandler.Handler.VerifyPassword: a call that throws is taken to have
  written nothing. Whether the service applied it is unknown.
- The transfer page builds a history entry that it never stores. Only its id
  (`now`) reaches the receipt.
- Dashboard entries: the date and time strings, which come from the clock.
- VirtualCards: the timed removal of notices and their `Date.now()` ids, the
  clipboard, and the month arithmetic of `getExpiryDate`. The clock's "MM/YY k
  months ahead" is a parameter.
- VirtualCards.VirtualCardsPage.ToggleCardStatus: with an id no card has, the
  source throws a TypeError when it reads the missing card's nickname. The model
  returns `found == false` with the list and the notices unchanged; the thrown
  error is not modelled.
- VirtualCards.AccountName: keys inherited from `Object.prototype`, such as
  "toString", are not modelled.
- VirtualCards: status strings other than "active" and "frozen". The code never
  creates any.
- AccountLookup.Lookup.LookupAccount: the state while the query is awaited
  (looking up, no result) is not observable. Only the final state is stated.
- BalanceCard.MaskAccountNumber: the number is a non-negative integer. A null
  account number ("***null"), negative or fractional numbers and exponent forms
  of `String(n)` are not modelled.
- AccountLookup.Malformed: an account number passed as a JavaScript number
  (no `length`, so always refused) is not modelled. Numbers are strings here.
