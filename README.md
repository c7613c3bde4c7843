# Bank account manager — a Dafny model

This project models the bookkeeping core of a small browser banking app,
which comes in two drafts. Each draft keeps two values in `localStorage`:

- a list of users under the key `users`, each with a full name, a user
  name, a six-digit account number, a PIN, an interest rate and a list of
  transactions;
- a session descriptor `{userName, accountNumber}` under the key
  `currentUser`.

`BankAccountManager` registers users, logs them in and out, deletes
accounts, moves money between accounts and grants loans. It derives each
user's balance and their income/outcome/interest summary from the
transaction list.

The model has five modules:

- `Accounts` (accounts.dfy) holds the shared records. These are users,
  transactions, PINs as the JavaScript number or string they are stored as,
  and the outcomes `Ok`, `Err(error)` and `Thrown`. The outcomes stand for
  `onSuccess`, `onError(message)` and a `TypeError` escaping from the code.
  The module also holds the two random draws and the array helpers the
  managers apply to the user list: `find`, `filter` and `map`.
- `Ledger` (ledger.dfy) holds the balance and summary folds and the
  lemmas about them.
- `Bank` (bank.dfy) models main.js. `Bank.Manager` is a class whose
  fields are the stored user list and the session. Its methods are the
  manager's operations, and its functions are the queries.
- `DraftBank` (draft_bank.dfy) models src/main.js. There the store is a
  class holding a key-value map (`StorageManager`), and the manager reads
  and writes it.
- `InputValidation` (validation.dfy) models `validateInput` from main.js.

`Math.random()`, `new Date().toISOString()` and JavaScript's
string-to-number conversion are passed in as parameters. Amounts are
integers.

## Model

| member | source | states |
|---|---|---|
| Accounts.Message | main.js:122-255 | every `onError` text is non-empty, and the recipient message starts with "Recipient account " followed by `IntToString` of the account number |
| Accounts.MessageIdentifiesError | main.js:122-255 | different errors never produce the same `onError` text, so the text determines the error and, for a missing recipient, the account number |
| Accounts.IntToString | main.js:243 | the rendering in the template literal: a minus sign for negative numbers, then only decimal digits, with no leading zero unless the number is 0, whose value read back is the number |
| Accounts.IntToStringInjective | main.js:243 | distinct numbers are rendered as distinct strings |
| Accounts.GenerateAccountNumber | main.js:78-80 | an account number is always in [100000, 999999] |
| Accounts.GenerateInterestRate | main.js:82-84 | the rate is a whole number of hundredths in [0, 3], because `toFixed(2)` rounds |
| Accounts.InterestRateReachesThree | main.js:82-84 | rounding makes 3.00 reachable, just outside the interval [0, 3) of `Math.random() * 3` |
| Accounts.IndexOfName | main.js:119 | `find` by user name returns the first user with that name, and returns nothing exactly when no user has it |
| Accounts.IndexOfAccount | main.js:337-340 | `find` by account number returns the first match, and returns nothing exactly when no user holds that number |
| Accounts.IndexOfCredentials | main.js:149-151 | `find` by name and PIN (strict equality) returns the first user with both, and returns nothing exactly when there is none |
| Accounts.RemoveName | main.js:189 | the filtered list is no longer than the input and holds no user with the name |
| Accounts.RemoveNameMembers | main.js:189 | the filter keeps exactly the users whose name differs |
| Accounts.RemoveNameUnique | main.js:189 | filtering keeps user names pairwise distinct |
| Accounts.RemoveUniqueName | main.js:189 | with distinct names, the filter removes exactly the user at that index and keeps the others in order |
| Accounts.RemoveAbsentName | src/main.js:120 | filtering out a name nobody has leaves the list unchanged |
| Accounts.ReplaceByName | main.js:329-331 | `map` keeps the length and each position's name, and keeps names distinct |
| Accounts.ReplaceUniqueName | main.js:329-331 | with distinct names, `map` replaces exactly the one user with the same name |
| Ledger.Filter | main.js:215-227 | a filtered list is no longer than its input, and every kept transaction passes the test |
| Ledger.FilterKeepsPassing | main.js:215-227 | every transaction that passes the test is kept by the filter |
| Ledger.BalancePush | main.js:200-206 | pushing a transaction moves the balance by its signed amount: deposit and loan add, anything else subtracts |
| Ledger.BalanceConcat | main.js:200-206 | the balance of a concatenation is the sum of the two balances |
| Ledger.BalancePermutation | main.js:200-206 | the balance does not depend on the order of the transactions |
| Ledger.SumAmountsPush | src/main.js:131 | the unsigned sum grows by the pushed amount, whatever its type |
| Ledger.FilterPush | main.js:215-227 | filtering a longer list appends the new transaction exactly when it passes the test |
| Ledger.FilteredSumPush | main.js:215-224 | a filtered sum grows by the pushed amount exactly when it passes the filter |
| Ledger.InterestPush | main.js:226-229 | a pushed loan adds `amount * rate / 100` to the interest, and any other type adds nothing |
| Ledger.SummaryPush | main.js:212-232 | a pushed transaction adds to incomes (deposit, loan) or outcomes (withdrawal) and, for a loan, to the interest |
| Ledger.BalanceIsIncomesMinusOutcomes | main.js:197-224 | when every type is deposit, loan or withdrawal, the balance equals incomes minus outcomes |
| Ledger.BalanceIsIncomesMinusDebits | main.js:200-206 | for any types, the balance equals incomes minus the sum of all non-income amounts |
| Ledger.SumAmountsVersusBalance | src/main.js:128-133 | the draft's unsigned sum exceeds the signed balance by twice the non-income amounts |
| Ledger.TransactionSummary | main.js:212-232 | incomes and outcomes are the filtered sums; with the three known types incomes minus outcomes is the balance; the interest is the loan total times `rate / 100` |
| Ledger.InterestIsLoanShare | main.js:226-229 | the interest equals the loan total times `rate / 100` |
| Ledger.LoanInterestIsShare | main.js:228-229 | summing the per-loan shares gives the share of the summed amounts |
| Ledger.ShareAdds | main.js:228 | the per-loan share is additive in the amount |
| Ledger.TotalBalanceUpdate | main.js:326-334 | replacing one user changes the sum of all balances by the difference of that user's balances only |
| Bank.DefaultUserFigures | main.js:2-17 | the first default user has balance 1500, incomes 1700, outcomes 200 and interest 12 |
| Bank.NewUser | main.js:68-76 | a new user has the given full name, user name and numeric PIN, no transactions, a six-digit account number drawn first and a rate in [0, 3] drawn second |
| Bank.TransferConservesMoney | main.js:259-275 | a transfer between two users keeps the total balance, takes `amount` from the sender, gives it to the recipient and leaves everyone else unchanged |
| Bank.TransferCheck | main.js:238-257 | the recipient must exist, then a missing current user throws, then the recipient must not hold the sender's number, then the balance must cover the amount; it is `Ok` exactly when all four hold |
| Bank.SameNamesSameIndex | main.js:313-315 | two lists with the same names position by position resolve a session name to the same user |
| Bank.Manager.constructor | main.js:89-105 | an empty store is filled with the default users; the session is kept; names are distinct |
| Bank.Manager.CurrentIndex | main.js:308-316 | the current user's index is that of the first stored user with the session's name, and is absent exactly when there is no session or no such user |
| Bank.Manager.CurrentUser | main.js:308-316 | the current user is the first stored user with the session's name, and is absent exactly when there is no session or no such user |
| Bank.Manager.IsAuthenticated | main.js:108-111 | authenticated exactly when there is a session and a stored user still has its name |
| Bank.Manager.CalculateBalance | main.js:197-209 | the balance returns exactly when the session resolves to a user, and then equals incomes minus outcomes for the three known types |
| Bank.Manager.GetTransactionSummary | main.js:212-232 | the summary returns exactly when the session resolves; incomes and outcomes are the filtered sums, incomes minus outcomes is the current balance for the three known types, and the interest is the loan total times `rate / 100` |
| Bank.Manager.FindUserByAccountNumber | main.js:337-340 | the user found is the first stored user holding the number, and nobody is found exactly when no user holds it |
| Bank.Manager.UpdateUserData | main.js:326-334 | every stored user with the same name becomes the given user; the session is untouched and user names stay distinct |
| Bank.Manager.Register | main.js:114-141 | a taken name reports "User already registered" and changes nothing; otherwise exactly one new user is appended, the session names it, it becomes the current user, and names stay distinct |
| Bank.Manager.Login | main.js:144-162 | succeeds exactly when some user has that name and PIN, then sets the session to the first such user; the user list never changes |
| Bank.Manager.Logout | main.js:165-174 | fails with "not authenticated" exactly when the session resolves to nobody, otherwise removes the session; afterwards nobody is authenticated |
| Bank.Manager.DeleteAccount | main.js:177-194 | throws when nobody is logged in; fails unless name and PIN are the current user's; on success removes exactly that user, keeps the others in order, leaves the session key, and nobody is authenticated |
| Bank.Manager.TransferMoney | main.js:235-278 | checks recipient, then the current user, then own account, then balance, changing nothing on failure; on success pushes one withdrawal and one deposit of `amount`, keeps the total balance, and leaves the sender's balance at or above 0 |
| Bank.Manager.Loan | main.js:281-295 | throws when nobody is logged in; otherwise pushes one loan with no amount check, raises the current balance and the total by `amount`, and changes no other user |
| InputValidation.ValidateInput | main.js:776-850 | the result is valid exactly when its message is empty |
| InputValidation.FullNameRule | main.js:791-806 | a full name is valid exactly when it is non-empty ASCII letters and white space within `maxLength` (if given); a bad character is reported first |
| InputValidation.UserNameRule | main.js:809-824 | a user name is valid exactly when it is non-empty `[a-z0-9]` within `maxLength` (default 12); a bad character is reported first |
| InputValidation.PinRule | main.js:827-831 | a PIN is valid exactly when it is four ASCII digits |
| InputValidation.AccountNumberRule | main.js:834-838 | an account number is valid exactly when it is six ASCII digits |
| InputValidation.TransferAmountRule | main.js:841-847 | a transfer amount is valid exactly when it converts to a number above 0 |
| InputValidation.UnknownKindRule | main.js:849 | any other type is valid with an empty message |
| DraftBank.AddKeepsPresent | src/main.js:4-11 | `add` leaves the store alone when the key holds a truthy value, otherwise stores the value, and never touches other keys |
| DraftBank.AddTwice | src/main.js:4-11 | once `add` has stored a truthy value, a second `add` on that key changes nothing |
| DraftBank.Storage.constructor | src/main.js:2-29 | the store starts with the given entries |
| DraftBank.Storage.Get | src/main.js:24-28 | `get` returns the value stored under the key, and `null` when there is none |
| DraftBank.Storage.Add | src/main.js:4-11 | the new store is the old one after `add` |
| DraftBank.Storage.Set | src/main.js:14-16 | `set` overwrites the key |
| DraftBank.Storage.Remove | src/main.js:19-21 | `remove` deletes the key |
| DraftBank.NewUser | src/main.js:31-44 | the user has the given full name, user name, PIN and rate and no transactions; a truthy supplied account number is kept, otherwise one in [100000, 999999] is drawn |
| DraftBank.Manager.constructor | src/main.js:47-51 | the manager reads a fresh store holding the given entries |
| DraftBank.Manager.GetUsers | src/main.js:139-141 | the stored list, or `[]` when nothing or `null` is stored |
| DraftBank.Manager.GetCurrentUser | src/main.js:147-149 | the value stored under `currentUser` (`null` when absent), which in a well-typed store is never a full user record |
| DraftBank.Manager.IsAuthenticated | src/main.js:53-56 | authenticated exactly when a session descriptor is stored, whether or not its user still exists |
| DraftBank.Manager.Register | src/main.js:58-77 | a taken name reports "User already registered" and changes nothing; otherwise exactly one user is appended and the session names it |
| DraftBank.Manager.Login | src/main.js:79-93 | succeeds exactly when some user has that name and PIN, then stores that user's descriptor; the list never changes |
| DraftBank.Manager.Logout | src/main.js:95-103 | fails when no session is stored, otherwise removes it; afterwards nobody is authenticated |
| DraftBank.Manager.DeleteAccount | src/main.js:105-126 | fails when unauthenticated or when no stored user (any user) has those credentials; otherwise writes the list without that name, then throws in `logout`, so the session stays |
| DraftBank.Manager.CalculateBalance | src/main.js:128-133 | as written, it throws in every well-typed state |
| DraftBank.Manager.StoredUserBalance | src/main.js:128-133 | the intended balance: it returns exactly when the session names a stored user, and then equals the balance plus twice the non-income amounts |

## Left out

- `localStorage` and JSON serialisation: main.js keeps the two stored values as `Bank.Manager` fields. src/main.js keeps them as a map of already parsed values. Both treat a JSON round trip as the identity.
- The DOM, the event handlers in `main()`, `formatCurrency`, `formatDate` and `console.warn` are user-interface and logging code.
- Floating-point amounts: amounts are integers and the interest is an exact real. Rounding of `amount * rate / 100` is not modelled.
- The interest rate: `toFixed` returns a string, which the model keeps as the real number it denotes. The multiplication in the summary converts it the same way.
- Account-number uniqueness: neither draft checks that a drawn number is unused, and neither does the model. `findUserByAccountNumber` returns the first holder.
- Bank.Manager.Register, Bank.Manager.Login, Bank.Manager.DeleteAccount: the PIN is taken as the number the page passes in (`Number(input)`). Any other value the data object could carry is not modelled.
- InputValidation.ValidateInput: JavaScript's string-to-number conversion (`isNaN(value)`, `value <= 0`) is not modelled. It arrives as the `asNumber` parameter.
- Bank.Manager.constructor: requires the stored list to have distinct user names. The code accepts any list, but every list it writes has distinct names: `register` refuses a taken name, and no other operation adds or renames a user.
- Time stamps and random draws are parameters. A transfer takes two time stamps because the code calls `new Date()` twice.
- Callbacks: `onSuccess` and `onError` become the returned `Outcome`. `Accounts.Message` gives the exact error text.

Three behaviours of the code a reader may not expect:

- the interest rate can be 3.00, not only below 3;
- in main.js, `isAuthenticated` and `logout` depend on the session naming a user who is still stored;
- in main.js, `deleteAccount` leaves the session key in place.

## Findings

| source | as written | input that shows it | evidently intended | confidence | as-written member | corrected member |
|---|---|---|---|---|---|---|
| src/main.js:128-133 | `calculateBalance` reads `transactions` from `getCurrentUser()`. That returns the stored `{userName, accountNumber}` descriptor, which has no `transactions`, so `.reduce` throws. | any state with a stored session, e.g. right after a successful `register` | the sum of the amounts of the stored user the session names | not executed | DraftBank.Manager.CalculateBalance | DraftBank.Manager.StoredUserBalance |
