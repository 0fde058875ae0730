# QuickWallet: a verified model of the message handler and its services

QuickWallet is a Telegram bot that keeps a naira wallet for each chat user.
It sells airtime and data bundles through an airtime provider, and it tops up
wallets through payment links. This project models the bot's core in Dafny and
proves properties of that model:

- the message handler's dialog: the registration gate, the per-user pending
  step, slash commands and free-text intents;
- the purchase path: debit, transaction record, provider call, settling
  write and refund;
- the wallet, transaction and user services over a shared record store;
- the pattern-matching intent parser;
- the provider's service-id, variation-code and plan tables and how its
  answers are normalised;
- the monthly report's aggregation.

The model has two layers.

- **Pure specifications** over a value `Tables` that holds the store's
  contents. Each is a function of the inputs, with the outcome of every
  store call given by a flag.
  - `Ledger`: the wallets.
  - `TxTable`: the transactions.
  - `UserTable`: the users.
  - `Nlp`: the fallback parser.
  - `Vtpass`: the provider tables.
  - `Report`: the monthly report's aggregation.
  - `Dialog`: the message handler, as one function per handler that maps
    the dialog states, the store and one message to an `Outcome`.
- **Imperative code** shaped like the source.
  - `Store.Database` is a class whose tables the services update in place.
  - `WalletService`, `TransactionService` and `UserService` hold methods over
    that object.
  - `Handler.MessageHandler` is a class with a `userStates` field.
  - Every method's postcondition ties the new state and its replies to the
    pure function of the old state.

What the message's collaborators decide comes in as an environment `Env`:

- which store calls fail;
- what the language model read;
- what `parseFloat` gives;
- demo mode;
- the provider's answer;
- the payment-link answer;
- the clock;
- the PIN hash and its comparison.

`DialogLaws` proves what each handler promises. `DialogInvariant` proves an
invariant that every message keeps. From it follows that, starting from an
empty store, no run of messages ever reaches the PIN-entry step and no
account is ever created through the dialog.

### Where the code and its description differ

The model follows the code in every case below.

- **Registration cannot finish.** The registration gate (`messageHandler.js:23-27`) runs before the pending step (`messageHandler.js:31-35`).
  - A sender without an account can only get `/start` past the gate.
  - `/start` is not a valid e-mail address.
  - So registration stalls at the e-mail step, and no account is ever created through the dialog (`DialogInvariant.NoAccountIsEverCreated`).
- **The PIN-entry step is never set.** No handler sets `enterPIN`, so the PIN check before a purchase never runs (`DialogInvariant.EnterPinUnreachable`).
  - A confirmed purchase goes straight to `processPurchase`.
- **The monthly report always fails.** `handleMonthlyReport` calls `transactionService.getMonthlyTransactions`, which `transactionService.js` does not define.
  - The report therefore always ends in the catch-all apology (`DialogLaws.MonthlyReportAlwaysFails`).
  - The aggregation it would print is modelled on its own (`Report`).
- **The refund's result is ignored.**
  - When the provider fails and the refund goes through, the balance is restored (`DialogLaws.FailedPurchaseRestoresBalance`).
  - When the refund itself fails, nothing tells the user (`DialogLaws.RefundOutcomeIsIgnored`).
- **Unknown networks fall back to MTN.** An unknown network gets the MTN service id, the MTN plan list and the variation code `1000`.
  - A size such as `0MB` matches the 500MB plan by substring, while its variation code is the 1GB plan's (`Vtpass.PlanAndCodeDisagreeOnPartialSize`).
- **Funding amounts behave unevenly.**
  - A funding intent's amount is tested for truthiness, so `0` asks for an amount while any other amount, negative ones included, goes straight to the payment link (`DialogLaws.FundIntentHasNoMinimum`).
  - Only the typed answer in the amount step is checked against the ₦100 minimum.
- **Existence probes miss duplicates.** `checkEmailExists` and `checkPhoneExists` use `single()`, so an address held by two rows reads as not found.
- **A failed existence read does not stop registration.** `createUser` (`userService.js:8-14`) ignores the error of its read by telegram id, so a failed read looks like no account and the insert goes ahead. The model takes this read to succeed (see `UserTable.CreateUser` under "## Left out").
- **Registration is not atomic.** `createUser` inserts the user row and then the wallet; a failed wallet insert leaves the user row in place.
- **Writes to a missing id report success.** `updateTransactionStatus` and `setPIN` on an id no row carries match nothing, and the store reports success.
- **An empty PIN hash counts as no PIN.** `verifyPIN` treats an empty stored hash like a missing one.

## Model

| member | source | states |
|---|---|---|
| Store.Database.constructor | src/services/walletService.js:1 | A fresh store has empty tables and is well formed. |
| Strings.IsSpace | src/services/nlpService.js:118 | The white space of `\s` in the size pattern and of `trim()` (as at messageHandler.js:114): the ECMAScript WhiteSpace and LineTerminator characters. Used by the trim lemmas below. |
| Strings.TrimStart | src/handlers/messageHandler.js:114 | Drops the leading white space. Specified by `Strings.TrimStartDropsLeadingSpace`. |
| Strings.TrimEnd | src/handlers/messageHandler.js:114 | Drops the trailing white space. Specified by `Strings.TrimEndDropsTrailingSpace`. |
| Strings.Trim | src/handlers/messageHandler.js:114 | `trim()`: drops white space at both ends. Specified by `Strings.TrimDropsOuterSpace` and `Strings.TrimNoSpace`. |
| Strings.Contains | src/services/nlpService.js:64-132 | `includes`: the text occurs at some position. Specified by `Strings.ContainsTransitive`. |
| Strings.ParseDigits | src/services/nlpService.js:70-73 | The value of a run of decimal digits. Specified by `Strings.ParsePrinted`, which reads back what `Strings.NatToString` prints. |
| Strings.Lower | src/services/nlpService.js:61 | Keeps the length and lower-cases each ASCII letter, position by position. |
| Strings.Upper | src/services/vtpassService.js:119 | Keeps the length and upper-cases each ASCII letter, position by position. |
| Strings.UpperIdempotent | src/services/vtpassService.js:112-120 | Upper-casing twice is upper-casing once, so a network already upper-cased by the parser keys the same table entry. |
| Strings.TrimStartDropsLeadingSpace | src/handlers/messageHandler.js:114 | What remains is a suffix of the input. Every dropped character is white space, and the result is empty or starts with a non-space. |
| Strings.TrimEndDropsTrailingSpace | src/handlers/messageHandler.js:123 | What remains is a prefix of the input. Every dropped character is white space, and the result is empty or ends with a non-space. |
| Strings.TrimDropsOuterSpace | src/handlers/messageHandler.js:140 | `trim()` gives a slice of the input preceded only by white space, with no white space at either end. |
| Strings.TrimNoSpace | src/handlers/messageHandler.js:160 | Text without white space is unchanged by `trim()`. |
| Strings.ContainsTransitive | src/services/nlpService.js:92-96 | Containing a text that contains a word means containing that word. |
| Strings.NatToString | src/handlers/messageHandler.js:584 | The decimal text of a number, as the template literals print the ids and timestamps here and in `REQ_${Date.now()}` (vtpassService.js:26), is non-empty and all digits. |
| Strings.ParsePrinted | src/services/nlpService.js:70-73 | Reading back the printed digits of a number gives the number. |
| Strings.NatToStringInjective | src/handlers/messageHandler.js:584 | Distinct numbers print differently. |
| Validation.IsValidEmail | src/handlers/messageHandler.js:651-654 | The e-mail pattern on the raw message text; the dialog trims only the address it stores. Specified by `Validation.ValidEmailSingleAt`, `ValidEmailTrimmed`, `EmailCharClasses` and the two example lemmas. |
| Validation.IsValidPhoneNumber | src/handlers/messageHandler.js:656-659 | The phone pattern. Specified by `Validation.ValidPhoneShape` and `ExamplePhoneIsValid`. |
| Validation.IsValidPIN | src/handlers/messageHandler.js:661-664 | Four to six ASCII digits. Specified by `Validation.ValidPINShape`. |
| Validation.ValidEmailSingleAt | src/handlers/messageHandler.js:651-654 | An address the e-mail pattern accepts has exactly one `@`, and it is not the first character. |
| Validation.ValidEmailTrimmed | src/handlers/messageHandler.js:651-654 | An accepted address contains no white space at all, so trimming it changes nothing. |
| Validation.ValidPhoneShape | src/handlers/messageHandler.js:656-659 | An accepted phone number is exactly eleven digits and unchanged by trimming. |
| Validation.ValidPINShape | src/handlers/messageHandler.js:661-664 | An accepted PIN is 4 to 6 characters and unchanged by trimming. |
| Validation.EmailCharClasses | src/handlers/messageHandler.js:651-654 | Outside its split point, an accepted address has no `@` and no white space. |
| Validation.StartIsNotAnEmail | src/handlers/messageHandler.js:132-147 | `/start`, the only text that passes the gate without an account, is rejected by the e-mail pattern. |
| Validation.ExampleEmailIsValid | src/handlers/messageHandler.js:651-654 | The pattern accepts an ordinary address. |
| Validation.ExamplePhoneIsValid | src/handlers/messageHandler.js:656-659 | The pattern accepts an ordinary Nigerian mobile number (`0` then `7`, `8` or `9`, then `0` or `1`, then eight digits). |
| Ledger.GetWalletBalance | src/services/walletService.js:4-18 | A balance comes back exactly when the read succeeds and the wallet exists, and it is the stored balance. |
| Ledger.UpdateBalance | src/services/walletService.js:20-51 | `updateBalance` as the result and the wallet table afterwards. Specified by `Ledger.UpdateTouchesOnlyItsWallet`, `UpdateArithmetic`, `AddIsTheDefault` and `UpdateKeepsNonNegative`; `WalletService.UpdateBalance` is proved to match it. |
| Ledger.DeductBalance | src/services/walletService.js:53-55 | A `subtract` update. Specified by `Ledger.DeductNeverOverdraws` and `DeductThenAddRestores`; `WalletService.DeductBalance` is proved to match it. |
| Ledger.AddBalance | src/services/walletService.js:57-59 | An `add` update. Specified by `Ledger.AddHasNoLowerBound` and `DeductThenAddRestores`; `WalletService.AddBalance` is proved to match it. |
| Ledger.UpdateTouchesOnlyItsWallet | src/services/walletService.js:20-51 | A failed update changes nothing. A successful one writes the new balance to that one wallet and no other. |
| Ledger.UpdateArithmetic | src/services/walletService.js:30-33 | The new balance is the old one plus the amount for `add` and minus it for any other operation. |
| Ledger.AddIsTheDefault | src/services/walletService.js:20 | An update with no operation named is an addition. |
| Ledger.DeductNeverOverdraws | src/services/walletService.js:20-55 | A deduction is refused for insufficient funds exactly when the wallet is readable and holds less than the amount. It succeeds exactly when both reads and writes work and the funds suffice, and then leaves a non-negative balance. |
| Ledger.AddHasNoLowerBound | src/services/walletService.js:57-59 | An addition is never checked: a negative amount can take a balance below zero. |
| Ledger.MissingWalletFails | src/services/walletService.js:4-18 | Without a wallet row, the read and every update fail and nothing is written. |
| Ledger.DeductThenAddRestores | src/services/walletService.js:53-59 | A successful deduction followed by a successful addition of the same amount gives back the original table. A failed addition changes nothing. |
| Ledger.UpdateKeepsNonNegative | src/services/walletService.js:20-51 | Subtracting, or adding a non-negative amount, keeps every balance non-negative. |
| WalletService.GetWalletBalance | src/services/walletService.js:4-18 | Returns the ledger's answer for the store's current wallets. |
| WalletService.UpdateBalance | src/services/walletService.js:20-51 | The result and the new wallets table are the ledger's for the old table. |
| WalletService.DeductBalance | src/services/walletService.js:53-55 | The result and the new wallets table are the ledger's deduction from the old table. |
| WalletService.AddBalance | src/services/walletService.js:57-59 | The result and the new wallets table are the ledger's addition to the old table. |
| TxTable.CreateTransaction | src/services/transactionService.js:4-27 | The inserted row and the table afterwards. Specified by `TxTable.CreateStoresTheRow`, `CreateFailureChangesNothing` and `WritesKeepIdsPositional`; `TransactionService.CreateTransaction` is proved to match it. |
| TxTable.UpdateTransactionStatus | src/services/transactionService.js:29-42 | Success and the table afterwards. Specified by `TxTable.UpdateChangesOnlyStatus`, `UpdateOfMissingIdIsNoOp` and `WritesKeepIdsPositional`; `TransactionService.UpdateTransactionStatus` is proved to match it. |
| TxTable.NewestFirst | src/services/transactionService.js:46-50 | The user's rows, newest first. Specified by `TxTable.NewestFirstHoldsTheUsersRows` and `NewestFirstIsDescending`. |
| TxTable.GetUserTransactions | src/services/transactionService.js:44-59 | A listing comes back exactly when the read succeeds. |
| TxTable.CreateStoresTheRow | src/services/transactionService.js:4-27 | An insert appends one row with every field the caller gave, under the caller's user id, with `pending` when no status is given. Earlier rows are kept. |
| TxTable.CreateFailureChangesNothing | src/services/transactionService.js:19-21 | A failed insert leaves the table as it was. |
| TxTable.UpdateChangesOnlyStatus | src/services/transactionService.js:29-42 | A status update rewrites only the status of the rows carrying the id. A failed write changes nothing. |
| TxTable.UpdateOfMissingIdIsNoOp | src/services/transactionService.js:29-42 | Updating an id no row carries reports success and changes nothing. |
| TxTable.WritesKeepIdsPositional | src/services/transactionService.js:4-42 | Both writes keep each row's id equal to its insertion position. |
| TxTable.NewestFirstHoldsTheUsersRows | src/services/transactionService.js:46-49 | The newest-first list holds exactly the user's rows. |
| TxTable.NewestFirstIsDescending | src/services/transactionService.js:50 | The newest-first list is in strictly descending creation order. |
| TxTable.ListingIsNewestPrefix | src/services/transactionService.js:44-59 | A listing is the first `min(count, limit)` of the user's rows newest first: only the user's own rows, in descending order. |
| TransactionService.CreateTransaction | src/services/transactionService.js:4-27 | The result and the new transactions table are the table function's for the old table. |
| TransactionService.UpdateTransactionStatus | src/services/transactionService.js:29-42 | The loop over the rows ends with the table the update function gives for the old table. |
| TransactionService.GetUserTransactions | src/services/transactionService.js:44-59 | Returns the listing of the current table, which `TxTable.ListingIsNewestPrefix` states is the first `limit` rows of the user's newest-first rows. |
| UserTable.FindByTelegramId | src/services/userService.js:52-56 | The row the Telegram-id index files under an id. `UserTable.GetUserByTelegramId` states that a successful read returns exactly this row and that null means a failed read or no row; `UserTable.CreateUserSucceeds` states that a new account is found this way. |
| UserTable.CreateUser | src/services/userService.js:5-48 | `createUser` as the result and the tables afterwards. Specified by `UserTable.CreateForExistingUser`, `CreateUserSucceeds`, `CreateUserNotAtomic`, `CreateUserInsertFailure` and `CreateUserKeepsWellFormed`; `UserService.CreateUser` is proved to match it. |
| UserTable.UsersWithEmail | src/services/userService.js:68-72 | The rows the e-mail query returns. Used by `UserTable.SoleEmailHolder`. |
| UserTable.UsersWithPhone | src/services/userService.js:93-97 | The rows the phone query returns. Used by `UserTable.SolePhoneHolder`. |
| UserTable.CheckEmailExists | src/services/userService.js:66-89 | `checkEmailExists`. Specified by `UserTable.CheckEmailMeansOneHolder` and `DuplicateEmailIsNotFound`; `UserService.CheckEmailExists` is proved to match it. |
| UserTable.CheckPhoneExists | src/services/userService.js:91-114 | `checkPhoneExists`. Specified by `UserTable.CheckPhoneMeansOneHolder` and `DuplicatePhoneIsNotFound`; `UserService.CheckPhoneExists` is proved to match it. |
| UserTable.SetPIN | src/services/userService.js:116-132 | `setPIN` as success and the tables afterwards. Specified by `UserTable.SetThenVerify`, `SetPINChangesOnlyTheHash` and `SetPINKeepsWellFormed`; `UserService.SetPIN` is proved to match it. |
| UserTable.VerifyPIN | src/services/userService.js:134-151 | `verifyPIN`. Specified by `UserTable.VerifyWithoutPin` and `SetThenVerify`; `UserService.VerifyPIN` is proved to match it. |
| UserTable.GetUserByTelegramId | src/services/userService.js:50-64 | A row comes back exactly when the read succeeds and an account is filed under the telegram id, and it is that account. |
| UserTable.CreateForExistingUser | src/services/userService.js:7-16 | Registering a telegram id that already has an account returns that account as a failure and writes nothing. |
| UserTable.CreateUserSucceeds | src/services/userService.js:5-48 | A registration with both inserts succeeding files a fresh row with exactly the four answers and no PIN, and a zero wallet for it. Nothing else changes. |
| UserTable.CreateUserNotAtomic | src/services/userService.js:33-43 | When the wallet insert fails, the call reports failure, yet the user row stays and has no wallet. |
| UserTable.CreateUserInsertFailure | src/services/userService.js:18-31 | A failed users insert writes nothing. |
| UserTable.CreateUserKeepsWellFormed | src/services/userService.js:5-48 | Registration keeps the telegram index and the user rows consistent. |
| UserTable.CheckEmailMeansOneHolder | src/services/userService.js:66-89 | The e-mail probe answers true exactly when the read succeeds and one row, and no other, holds the trimmed, lower-cased address (both directions); a failed read answers false. |
| UserTable.CheckPhoneMeansOneHolder | src/services/userService.js:91-114 | The phone probe answers true exactly when the read succeeds and one row, and no other, holds the trimmed number (both directions); a failed read answers false. |
| UserTable.DuplicateEmailIsNotFound | src/services/userService.js:66-89 | Two rows holding the same address make the e-mail probe answer false. |
| UserTable.SoleEmailHolder | src/services/userService.js:66-89 | Exactly one row in the rows holding an address is the same as some row holding it with every other holder equal to it. |
| UserTable.SolePhoneHolder | src/services/userService.js:91-114 | Exactly one row in the rows holding a number is the same as some row holding it with every other holder equal to it. |
| UserTable.DuplicatePhoneIsNotFound | src/services/userService.js:91-114 | Two rows holding the same trimmed number make the phone probe answer false. |
| UserTable.VerifyWithoutPin | src/services/userService.js:134-143 | An account with no PIN hash is told "PIN not set", whatever is typed. |
| UserTable.SetThenVerify | src/services/userService.js:116-151 | With a hash whose comparison accepts a PIN against its own non-empty hash, a stored PIN verifies. |
| UserTable.SetPINChangesOnlyTheHash | src/services/userService.js:116-132 | Setting a PIN writes the hash into that one row and changes nothing else. A failed or missing-id write changes nothing and reports accordingly. |
| UserTable.SetPINKeepsWellFormed | src/services/userService.js:116-132 | Writing a PIN hash keeps the store well formed. |
| UserService.GetUserByTelegramId | src/services/userService.js:50-64 | Returns the table function's answer for the current store. |
| UserService.CreateUser | src/services/userService.js:5-48 | The result and the new store are the table function's for the old store. |
| UserService.CheckEmailExists | src/services/userService.js:66-89 | Returns the probe's answer for the current store, which `UserTable.CheckEmailMeansOneHolder` states is true exactly when the read succeeds and one row alone holds the address. |
| UserService.CheckPhoneExists | src/services/userService.js:91-114 | Returns the probe's answer for the current store, which `UserTable.CheckPhoneMeansOneHolder` states is true exactly when the read succeeds and one row alone holds the number. |
| UserService.SetPIN | src/services/userService.js:116-132 | The result and the new store are the table function's for the old store. |
| UserService.VerifyPIN | src/services/userService.js:134-151 | Returns the verdict the table function gives for the current store. |
| Nlp.NetworkAt | src/services/nlpService.js:104-109 | The network name at one position, upper-cased. Specified through `Nlp.FirstNetworkFrom`. |
| Nlp.IsNetworkName | src/services/nlpService.js:104 | The four network names. Used by `Nlp.NetworkIsCanonical`. |
| Nlp.NetworkIn | src/services/nlpService.js:104-109 | The network the text names, upper-cased. Specified by `Nlp.FirstNetworkFrom` and `Nlp.NetworkIsCanonical`. |
| Nlp.ElevenDigitsAt | src/services/nlpService.js:103 | Eleven digits start at a position. Used by `Nlp.FirstElevenDigitsFrom` and `Nlp.PhoneIn`. |
| Nlp.UnitAt | src/services/nlpService.js:118 | The `gb` or `mb` unit at a position. Used by `Nlp.DataSizeAtShape`. |
| Nlp.DataSizeAt | src/services/nlpService.js:118 | The size token read at a position. Specified by `Nlp.DataSizeAtShape`. |
| Nlp.DataSizeIn | src/services/nlpService.js:118-128 | The first size token, upper-cased without spaces. Specified by `Nlp.FirstDataSizeFrom` and `Nlp.DataSizeShape`. |
| Nlp.Cascade | src/services/nlpService.js:64-132 | The keyword tests in source order. Specified by `Nlp.CascadeIsFirstRule` against the rule table `Nlp.FirstRuleFrom`. |
| Nlp.MentionsAny | src/services/nlpService.js:64-132 | The text contains one of a rule's keywords. Specified by `Nlp.MentionsTwo` and `MentionsThree`. |
| Nlp.FirstRuleFrom | src/services/nlpService.js:64-132 | The first matching rule of the table, an independent statement of the cascade. Related to `Nlp.Cascade` by `Nlp.CascadeIsFirstRule`. |
| Nlp.ParseIntentFallback | src/services/nlpService.js:60-133 | `parseIntentFallback`. Specified by `Nlp.ClassifiedByFirstRule`, `OnlyPurchasesCarryParameters`, `SetPinInsideResetPin`, `ChangePinNeedsChangePin` and `ResetPinIsSetPin`. |
| Nlp.DigitRun | src/services/nlpService.js:70 | The longest run of digits starting at a position: a slice of the text, all digits, and not followed by a digit. |
| Nlp.SpaceRun | src/services/nlpService.js:118 | The longest run of white space starting at a position. |
| Nlp.FirstDigitFrom | src/services/nlpService.js:70 | The leftmost digit at or after a position, or none when there is none. |
| Nlp.AmountIn | src/services/nlpService.js:70-73 | There is no amount exactly when the text has no digit. Otherwise the amount is the value of the leftmost run of digits. |
| Nlp.FirstElevenDigitsFrom | src/services/nlpService.js:103 | The leftmost place at or after a position where eleven digits in a row start, or none. |
| Nlp.PhoneIn | src/services/nlpService.js:103 | There is no phone exactly when no eleven digits stand in a row. Otherwise the phone is the leftmost such eleven-digit slice. |
| Nlp.FirstNetworkFrom | src/services/nlpService.js:104 | A found network is one of the four names in canonical case, read at some position at or after the start. None means no name occurs there. |
| Nlp.FractionAt | src/services/nlpService.js:118 | The optional fractional part of a size: empty, or a dot followed by at least one digit, inside the text. |
| Nlp.NumberAt | src/services/nlpService.js:118 | The number of a size lies inside the text. |
| Nlp.FirstDataSizeFrom | src/services/nlpService.js:118 | The leftmost position at or after the start where a size token starts, with none earlier. None means none anywhere after the start. |
| Nlp.DataSizeAtShape | src/services/nlpService.js:118 | A size read at a position is digits, an optional dot with digits, then `GB` or `MB`. |
| Nlp.DataSizeShape | src/services/nlpService.js:118-128 | The size the parser reports is digits, an optional fraction, then `GB` or `MB` in upper case. |
| Nlp.CascadeIsFirstRule | src/services/nlpService.js:64-132 | The chain of keyword tests is the first rule in the rule table whose keywords the lower-cased message contains, or `unknown`. |
| Nlp.ClassifiedByFirstRule | src/services/nlpService.js:60-133 | The parser's intent is the first matching rule for the lower-cased message. |
| Nlp.OnlyPurchasesCarryParameters | src/services/nlpService.js:60-133 | Every intent other than funding, airtime and data carries no amount, network, phone or size. |
| Nlp.SetPinInsideResetPin | src/services/nlpService.js:92-96 | Any text containing "reset pin" contains "set pin". |
| Nlp.ChangePinNeedsChangePin | src/services/nlpService.js:92-98 | The `change_pin` intent is only ever produced for text containing "change pin", because "reset pin" is caught by the earlier `set_pin` rule. |
| Nlp.ResetPinIsSetPin | src/services/nlpService.js:92-94 | "reset pin", with none of the earlier keywords, is read as `set_pin`. |
| Nlp.NetworkIsCanonical | src/services/nlpService.js:104-109 | A network the parser reports is one of `MTN`, `AIRTEL`, `GLO`, `9MOBILE`. |
| Nlp.MentionsTwo | src/services/nlpService.js:64 | A two-keyword rule matches exactly when the message contains one of the two. |
| Nlp.MentionsThree | src/services/nlpService.js:69 | A three-keyword rule matches exactly when the message contains one of the three. |
| Vtpass.AirtimeServiceId | src/services/vtpassService.js:112-120 | `getAirtimeServiceId`. Specified by `Vtpass.AirtimeServiceIdCases`. |
| Vtpass.DataServiceId | src/services/vtpassService.js:122-130 | `getDataServiceId`. Specified by `Vtpass.DataServiceIsAirtimeServiceData`. |
| Vtpass.DataVariationCode | src/services/vtpassService.js:132-152 | `getDataVariationCode`. Specified by `Vtpass.VariationCodeMatchesPlan`, `PlanAndCodeDisagreeOnPartialSize` and `OtherNetworksUseDefaults`. |
| Vtpass.DataServiceIsAirtimeServiceData | src/services/vtpassService.js:112-130 | The data service id is the airtime service id followed by `-data`. |
| Vtpass.AirtimeServiceIdCases | src/services/vtpassService.js:112-120 | The service id is one of the four known ids, ignores letter case, and is `mtn` for any unknown network. |
| Vtpass.DataPlans | src/services/vtpassService.js:154-174 | Every network gets five plans: Airtel, in any letter case, gets the Airtel list, and every other network the MTN list. |
| Vtpass.FindPlan | src/handlers/messageHandler.js:382-391 | A found plan is the first plan, in list order, whose name contains the size: every plan before it lacks the size. None exactly when no plan's name contains it. |
| Vtpass.BareUnitBuysFirstPlan | src/handlers/messageHandler.js:382-391 | The size `GB` buys the first MTN plan whose name carries it, the 1GB plan at 350, not a larger one. |
| Vtpass.VariationCodeMatchesPlan | src/services/vtpassService.js:132-174 | For MTN and Airtel, each listed size's variation code is the code of the plan whose name starts with that size. |
| Vtpass.PlanAndCodeDisagreeOnPartialSize | src/services/vtpassService.js:132-174 | `0MB` finds the MTN 500MB plan by substring, while its variation code is the default `1000`, the 1GB plan's. |
| Vtpass.OtherNetworksUseDefaults | src/services/vtpassService.js:132-174 | Glo and 9mobile get the MTN plans and the variation code `1000` for every size. |
| Vtpass.RequestId | src/services/vtpassService.js:26 | `REQ_<now>`. Printed through `Strings.NatToString`, whose injectivity is `Strings.NatToStringInjective`. |
| Vtpass.AirtimePayRequest | src/services/vtpassService.js:25-32 | The airtime request body. Its service id is specified by `Vtpass.AirtimeServiceIdCases`. |
| Vtpass.DataPayRequest | src/services/vtpassService.js:73-82 | The data request body. Its codes are specified by `Vtpass.DataServiceIsAirtimeServiceData` and `VariationCodeMatchesPlan`. |
| Vtpass.Normalise | src/services/vtpassService.js:15-59 | The reply handling shared by both purchases. Specified by `Vtpass.SuccessIffCode000` and `DemoAlwaysSucceeds`. |
| Vtpass.PurchaseAirtime | src/services/vtpassService.js:14-60 | `purchaseAirtime`. Specified through `Vtpass.Normalise`. |
| Vtpass.PurchaseData | src/services/vtpassService.js:62-110 | `purchaseData`. Specified through `Vtpass.Normalise`. |
| Vtpass.SuccessIffCode000 | src/services/vtpassService.js:24-59 | Outside demo mode a purchase succeeds exactly when the provider answered with code `000`, and then carries the provider's request id and the success text. A failure has no reference. A refusal's message is the provider's description when it is non-empty and `Purchase failed` otherwise; no usable answer gives `Service temporarily unavailable`. |
| Vtpass.DemoAlwaysSucceeds | src/services/vtpassService.js:15-22 | In demo mode a purchase succeeds whatever the provider would say, with a `DEMO_` reference. |
| Report.Spent | src/handlers/messageHandler.js:536-550 | Completed spending of one kind. Specified by `Report.SpendingBreakdown`, `BreakdownBoundedByTotal` and `OnlyCompletedSpendingCounts`. |
| Report.TotalSpent | src/handlers/messageHandler.js:536-538 | Completed spending that is not funding. Specified by `Report.SpendingBreakdown` and `BreakdownBoundedByTotal`. |
| Report.CountStatus | src/handlers/messageHandler.js:568-570 | Rows with a status. Specified by `Report.StatusCountsPartition`. |
| Report.Summarise | src/handlers/messageHandler.js:536-570 | Airtime plus data spending is the total spent, the net flow is funded minus spent, and the successful and failed counts do not exceed the row count. |
| Report.SpendingBreakdown | src/handlers/messageHandler.js:536-550 | Every spending row is an airtime or data row, so the two breakdown sums add up to the total spent. |
| Report.StatusCountsPartition | src/handlers/messageHandler.js:568-570 | The completed, failed and pending counts add up to the number of rows. |
| Report.BreakdownBoundedByTotal | src/handlers/messageHandler.js:536-550 | With non-negative amounts, each breakdown sum lies between zero and the total spent. |
| Report.OnlyCompletedSpendingCounts | src/handlers/messageHandler.js:536-538 | A pending or failed row, or a funding, adds nothing to the total spent. |
| Dialog.FindUser | src/handlers/messageHandler.js:21 | The account lookup every handler makes. Specified through `UserTable.GetUserByTelegramId`. |
| Dialog.ParseIntent | src/services/nlpService.js:15-58 | The language model's reading when it gives one, otherwise `Nlp.ParseIntentFallback`. Specified by the `Nlp` lemmas on the fallback. |
| Dialog.FundReference | src/handlers/messageHandler.js:584 | `FUND_<telegram id>_<now>`. Specified by `DialogLaws.FundReferenceInjective`. |
| Dialog.HandleMessage | src/handlers/messageHandler.js:14-53 | `handleMessage`. Specified by `DialogLaws.GateBlocksUnregistered`, `PendingStepTakesPrecedence`, `CommandsBeforeIntents` and `DialogInvariant.MessageKeeps`. Handler.MessageHandler.HandleMessage is proved to reach exactly this outcome. |
| Dialog.HandleCommand | src/handlers/messageHandler.js:55-71 | `handleCommand`. Specified by `DialogInvariant.CommandKeeps`. Handler.MessageHandler.HandleCommand is proved to reach exactly this outcome. |
| Dialog.HandleStart | src/handlers/messageHandler.js:73-106 | `handleStart`. Specified by `DialogInvariant.StartKeeps` and `StartBeforeAccount`. Handler.MessageHandler.HandleStart is proved to reach exactly this outcome. |
| Dialog.HandleUserState | src/handlers/messageHandler.js:108-244 | `handleUserState`. Specified by `DialogLaws.RegistrationCollectsTrimmedAnswers`, `InvalidInputKeepsStep` and `DialogInvariant.UserStateKeeps`. Handler.MessageHandler.HandleUserState is proved to reach exactly this outcome. |
| Dialog.AnswerPhoneNumber | src/handlers/messageHandler.js:149-178 | The phone-number step. Specified by `DialogLaws.AccountCreationEndsOrAdvances` and `DialogInvariant.PhoneNumberKeeps`. Handler.MessageHandler.AnswerPhoneNumber is proved to reach exactly this outcome. |
| Dialog.AnswerPin | src/handlers/messageHandler.js:180-211 | The set-PIN step. Specified by `DialogInvariant.SetPinKeeps`. Handler.MessageHandler.AnswerPin is proved to reach exactly this outcome. |
| Dialog.AnswerConfirmation | src/handlers/messageHandler.js:213-220 | The confirmation step. Specified by `DialogLaws.OnlyYesConfirms`. Handler.MessageHandler.AnswerConfirmation is proved to reach exactly this outcome. |
| Dialog.AnswerPinEntry | src/handlers/messageHandler.js:222-233 | The PIN-entry step. Specified by `Handler.PinEntryMatches`, `PinEntryRefused` and `DialogInvariant.EnterPinUnreachable`. Handler.MessageHandler.AnswerPinEntry is proved to reach exactly this outcome. |
| Dialog.AnswerFundAmount | src/handlers/messageHandler.js:235-243 | The funding-amount step. Specified by `DialogLaws.FundAmountMinimum`. Handler.MessageHandler.AnswerFundAmount is proved to reach exactly this outcome. |
| Dialog.HandleIntent | src/handlers/messageHandler.js:246-306 | `handleIntent`. Specified by `DialogLaws.FundIntentHasNoMinimum`, `FundIntentWithoutAmountAsks`, `MonthlyReportAlwaysFails` and `DialogInvariant.IntentKeeps`. Handler.MessageHandler.HandleIntent is proved to reach exactly this outcome. |
| Dialog.SetPinStep | src/handlers/messageHandler.js:279-283 | The set and change PIN intents open the set-PIN step. Specified by `DialogLaws.ResetPinOpensSetPin`. Handler.MessageHandler.OpenSetPin is proved to reach exactly this outcome. |
| Dialog.HandleBalanceCheck | src/handlers/messageHandler.js:308-326 | `handleBalanceCheck`. Specified through `Ledger.GetWalletBalance`. Handler.MessageHandler.HandleBalanceCheck is proved to reach exactly this outcome. |
| Dialog.HandleAirtimePurchase | src/handlers/messageHandler.js:328-368 | `handleAirtimePurchase`. Specified by `DialogLaws.AirtimeRequestOutcome` and `DialogInvariant.AirtimeKeeps`. Handler.MessageHandler.HandleAirtimePurchase is proved to reach exactly this outcome. |
| Dialog.HandleDataPurchase | src/handlers/messageHandler.js:370-423 | `handleDataPurchase`. Specified by `DialogLaws.DataRequestOutcome`, `UnknownSizeListsPlans` and `DialogInvariant.DataKeeps`. Handler.MessageHandler.HandleDataPurchase is proved to reach exactly this outcome. |
| Dialog.Debit | src/handlers/messageHandler.js:429-434 | The debit a purchase starts with. Specified by `DialogLaws.RefusedDebitStops` and `PurchaseBalanceOutcomes`. |
| Dialog.PendingRecord | src/handlers/messageHandler.js:436-444 | The pending record a purchase creates. Specified by `DialogLaws.RecordIsPendingThenSettled`. |
| Dialog.ProviderResult | src/handlers/messageHandler.js:448-462 | The provider's answer for a purchase. Specified through `Vtpass.SuccessIffCode000` and `DemoAlwaysSucceeds`. |
| Dialog.ProviderCalls | src/handlers/messageHandler.js:448-462 | The request a purchase posts. Specified by `DialogLaws.ProviderCalledOnce`. |
| Dialog.ProcessPurchase | src/handlers/messageHandler.js:425-491 | `processPurchase`. Specified by `DialogLaws.RefusedDebitStops`, `RecordIsPendingThenSettled`, `FailedPurchaseRestoresBalance`, `PurchaseBalanceOutcomes`, `RefundOutcomeIsIgnored`, `ProviderCalledOnce` and `DialogInvariant.PurchaseStoreKeeps`. Handler.MessageHandler.ProcessPurchase is proved to reach exactly this outcome. |
| Dialog.HandleTransactionHistory | src/handlers/messageHandler.js:493-514 | `handleTransactionHistory`. Specified through `TxTable.ListingIsNewestPrefix`. Handler.MessageHandler.HandleTransactionHistory is proved to reach exactly this outcome. |
| Dialog.GeneratePaymentLink | src/handlers/messageHandler.js:582-610 | `generatePaymentLink`. Specified by `DialogLaws.PaymentLinkClearsStep` and `DialogInvariant.PaymentLinkKeeps`. Handler.MessageHandler.GeneratePaymentLink is proved to reach exactly this outcome. |
| DialogLaws.GateBlocksUnregistered | src/handlers/messageHandler.js:21-27 | A sender without an account, or whose lookup fails, who types anything but `/start` is told to register, and nothing changes. |
| DialogLaws.PendingStepTakesPrecedence | src/handlers/messageHandler.js:30-35 | Past the gate, a pending step takes the message, even when it is `/start` or a command. |
| DialogLaws.CommandsBeforeIntents | src/handlers/messageHandler.js:37-45 | With no pending step, text starting with `/` goes to the command handler and anything else to the intent handler with the parsed intent. |
| DialogLaws.RegistrationCollectsTrimmedAnswers | src/handlers/messageHandler.js:113-178 | Four valid answers from the first-name step advance through the steps and create an account holding the four trimmed answers, with a zero wallet, then open the PIN step. |
| DialogLaws.InvalidInputKeepsStep | src/handlers/messageHandler.js:132-187 | An invalid e-mail, phone number or PIN re-prompts and keeps the step and what was collected. |
| DialogLaws.AccountCreationEndsOrAdvances | src/handlers/messageHandler.js:149-178 | A failed account creation ends the dialog. A successful one sets the PIN step with the new account's id. |
| DialogLaws.AirtimeRequestOutcome | src/handlers/messageHandler.js:328-368 | The confirmation step is set exactly when amount, network and phone are all given and the balance covers the amount, and then it holds exactly those details. A request never writes to the store or calls a provider. |
| DialogLaws.DataRequestOutcome | src/handlers/messageHandler.js:370-423 | The confirmation step is set exactly when network and size are given, a plan matches and the balance covers its price. It then holds the plan's price and the given phone, or else the account's own number. |
| DialogLaws.UnknownSizeListsPlans | src/handlers/messageHandler.js:382-391 | When no plan matches the size, the reply lists the network's plans and nothing changes. |
| DialogLaws.OnlyYesConfirms | src/handlers/messageHandler.js:213-220 | Only `yes`, in any letter case, goes on to the purchase; anything else cancels. Either way the confirmation step is gone. |
| DialogLaws.RefusedDebitStops | src/handlers/messageHandler.js:425-434 | A refused debit ends the purchase: no record, no provider call, no change to the store. |
| DialogLaws.RecordIsPendingThenSettled | src/handlers/messageHandler.js:436-470 | After a debit, a successful insert appends one row for the purchase. It is created `pending` and settled to `completed` or `failed` by the provider's answer when the settling write succeeds. A failed insert adds no row. |
| DialogLaws.FailedPurchaseRestoresBalance | src/handlers/messageHandler.js:478-485 | When the provider fails after a debit and the refund's read and write succeed, every wallet is exactly as before the purchase. |
| DialogLaws.PurchaseBalanceOutcomes | src/handlers/messageHandler.js:425-491 | After a debit, the buyer's wallet ends where it started or lower by the amount, and other wallets do not change. On success it is lower by the amount, and that is the balance the reply shows. |
| DialogLaws.RefundOutcomeIsIgnored | src/handlers/messageHandler.js:478-485 | Whether the refund's read or write fails changes neither the reply, nor the provider calls, nor the dialog states, nor the transaction table. |
| DialogLaws.ProviderCalledOnce | src/handlers/messageHandler.js:448-462 | In demo mode no provider request is posted. Otherwise exactly one is, and a data request carries the variation code of the size. |
| DialogLaws.FundAmountMinimum | src/handlers/messageHandler.js:235-243 | In the amount step, an unreadable amount or one below 100 re-prompts and keeps the step. 100 or more goes to the payment link. |
| DialogLaws.FundIntentHasNoMinimum | src/handlers/messageHandler.js:254-260 | A funding intent with a non-zero amount requests a payment link for exactly that amount, with no minimum, and leaves no step. |
| DialogLaws.FundIntentWithoutAmountAsks | src/handlers/messageHandler.js:254-260 | A funding intent without a truthy amount opens the amount step and asks for an amount. |
| DialogLaws.PaymentLinkClearsStep | src/handlers/messageHandler.js:582-610 | Issuing a payment link makes one call with the `FUND_<telegram id>_<time>` reference and clears the step whatever the answer. The reply shows a link exactly when one was issued. |
| DialogLaws.FundReferenceInjective | src/handlers/messageHandler.js:584 | Distinct senders or distinct instants get distinct funding references. |
| DialogLaws.SplitAtSeparator | src/handlers/messageHandler.js:584 | A reference's two digit fields are recovered from where the separator falls. |
| DialogLaws.MonthlyReportAlwaysFails | src/handlers/messageHandler.js:516-523 | The monthly-report intent always ends in the catch-all apology and changes nothing. |
| DialogLaws.ResetPinOpensSetPin | src/handlers/messageHandler.js:279-283 | "reset pin" typed by an account holder with no pending step, read by the pattern parser, opens the set-PIN step for that account. |
| DialogInvariant.InvPreserved | src/handlers/messageHandler.js:14-53 | Every message keeps these facts: the store is well formed, no wallet is negative, nobody is in the PIN-entry step, and a sender without an account is at most at the e-mail step. |
| DialogInvariant.MessageKeeps | src/handlers/messageHandler.js:14-53 | One message keeps the store invariant and every existing account, changes only the sender's step, and leaves that step as it was or sets an allowed one. |
| DialogInvariant.UserStateKeeps | src/handlers/messageHandler.js:108-244 | The same for every answer to a pending step. The PIN-entry step is excluded by the invariant itself. |
| DialogInvariant.IntentKeeps | src/handlers/messageHandler.js:246-306 | The same for every intent of an account holder. |
| DialogInvariant.PurchaseKeeps | src/handlers/messageHandler.js:425-491 | The same for a purchase: the debit only goes through with sufficient funds, and the refund only gives back what was taken. |
| DialogInvariant.PurchaseStoreKeeps | src/handlers/messageHandler.js:425-491 | A purchase keeps the store well formed, every wallet non-negative, and every account. |
| DialogInvariant.SetPinKeeps | src/handlers/messageHandler.js:180-211 | The same for an answer in the set-PIN step. |
| DialogInvariant.PhoneNumberKeeps | src/handlers/messageHandler.js:149-178 | The same for an account-creation answer from a sender who already has an account. |
| DialogInvariant.AirtimeKeeps | src/handlers/messageHandler.js:328-368 | The same for an airtime request. |
| DialogInvariant.DataKeeps | src/handlers/messageHandler.js:370-423 | The same for a data request. |
| DialogInvariant.StartKeeps | src/handlers/messageHandler.js:73-106 | The same for `/start`. |
| DialogInvariant.CommandKeeps | src/handlers/messageHandler.js:55-71 | The same for every slash command. |
| DialogInvariant.PaymentLinkKeeps | src/handlers/messageHandler.js:582-610 | The same for a payment-link request. |
| DialogInvariant.RunKeepsInv | src/handlers/messageHandler.js:14-53 | Any sequence of messages keeps the invariant. |
| DialogInvariant.EnterPinUnreachable | src/handlers/messageHandler.js:222-233 | From an empty store and no pending steps, after any messages, nobody is in the PIN-entry step, no wallet is negative, the store is well formed, and every sender without an account is at most at the e-mail step. |
| DialogInvariant.NoAccountIsEverCreated | src/handlers/messageHandler.js:21-27 | Starting with no accounts and only pre-account steps, no sequence of messages creates an account. |
| DialogInvariant.NoAccountStep | src/handlers/messageHandler.js:21-35 | With no accounts, one message creates none and keeps every step before the account. |
| DialogInvariant.StartBeforeAccount | src/handlers/messageHandler.js:132-139 | `/start` typed during registration is taken as the pending answer, and the step stays before the account. |
| Handler.MessageHandler.constructor | src/handlers/messageHandler.js:9-12 | A new handler has no pending steps and uses the given store. |
| Handler.MessageHandler.HandleMessage | src/handlers/messageHandler.js:14-53 | The new dialog states, store, reply and provider calls are the dialog function's for the old state, and the dialog invariant is kept. |
| Handler.MessageHandler.HandleCommand | src/handlers/messageHandler.js:55-71 | The new states, store, reply and calls are the command function's for the old state. |
| Handler.MessageHandler.HandleStart | src/handlers/messageHandler.js:73-106 | The new states, store and reply are the start function's for the old state. |
| Handler.MessageHandler.HandleUserState | src/handlers/messageHandler.js:108-244 | The new states, store, reply and calls are the pending-step function's for the old state. |
| Handler.MessageHandler.AnswerPhoneNumber | src/handlers/messageHandler.js:149-178 | The effect of the phone-number answer, with account creation, is the dialog function's. |
| Handler.MessageHandler.AnswerPin | src/handlers/messageHandler.js:180-211 | The effect of the set-PIN answer is the dialog function's. |
| Handler.MessageHandler.AnswerConfirmation | src/handlers/messageHandler.js:213-220 | The effect of the confirmation answer is the dialog function's. |
| Handler.MessageHandler.AnswerPinEntry | src/handlers/messageHandler.js:222-233 | The effect of the PIN-entry answer is the dialog function's. |
| Handler.MessageHandler.AnswerFundAmount | src/handlers/messageHandler.js:235-243 | The effect of the amount answer is the dialog function's. |
| Handler.MessageHandler.HandleIntent | src/handlers/messageHandler.js:246-306 | The effect of an intent is the dialog function's. |
| Handler.MessageHandler.OpenSetPin | src/handlers/messageHandler.js:279-283 | Opening the set-PIN step sets the sender's step to it for the account's id. |
| Handler.MessageHandler.HandleBalanceCheck | src/handlers/messageHandler.js:308-326 | The reply is the dialog function's, and nothing changes. |
| Handler.MessageHandler.HandleAirtimePurchase | src/handlers/messageHandler.js:328-368 | The new states and reply are the dialog function's for the old state. |
| Handler.MessageHandler.HandleDataPurchase | src/handlers/messageHandler.js:370-423 | The new states and reply are the dialog function's for the old state. |
| Handler.MessageHandler.ProcessPurchase | src/handlers/messageHandler.js:425-491 | The debit, record, provider call, settling write and refund leave the states, store, reply and calls the dialog function gives. |
| Handler.MessageHandler.HandleTransactionHistory | src/handlers/messageHandler.js:493-514 | The reply is the dialog function's, and nothing changes. |
| Handler.MessageHandler.GeneratePaymentLink | src/handlers/messageHandler.js:582-610 | The new states, reply and payment-link call are the dialog function's for the old state. |
| Handler.PinEntryMatches | src/handlers/messageHandler.js:226-229 | A matching PIN in the PIN-entry step goes on to the purchase. |
| Handler.PinEntryRefused | src/handlers/messageHandler.js:230-232 | Any other verdict clears the step and cancels the purchase. |

## Left out

- UserTable.CreateUser: the existence read by telegram id is taken to succeed. In the source that read's error is ignored, so after a failed read `createUser` inserts a second row for a telegram id that already has an account. A store holding one row per telegram id cannot represent that duplicate. `UserTable.CreateForExistingUser` and `UserService.CreateUser` inherit this. The dialog cannot reach the case: a phone answer passes the registration gate only after a successful lookup in the same message.
- Report.SpendingBreakdown: the `type` column is taken to hold only `airtime`, `data` and `funding`. In the source a row of any other type counts in the total spent and in neither breakdown sum, so there airtime plus data is at most the total.
- Telegram I/O is not modelled. Replies are tags, not texts: sending, deleting the user's PIN message, Markdown and emoji are left out.
- Store faults are modelled, not their causes. The record store (Supabase) is the `Store.Database` object. A query error or a thrown exception is one flag per call site in `Env.failing`.
- Only one lookup fault per message: every user lookup within one message succeeds or fails together.
- Races between concurrent messages are not modelled. In particular, the read-then-write of `updateBalance` is not atomic under concurrency.
- Money is exact: amounts are `real`. Floating-point rounding, `toFixed(2)` and `parseInt` overflow are not modelled.
- `parseFloat` of the typed amount is the parameter `Env.parseFloat`.
- PIN hashing is two parameters: bcrypt is `Env.hash` and `Env.compare`.
- `Date.now()` is the parameter `Env.now`.
- The language model's path of `parseIntent` (nlpService.js:15-58) is not modelled: the model's reading is the parameter `Env.llm`. Only the pattern-matching fallback parser is modelled.
- The payment-link provider (paystackService.js) is not modelled: its answer is the parameter `Env.link`. Its request body and the callback URL are left out.
- The airtime provider's HTTP request is not sent: it is recorded as a `ProviderCall` carrying the service id, amount, phone and variation code, and the answer comes from `Env.provider`. Headers and the request-id format beyond its timestamp are left out.
- Non-text and edited messages, and the bot's start-up (index.js), are not modelled.
- The month filter of the monthly report is left out: the store query it calls does not exist. `Report` models the aggregation over the rows as given.
- The order of rows with equal `created_at` is not modelled: rows are listed newest first by insertion position.
- Strings.Lower, Strings.Upper: map ASCII letters only. JavaScript's Unicode case mapping is not modelled. `trim()` and `\s` are not limited this way: `Strings.IsSpace` is the full ECMAScript WhiteSpace and LineTerminator set.
- Nlp.NumberAt: states only that the number lies inside the text, not that it is the slice read there. Its shape is stated by `Nlp.DataSizeAtShape`.
- Nlp.FractionAt: states the fraction's shape and bound, not that it is the slice read there.
- The handlers' `catch` blocks are modelled where the code reaches them: a missing user's row and the missing monthly query both give the catch-all reply. A failure to send a Telegram message, which would also land there, is not modelled.
