# CashFlow ledger core in Dafny

CashFlow is an Android personal-finance app. A signed-in user keeps
account cards: cash, bank cards and others, each with a balance. The user
records income, expenses and transfers between accounts. Every balance
change is written to the user's account documents, and a transaction
record is appended to the user's history. This project models that core:

- **Repository**: the `UserRepository` ledger operations, as a class over
  the user's account map and record sequence.
- **Dialogs**: the state and confirm logic of the dialogs that build the
  requests (add income, transfer, add account, edit account), as classes
  whose handlers update the fields.
- **Screens**: the pure rules of the screens that show the data. These
  are the card icon and gradient, the card-number grouping and cursor
  mapping, the history screen's grouping by day and search filter, the
  recent-transactions list and the greeting.

Amounts are whole cents (`int`). The app's `Double` text handling
(`toDoubleOrNull`, `toString`) is modelled by `Amounts.ParseAmount` and
`Amounts.FormatAmount`. Lower-case names in the repository's Kotlin source
are cited in backticks.

Modules, one per source file or concern:

- `Strings`, `Data`, `Amounts`, `Dates`: shared text helpers, the two
  record types (`AccountCard`, `TransactionData`), the amount text and the
  date texts.
- `Repository`: `UserRepository.kt`.
- `AddIncomeDialog`, `AddTransferDialog`, `AddAccountDialog`,
  `EditAccountDialog`: the dialogs.
- `CardFormat`, `AccountsSection`: card-number formatting and the accounts
  carousel.
- `DayGroups`, `History`, `LatestTransactions`: grouping by day, the
  history screen and the home screen's recent list.
- `Greeting`: the greeting section.

Facts about the code that shape the model:

- **Transfer timestamps.** `transfer` formats `Date()` once per leg, so
  `Transfer` takes one date per leg.
- **Transfer records.** The leg records are added without waiting for the
  store, so `Transfer` takes a saved flag per leg.
- **Self-transfer.** Nothing checks that source and target differ. The
  corrected `Transfer` requires distinct accounts, and
  `Repository.SelfTransferInflates` proves what the code as written does
  (see Findings).
- **Leg account names.** Neither leg sets `targetAccount`
  (`Repository.LegsMirror`, `History.TransferLegLabels`).

## Model

Source paths are relative to the repository root.

| member | source | states |
|---|---|---|
| Amounts.ParseAmount | app/src/main/java/ph/edu/auf/gorospe/patrickjason/cashflow/presentation/home/sections/mainbalance/dialogs/AddIncomeDialog.kt:81 | `toDoubleOrNull` on the amount text: the empty text does not parse. |
| Amounts.AmountInvalid | app/src/main/java/ph/edu/auf/gorospe/patrickjason/cashflow/presentation/home/sections/mainbalance/dialogs/AddIncomeDialog.kt:249 | The dialogs' amount check (empty or unparseable) is exactly "does not parse"; the emptiness test is redundant. |
| Amounts.ParseFormatRoundTrip | app/src/main/java/ph/edu/auf/gorospe/patrickjason/cashflow/presentation/home/sections/accounts/dialogs/EditAccountDialog.kt:41 | Every amount rendered as text parses back to itself, so the `toString`-then-parse hand-offs (the edit dialog's balance text, the amount passed to the repository) lose nothing. |
| Repository.ReadBalance | app/src/main/java/ph/edu/auf/gorospe/patrickjason/cashflow/data/UserRepository.kt:191-192 | A transaction reads the stored balance of an existing document and 0 for a missing one. |
| Repository.EntryRecord | app/src/main/java/ph/edu/auf/gorospe/patrickjason/cashflow/data/UserRepository.kt:140-147 | The record `addIncome` (and, at lines 165-172, `addExpense`) builds: the kind, the amount, the account's name, the category, date and notes, no target. Its behaviour is stated by the `PostEntry`, `AddIncome` and `AddExpense` rows. |
| Repository.OutgoingLeg | app/src/main/java/ph/edu/auf/gorospe/patrickjason/cashflow/data/UserRepository.kt:199-206 | The outgoing leg of a transfer. Its fields are stated by `Repository.LegsMirror`, `Repository.TransferredFollowsLegs` and `History.TransferLegLabels`. |
| Repository.IncomingLeg | app/src/main/java/ph/edu/auf/gorospe/patrickjason/cashflow/data/UserRepository.kt:207-214 | The incoming leg of a transfer. Its fields are stated by `Repository.LegsMirror`, `Repository.TransferredFollowsLegs` and `History.TransferLegLabels`. |
| Repository.LegsMirror | app/src/main/java/ph/edu/auf/gorospe/patrickjason/cashflow/data/UserRepository.kt:199-214 | The two legs of a transfer have the same amount and category "Transfer", one debits the source and one credits the target so their signed effects cancel, and neither sets `targetAccount`. |
| Repository.Transferred | app/src/main/java/ph/edu/auf/gorospe/patrickjason/cashflow/data/UserRepository.kt:194-196 | The two balance writes: for distinct accounts the source loses and the target gains the amount, no other document changes, and no document is added or removed. |
| Repository.TransferredFollowsLegs | app/src/main/java/ph/edu/auf/gorospe/patrickjason/cashflow/data/UserRepository.kt:194-214 | Each of the two balance writes moves its account by the signed effect of the leg recorded for it: the source by minus the outgoing amount, the target by plus the incoming amount. |
| Repository.TransferConservesTotal | app/src/main/java/ph/edu/auf/gorospe/patrickjason/cashflow/data/UserRepository.kt:194-196 | Between two distinct accounts a funded transfer leaves the sum of all balances unchanged. |
| Repository.SelfTransferInflates | app/src/main/java/ph/edu/auf/gorospe/patrickjason/cashflow/data/UserRepository.kt:188-196 | As written, with source and target the same document, the second write wins: the balance and the total both grow by the amount. |
| Repository.GeneralAccount | app/src/main/java/ph/edu/auf/gorospe/patrickjason/cashflow/domain/RegisterViewModel.kt:30-39 | The account seeded at registration. Its fields are stated by the `Repository.UserRepository.Register` row. |
| Repository.UserRepository.Register | app/src/main/java/ph/edu/auf/gorospe/patrickjason/cashflow/domain/RegisterViewModel.kt:29-40 | A new user is signed in with exactly one account, the Cash card "General" with balance 0 and colour Green, and no records. |
| Repository.UserRepository.Logout | app/src/main/java/ph/edu/auf/gorospe/patrickjason/cashflow/data/UserRepository.kt:107-109 | Signing out clears the current user and nothing else. |
| Repository.UserRepository.GetAccountCards | app/src/main/java/ph/edu/auf/gorospe/patrickjason/cashflow/data/UserRepository.kt:51-57 | An account is returned exactly when a user is signed in and it is the stored document under its own id. |
| Repository.UserRepository.GetTransactions | app/src/main/java/ph/edu/auf/gorospe/patrickjason/cashflow/data/UserRepository.kt:120-124 | The user's records in full when signed in, none when signed out. |
| Repository.UserRepository.GetTotalBalance | app/src/main/java/ph/edu/auf/gorospe/patrickjason/cashflow/data/UserRepository.kt:114-118 | The loop adds up exactly the sum of all stored balances; 0 when signed out. |
| Repository.UserRepository.PostEntry | app/src/main/java/ph/edu/auf/gorospe/patrickjason/cashflow/data/UserRepository.kt:126-174 | Each outcome holds exactly when its condition holds, and `InsufficientFunds` never occurs: the result is `Done` exactly when the user is signed in, the amount parses, the account exists and the store takes the record. Failures before the write change nothing. After the write, the one account's balance moves by the signed amount, and so does the total. The record is appended only when the store takes it. |
| Repository.UserRepository.AddIncome | app/src/main/java/ph/edu/auf/gorospe/patrickjason/cashflow/data/UserRepository.kt:126-149 | Signed out, unparseable amount and missing account change nothing. Otherwise the call succeeds (`Done` exactly when the record is also saved, never `InsufficientFunds`): the account is credited the amount, every other account is unchanged, and one INCOME record naming the account is appended when the store takes it. |
| Repository.UserRepository.AddExpense | app/src/main/java/ph/edu/auf/gorospe/patrickjason/cashflow/data/UserRepository.kt:151-174 | The same with a debit, and with no lower bound: the balance may go negative and `InsufficientFunds` never occurs. |
| Repository.UserRepository.Transfer | app/src/main/java/ph/edu/auf/gorospe/patrickjason/cashflow/data/UserRepository.kt:178-226 | The checks run in code order: amount, user, source funds (a missing document reads 0), then both documents exist; `Done` holds exactly when all four checks pass. On success both balances move by the amount, the total is unchanged, and each leg is appended only when the store takes it. |
| Repository.UserRepository.AddAccountCard | app/src/main/java/ph/edu/auf/gorospe/patrickjason/cashflow/data/UserRepository.kt:59-65 | The card is stored under the generated id with its own `id` set to it, and that id is returned; signed out, "" is returned and nothing changes. |
| Repository.UserRepository.UpdateAccount | app/src/main/java/ph/edu/auf/gorospe/patrickjason/cashflow/data/UserRepository.kt:67-74 | The document at the card's id becomes the card, balance included, with no ledger record. |
| Repository.UserRepository.DeleteAccount | app/src/main/java/ph/edu/auf/gorospe/patrickjason/cashflow/data/UserRepository.kt:76-83 | Exactly that document is removed; its records stay. |
| AddIncomeDialog.IncomeConfirmation | app/src/main/java/ph/edu/auf/gorospe/patrickjason/cashflow/presentation/home/sections/mainbalance/dialogs/AddIncomeDialog.kt:247-268 | A record is emitted exactly when the amount parses and an account and a category are selected. It is an INCOME record with the parsed amount, the account's name, the category and notes, no target, and the picked date or else the current time. |
| AddIncomeDialog.IncomeDateNeverEmpty | app/src/main/java/ph/edu/auf/gorospe/patrickjason/cashflow/presentation/home/sections/mainbalance/dialogs/AddIncomeDialog.kt:213-256 | An emitted record's date is never empty: it is a day stamp or a time stamp, and its day key is the picked day or the current day. |
| AddIncomeDialog.AnyAmountPasses | app/src/main/java/ph/edu/auf/gorospe/patrickjason/cashflow/presentation/home/sections/mainbalance/dialogs/AddIncomeDialog.kt:249-260 | Only parseability is checked: zero and negative amounts pass and are carried unchanged. |
| AddIncomeDialog.IncomeDialog.constructor | app/src/main/java/ph/edu/auf/gorospe/patrickjason/cashflow/presentation/home/sections/mainbalance/dialogs/AddIncomeDialog.kt:38-49 | Every field starts empty or unselected and every error flag lowered. |
| AddIncomeDialog.IncomeDialog.OnAmountChange | app/src/main/java/ph/edu/auf/gorospe/patrickjason/cashflow/presentation/home/sections/mainbalance/dialogs/AddIncomeDialog.kt:79-82 | The text is stored and its flag set to "does not parse". |
| AddIncomeDialog.IncomeDialog.SelectAccount | app/src/main/java/ph/edu/auf/gorospe/patrickjason/cashflow/presentation/home/sections/mainbalance/dialogs/AddIncomeDialog.kt:127-131 | The chosen dropdown account is selected and its flag lowered. |
| AddIncomeDialog.IncomeDialog.SelectCategory | app/src/main/java/ph/edu/auf/gorospe/patrickjason/cashflow/presentation/home/sections/mainbalance/dialogs/AddIncomeDialog.kt:183-189 | The chosen one of the five categories is selected and its flag lowered. |
| AddIncomeDialog.IncomeDialog.PickDate | app/src/main/java/ph/edu/auf/gorospe/patrickjason/cashflow/presentation/home/sections/mainbalance/dialogs/AddIncomeDialog.kt:213-217 | The picked day, as a yyyy-MM-dd stamp, becomes the date. |
| AddIncomeDialog.IncomeDialog.OnNotesChange | app/src/main/java/ph/edu/auf/gorospe/patrickjason/cashflow/presentation/home/sections/mainbalance/dialogs/AddIncomeDialog.kt:240 | The notes text is stored. |
| AddIncomeDialog.IncomeDialog.Confirm | app/src/main/java/ph/edu/auf/gorospe/patrickjason/cashflow/presentation/home/sections/mainbalance/dialogs/AddIncomeDialog.kt:247-268 | The three flags become exactly their conditions, the result is the confirmation of the fields at the click, an unset date is filled in only when a record is emitted, and the record's account and category come from the dropdowns. |
| AddTransferDialog.TransferConfirmation | app/src/main/java/ph/edu/auf/gorospe/patrickjason/cashflow/presentation/screens/home/sections/mainbalance/dialogs/AddTransferDialog.kt:209-226 | A TRANSFER request is emitted exactly when the amount parses and both accounts are selected. It carries the parsed amount, the source's name, the target's name as target and in the notes, and the current time. |
| AddTransferDialog.SelfTransferPassesDialog | app/src/main/java/ph/edu/auf/gorospe/patrickjason/cashflow/presentation/screens/home/sections/mainbalance/dialogs/AddTransferDialog.kt:210-213 | Nothing compares source and target or checks the sign: a transfer of any amount from an account to itself is emitted. |
| AddTransferDialog.TransferDateIsNow | app/src/main/java/ph/edu/auf/gorospe/patrickjason/cashflow/presentation/screens/home/sections/mainbalance/dialogs/AddTransferDialog.kt:219 | The request's date is a time stamp on the current day. |
| AddTransferDialog.TransferDialog.constructor | app/src/main/java/ph/edu/auf/gorospe/patrickjason/cashflow/presentation/screens/home/sections/mainbalance/dialogs/AddTransferDialog.kt:55-64 | Empty amount, nothing selected, no flag raised. |
| AddTransferDialog.TransferDialog.OnAmountChange | app/src/main/java/ph/edu/auf/gorospe/patrickjason/cashflow/presentation/screens/home/sections/mainbalance/dialogs/AddTransferDialog.kt:198 | Only the text changes; the amount flag keeps its value until the next confirm. |
| AddTransferDialog.TransferDialog.SelectSource | app/src/main/java/ph/edu/auf/gorospe/patrickjason/cashflow/presentation/screens/home/sections/mainbalance/dialogs/AddTransferDialog.kt:121-125 | The chosen account becomes the source and its flag is lowered. |
| AddTransferDialog.TransferDialog.SelectTarget | app/src/main/java/ph/edu/auf/gorospe/patrickjason/cashflow/presentation/screens/home/sections/mainbalance/dialogs/AddTransferDialog.kt:67-71 | The chosen account becomes the target and its flag is lowered. |
| AddTransferDialog.TransferDialog.Confirm | app/src/main/java/ph/edu/auf/gorospe/patrickjason/cashflow/presentation/screens/home/sections/mainbalance/dialogs/AddTransferDialog.kt:209-226 | The three flags become exactly their conditions and the result is the confirmation of the fields at the click. |
| AddAccountDialog.NumberErrorMessage | app/src/main/java/ph/edu/auf/gorospe/patrickjason/cashflow/presentation/screens/home/sections/accounts/dialogs/AddAccountDialog.kt:186-191 | The `when` choosing the number's error message by length. `AddAccountDialog.SixteenOrLessUnreachable` states that its middle branch never fires. |
| AddAccountDialog.SixteenOrLessUnreachable | app/src/main/java/ph/edu/auf/gorospe/patrickjason/cashflow/presentation/screens/home/sections/accounts/dialogs/AddAccountDialog.kt:180-191 | The number is cut to 16 digits first, so the "16 digits or less" message is never shown. |
| AddAccountDialog.AddAccountConfirmation | app/src/main/java/ph/edu/auf/gorospe/patrickjason/cashflow/presentation/screens/home/sections/accounts/dialogs/AddAccountDialog.kt:200-215 | An account is emitted exactly when the name is not empty and no flag is raised. It carries the fields, the generated id and creation time, and the parsed balance or 0. |
| AddAccountDialog.ConfirmedAccountIsWellFormed | app/src/main/java/ph/edu/auf/gorospe/patrickjason/cashflow/presentation/screens/home/sections/accounts/dialogs/AddAccountDialog.kt:66-215 | While the flags track their fields, an emitted account has a name that is not blank and a number that is empty or 16 digits. Its balance is the parsed text, or 0 only when the balance was never typed. |
| AddAccountDialog.NoDialogAccountIsMastercard | app/src/main/java/ph/edu/auf/gorospe/patrickjason/cashflow/presentation/screens/home/sections/accounts/AccountsSection.kt:91-116 | The dialog's categories are Bank, Cash and Other, but the icon rule tests "Card". So no account from the dialog shows Mastercard, and only Cash accounts show the cash icon. |
| AddAccountDialog.AccountDialog.constructor | app/src/main/java/ph/edu/auf/gorospe/patrickjason/cashflow/presentation/screens/home/sections/accounts/dialogs/AddAccountDialog.kt:36-44 | Empty name, number and balance, category Cash, colour placeholder "Select Color", no flag raised. |
| AddAccountDialog.AccountDialog.OnNameChange | app/src/main/java/ph/edu/auf/gorospe/patrickjason/cashflow/presentation/screens/home/sections/accounts/dialogs/AddAccountDialog.kt:69-72 | The name is stored and its flag set to "is blank". |
| AddAccountDialog.AccountDialog.OnBalanceChange | app/src/main/java/ph/edu/auf/gorospe/patrickjason/cashflow/presentation/screens/home/sections/accounts/dialogs/AddAccountDialog.kt:83-86 | The balance text is stored and its flag set to "does not parse". |
| AddAccountDialog.AccountDialog.SelectColor | app/src/main/java/ph/edu/auf/gorospe/patrickjason/cashflow/presentation/screens/home/sections/accounts/dialogs/AddAccountDialog.kt:137-142 | The chosen one of the four colours is stored. |
| AddAccountDialog.AccountDialog.SelectCategory | app/src/main/java/ph/edu/auf/gorospe/patrickjason/cashflow/presentation/screens/home/sections/accounts/dialogs/AddAccountDialog.kt:165-170 | The chosen one of the three categories is stored; the number and its flag are kept. |
| AddAccountDialog.AccountDialog.OnNumberChange | app/src/main/java/ph/edu/auf/gorospe/patrickjason/cashflow/presentation/screens/home/sections/accounts/dialogs/AddAccountDialog.kt:179-182 | The number becomes the first 16 digits typed and its flag "is not 16 digits long". |
| AddAccountDialog.AccountDialog.Confirm | app/src/main/java/ph/edu/auf/gorospe/patrickjason/cashflow/presentation/screens/home/sections/accounts/dialogs/AddAccountDialog.kt:200-215 | An empty name raises its flag; the result is the confirmation of the fields at the click. |
| EditAccountDialog.EditConfirmation | app/src/main/java/ph/edu/auf/gorospe/patrickjason/cashflow/presentation/home/sections/accounts/dialogs/EditAccountDialog.kt:186-199 | A copy is saved exactly when the name is not empty and no flag is raised. It keeps the account's id and creation time and takes the edited fields and the parsed balance. |
| EditAccountDialog.SavedBalanceIsParsed | app/src/main/java/ph/edu/auf/gorospe/patrickjason/cashflow/presentation/home/sections/accounts/dialogs/EditAccountDialog.kt:82-194 | An unparseable balance blocks the save, so a saved balance is always the parsed text and the `?: 0.0` fallback never applies. |
| EditAccountDialog.UneditedSaveIsIdentity | app/src/main/java/ph/edu/auf/gorospe/patrickjason/cashflow/presentation/home/sections/accounts/dialogs/EditAccountDialog.kt:37-196 | Saving without edits writes back exactly the account the dialog was opened on. |
| EditAccountDialog.EditDialog.constructor | app/src/main/java/ph/edu/auf/gorospe/patrickjason/cashflow/presentation/home/sections/accounts/dialogs/EditAccountDialog.kt:37-45 | The fields start from the account, the balance as its text, and no flag is raised. |
| EditAccountDialog.EditDialog.OnNameChange | app/src/main/java/ph/edu/auf/gorospe/patrickjason/cashflow/presentation/home/sections/accounts/dialogs/EditAccountDialog.kt:68-71 | The name is stored and its flag set to "is blank". |
| EditAccountDialog.EditDialog.OnBalanceChange | app/src/main/java/ph/edu/auf/gorospe/patrickjason/cashflow/presentation/home/sections/accounts/dialogs/EditAccountDialog.kt:82-85 | The balance text is stored and its flag set to "does not parse". |
| EditAccountDialog.EditDialog.SelectColor | app/src/main/java/ph/edu/auf/gorospe/patrickjason/cashflow/presentation/home/sections/accounts/dialogs/EditAccountDialog.kt:130-135 | The chosen colour is stored. |
| EditAccountDialog.EditDialog.SelectCategory | app/src/main/java/ph/edu/auf/gorospe/patrickjason/cashflow/presentation/home/sections/accounts/dialogs/EditAccountDialog.kt:157-162 | The chosen category is stored. |
| EditAccountDialog.EditDialog.OnNumberChange | app/src/main/java/ph/edu/auf/gorospe/patrickjason/cashflow/presentation/home/sections/accounts/dialogs/EditAccountDialog.kt:172-175 | The number becomes the first 16 digits typed and its flag "is not 16 digits long". |
| EditAccountDialog.EditDialog.Confirm | app/src/main/java/ph/edu/auf/gorospe/patrickjason/cashflow/presentation/home/sections/accounts/dialogs/EditAccountDialog.kt:186-199 | An empty name raises its flag; the result is the edit confirmation of the fields at the click. |
| Strings.DigitsOnlyAppend | app/src/main/java/ph/edu/auf/gorospe/patrickjason/cashflow/presentation/screens/home/sections/accounts/dialogs/AddAccountDialog.kt:180 | The digit filter works character by character: filtering a concatenation filters each part, and one character is kept exactly when it is a digit; so the result is the input's digits in order. |
| CardFormat.FilterCardNumber | app/src/main/java/ph/edu/auf/gorospe/patrickjason/cashflow/presentation/screens/home/sections/accounts/dialogs/AddAccountDialog.kt:180 | The stored number is the first `min(16, n)` of the input's `n` digits, in order: all digits, a prefix of the digit filter's result, and unchanged when already at most 16 digits. |
| CardFormat.TypeAtEnd | app/src/main/java/ph/edu/auf/gorospe/patrickjason/cashflow/presentation/home/sections/accounts/dialogs/EditAccountDialog.kt:172-175 | Typing one character after a stored number appends it when it is a digit and fewer than 16 are stored; any other keystroke leaves the number unchanged. |
| CardFormat.FormatCardNumber | app/src/main/java/ph/edu/auf/gorospe/patrickjason/cashflow/presentation/screens/home/sections/accounts/AccountsSection.kt:87-89 | `chunked(4).joinToString(" ")`. Its behaviour is stated by `CardFormat.FormatCardNumberLength`, `FormatCardNumberAt`, `UngroupFormatCardNumber` and `RemoveSpacesFormatCardNumber`. |
| CardFormat.FormatCardNumberLength | app/src/main/java/ph/edu/auf/gorospe/patrickjason/cashflow/presentation/screens/home/sections/accounts/AccountsSection.kt:87-89 | Grouping adds one space between each pair of successive groups of four. |
| CardFormat.FormatCardNumberAt | app/src/main/java/ph/edu/auf/gorospe/patrickjason/cashflow/presentation/screens/home/sections/accounts/AccountsSection.kt:87-89 | Every fifth shown character is a space, and every other one is the input character it was shifted from. |
| CardFormat.UngroupFormatCardNumber | app/src/main/java/ph/edu/auf/gorospe/patrickjason/cashflow/presentation/screens/home/sections/accounts/AccountsSection.kt:87-89 | Dropping the separator positions recovers the input exactly. |
| CardFormat.RemoveSpacesFormatCardNumber | app/src/main/java/ph/edu/auf/gorospe/patrickjason/cashflow/presentation/screens/home/sections/accounts/AccountsSection.kt:87-89 | For input without spaces, deleting the spaces of the grouped text gives the input back. |
| CardFormat.Transformed | app/src/main/java/ph/edu/auf/gorospe/patrickjason/cashflow/presentation/screens/home/sections/accounts/dialogs/AddAccountDialog.kt:351-353 | The shown text ungroups to the first 16 characters typed, has their length plus one per separator, and is at most 19 long. |
| CardFormat.OriginalToTransformed | app/src/main/java/ph/edu/auf/gorospe/patrickjason/cashflow/presentation/screens/home/sections/accounts/dialogs/AddAccountDialog.kt:355-363 | The typed-to-shown cursor mapping as written. Stated by `CardFormat.OffsetMappingsInRange`, `OffsetRoundTrip` and `CorrectedMappingCountsDigits`. |
| CardFormat.TransformedToOriginal | app/src/main/java/ph/edu/auf/gorospe/patrickjason/cashflow/presentation/screens/home/sections/accounts/dialogs/AddAccountDialog.kt:365-373 | The shown-to-typed cursor mapping as written, with its off-by-one ranges. Stated by `CardFormat.OffsetMappingsInRange` and `OffsetRoundTrip`. |
| CardFormat.CorrectedTransformedToOriginal | app/src/main/java/ph/edu/auf/gorospe/patrickjason/cashflow/presentation/screens/home/sections/accounts/dialogs/AddAccountDialog.kt:365-373 | The shown-to-typed mapping with its ranges moved one position up, the corrected half of the Findings row. Stated by `CardFormat.CorrectedMappingCountsDigits`. |
| CardFormat.OffsetMappingsInRange | app/src/main/java/ph/edu/auf/gorospe/patrickjason/cashflow/presentation/screens/home/sections/accounts/dialogs/AddAccountDialog.kt:355-373 | Both cursor mappings send positions of one text to positions of the other. |
| CardFormat.OffsetRoundTrip | app/src/main/java/ph/edu/auf/gorospe/patrickjason/cashflow/presentation/screens/home/sections/accounts/dialogs/AddAccountDialog.kt:355-373 | As written, mapping a cursor out and back returns it, except at the end of a text of 4, 8 or 12 digits, where it comes back one digit early. |
| CardFormat.CharactersBefore | app/src/main/java/ph/edu/auf/gorospe/patrickjason/cashflow/presentation/screens/home/sections/accounts/dialogs/AddAccountDialog.kt:352-353 | Before shown position `j` there are `j - j / 5` typed digits. |
| CardFormat.CorrectedMappingCountsDigits | app/src/main/java/ph/edu/auf/gorospe/patrickjason/cashflow/presentation/screens/home/sections/accounts/dialogs/AddAccountDialog.kt:365-373 | With its ranges moved one position up, the shown-to-typed mapping counts the digits before each shown position, and it undoes the typed-to-shown mapping at every cursor position. |
| AccountsSection.DetectCardImage | app/src/main/java/ph/edu/auf/gorospe/patrickjason/cashflow/presentation/screens/home/sections/accounts/AccountsSection.kt:91-116 | `detectCardImageResource`: cash icon for Cash, the prefix tests for Card, Visa otherwise. Stated by `CashIsAlwaysCash`, `NonCardCategoriesShowVisa`, `MastercardPrefixChars`, `CardBrandByRange` and `AddAccountDialog.NoDialogAccountIsMastercard`. |
| AccountsSection.CashIsAlwaysCash | app/src/main/java/ph/edu/auf/gorospe/patrickjason/cashflow/presentation/screens/home/sections/accounts/AccountsSection.kt:93 | A Cash account shows the cash icon whatever its number. |
| AccountsSection.NonCardCategoriesShowVisa | app/src/main/java/ph/edu/auf/gorospe/patrickjason/cashflow/presentation/screens/home/sections/accounts/AccountsSection.kt:114 | Every category other than Cash and Card shows Visa. |
| AccountsSection.MastercardPrefixChars | app/src/main/java/ph/edu/auf/gorospe/patrickjason/cashflow/presentation/screens/home/sections/accounts/AccountsSection.kt:97-110 | The 28 `startsWith` tests, read character by character on a number of four or more characters. |
| AccountsSection.MastercardRanges | app/src/main/java/ph/edu/auf/gorospe/patrickjason/cashflow/presentation/screens/home/sections/accounts/AccountsSection.kt:97-110 | On four digits, the prefix alternatives hold exactly when the first two digits are in 51..55 or the first four in 2221..2720. |
| AccountsSection.CardBrandByRange | app/src/main/java/ph/edu/auf/gorospe/patrickjason/cashflow/presentation/screens/home/sections/accounts/AccountsSection.kt:94-112 | For a Card number whose first four characters are digits, the icon is Mastercard exactly when the number does not start with 4 and its first two digits are in 51..55 or its first four in 2221..2720; otherwise it is Visa. |
| AccountsSection.GradientByColorName | app/src/main/java/ph/edu/auf/gorospe/patrickjason/cashflow/presentation/screens/home/sections/accounts/AccountsSection.kt:62-70 | `getGradientByColorName`: a lookup of the lower-cased name. Stated by `GradientIgnoresCase`, `GrayExactlyForUnknownNames`, `DialogColorsSelectGradients` and `PlaceholderColorIsGray`. |
| AccountsSection.GradientIgnoresCase | app/src/main/java/ph/edu/auf/gorospe/patrickjason/cashflow/presentation/screens/home/sections/accounts/AccountsSection.kt:62-70 | Colour names equal up to letter case select the same gradient. |
| AccountsSection.GrayExactlyForUnknownNames | app/src/main/java/ph/edu/auf/gorospe/patrickjason/cashflow/presentation/screens/home/sections/accounts/AccountsSection.kt:62-70 | The gray gradient is chosen exactly when the lower-cased name is none of green, purple, orange, blue. |
| AccountsSection.DialogColorsSelectGradients | app/src/main/java/ph/edu/auf/gorospe/patrickjason/cashflow/presentation/screens/home/sections/accounts/AccountsSection.kt:62-70 | Each of the dialogs' four colour options selects its own gradient. |
| AccountsSection.PlaceholderColorIsGray | app/src/main/java/ph/edu/auf/gorospe/patrickjason/cashflow/presentation/screens/home/sections/accounts/dialogs/AddAccountDialog.kt:38 | An account saved with the untouched "Select Color" placeholder is drawn gray. |
| AccountsSection.OnCardClick | app/src/main/java/ph/edu/auf/gorospe/patrickjason/cashflow/presentation/screens/home/sections/accounts/AccountsSection.kt:142-148 | A tap opens the add dialog exactly for id "9999", and otherwise the details of that card's id. |
| AccountsSection.AddCardOpensDialog | app/src/main/java/ph/edu/auf/gorospe/patrickjason/cashflow/presentation/screens/home/sections/accounts/AccountsSection.kt:53-60 | The ADD sentinel card opens the add dialog. |
| Dates.DayKey | app/src/main/java/ph/edu/auf/gorospe/patrickjason/cashflow/presentation/screens/history/HistoryScreen.kt:62 | The day key is a prefix of the date of at most ten characters. |
| Dates.DayKeyOfStamps | app/src/main/java/ph/edu/auf/gorospe/patrickjason/cashflow/presentation/home/sections/mainbalance/dialogs/AddIncomeDialog.kt:54 | A day stamp is its own key, and a time stamp's key is its date part, itself a day stamp. |
| Dates.StampsAreDistinct | app/src/main/java/ph/edu/auf/gorospe/patrickjason/cashflow/presentation/home/sections/mainbalance/dialogs/AddIncomeDialog.kt:214-216 | Neither stamp format is empty, and no text has both. |
| DayGroups.GroupByDay | app/src/main/java/ph/edu/auf/gorospe/patrickjason/cashflow/presentation/screens/history/HistoryScreen.kt:60-63 | `groupBy` on the day key followed by `toSortedMap`, ascending here and descending in the recent list (LatestTransactionSection.kt:84-86). Stated by the `GroupByDaySorted`, `GroupByDayItems`, `GroupByDayDays` and `GroupByDayCounts` rows. |
| DayGroups.GroupByDaySorted | app/src/main/java/ph/edu/auf/gorospe/patrickjason/cashflow/presentation/screens/history/HistoryScreen.kt:60-63 | The groups come in the map's key order, each day once. |
| DayGroups.GroupByDayItems | app/src/main/java/ph/edu/auf/gorospe/patrickjason/cashflow/presentation/screens/history/HistoryScreen.kt:60-63 | The group of each day holds exactly that day's records in list order. |
| DayGroups.GroupByDayDays | app/src/main/java/ph/edu/auf/gorospe/patrickjason/cashflow/presentation/screens/history/HistoryScreen.kt:60-63 | A day has a group exactly when some record falls on it. |
| DayGroups.GroupByDayCounts | app/src/main/java/ph/edu/auf/gorospe/patrickjason/cashflow/presentation/screens/history/HistoryScreen.kt:60-63 | No group is empty, and the groups together hold as many records as the list. |
| DayGroups.ItemsAtOwnDay | app/src/main/java/ph/edu/auf/gorospe/patrickjason/cashflow/presentation/screens/history/HistoryScreen.kt:143-156 | In a sorted grouping, looking a day up finds the group listed under it. |
| History.Matches | app/src/main/java/ph/edu/auf/gorospe/patrickjason/cashflow/presentation/screens/history/HistoryScreen.kt:128-132 | The search test: category, account, target account or date contains the query, ignoring case. Stated by `History.MatchIgnoresUnsearchedFields` and `EmptyQueryKeepsEverything`. |
| History.HistoryView | app/src/main/java/ph/edu/auf/gorospe/patrickjason/cashflow/presentation/screens/history/HistoryScreen.kt:59-141 | The grouping filtered per day by the search, days without a match dropped. Stated by `HistoryViewItems`, `HistoryViewDays` and `HistoryViewSorted`. |
| History.KeepMatching | app/src/main/java/ph/edu/auf/gorospe/patrickjason/cashflow/presentation/screens/history/HistoryScreen.kt:135-140 | The per-day filter keeps only matching records of the day. |
| History.AnyMatchIff | app/src/main/java/ph/edu/auf/gorospe/patrickjason/cashflow/presentation/screens/history/HistoryScreen.kt:127-141 | A day passes the `any` test exactly when its filtered list is not empty. |
| History.KeepMatchingComplete | app/src/main/java/ph/edu/auf/gorospe/patrickjason/cashflow/presentation/screens/history/HistoryScreen.kt:135-140 | No matching record is dropped. |
| History.EmptyQueryKeepsEverything | app/src/main/java/ph/edu/auf/gorospe/patrickjason/cashflow/presentation/screens/history/HistoryScreen.kt:127-141 | With an empty search box the screen shows the whole grouping. |
| History.HistoryViewItems | app/src/main/java/ph/edu/auf/gorospe/patrickjason/cashflow/presentation/screens/history/HistoryScreen.kt:59-156 | Under each day the screen lists exactly the matching records of that day, in list order. |
| History.HistoryViewDays | app/src/main/java/ph/edu/auf/gorospe/patrickjason/cashflow/presentation/screens/history/HistoryScreen.kt:127-156 | A day header is shown exactly when that day has a matching record. |
| History.HistoryViewSorted | app/src/main/java/ph/edu/auf/gorospe/patrickjason/cashflow/presentation/screens/history/HistoryScreen.kt:59-63 | Day headers are in ascending key order, each once. |
| History.MatchIgnoresUnsearchedFields | app/src/main/java/ph/edu/auf/gorospe/patrickjason/cashflow/presentation/screens/history/HistoryScreen.kt:128-132 | Type, amount and notes never decide a match. |
| History.DisplayCategory | app/src/main/java/ph/edu/auf/gorospe/patrickjason/cashflow/presentation/screens/history/HistoryScreen.kt:168-172 | The label under the icon. Stated by `History.TransferLegLabels`. |
| History.AmountColor | app/src/main/java/ph/edu/auf/gorospe/patrickjason/cashflow/presentation/screens/history/HistoryScreen.kt:179-183 | Green for credits, red for debits, gray for the TRANSFER request. Stated by `PresentationFollowsSign` and `PresentationWhenNotPositive`. |
| History.TrendIcon | app/src/main/java/ph/edu/auf/gorospe/patrickjason/cashflow/presentation/screens/history/HistoryScreen.kt:185-188 | Up for credits, down otherwise. Stated by `PresentationFollowsSign` and `PresentationWhenNotPositive`. |
| History.IconColor | app/src/main/java/ph/edu/auf/gorospe/patrickjason/cashflow/presentation/screens/history/HistoryScreen.kt:190-193 | Green for credits, red otherwise. Stated by `PresentationFollowsSign`. |
| History.AmountNegated | app/src/main/java/ph/edu/auf/gorospe/patrickjason/cashflow/presentation/screens/history/HistoryScreen.kt:174-177 | The amount is shown with a minus sign exactly for expenses and outgoing legs. These are exactly the debits among the stored kinds. |
| History.PresentationFollowsSign | app/src/main/java/ph/edu/auf/gorospe/patrickjason/cashflow/presentation/screens/history/HistoryScreen.kt:174-193 | For a positive amount, green and the up icon mean a credit, red and the minus sign mean a debit, and gray only the TRANSFER request. |
| History.PresentationWhenNotPositive | app/src/main/java/ph/edu/auf/gorospe/patrickjason/cashflow/presentation/screens/history/HistoryScreen.kt:174-193 | Colour and icon follow the kind, not the sign: a zero amount moves nothing, and for a negative amount green and the up icon mark a record that lowers the balance, red one that raises it. |
| History.TransferLegLabels | app/src/main/java/ph/edu/auf/gorospe/patrickjason/cashflow/presentation/screens/history/HistoryScreen.kt:168-172 | The stored legs are labelled "Transfer (to unknown)" and "Transfer (from <receiving account>)". |
| LatestTransactions.LatestSection | app/src/main/java/ph/edu/auf/gorospe/patrickjason/cashflow/presentation/home/sections/latesttransactions/LatestTransactionSection.kt:70-108 | The section: the empty message, or the days in descending order with `take(3)` under each. Stated by `SectionShape`, `LatestByDay` and `LatestCounts`. |
| LatestTransactions.CapItems | app/src/main/java/ph/edu/auf/gorospe/patrickjason/cashflow/presentation/home/sections/latesttransactions/LatestTransactionSection.kt:103 | Each day keeps its first three records and its key. |
| LatestTransactions.SectionShape | app/src/main/java/ph/edu/auf/gorospe/patrickjason/cashflow/presentation/home/sections/latesttransactions/LatestTransactionSection.kt:70-87 | The "No recent transactions" message is shown exactly for an empty list; otherwise at least one day is listed and none is empty. |
| LatestTransactions.LatestByDay | app/src/main/java/ph/edu/auf/gorospe/patrickjason/cashflow/presentation/home/sections/latesttransactions/LatestTransactionSection.kt:84-108 | Days are in descending key order, each once, and a day is listed exactly when it has a record. Under each day are that day's first three records, in list order. |
| LatestTransactions.LatestCounts | app/src/main/java/ph/edu/auf/gorospe/patrickjason/cashflow/presentation/home/sections/latesttransactions/LatestTransactionSection.kt:89-108 | At most three records per listed day and never more than the list holds; every record is shown when no day has more than three. |
| Greeting.GreetingFor | app/src/main/java/ph/edu/auf/gorospe/patrickjason/cashflow/presentation/home/sections/greeting/GreetingSection.kt:34-38 | Morning exactly for hours 5..11, afternoon exactly for 12..17, evening for every other hour. |
| Greeting.OneGreetingPerHour | app/src/main/java/ph/edu/auf/gorospe/patrickjason/cashflow/presentation/home/sections/greeting/GreetingSection.kt:34-38 | Over the hours 0..23 the text is "Good Morning" exactly for 5..11, "Good Afternoon" exactly for 12..17, and "Good Evening" exactly for 0..4 and 18..23. |

## Left out

- Firebase: the store, authentication and their asynchrony are not modelled. Each `runTransaction` block is one atomic step, and its optimistic retries and concurrent writers are out of scope. A refused write is a flag parameter (`recordSaved`, `outgoingSaved`, `incomingSaved`), and each document is assumed to have its `balance` field.
- Floating point: balances and amounts are whole cents, not `Double`. Rounding and `Double` overflow are not modelled.
- Amounts.ParseAmount: accepts an optional sign and `digits[.digits]` and keeps two fraction digits, dropping the rest. Kotlin's `toDoubleOrNull` also accepts exponents, hexadecimal floating-point text such as "0x1p3", "NaN", "Infinity", surrounding whitespace and type suffixes, which this model rejects.
- Amounts.FormatAmount: always writes two fraction digits. Kotlin's `Double.toString` writes "12.5" and switches to exponent form from 10^7, so the text the edit dialog starts from differs, though it parses back the same.
- Clock, calendar and identifiers: the current time, the hour, the formatted dates and the generated ids are parameters. `SimpleDateFormat` formatting, its locale and its lenient parsing are not modelled.
- Dates.DayKey: the day key is the first ten characters of the date. The app parses and re-formats the date, which gives the same key for the two stamp formats it writes. A text that does not parse makes the screen throw, and the model does not capture that.
- History: the `sortedBy` step before `groupBy` is omitted. It is a stable sort on the day key, so within a day the list order is kept and the grouping is the same.
- Strings.Lower: lower-cases ASCII letters only, while Kotlin's `lowercase()` covers all of Unicode.
- Repository.UserRepository.GetAccountCards: returns the accounts as a set. The store's result order is not modelled.
- Repository.UserRepository.GetTransactions: returns the records in append order. The store returns a collection read in document-id order, and `add` generates random ids, so the order the screens receive (and which three records of a day the recent list shows) is not modelled.
- Repository.UserRepository.Transfer: the two record appends are modelled as following a successful commit. In the code they run inside the transaction closure, after both `update` calls and before the commit. When the commit then fails (a funded source with a deleted target, or a deleted source with an amount of at most 0, since a missing source reads 0), both records are written while no balance moves, and a retried closure adds them again. The model returns `AccountNotFound` with the ledger unchanged instead.
- Strings.IsDigit: accepts the ASCII digits only. Kotlin's `isDigit()` accepts every Unicode decimal digit, so the card-number filter also keeps digits such as '٣', which the model drops.
- Strings.IsBlank: treats the ASCII whitespace characters only as blank. Kotlin's `isBlank()` accepts every Unicode whitespace character.
- The account the home screen passes to the repository is found by name (`firstOrNull { it.cardName == … }`, HomeScreen.kt). The model takes it as a parameter, and `NameLinked` requires the stored account under its id to carry that name.
- `getAccountById`, `getUserNameAndBalance`, `getCurrentUser` and the view-model factories are not modelled. They are plain reads or wiring with no logic of their own.
- The Compose UI is not modelled: layout, dropdown expansion flags, dismissal and the balance display formatting.
- AccountViewModel, TransactionViewModel and the registration of the Firebase user are not modelled. Only the seeded General account of registration is.

## Findings

| source | as written | input that shows it | evidently intended | confidence | as-written member | corrected member |
|---|---|---|---|---|---|---|
| app/src/main/java/ph/edu/auf/gorospe/patrickjason/cashflow/data/UserRepository.kt:188-196 | both balances are read first, then the source is written with its balance minus the amount and the target with its balance plus the amount, with no check that the two documents differ | `transfer("10.0", a, a)` with `a.balance == 50` leaves `a.balance == 60`, and the total grows by 10. The same happens when two distinct accounts share a name: the home screen resolves both dialog choices by `firstOrNull { it.cardName == … }` (HomeScreen.kt), so both become the first account of that name | a transfer moves money between two distinct accounts and keeps the total (a self-transfer is rejected) | high, not executed | Repository.SelfTransferInflates | Repository.UserRepository.Transfer |
| app/src/main/java/ph/edu/auf/gorospe/patrickjason/cashflow/presentation/screens/home/sections/accounts/dialogs/AddAccountDialog.kt:365-373 | `transformedToOriginal` uses the ranges 0..3, 4..8, 9..13, 14..18, while the shown text has its spaces at positions 4, 9 and 14 | typed "1234", shown "1234": the cursor at the end (position 4) maps back to position 3 | ranges 0..4, 5..9, 10..14, 15..19, so each shown position maps to the number of digits before it and undoes `originalToTransformed` | medium, not executed | CardFormat.OffsetRoundTrip | CardFormat.CorrectedMappingCountsDigits |
