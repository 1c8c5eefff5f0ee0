# Cashout processor of the HiPay Wallet / Mirakl connector, in Dafny

This project models the cashout engine of the HiPay Wallet cashout library
for Mirakl marketplaces. Each payout *operation* (an amount owed to the
marketplace operator or to a seller) goes through a small status machine:

- `CREATED` or `TRANSFER_FAILED` operations are *transferred* from the
  technical wallet to the vendor's HiPay wallet. The result is
  `TRANSFER_SUCCESS` or `TRANSFER_FAILED`.
- `TRANSFER_SUCCESS` or `WITHDRAW_FAILED` operations are *withdrawn* from
  that wallet to the vendor's bank account. The result is
  `WITHDRAW_REQUESTED` or `WITHDRAW_FAILED`.

A run (`process`) first selects and transfers, then selects and withdraws.
Every attempt saves the operation exactly once. A failing attempt saves the
failed status and re-raises, and the batch loop records the error and moves
on. The model also covers the vendor validation groups (Default = seller,
Operator = marketplace operator); the processor's constructor enforces the
Operator group.

Layout:

- `wrappers.dfy`: `Option` and `Result`.
- `php.dfy`: the PHP built-ins the processor relies on, written out.
  - `round($x, 2)` becomes `RoundToCents`. Amounts are integers in
    1/10000 units, rounded half away from zero.
  - `trim` becomes `Trim`.
  - The truthiness of a nullable id becomes `IsTruthy`.
- `vendor.dfy`: the vendor record, and the Symfony constraints as
  predicates.
- `operations.dfy`: the operation record, statuses, store queries and the
  selection predicates.
- `collaborators.dfy`: the HiPay gateway and the operation manager as
  classes.
  - The gateway's answers come from an `Oracle` that may depend on the
    calls made so far. The gateway records every call in `trace`.
  - The manager keeps the store (`operations`) and a log of every `save`.
- `cashout_spec.dfy`: pure specifications.
  - `TransferAttempt` and `WithdrawAttempt` give the saved operation, the
    provider calls and the outcome of one attempt.
  - `RunFrom` is the batch loop, as a fold.
- `cashout_properties.dfy`: the properties of those specifications.
- `processor.dfy`: the `Processor` class. Its methods follow the PHP code
  statement by statement. Each attempt, selection and batch method is
  proved equal to its specification. `Process` is proved to run the
  transfer pass on the store it starts from, and then the withdraw pass on
  the store the transfer pass left.

## Model

| member | source | states |
|---|---|---|
| Cashout.Processor.Create | src/Cashout/Processor.php:56-71 | construction succeeds exactly when the operator passes the Operator group, otherwise it fails with a validation error for that operator and group |
| Cashout.Processor.Transfer | src/Cashout/Processor.php:171-205 | the outcome, provider calls, store update and single save are those of `TransferAttempt` |
| Cashout.Processor.FailTransfer | src/Cashout/Processor.php:199-204 | the catch block saves the operation once as TRANSFER_FAILED stamped now, and re-raises the error |
| Cashout.Processor.Withdraw | src/Cashout/Processor.php:214-275 | the outcome, provider calls, store update and single save are those of `WithdrawAttempt` |
| Cashout.Processor.WithdrawChecks | src/Cashout/Processor.php:223-234 | the identification and bank-information gates, then the funds, behave as `WithdrawVerified` |
| Cashout.Processor.WithdrawFunds | src/Cashout/Processor.php:236-268 | reading the balance, the balance rule, the label and the withdrawal behave as `CashoutSpec.WithdrawFunds` |
| Cashout.Processor.FailWithdraw | src/Cashout/Processor.php:269-274 | the catch block saves the operation once as WITHDRAW_FAILED stamped now, and re-raises the error |
| Cashout.Processor.GetTransferableOperations | src/Cashout/Processor.php:319-335 | the CREATED answer is followed by the answer for TRANSFER_FAILED before now − 1 day; no id is listed twice, and an id is listed iff its operation is transferable |
| Cashout.Processor.GetWithdrawableOperations | src/Cashout/Processor.php:297-313 | the TRANSFER_SUCCESS answer is followed by the answer for WITHDRAW_FAILED before now − 1 day; no id is listed twice, and an id is listed iff its operation is withdrawable |
| Cashout.Processor.AttemptAll | src/Cashout/Processor.php:106-122 | the try/catch loop attempts every listed operation in order, and its final state is the fold `RunFrom` |
| Cashout.Processor.RunPass | src/Cashout/Processor.php:137-158 | one outcome and one save per selected operation; save k holds operation k stamped now, with the success or failure status its outcome calls for, and the store ends up holding it |
| Cashout.Processor.TransferOperations | src/Cashout/Processor.php:97-123 | the selection is exact; each selected operation is saved once, as TRANSFER_SUCCESS iff its transfer returned an id, else TRANSFER_FAILED |
| Cashout.Processor.WithdrawOperations | src/Cashout/Processor.php:128-159 | the selection is exact; each selected operation is saved once, as WITHDRAW_REQUESTED iff its withdrawal returned an id, else WITHDRAW_FAILED |
| Cashout.Processor.Process | src/Cashout/Processor.php:83-92 | the transfer selection is exact on the starting store, and the transfer pass is the fold `RunFrom` over it; the withdraw selection is exact on the store the transfer pass left, and the withdraw pass is the fold over it from there; every operation transferred in the run is in its withdraw selection; every stored operation's reference ids stay in line with its status |
| CashoutProperties.VendorChoice | src/Cashout/Processor.php:284-290 | characterises the lookup `CashoutSpec.GetVendor` as written: an operation with no Mirakl id (null or 0) goes to the configured operator; otherwise to the directory's vendor under that id, or to none when the id is not in the directory |
| CashoutProperties.VendorChoiceValid | src/Cashout/Processor.php:284-290 | with a valid operator and a directory of valid sellers filed under their own ids, the vendor chosen is a valid operator exactly for an operator operation, and otherwise the valid seller with the operation's id |
| CashoutProperties.TransferWalletNotFound | src/Cashout/Processor.php:174-178 | `transfer` fails with WalletNotFound iff no vendor is found or the provider reports the email as available; it then saves only TRANSFER_FAILED and now, and moves no money |
| CashoutProperties.TransferSucceeded | src/Cashout/Processor.php:180-198 | a successful transfer passed the wallet check, sent the amount rounded to cents to that vendor, and saved TRANSFER_SUCCESS with the returned id and the vendor's wallet id |
| CashoutProperties.TransferSucceedsWhenNothingThrows | src/Cashout/Processor.php:173-198 | once the wallet exists, a transfer succeeds whenever both labels and the provider's transfer answer |
| CashoutProperties.TransferFailureChangesLittle | src/Cashout/Processor.php:199-203 | a failed transfer changes only status and updatedAt, and hipayId only when the wallet check had passed |
| CashoutProperties.WithdrawWalletNotFound | src/Cashout/Processor.php:217-221 | the first gate fails iff no vendor is found or the email is available; no money moves and only status and updatedAt change |
| CashoutProperties.WithdrawUnidentified | src/Cashout/Processor.php:223-225 | UnidentifiedWallet is raised iff the wallet exists and the provider says it is not identified; nothing else changes |
| CashoutProperties.WithdrawUnconfirmedBankAccount | src/Cashout/Processor.php:227-234 | UnconfirmedBankAccount is raised iff the wallet is identified and the trimmed bank status is not "validated"; it carries that status and the operation's Mirakl id |
| CashoutProperties.WithdrawWrongBalance | src/Cashout/Processor.php:236-251 | WrongWalletBalance is raised iff the bank information is validated and a seller operation's rounded amount exceeds the rounded balance; it carries the vendor's Mirakl id, the amount and the balance, and no money moves |
| CashoutProperties.BalanceRuleBounds | src/Cashout/Processor.php:237-251 | characterises the balance rule `CashoutSpec.BalanceRule` as written: the rule fails only a seller short of funds; an operator gets min(amount, balance); what is withdrawn is whole cents, at most the rounded amount and the rounded balance, and at most the requested amount when that is in cents |
| CashoutProperties.WithdrawSucceeded | src/Cashout/Processor.php:253-268 | a successful withdrawal passed every gate; the amount sent equals the withdrawn amount recorded; WITHDRAW_REQUESTED is saved with the returned id and the vendor's wallet id |
| CashoutProperties.WithdrawSucceedsWhenNothingThrows | src/Cashout/Processor.php:236-268 | converse of the above: once every gate passes, a withdrawal succeeds whenever the balance answers, the balance rule allows it, and both the label and the provider's withdrawal answer |
| CashoutProperties.OperatorShortfallWithdrawsBalance | src/Cashout/Processor.php:239-266 | an operator operation whose rounded balance is below its rounded amount, once past the gates, asks the provider for exactly the rounded balance and records it as the withdrawn amount when nothing throws |
| CashoutProperties.WithdrawFailureChangesLittle | src/Cashout/Processor.php:269-273 | a failed withdrawal changes only status and updatedAt, and it changes hipayId to the vendor's exactly when the bank check and the balance rule had both passed |
| CashoutProperties.WithdrawGatesWellShaped | src/Cashout/Processor.php:216-234 | a withdrawal stopped at a gate makes no money-moving call and keeps the reference ids |
| CashoutProperties.AttemptShape | src/Cashout/Processor.php:171-275 | every attempt saves the same operation stamped now, with a status matching its outcome; only the last provider call can move money; business errors move none |
| CashoutProperties.AttemptKeepsConsistent | src/Cashout/Processor.php:193-194 | an attempt on an eligible operation whose reference ids match its status saves one that still matches |
| CashoutProperties.RunFromLog | src/Cashout/Processor.php:106-122 | the loop appends one save and one outcome per listed operation, in order, each with the right id, time stamp and status |
| CashoutProperties.RunFromStore | src/Cashout/Processor.php:137-158 | with distinct ids, the store ends up holding each listed operation's save |
| CashoutProperties.RunFromUntouched | src/Cashout/Processor.php:137-158 | a stored operation that is not listed is left unchanged |
| CashoutProperties.RunFromKeepsConsistent | src/Cashout/Processor.php:106-122 | a batch over eligible operations whose reference ids match their status keeps the whole store that way |
| CashoutProperties.TransferredAreWithdrawable | src/Cashout/Processor.php:87-91 | every operation the transfer pass transferred is selected by the withdraw pass that follows |
| Operations.SelectionIsExact | src/Cashout/Processor.php:304-311 | concatenating two query answers on different statuses lists no id twice, and lists exactly the operations matching either query |
| Operations.TransferSelectionExact | src/Cashout/Processor.php:321-334 | the transfer selection is exactly the CREATED operations plus the TRANSFER_FAILED ones updated before now − 1 day |
| Operations.WithdrawSelectionExact | src/Cashout/Processor.php:299-312 | the withdraw selection is exactly the TRANSFER_SUCCESS operations plus the WITHDRAW_FAILED ones updated before now − 1 day |
| Operations.PassesDisjoint | src/Cashout/Processor.php:301-330 | no operation is eligible for both passes |
| Collaborators.OperationManager.Find | src/Cashout/Processor.php:301-310 | a store query returns each matching stored operation exactly once, in some order |
| Collaborators.OperationManager.Save | src/Cashout/Processor.php:196 | `save` upserts the operation by id and logs it |
| Php.RoundToCentsUnique | src/Cashout/Processor.php:183 | a whole number of cents inside the rounding window of x is round(x, 2) |
| Php.RoundToCentsIdempotent | src/Cashout/Processor.php:237-238 | rounding twice is rounding once |
| Php.RoundToCentsMonotone | src/Cashout/Processor.php:237-239 | rounding preserves the order of amounts (x <= y implies round(x, 2) <= round(y, 2)) |
| Php.TrimSurrounded | src/Cashout/Processor.php:227 | `trim` leaves the part of the text between runs of trim characters, and the result neither starts nor ends with one |
| Php.TrimIdempotent | src/Cashout/Processor.php:227 | trimming twice is trimming once |
| Vendors.ValidSellerHasPositiveId | src/Vendor/Model/VendorInterface.php:19-21 | under the Default group the Mirakl id is a non-blank integer greater than 0 |
| Vendors.ZeroMiraklIdRejectedOnlyByGreaterThan | src/Vendor/Model/VendorInterface.php:19-21 | a Mirakl id of 0 passes NotBlank and Type but fails GreaterThan(0) |
| Vendors.SellerIsNotOperator | src/Vendor/Model/VendorInterface.php:19-22 | no vendor is both a valid seller (Default) and a valid operator (Operator: IsNull) |
| Vendors.OperatorEmailUnchecked | src/Vendor/Model/VendorInterface.php:22-38 | the Operator group checks only the Mirakl id, so any email keeps a valid operator valid |
| Vendors.ValidSellerHasEmail | src/Vendor/Model/VendorInterface.php:34-38 | a valid seller's email is a non-empty string matching the loose email pattern |
| Vendors.EmailExamples | src/Vendor/Model/VendorInterface.php:38 | "seller@shop.example" is an email under the pattern; "seller@localhost" is not |
| Vendors.FinalLineFeedForgiven | src/Vendor/Model/VendorInterface.php:38 | a text matching the pattern still matches with one line feed appended, since PCRE's `$` also matches before a final line feed |
| Vendors.OneFinalLineFeedOnly | src/Vendor/Model/VendorInterface.php:38 | a text ending in two line feeds never matches: `$` forgives only one final line feed |

## Left out

- Event dispatch (`before.transfer`, `after.withdraw`, ...), logging and
  `handleException` are not modelled. An exception becomes the operation's
  `Failure` outcome in the results list. An `after.transfer` or
  `after.withdraw` listener that throws after a successful, saved attempt
  also lands in that catch in the source; the model records `Success` for
  that operation. A `before.transfer` or
  `before.withdraw` listener that throws skips that operation's attempt
  and its save; this is not modelled, and the model always attempts and
  saves every selected operation.
- The clock. `new DateTime()` and `'-1 day'` become one `now` parameter
  per run and a cutoff of `now - 86400`. In the source, every attempt stamps
  its own current time.
- Floating point. PHP `round` on floats is modelled on integers with four
  decimals. Rounding below 1/10000 and float representation errors are not
  modelled.
- The vendor manager is a map from Mirakl id to vendor (`directory`). A
  lookup that throws is not modelled.
- `ModelValidator` and Symfony's validator are not part of this model.
  - The constraints are modelled as predicates.
  - The Email constraint is taken to be Symfony's loose pattern
    `^.+@\S+\.\S+$`, with `$` also matching before one final line feed.
  - GreaterThan on a string is taken to fail, without PHP's
    string-to-number comparison.
- `src/Api/HiPay/Model/Status/BankInfo.php` is not part of this model.
  `BankInfoStatus::VALIDATED` is taken to be the text "Validated". Building
  a `BankInfoStatus` from an unknown status, which may itself throw, is not
  modelled: the error carries the trimmed text.
- The store queries (`findByStatus`, `findByStatusAndBeforeUpdatedAt`) are
  taken never to throw. In the source, a failing query aborts `process`.
  If the failing query is the withdraw query, this happens after the
  transfer pass's saves.
- The operation manager's `save` is taken never to throw. The label
  generators may fail.
- The store's answer order is not specified: `Find` visits the ids in an
  arbitrary order.
- The store holds values. PHP's sharing of one operation object between the
  selection list, the store and an event object (aliasing) is not modelled.
- `Processor.transfer` and `Processor.withdraw` saving through the same
  object they were given: the model passes the selected value and saves an
  updated copy.
- `src/MiraklConnector/Vendor/Processor.php`, `src/Service/Ftp/SSHConnection.php`,
  `src/Api/HiPay/Wallet/AccountInfo.php` and `tests/Stub/Entity/Vendor.php`
  are API, FTP and SSH plumbing or plain data holders. Their fields are
  absorbed into the `Vendor` record.
- The two answers of a selection are concatenated as in the code, with no
  de-duplication. `Operations.SelectionIsExact` shows this lists no
  operation twice, because the two queries ask for different statuses.
