# balances_service ledger engine and rate cache, modelled in Dafny

This project models the core of a small account-balance service. The service has four parts.

The **ledger engine** (`pkg/bank/bank.go`) offers `Balance`, `Add`, `Withdraw` and `Transfer` over an account→balance store. Each mutation works in the same order:

- It rejects a negative or zero amount.
- `Add` asks whether the account exists and creates it at balance 0 when it does not. It checks no balance.
- `Withdraw` and `Transfer` check that their accounts exist and that the payer's balance covers the amount.
- It runs a bounded retry loop against the storage port.
- `Withdraw` and `Transfer` re-read the payer's balance after every failed attempt. They stop with "not enough money" as soon as that balance no longer covers the sum.

The **rate cache** (`pkg/currconv/converter.go`) converts rouble amounts into other currencies. It short-circuits `""` and `"RUB"`, looks up the upper-cased currency code, and on a miss fetches once from a rates API. The rates are stored under the code as given.

The **error taxonomy** (`pkg/bank/errors.go`) and the **configuration checks and string builders** (`pkg/config/config.go`, `pkg/bank/config.go`) are modelled as pure functions.

The **test scenarios** of `pkg/bank/bank_test.go` run against the in-memory `dbMock`. That mock is also the reference for what an applied storage call does.

Modules, one per source file:

- `Wrappers`: `Option`, `Result`, `Outcome`.
- `Strings`: the pieces of `strconv`, `fmt` and `strings` the core uses.
- `BankErrors`, `Config` and `BankTxConfig`.
- `Storage`: the storage port as the class `MemDB`.
  - Each call consumes one entry of a *fault plan*.
  - `Ok` behaves like `dbMock`.
  - `Transient` fails and changes nothing.
  - `Interleaved(writes)` fails while another client's committed writes become visible. This is what makes the re-check branch of the retry loops reachable in a sequential model.
  - A ghost trace logs every call.
- `CurrConv`: the class `Converter`. The HTTP request is an oracle, a script of replies.
- `Bank`: the class `Bank`.
- `BankTests`: the scenarios.

Every method is proved against a pure function of the storage (and cache) state, e.g. `Bank.Bank.Withdraw` against `Bank.WithdrawSpec`. The properties are proved as lemmas about those functions. The `for` loops of `add`, `withdraw` and `transfer` are the `while` loops of `RetryAdd`, `RetryWithdraw` and `RetryTransfer`. Their invariant says that the spec loop from the current state equals the spec loop from the state at loop entry.

`withdraw` labels the errors of its pre-check storage calls `"transfer"` (bank.go lines 119 and 126). The model keeps that label as written.

## Model

| member | source | states |
|---|---|---|
| Storage.Attempt | pkg/db/db.go:17-25 | every storage call is logged and uses up one fault; it fails exactly when the fault is not Ok; only an interleaved fault changes balances, and then by the other client's writes |
| Storage.ExistsStep | pkg/bank/bank_test.go:69-72 | a successful IsAccountExist answers whether the key is in the map and changes nothing |
| Storage.BalanceStep | pkg/bank/bank_test.go:26-33 | a successful Balance returns the stored value of an existing account and changes nothing |
| Storage.CreateIdSetsZero | pkg/bank/bank_test.go:19-24 | CreateID succeeds and sets the balance to 0 whether or not the key existed; no other key changes |
| Storage.MissingAccountIsNoRows | pkg/bank/bank_test.go:26-53 | Balance, Add and Withdraw of an unknown key return NoRows and leave the map unchanged |
| Storage.TransferNeedsBothAccounts | pkg/bank/bank_test.go:55-67 | the mock Transfer succeeds iff both keys exist; otherwise NoRows with the map unchanged |
| Storage.SelfTransferIsNoop | pkg/bank/bank_test.go:55-67 | a transfer from an account to itself succeeds and leaves every balance as it was, even across wrap-around |
| Storage.TransferPreservesTotal | pkg/bank/bank_test.go:64-65 | between distinct accounts without overflow, Transfer lowers the sender and raises the recipient by the sum, keeps their total, and touches no other key |
| Storage.WithdrawIsUnguarded | pkg/bank/bank_test.go:45-53 | the mock Withdraw has no floor: debiting more than the balance succeeds and leaves it negative |
| Storage.MemDB.constructor | pkg/bank/bank_test.go:78-80 | a new store has an empty map, the given fault plan and an empty call log |
| Storage.MemDB.IsAccountExist | pkg/bank/bank_test.go:69-72 | result and new state are those of ExistsStep |
| Storage.MemDB.Balance | pkg/bank/bank_test.go:26-33 | result and new state are those of BalanceStep |
| Storage.MemDB.CreateID | pkg/bank/bank_test.go:19-24 | result and new state are those of CreateIdStep |
| Storage.MemDB.Add | pkg/bank/bank_test.go:35-43 | result and new state are those of AddStep (credit with int64 wrap-around, NoRows for an unknown key) |
| Storage.MemDB.Withdraw | pkg/bank/bank_test.go:45-53 | result and new state are those of WithdrawStep (debit with wrap-around, NoRows for an unknown key) |
| Storage.MemDB.Transfer | pkg/bank/bank_test.go:55-67 | result and new state are those of TransferStep (sender debited, then recipient credited) |
| Strings.ItoaRoundTrip | pkg/config/config.go:38 | the decimal text printed for an int reads back as the same int |
| Strings.ToUpperFixesExactlyUpper | pkg/currconv/converter.go:100 | upper-casing a code changes it exactly when it holds a lower-case letter |
| BankErrors.Message | pkg/bank/errors.go:7-66 | Error() returns a text for every error except InvalidSumError with a non-nil Err |
| BankErrors.MessageIsTaggedBase | pkg/bank/errors.go:7-66 | each message is its fixed base text, followed by ": " and the tag when the tag is non-empty; NotEnoughMoney is the constant text |
| BankErrors.InvalidSumErrorNeverReturns | pkg/bank/errors.go:35-40 | InvalidSumError.Error() returns "" when Err is nil and never returns, however far unfolded, when Err is set |
| BankErrors.UntaggedMessageIsPrefix | pkg/bank/errors.go:7-66 | the untagged message of every error is a prefix of its tagged message |
| BankErrors.MessageIdentifiesError | pkg/bank/errors.go:7-66 | two errors with the same message are the same error, kind and tag |
| Config.CheckRestrictions | pkg/config/config.go:67-77 | nil iff all three tries counts are positive; otherwise the add count is reported first, then withdraw, then transfer, with the offending value |
| Config.CheckRestrictionsIgnoresToken | pkg/config/config.go:67-77 | the rates API token plays no part in the check |
| Config.TriesMessageEmbedsCount | pkg/config/config.go:70-74 | the error text ends with the offending count, which reads back from it |
| Config.AddressRoundTrip | pkg/config/config.go:37-39 | Address is host, ':' and the decimal port; splitting at the last ':' gives both back |
| Config.ConnectUrlShape | pkg/config/config.go:55-57 | ConnectURL is "postgres://" user ":" password "@" host ":" port "/" name; a name without '/' is what follows the last '/' |
| BankTxConfig.CheckRestrictions | pkg/bank/config.go:11-21 | nil iff all three counts are positive; a non-positive add count is reported regardless; withdraw only when add is valid; transfer only when both are |
| BankTxConfig.ChecksAgree | pkg/bank/config.go:11-21 | the bank package's check and the config package's check give the same verdict and the same error |
| CurrConv.RatesUrlShape | pkg/currconv/converter.go:48-54 | the rates URL extends the base URL with "&format=1&base=" from "&symbols=" to; a target without '=' is the last parameter's value |
| CurrConv.FetchStep | pkg/currconv/converter.go:56-81 | a rate request asks for exactly the rates URL for (from, RUB) and leaves the cache alone |
| CurrConv.StoreRatesLastWins | pkg/currconv/converter.go:88-90 | the store loop writes every rate under the one key `from` as given: the last rate wins and no other key changes |
| CurrConv.BaseCurrencyShortCircuits | pkg/currconv/converter.go:95-97 | FromRUB of "" or "RUB" returns the sum with no lookup and no request |
| CurrConv.CacheHitFetchesNothing | pkg/currconv/converter.go:100-110 | a hit on the upper-cased code converts with the cached rate, requests nothing and changes nothing |
| CurrConv.CacheMissKeyDiscipline | pkg/currconv/converter.go:100-108 | a miss makes exactly one request; a failed request is reported and leaves the cache alone; a reply is stored under the raw code; the result is a conversion iff the reply had a rate and the code was already upper case, else "no such currency pair" |
| CurrConv.LowerCaseMissFails | pkg/currconv/converter.go:100-108 | a code with a lower-case letter that is not cached upper-cased never converts |
| CurrConv.RubNeverCached | pkg/currconv/converter.go:88-97 | "RUB" never becomes a key of the cache |
| CurrConv.RubInOtherCaseFails | pkg/currconv/converter.go:95-108 | "rub", "Rub" and the like are not short-circuited and always fail |
| CurrConv.ConvertedCodeStaysCached | pkg/currconv/converter.go:83-110 | after a code converts once, converting it again changes nothing and requests nothing |
| CurrConv.Converter.constructor | pkg/currconv/converter.go:37-45 | a new converter holds the token and an empty cache |
| CurrConv.Converter.New | pkg/currconv/converter.go:32-46 | fails with EmptyToken iff the token is empty; otherwise a fresh converter with an empty cache |
| CurrConv.Converter.GetRate | pkg/currconv/converter.go:56-81 | reply and new state are those of FetchStep |
| CurrConv.Converter.UpdateRate | pkg/currconv/converter.go:83-92 | the store loop leaves the cache as UpdateRateSpec says: unchanged on a failed fetch, StoreRates of the reply otherwise |
| CurrConv.Converter.FromRUB | pkg/currconv/converter.go:94-111 | result and new cache are those of FromRubSpec, and "RUB" stays out of the cache (`Valid`) |
| Bank.Validate | pkg/bank/bank.go:75-83 | no error iff the sum is positive; a negative sum is NegativeSum and zero is ZeroSum, naming the operation |
| Bank.EnoughStep | pkg/bank/bank.go:215-221 | a successful check reads one balance, changes nothing, and answers whether the balance covers the sum |
| Bank.AddLoop | pkg/bank/bank.go:94-103 | add's loop ends in success or OperationError("add") and removes no account |
| Bank.AddPositiveSpec | pkg/bank/bank.go:85-104 | add ends in success or OperationError("add") |
| Bank.DebitLoop | pkg/bank/bank.go:131-150 | the debit loop ends in success, NotEnoughMoney or OperationError with the loop's label; NotEnoughMoney only when the payer's balance just read is below the sum (that it then stops at once is DebitLoopFailsFast) |
| Bank.AfterDebit | pkg/bank/bank.go:135-147 | one round after the debit call answered: success, a recheck failure or refusal, or the rest of the loop |
| Bank.DebitedIsStep | pkg/bank/bank_test.go:45-67 | a debit call that behaves, on accounts that exist, succeeds and leaves exactly the balances Debited names |
| Bank.DebitLoopFailsFast | pkg/bank/bank.go:136-147 | when a debit call fails and the good reread that follows shows the payer below the sum, the loop ends with NotEnoughMoney right there, after exactly one debit call, whatever tries remain |
| Bank.InterleavedDebit | pkg/db/db.go:99-119 | a debit call during which another client commits fails and leaves only that client's writes behind |
| Bank.DebitStopsWhenBalanceDrops | pkg/bank/bank.go:136-147 | another client lowering the payer below the sum during a failed debit call ends the loop with NotEnoughMoney after the reread, the lowered balance in place and no second debit call |
| Bank.WithdrawChecksPass | pkg/bank/bank.go:116-133 | when the exists and balance calls behave and find the account covered, Withdraw continues as the debit loop from the state after those two calls |
| Bank.TransferChecksPass | pkg/bank/bank.go:163-187 | when the two exists calls and the balance call behave and find both accounts and a covered sender, Transfer continues as the debit loop from the state after those three calls |
| Bank.WithdrawStopsWhenBalanceDrops | pkg/bank/bank.go:116-151 | a covered Withdraw whose Withdraw call fails while another client lowers the balance below the sum reports NotEnoughMoney after exactly four calls, one of them a Withdraw |
| Bank.TransferStopsWhenBalanceDrops | pkg/bank/bank.go:163-205 | a covered Transfer whose Transfer call fails while another client lowers the sender below the sum reports NotEnoughMoney after exactly five calls, one of them a Transfer |
| Bank.ValidationComesFirst | pkg/bank/bank.go:75-161 | Add, Withdraw and Transfer of a non-positive sum fail with the sign error naming the operation, without any storage call |
| Bank.StorageFailureLabels | pkg/bank/bank.go:56-166 | when the first storage call fails, Add reports "add", Withdraw and Transfer report "transfer", Balance reports "balance" |
| Bank.AddLoopExactlyOnce | pkg/bank/bank.go:94-103 | with no interleaved writer, add's loop succeeds iff a call behaves within the tries, credits exactly once on success and changes nothing otherwise, after one call per failure |
| Bank.AddLoopAttemptBound | pkg/bank/bank.go:96-103 | add's loop makes at most `tries` calls, all Add calls for this account and sum |
| Bank.AddCreditsExactlyOnce | pkg/bank/bank.go:85-104 | Add of a positive sum credits exactly once on success, a missing account counting as 0; on failure it reports "add" and at most leaves a created account at 0; on storage that never fails it succeeds |
| Bank.DebitLoopAttemptBound | pkg/bank/bank.go:133-150 | the debit loop makes at most `tries` debit calls |
| Bank.WithdrawAttemptsBounded | pkg/bank/bank.go:116-151 | Withdraw makes at most WithdrawTxTriesCount Withdraw calls |
| Bank.TransferAttemptsBounded | pkg/bank/bank.go:163-205 | Transfer makes at most TransferTxTriesCount Transfer calls |
| Bank.DebitLoopKeepsPayerSolvent | pkg/bank/bank.go:133-150 | entered after a sufficiency check, the loop never succeeds leaving the payer below zero |
| Bank.DebitLoopExactlyOnce | pkg/bank/bank.go:133-150 | with no interleaved writer, the loop debits exactly once on success and otherwise fails with OperationError, changing nothing |
| Bank.DebitRecoversFromFlakyStorage | pkg/bank/bank.go:133-150 | after k failed debit calls, each followed by a good recheck, the loop still debits once when k < tries, after 2k+1 calls |
| Bank.DebitExhaustsOnFlakyStorage | pkg/bank/bank.go:133-150 | when all `tries` debit calls fail and every recheck passes, the loop gives up with OperationError after 2·tries calls, changing nothing |
| Bank.FailedRound | pkg/bank/bank.go:136-147 | a round whose debit call fails and whose recheck passes leaves the balances as they were and continues with one try fewer |
| Bank.WithdrawLeavesAccountSolvent | pkg/bank/bank.go:116-151 | for every fault plan (other clients' writes land only during failed calls, see Left out), a successful Withdraw leaves the account at or above zero |
| Bank.TransferLeavesSenderSolvent | pkg/bank/bank.go:163-205 | for every fault plan (other clients' writes land only during failed calls, see Left out), a successful Transfer leaves the sender at or above zero |
| Bank.WithdrawShortMeansShort | pkg/bank/bank.go:124-147 | NotEnoughMoney from Withdraw means the account's balance, as last read, is below the sum |
| Bank.TransferShortMeansShort | pkg/bank/bank.go:178-201 | NotEnoughMoney from Transfer means the sender's balance, as last read, is below the sum |
| Bank.WithdrawRefusalsOnCalmStorage | pkg/bank/bank.go:116-129 | a missing account is an untagged NoAccount after one call; an overdraft is NotEnoughMoney after reading the balance, with no Withdraw call; nothing changes |
| Bank.WithdrawOnCalmStorage | pkg/bank/bank.go:116-137 | a covered Withdraw on storage that never fails succeeds after exists, balance and one Withdraw call, lowering the balance by the sum |
| Bank.TransferRefusalsOnCalmStorage | pkg/bank/bank.go:163-183 | the sender is checked before the recipient (NoAccount "sender", then "recipient"), then the sender's balance; each refusal changes nothing |
| Bank.TransferOnCalmStorage | pkg/bank/bank.go:163-191 | a covered Transfer on storage that never fails succeeds after four calls, moving the sum once |
| Bank.TransferPreservesPairTotal | pkg/bank/bank.go:163-205 | with no interleaved writer and a recipient whose balance plus the sum fits in int64, a successful Transfer between two distinct accounts keeps the pair's total, the set of accounts and every other balance |
| Bank.BalanceIsReadOnly | pkg/bank/bank.go:56-73 | with no interleaved writer, Balance changes no balance |
| Bank.BalanceConvertsStoredValue | pkg/bank/bank.go:56-73 | on storage that never fails (`Calm`): a missing account is an untagged NoAccount with the cache untouched; an existing one is the converter's conversion of its stored value, any conversion failure being OperationError("balance") |
| Bank.BalanceInBaseCurrency | pkg/bank/bank.go:56-73 | in "" or "RUB", Balance returns the stored value and fetches nothing |
| Bank.Bank.constructor | pkg/bank/bank.go:27-30 | the bank holds the given config, store and converter |
| Bank.Bank.New | pkg/bank/bank.go:21-44 | fails iff a tries count is not positive (InvalidConfig, checked first) or the token is empty (ConverterInitFailed); otherwise a bank with a fresh, empty converter |
| Bank.Bank.CheckAccountExist | pkg/bank/bank.go:207-213 | result and new state are those of ExistsStep |
| Bank.Bank.CheckEnoughBalanceToWithdraw | pkg/bank/bank.go:215-221 | result and new state are those of EnoughStep |
| Bank.Bank.Balance | pkg/bank/bank.go:56-73 | result, new store and new cache are those of BalanceSpec, and the converter never caches "RUB" |
| Bank.Bank.Add | pkg/bank/bank.go:75-83 | result and new store are those of AddSpec with the configured tries |
| Bank.Bank.AddPositive | pkg/bank/bank.go:85-104 | result and new store are those of AddPositiveSpec: the existence check and CreateID, then the retry loop |
| Bank.Bank.RetryAdd | pkg/bank/bank.go:94-103 | the loop's result and new store are those of AddLoop with the configured tries |
| Bank.Bank.Withdraw | pkg/bank/bank.go:106-114 | result and new store are those of WithdrawSpec with the configured tries |
| Bank.Bank.WithdrawPositive | pkg/bank/bank.go:116-151 | result and new store are those of WithdrawPositiveSpec: the two pre-checks, then the retry loop |
| Bank.Bank.RetryWithdraw | pkg/bank/bank.go:131-150 | the loop's result and new store are those of DebitLoop for a withdrawal with the configured tries |
| Bank.Bank.Transfer | pkg/bank/bank.go:153-161 | result and new store are those of TransferSpec with the configured tries |
| Bank.Bank.TransferPositive | pkg/bank/bank.go:163-205 | result and new store are those of TransferPositiveSpec: the three pre-checks, then the retry loop |
| Bank.Bank.RetryTransfer | pkg/bank/bank.go:185-204 | the loop's result and new store are those of DebitLoop for a transfer with the configured tries |
| BankTests.NewTestBank | pkg/bank/bank_test.go:78-86 | New over an empty mock with every tries count 1 gives a valid bank |
| BankTests.Basics | pkg/bank/bank_test.go:82-101 | Add(1, 10) succeeds, Balance(1, "RUB") is 10, Balance(42, "RUB") is NoAccount |
| BankTests.WithDraw | pkg/bank/bank_test.go:103-128 | withdrawing 100 from 10 is NotEnoughMoney and the balance stays 10; withdrawing 5 leaves 5 |
| BankTests.TransferAndRead | pkg/bank/bank_test.go:148-165 | one round: the transfer of the sum succeeds and both balances read back as moved |
| BankTests.Transfer | pkg/bank/bank_test.go:130-166 | from (200, 50) a transfer of 1000000 is NotEnoughMoney; ten alternating transfers of 100 succeed with sender balances 100, 50, … and recipient balances 150, 200, … |

## Left out

- The SQL store of `pkg/db/db.go` (pgx connection, ping retry, transactions) is I/O. Only the `BankDB` interface is modelled, with dbMock's semantics for an applied call. The real `Add` on a missing id updates zero rows without error; the model follows the mock, which returns NoRows.
- `pkg/db/errors.go` only formats wrapped foreign errors. The model has a single storage error besides NoRows (`TxFailed`).
- A failed storage call changes no balance of its own, because a failed transaction rolls back. Other clients' writes appear only alongside a failed call (`Interleaved`). Writes by others that coincide with a successful call are not modelled.
- The real SQL `Withdraw` and `Transfer` (pkg/db/db.go:91-119) are plain UPDATEs: on a missing id they update zero rows and succeed, and a real `Transfer` to a missing recipient debits the sender and credits nobody. The model follows dbMock, which returns NoRows and changes nothing. In a sequential run the engine's existence pre-checks make both cases unreachable.
- The real `CreateID` (pkg/db/db.go:121-127) is an INSERT that fails on an existing id; the model follows dbMock, which resets the balance to 0. `Add` calls it only after the existence check said the id is missing, so in a sequential run the two agree.
- Concurrency is not modelled: `sync.Map`, the mutex of `dbMock`, and the check-then-act race between requests. Only the single-threaded sequence with the interleaving approximation above is captured.
- `getRate`'s HTTP request, status check and JSON decoding are replaced by the reply script. A reply is a sequence of (code, rate) pairs in the order the store loop visits them; Go's map iteration order is not modelled. When the script runs out, every request fails.
- `int64(float64(sum) / rate)` is floating point. It is the uninterpreted function `quotient`, and rates are `real`.
- Context creation and cancellation (including the nil-context branch of `New`) and logrus logging have no behavioural contract. `operationErr` is modelled as the `OperationError` constructor without its log line.
- `InvalidSumError.Unwrap` and `Close` are not part of this model. The server, API, daemon and main packages, `config.Load` and `config_test.go` (YAML) are not part of this model either.
- Strings.ToUpper: upper-cases ASCII letters only; Go's full Unicode case mapping is not modelled.
- Bank.Bank.Balance: requires `Valid()`, which `New` establishes. A bank built without `New` is not modelled.
- BankTests.Basics: states that `Balance(42, "RUB")` is `NoAccount`. The Go test asserts both nil and non-nil on that error (bank_test.go lines 98-100), which cannot both hold.
- BankTests.WithDraw: uses the API token "Token". The Go test builds its config without a token, which `New` would reject. The same applies to BankTests.Transfer.
