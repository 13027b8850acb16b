/**
 * The ledger engine: validates sums, checks accounts and balances through the storage port,
 * retries failed mutations up to the configured number of times, and converts balances on read.
 * Every operation is a method of Bank proved against a function of the storage state below.
 */
module Bank {
  import opened Wrappers
  import opened Storage
  import opened BankErrors
  import Config
  import CurrConv

  /** Why New refuses to build a bank: "invalid config", "cannot init currency converter". */
  datatype InitError = InvalidConfig | ConverterInitFailed

  function Max0(n: int): nat {
    if n > 0 then n else 0
  }

  /** The sign check each public mutation starts with, naming the operation in its error. */
  function Validate(op: string, sum: int64): (r: Option<BankError>)
    ensures r.None? <==> sum > 0
    ensures sum < 0 ==> r == Some(NegativeSum(op))
    ensures sum == 0 ==> r == Some(ZeroSum(op))
  {
    if sum < 0 then Some(NegativeSum(op))
    else if sum == 0 then Some(ZeroSum(op))
    else None
  }

  /** checkEnoughBalanceToWithdraw: one Balance call; true when the stored balance covers `sum`. */
  function EnoughStep(db: DB, id: int, sum: int64): (r: (Result<bool, DbError>, DB))
    ensures Advanced(db, r.1, BalanceCall(id))
    ensures r.0.Success? ==>
      r.1.balance == db.balance && id in db.balance && (r.0.value <==> sum <= db.balance[id])
  {
    var (b, db1) := BalanceStep(db, id);
    match b
    case Failure(e) => (Failure(e), db1)
    case Success(v) => (Success(sum <= v), db1)
  }

  /* ---------------------------------------------------------------- add */

  /** add's retry loop: up to `tries` Add calls, stopping at the first that succeeds. */
  function AddLoop(db: DB, id: int, sum: int64, tries: int): (r: (Outcome<BankError>, DB))
    ensures r.0 == Pass || r.0 == Fail(OperationError("add"))
    ensures db.trace <= r.1.trace && db.balance.Keys <= r.1.balance.Keys
    decreases tries
  {
    if tries <= 0 then (Fail(OperationError("add")), db)
    else
      var (t, db1) := AddStep(db, id, sum);
      if t == Pass then (Pass, db1) else AddLoop(db1, id, sum, tries - 1)
  }

  /** add: create the account when it is missing, then run the retry loop. */
  function AddPositiveSpec(db: DB, id: int, sum: int64, tries: int): (r: (Outcome<BankError>, DB))
    ensures r.0 == Pass || r.0 == Fail(OperationError("add"))
  {
    var (found, db1) := ExistsStep(db, id);
    if found.Failure? then (Fail(OperationError("add")), db1)
    else if found.value then AddLoop(db1, id, sum, tries)
    else
      var (created, db2) := CreateIdStep(db1, id);
      if created.Fail? then (Fail(OperationError("add")), db2)
      else AddLoop(db2, id, sum, tries)
  }

  /** Add: the sign check, then add. */
  function AddSpec(db: DB, id: int, sum: int64, tries: int): (Outcome<BankError>, DB) {
    match Validate("add", sum)
    case Some(e) => (Fail(e), db)
    case None => AddPositiveSpec(db, id, sum, tries)
  }

  /* ------------------------------------------------------ withdraw, transfer */

  /** The mutation a debit retry loop repeats: withdraw's, or transfer's. */
  datatype Debit = WithdrawDebit(id: int) | TransferDebit(sender: int, recipient: int)

  /** The account whose balance the debit lowers and whose balance is rechecked. */
  function Payer(d: Debit): int {
    match d
    case WithdrawDebit(id) => id
    case TransferDebit(sender, _) => sender
  }

  /** The operation named in the loop's OperationError. */
  function DebitLabel(d: Debit): string {
    match d
    case WithdrawDebit(_) => "withdraw"
    case TransferDebit(_, _) => "transfer"
  }

  function DebitCall(d: Debit, sum: int64): Call {
    match d
    case WithdrawDebit(id) => WithdrawCall(id, sum)
    case TransferDebit(sender, recipient) => TransferCall(sender, recipient, sum)
  }

  function DebitStep(db: DB, d: Debit, sum: int64): (r: (Outcome<DbError>, DB))
    ensures Advanced(db, r.1, DebitCall(d, sum))
  {
    match d
    case WithdrawDebit(id) => WithdrawStep(db, id, sum)
    case TransferDebit(sender, recipient) => TransferStep(db, sender, recipient, sum)
  }

  /** The accounts the debit needs all exist. */
  predicate Payable(balance: map<int, int64>, d: Debit) {
    match d
    case WithdrawDebit(id) => id in balance
    case TransferDebit(sender, recipient) => sender in balance && recipient in balance
  }

  /** The balances after one successful debit call, read off the storage step (they do not depend on the faults or the log). */
  function Debited(balance: map<int, int64>, d: Debit, sum: int64): map<int, int64>
    requires Payable(balance, d)
  {
    DebitStep(DB(balance, [], []), d, sum).1.balance
  }

  /** A debit call that behaves, on accounts that exist, succeeds and leaves the balances Debited. */
  lemma DebitedIsStep(db: DB, d: Debit, sum: int64)
    requires NextFault(db.faults) == Ok && Payable(db.balance, d)
    ensures DebitStep(db, d, sum).0 == Pass
    ensures DebitStep(db, d, sum).1.balance == Debited(db.balance, d, sum)
  {
  }

  /**
   * The retry loop withdraw and transfer share: up to `tries` debit calls; after each failed one
   * the payer's balance is read again, and the loop stops when that read fails or shows too little.
   * NotEnoughMoney is only reported when the payer's balance, as just read, is below `sum`.
   */
  function DebitLoop(db: DB, d: Debit, sum: int64, tries: int): (r: (Outcome<BankError>, DB))
    ensures r.0 == Pass || r.0 == Fail(NotEnoughMoney) || r.0 == Fail(OperationError(DebitLabel(d)))
    ensures r.0 == Fail(NotEnoughMoney) ==> Payer(d) in r.1.balance && r.1.balance[Payer(d)] < sum
    ensures db.trace <= r.1.trace && db.balance.Keys <= r.1.balance.Keys
    decreases Max0(tries), 1
  {
    if tries <= 0 then (Fail(OperationError(DebitLabel(d))), db)
    else AfterDebit(db, DebitStep(db, d, sum), d, sum, tries)
  }

  /** One round of the debit loop, once the debit call has answered. */
  function AfterDebit(db: DB, step: (Outcome<DbError>, DB), d: Debit, sum: int64, tries: int): (r: (Outcome<BankError>, DB))
    requires tries > 0 && step == DebitStep(db, d, sum)
    ensures r.0 == Pass || r.0 == Fail(NotEnoughMoney) || r.0 == Fail(OperationError(DebitLabel(d)))
    ensures r.0 == Fail(NotEnoughMoney) ==> Payer(d) in r.1.balance && r.1.balance[Payer(d)] < sum
    ensures db.trace <= r.1.trace && db.balance.Keys <= r.1.balance.Keys
    decreases Max0(tries), 0
  {
    var (t, db1) := step;
    if t == Pass then (Pass, db1)
    else
      var (enough, db2) := EnoughStep(db1, Payer(d), sum);
      if enough.Failure? then (Fail(OperationError(DebitLabel(d))), db2)
      else if !enough.value then (Fail(NotEnoughMoney), db2)
      else DebitLoop(db2, d, sum, tries - 1)
  }

  /** withdraw: the account and balance pre-checks (whose errors say "transfer"), then the loop. */
  function WithdrawPositiveSpec(db: DB, id: int, sum: int64, tries: int): (Outcome<BankError>, DB) {
    var (found, db1) := ExistsStep(db, id);
    if found.Failure? then (Fail(OperationError("transfer")), db1)
    else if !found.value then (Fail(NoAccount("")), db1)
    else
      var (enough, db2) := EnoughStep(db1, id, sum);
      if enough.Failure? then (Fail(OperationError("transfer")), db2)
      else if !enough.value then (Fail(NotEnoughMoney), db2)
      else DebitLoop(db2, WithdrawDebit(id), sum, tries)
  }

  function WithdrawSpec(db: DB, id: int, sum: int64, tries: int): (Outcome<BankError>, DB) {
    match Validate("withdraw", sum)
    case Some(e) => (Fail(e), db)
    case None => WithdrawPositiveSpec(db, id, sum, tries)
  }

  /** transfer: the sender, then the recipient, then the sender's balance; then the loop. */
  function TransferPositiveSpec(db: DB, sender: int, recipient: int, sum: int64, tries: int)
    : (Outcome<BankError>, DB)
  {
    var (senderFound, db1) := ExistsStep(db, sender);
    if senderFound.Failure? then (Fail(OperationError("transfer")), db1)
    else if !senderFound.value then (Fail(NoAccount("sender")), db1)
    else
      var (recipientFound, db2) := ExistsStep(db1, recipient);
      if recipientFound.Failure? then (Fail(OperationError("transfer")), db2)
      else if !recipientFound.value then (Fail(NoAccount("recipient")), db2)
      else
        var (enough, db3) := EnoughStep(db2, sender, sum);
        if enough.Failure? then (Fail(OperationError("transfer")), db3)
        else if !enough.value then (Fail(NotEnoughMoney), db3)
        else DebitLoop(db3, TransferDebit(sender, recipient), sum, tries)
  }

  function TransferSpec(db: DB, sender: int, recipient: int, sum: int64, tries: int): (Outcome<BankError>, DB) {
    match Validate("transfer", sum)
    case Some(e) => (Fail(e), db)
    case None => TransferPositiveSpec(db, sender, recipient, sum, tries)
  }

  /* ---------------------------------------------------------------- balance */

  /** Balance: account check, stored value, conversion; every failure but a missing account is "balance". */
  function BalanceSpec(db: DB, c: CurrConv.Cache, token: string, quotient: (int64, CurrConv.Rate) -> int64,
                       id: int, currency: string): (Result<int64, BankError>, DB, CurrConv.Cache)
  {
    var (found, db1) := ExistsStep(db, id);
    if found.Failure? then (Failure(OperationError("balance")), db1, c)
    else if !found.value then (Failure(NoAccount("")), db1, c)
    else
      var (b, db2) := BalanceStep(db1, id);
      if b.Failure? then (Failure(OperationError("balance")), db2, c)
      else
        var (converted, c1) := CurrConv.FromRubSpec(c, token, quotient, b.value, currency);
        if converted.Failure? then (Failure(OperationError("balance")), db2, c1)
        else (Success(converted.value), db2, c1)
  }

  /* ---------------------------------------------------------------- properties */

  /** A sum that is not positive is refused before any storage call, naming the operation. */
  lemma ValidationComesFirst(db: DB, id: int, recipient: int, sum: int64, tries: int)
    requires sum <= 0
    ensures AddSpec(db, id, sum, tries) == (Fail(Validate("add", sum).value), db)
    ensures WithdrawSpec(db, id, sum, tries) == (Fail(Validate("withdraw", sum).value), db)
    ensures TransferSpec(db, id, recipient, sum, tries) == (Fail(Validate("transfer", sum).value), db)
  {
  }

  /** When the first storage call fails, each operation reports an OperationError with its label as written. */
  lemma StorageFailureLabels(db: DB, c: CurrConv.Cache, token: string, quotient: (int64, CurrConv.Rate) -> int64,
                             id: int, recipient: int, sum: int64, tries: int, currency: string)
    requires sum > 0 && NextFault(db.faults) != Ok
    ensures AddSpec(db, id, sum, tries).0 == Fail(OperationError("add"))
    ensures WithdrawSpec(db, id, sum, tries).0 == Fail(OperationError("transfer"))
    ensures TransferSpec(db, id, recipient, sum, tries).0 == Fail(OperationError("transfer"))
    ensures BalanceSpec(db, c, token, quotient, id, currency).0 == Failure(OperationError("balance"))
  {
  }

  /**
   * Without interleaved writers, add's loop credits an existing account exactly once: it succeeds
   * iff a call behaves within `tries` attempts, and makes one call per failure plus the good one.
   */
  lemma {:induction false} AddLoopExactlyOnce(db: DB, id: int, sum: int64, tries: int)
    requires id in db.balance && NoInterleaving(db.faults)
    ensures var (r, db') := AddLoop(db, id, sum, tries);
      && (r == Pass <==> FirstOk(db.faults) < tries)
      && db'.balance == (if r == Pass then db.balance[id := Wrap(db.balance[id] as int + sum as int)] else db.balance)
      && |db'.trace| == |db.trace| + (if r == Pass then FirstOk(db.faults) + 1 else Max0(tries))
    decreases tries
  {
    if tries > 0 && NextFault(db.faults) != Ok {
      AddLoopExactlyOnce(AddStep(db, id, sum).1, id, sum, tries - 1);
    }
  }

  /** add's loop makes at most `tries` calls, all of them Add calls for this account and sum. */
  lemma {:induction false} AddLoopAttemptBound(db: DB, id: int, sum: int64, tries: int)
    ensures var db' := AddLoop(db, id, sum, tries).1;
      && |db'.trace| <= |db.trace| + Max0(tries)
      && forall j :: |db.trace| <= j < |db'.trace| ==> db'.trace[j] == AddCall(id, sum)
    decreases tries
  {
    if tries > 0 {
      var (t, db1) := AddStep(db, id, sum);
      if t != Pass {
        AddLoopAttemptBound(db1, id, sum, tries - 1);
      }
    }
  }

  /**
   * Without interleaved writers, Add of a positive sum credits the account exactly once on success,
   * treating a missing account as 0; on failure the only trace it may leave is a created account at 0.
   * On storage that never fails it succeeds.
   */
  lemma AddCreditsExactlyOnce(db: DB, id: int, sum: int64, tries: int)
    requires sum > 0 && NoInterleaving(db.faults)
    ensures var (r, db') := AddSpec(db, id, sum, tries);
      && (r == Pass ==>
            db'.balance == db.balance[id := Wrap((if id in db.balance then db.balance[id] as int else 0) + sum as int)])
      && (r != Pass ==>
            && r == Fail(OperationError("add"))
            && (db'.balance == db.balance || (id !in db.balance && db'.balance == db.balance[id := 0])))
      && (Calm(db.faults) && tries > 0 ==> r == Pass)
  {
    var (found, db1) := ExistsStep(db, id);
    if found.Success? {
      if found.value {
        AddLoopExactlyOnce(db1, id, sum, tries);
      } else {
        var (created, db2) := CreateIdStep(db1, id);
        if created == Pass {
          AddLoopExactlyOnce(db2, id, sum, tries);
          assert db2.balance == db.balance[id := 0];
        }
      }
    }
  }

  /** The debit loop makes at most `tries` debit calls. */
  lemma {:induction false} DebitLoopAttemptBound(db: DB, d: Debit, sum: int64, tries: int)
    ensures DebitCalls(DebitLoop(db, d, sum, tries).1.trace, d, sum) <= DebitCalls(db.trace, d, sum) + Max0(tries)
    decreases Max0(tries), 1
  {
    if tries > 0 {
      AfterDebitAttemptBound(db, DebitStep(db, d, sum), d, sum, tries);
    }
  }

  /** One round adds one debit call, plus whatever the remaining rounds add. */
  lemma {:induction false} AfterDebitAttemptBound(db: DB, step: (Outcome<DbError>, DB), d: Debit, sum: int64, tries: int)
    requires tries > 0 && step == DebitStep(db, d, sum)
    ensures DebitCalls(AfterDebit(db, step, d, sum, tries).1.trace, d, sum) <= DebitCalls(db.trace, d, sum) + Max0(tries)
    decreases Max0(tries), 0
  {
    var (t, db1) := step;
    DebitCallsSnoc(db.trace, DebitCall(d, sum), d, sum);
    if t != Pass {
      var (enough, db2) := EnoughStep(db1, Payer(d), sum);
      DebitCallsSnoc(db1.trace, BalanceCall(Payer(d)), d, sum);
      if enough.Success? && enough.value {
        DebitLoopAttemptBound(db2, d, sum, tries - 1);
      }
    }
  }

  /** How many times a trace repeats the debit call. */
  function DebitCalls(trace: seq<Call>, d: Debit, sum: int64): nat
    decreases |trace|
  {
    if trace == [] then 0
    else DebitCalls(trace[..|trace| - 1], d, sum) + (if trace[|trace| - 1] == DebitCall(d, sum) then 1 else 0)
  }

  lemma DebitCallsSnoc(trace: seq<Call>, c: Call, d: Debit, sum: int64)
    ensures DebitCalls(trace + [c], d, sum) == DebitCalls(trace, d, sum) + (if c == DebitCall(d, sum) then 1 else 0)
  {
    assert (trace + [c])[..|trace|] == trace;
  }

  /** Withdraw makes at most its tries count of Withdraw calls: the pre-checks only read. */
  lemma WithdrawAttemptsBounded(db: DB, id: int, sum: int64, tries: int)
    ensures DebitCalls(WithdrawSpec(db, id, sum, tries).1.trace, WithdrawDebit(id), sum) <=
            DebitCalls(db.trace, WithdrawDebit(id), sum) + Max0(tries)
  {
    if sum > 0 {
      var w := WithdrawDebit(id);
      var (found, db1) := ExistsStep(db, id);
      DebitCallsSnoc(db.trace, ExistsCall(id), w, sum);
      if found.Success? && found.value {
        var (enough, db2) := EnoughStep(db1, id, sum);
        DebitCallsSnoc(db1.trace, BalanceCall(id), w, sum);
        if enough.Success? && enough.value {
          DebitLoopAttemptBound(db2, w, sum, tries);
        }
      }
    }
  }

  /** Transfer makes at most its tries count of Transfer calls: the pre-checks only read. */
  lemma TransferAttemptsBounded(db: DB, sender: int, recipient: int, sum: int64, tries: int)
    ensures DebitCalls(TransferSpec(db, sender, recipient, sum, tries).1.trace, TransferDebit(sender, recipient), sum) <=
            DebitCalls(db.trace, TransferDebit(sender, recipient), sum) + Max0(tries)
  {
    var t := TransferDebit(sender, recipient);
    var (found, db1) := ExistsStep(db, sender);
    DebitCallsSnoc(db.trace, ExistsCall(sender), t, sum);
    var (found', db2) := ExistsStep(db1, recipient);
    DebitCallsSnoc(db1.trace, ExistsCall(recipient), t, sum);
    var (enough, db3) := EnoughStep(db2, sender, sum);
    DebitCallsSnoc(db2.trace, BalanceCall(sender), t, sum);
    DebitLoopAttemptBound(db3, t, sum, tries);
  }

  /**
   * The debit loop, entered right after a check that the payer's balance covers `sum`, never
   * succeeds in leaving the payer below zero: a successful debit applies to a balance just checked.
   */
  lemma {:induction false} DebitLoopKeepsPayerSolvent(db: DB, d: Debit, sum: int64, tries: int)
    requires sum > 0 && Payer(d) in db.balance && sum <= db.balance[Payer(d)]
    ensures var (r, db') := DebitLoop(db, d, sum, tries);
      r == Pass ==> Payer(d) in db'.balance && db'.balance[Payer(d)] >= 0
    decreases tries
  {
    if tries > 0 {
      var (t, db1) := DebitStep(db, d, sum);
      if t == Pass {
        var b := db.balance[Payer(d)];
        assert Fits(b as int - sum as int);
        if d.TransferDebit? && d.sender == d.recipient {
          WrapSubAdd(b, sum);
        }
      } else {
        var (enough, db2) := EnoughStep(db1, Payer(d), sum);
        if enough.Success? && enough.value {
          DebitLoopKeepsPayerSolvent(db2, d, sum, tries - 1);
        }
      }
    }
  }

  /**
   * Without interleaved writers the recheck always passes, so the loop debits exactly once on
   * success and changes nothing on failure, which is then an OperationError.
   */
  lemma {:induction false} DebitLoopExactlyOnce(db: DB, d: Debit, sum: int64, tries: int)
    requires NoInterleaving(db.faults) && Payable(db.balance, d) && sum <= db.balance[Payer(d)]
    ensures var (r, db') := DebitLoop(db, d, sum, tries);
      && (r == Pass ==> db'.balance == Debited(db.balance, d, sum))
      && (r != Pass ==> r == Fail(OperationError(DebitLabel(d))) && db'.balance == db.balance)
    decreases tries
  {
    if tries > 0 {
      var (t, db1) := DebitStep(db, d, sum);
      if t != Pass {
        assert NextFault(db.faults) == Transient;
        assert db1.balance == db.balance;
        var (enough, db2) := EnoughStep(db1, Payer(d), sum);
        assert db2.balance == db.balance && NoInterleaving(db2.faults);
        if enough.Success? {
          DebitLoopExactlyOnce(db2, d, sum, tries - 1);
        }
      }
    }
  }

  /**
   * When a debit call fails and the reread that follows shows the payer below the sum, the loop
   * stops there with NotEnoughMoney, whatever tries are left: one debit call, no second one.
   */
  lemma DebitLoopFailsFast(db: DB, d: Debit, sum: int64, tries: int)
    requires tries > 0
    requires var (t, db1) := DebitStep(db, d, sum);
      && t != Pass && NextFault(db1.faults) == Ok
      && Payer(d) in db1.balance && db1.balance[Payer(d)] < sum
    ensures var db1 := DebitStep(db, d, sum).1;
      DebitLoop(db, d, sum, tries) == (Fail(NotEnoughMoney), EnoughStep(db1, Payer(d), sum).1)
    ensures DebitCalls(DebitLoop(db, d, sum, tries).1.trace, d, sum) == DebitCalls(db.trace, d, sum) + 1
  {
    var db1 := DebitStep(db, d, sum).1;
    DebitCallsSnoc(db.trace, DebitCall(d, sum), d, sum);
    DebitCallsSnoc(db1.trace, BalanceCall(Payer(d)), d, sum);
  }

  /** When the pre-checks' calls all behave and find the account covered, Withdraw is the debit loop. */
  lemma WithdrawChecksPass(db: DB, id: int, sum: int64, tries: int)
    requires sum > 0 && |db.faults| >= 2 && db.faults[0] == Ok && db.faults[1] == Ok
    requires id in db.balance && sum <= db.balance[id]
    ensures WithdrawSpec(db, id, sum, tries) ==
      DebitLoop(DB(db.balance, db.faults[2..], db.trace + [ExistsCall(id), BalanceCall(id)]), WithdrawDebit(id), sum, tries)
  {
    var db1 := ExistsStep(db, id).1;
    assert db1 == DB(db.balance, db.faults[1..], db.trace + [ExistsCall(id)]);
    assert db.faults[1..][1..] == db.faults[2..];
    assert db1.trace + [BalanceCall(id)] == db.trace + [ExistsCall(id), BalanceCall(id)];
    assert EnoughStep(db1, id, sum) ==
      (Success(true), DB(db.balance, db.faults[2..], db.trace + [ExistsCall(id), BalanceCall(id)]));
  }

  /** When the pre-checks' calls all behave and find both accounts and the sender covered, Transfer is the debit loop. */
  lemma TransferChecksPass(db: DB, sender: int, recipient: int, sum: int64, tries: int)
    requires sum > 0 && |db.faults| >= 3 && db.faults[0] == Ok && db.faults[1] == Ok && db.faults[2] == Ok
    requires sender in db.balance && recipient in db.balance && sum <= db.balance[sender]
    ensures TransferSpec(db, sender, recipient, sum, tries) ==
      DebitLoop(DB(db.balance, db.faults[3..], db.trace + [ExistsCall(sender), ExistsCall(recipient), BalanceCall(sender)]),
                TransferDebit(sender, recipient), sum, tries)
  {
    var db1 := ExistsStep(db, sender).1;
    assert db1 == DB(db.balance, db.faults[1..], db.trace + [ExistsCall(sender)]);
    var db2 := ExistsStep(db1, recipient).1;
    assert db2 == DB(db.balance, db.faults[2..], db.trace + [ExistsCall(sender), ExistsCall(recipient)]);
    assert db.faults[1..][1..] == db.faults[2..];
    assert db.faults[2..][1..] == db.faults[3..];
    assert db2.trace + [BalanceCall(sender)] == db.trace + [ExistsCall(sender), ExistsCall(recipient), BalanceCall(sender)];
    assert EnoughStep(db2, sender, sum) ==
      (Success(true), DB(db.balance, db.faults[3..], db.trace + [ExistsCall(sender), ExistsCall(recipient), BalanceCall(sender)]));
  }

  /** A debit call during which another client writes fails, and leaves those writes visible. */
  lemma InterleavedDebit(db: DB, d: Debit, sum: int64, writes: map<int, int64>)
    requires NextFault(db.faults) == Interleaved(writes)
    ensures DebitStep(db, d, sum) == (Fail(TxFailed), DB(db.balance + writes, db.faults[1..], db.trace + [DebitCall(d, sum)]))
  {
  }

  /**
   * The loop's side of a drop in the payer's balance: another client lowers it below the sum while
   * the debit call fails, and the good reread that follows ends the loop with NotEnoughMoney.
   */
  lemma DebitStopsWhenBalanceDrops(db: DB, d: Debit, sum: int64, lowered: int64, rest: seq<Fault>, tries: int)
    requires tries > 0 && lowered < sum
    requires db.faults == [Interleaved(map[Payer(d) := lowered]), Ok] + rest
    ensures DebitLoop(db, d, sum, tries) ==
      (Fail(NotEnoughMoney),
       DB(db.balance[Payer(d) := lowered], rest, db.trace + [DebitCall(d, sum), BalanceCall(Payer(d))]))
  {
    InterleavedDebit(db, d, sum, map[Payer(d) := lowered]);
    assert db.faults[1..] == [Ok] + rest;
    assert ([Ok] + rest)[1..] == rest;
    assert db.balance + map[Payer(d) := lowered] == db.balance[Payer(d) := lowered];
    DebitLoopFailsFast(db, d, sum, tries);
    assert db.trace + [DebitCall(d, sum)] + [BalanceCall(Payer(d))] == db.trace + [DebitCall(d, sum), BalanceCall(Payer(d))];
  }

  /**
   * Withdraw gives up as soon as its recheck shows the balance too low: here another client's
   * write lands while the Withdraw call fails, and the recheck that follows reads it.
   */
  lemma WithdrawStopsWhenBalanceDrops(db: DB, id: int, sum: int64, lowered: int64, rest: seq<Fault>, tries: int)
    requires sum > 0 && tries > 0 && id in db.balance && sum <= db.balance[id] && lowered < sum
    requires db.faults == [Ok, Ok, Interleaved(map[id := lowered]), Ok] + rest
    ensures var (r, db') := WithdrawSpec(db, id, sum, tries);
      && r == Fail(NotEnoughMoney)
      && db'.balance == db.balance[id := lowered]
      && db'.trace == db.trace + [ExistsCall(id), BalanceCall(id), WithdrawCall(id, sum), BalanceCall(id)]
  {
    WithdrawChecksPass(db, id, sum, tries);
    var db2 := DB(db.balance, db.faults[2..], db.trace + [ExistsCall(id), BalanceCall(id)]);
    assert db2.faults == [Interleaved(map[id := lowered]), Ok] + rest;
    DebitStopsWhenBalanceDrops(db2, WithdrawDebit(id), sum, lowered, rest, tries);
  }

  /** Transfer, likewise, gives up as soon as its recheck shows the sender's balance too low. */
  lemma TransferStopsWhenBalanceDrops(db: DB, sender: int, recipient: int, sum: int64, lowered: int64,
                                      rest: seq<Fault>, tries: int)
    requires sum > 0 && tries > 0 && sender in db.balance && recipient in db.balance
    requires sum <= db.balance[sender] && lowered < sum
    requires db.faults == [Ok, Ok, Ok, Interleaved(map[sender := lowered]), Ok] + rest
    ensures var (r, db') := TransferSpec(db, sender, recipient, sum, tries);
      && r == Fail(NotEnoughMoney)
      && db'.balance == db.balance[sender := lowered]
      && db'.trace == db.trace + [ExistsCall(sender), ExistsCall(recipient), BalanceCall(sender),
                                  TransferCall(sender, recipient, sum), BalanceCall(sender)]
  {
    TransferChecksPass(db, sender, recipient, sum, tries);
    var db3 := DB(db.balance, db.faults[3..], db.trace + [ExistsCall(sender), ExistsCall(recipient), BalanceCall(sender)]);
    assert db3.faults == [Interleaved(map[sender := lowered]), Ok] + rest;
    DebitStopsWhenBalanceDrops(db3, TransferDebit(sender, recipient), sum, lowered, rest, tries);
  }

  /** `k` rounds of a failed debit followed by a good recheck. */
  function Flaky(k: nat): seq<Fault> {
    if k == 0 then [] else [Transient, Ok] + Flaky(k - 1)
  }

  /**
   * After `k` failed debit calls, each followed by a good reread, the loop still succeeds when
   * `k < tries`: it debits once, after 2k+1 calls.
   */
  lemma {:induction false} DebitRecoversFromFlakyStorage(db: DB, d: Debit, sum: int64, k: nat, rest: seq<Fault>, tries: int)
    requires Payable(db.balance, d) && sum <= db.balance[Payer(d)]
    requires db.faults == Flaky(k) + rest && NextFault(rest) == Ok && k < tries
    ensures DebitLoop(db, d, sum, tries).0 == Pass
    ensures DebitLoop(db, d, sum, tries).1.balance == Debited(db.balance, d, sum)
    ensures |DebitLoop(db, d, sum, tries).1.trace| == |db.trace| + 2 * k + 1
    decreases k
  {
    if k == 0 {
      assert db.faults == rest;
      GoodDebit(db, d, sum, tries);
    } else {
      FlakyPeel(k, rest);
      FailedRound(db, d, sum, tries);
      DebitRecoversFromFlakyStorage(AfterFailedRound(db, d, sum), d, sum, k - 1, rest, tries - 1);
    }
  }

  /**
   * When every one of the `tries` debit calls fails and each reread is good, the loop gives up
   * with an OperationError after 2 * tries calls, having changed nothing.
   */
  lemma {:induction false} DebitExhaustsOnFlakyStorage(db: DB, d: Debit, sum: int64, k: nat, rest: seq<Fault>, tries: int)
    requires Payable(db.balance, d) && sum <= db.balance[Payer(d)]
    requires db.faults == Flaky(k) + rest && tries <= k
    ensures DebitLoop(db, d, sum, tries).0 == Fail(OperationError(DebitLabel(d)))
    ensures DebitLoop(db, d, sum, tries).1.balance == db.balance
    ensures |DebitLoop(db, d, sum, tries).1.trace| == |db.trace| + 2 * Max0(tries)
    decreases k
  {
    if tries > 0 {
      FlakyPeel(k, rest);
      FailedRound(db, d, sum, tries);
      DebitExhaustsOnFlakyStorage(AfterFailedRound(db, d, sum), d, sum, k - 1, rest, tries - 1);
    }
  }

  /** The first round of a flaky plan, and what is left after it. */
  lemma FlakyPeel(k: nat, rest: seq<Fault>)
    requires k > 0
    ensures |Flaky(k) + rest| >= 2
    ensures (Flaky(k) + rest)[0] == Transient && (Flaky(k) + rest)[1] == Ok
    ensures (Flaky(k) + rest)[2..] == Flaky(k - 1) + rest
  {
    assert Flaky(k) + rest == [Transient, Ok] + (Flaky(k - 1) + rest);
  }

  /** A debit call that behaves, on accounts that exist, ends the loop having debited once. */
  lemma GoodDebit(db: DB, d: Debit, sum: int64, tries: int)
    requires NextFault(db.faults) == Ok && Payable(db.balance, d) && tries > 0
    ensures DebitLoop(db, d, sum, tries).0 == Pass
    ensures DebitLoop(db, d, sum, tries).1.balance == Debited(db.balance, d, sum)
    ensures DebitLoop(db, d, sum, tries).1.trace == db.trace + [DebitCall(d, sum)]
  {
  }

  /** The storage after a round whose debit call failed and whose reread was good. */
  function AfterFailedRound(db: DB, d: Debit, sum: int64): DB
    requires |db.faults| >= 2
  {
    DB(db.balance, db.faults[2..], db.trace + [DebitCall(d, sum), BalanceCall(Payer(d))])
  }

  /** A round whose debit call fails transiently and whose reread is good changes no balance. */
  lemma FailedRound(db: DB, d: Debit, sum: int64, tries: int)
    requires |db.faults| >= 2 && db.faults[0] == Transient && db.faults[1] == Ok
    requires Payer(d) in db.balance && sum <= db.balance[Payer(d)] && tries > 0
    ensures DebitLoop(db, d, sum, tries) == DebitLoop(AfterFailedRound(db, d, sum), d, sum, tries - 1)
  {
    var (t, db1) := DebitStep(db, d, sum);
    assert db1 == DB(db.balance, db.faults[1..], db.trace + [DebitCall(d, sum)]);
    var (enough, db2) := EnoughStep(db1, Payer(d), sum);
    assert db.faults[1..][1..] == db.faults[2..];
    assert db1.trace + [BalanceCall(Payer(d))] == db.trace + [DebitCall(d, sum), BalanceCall(Payer(d))];
    assert db2 == AfterFailedRound(db, d, sum);
  }

  /**
   * For every fault plan, a successful Withdraw leaves the account at or above zero. Other clients'
   * writes are modelled only as landing during a failed call (`Interleaved`); a write racing a
   * successful call is outside the model.
   */
  lemma WithdrawLeavesAccountSolvent(db: DB, id: int, sum: int64, tries: int)
    ensures var (r, db') := WithdrawSpec(db, id, sum, tries);
      r == Pass ==> id in db'.balance && db'.balance[id] >= 0
  {
    if sum > 0 {
      var (found, db1) := ExistsStep(db, id);
      var (enough, db2) := EnoughStep(db1, id, sum);
      if found.Success? && found.value && enough.Success? && enough.value {
        DebitLoopKeepsPayerSolvent(db2, WithdrawDebit(id), sum, tries);
      }
    }
  }

  /**
   * For every fault plan, a successful Transfer leaves the sender at or above zero, with the same
   * limit on other clients' writes as above.
   */
  lemma TransferLeavesSenderSolvent(db: DB, sender: int, recipient: int, sum: int64, tries: int)
    ensures var (r, db') := TransferSpec(db, sender, recipient, sum, tries);
      r == Pass ==> sender in db'.balance && db'.balance[sender] >= 0
  {
    if sum > 0 {
      var (found, db1) := ExistsStep(db, sender);
      var (found', db2) := ExistsStep(db1, recipient);
      var (enough, db3) := EnoughStep(db2, sender, sum);
      if enough.Success? && enough.value {
        DebitLoopKeepsPayerSolvent(db3, TransferDebit(sender, recipient), sum, tries);
      }
    }
  }

  /** NotEnoughMoney from Withdraw means the account's balance, as last read, is below the sum. */
  lemma WithdrawShortMeansShort(db: DB, id: int, sum: int64, tries: int)
    ensures var (r, db') := WithdrawSpec(db, id, sum, tries);
      r == Fail(NotEnoughMoney) ==> id in db'.balance && db'.balance[id] < sum
  {
  }

  /** NotEnoughMoney from Transfer means the sender's balance, as last read, is below the sum. */
  lemma TransferShortMeansShort(db: DB, sender: int, recipient: int, sum: int64, tries: int)
    ensures var (r, db') := TransferSpec(db, sender, recipient, sum, tries);
      r == Fail(NotEnoughMoney) ==> sender in db'.balance && db'.balance[sender] < sum
  {
  }

  /**
   * On storage that never fails, Withdraw of a missing account is NoAccount after one call, and an
   * overdraft is refused after reading the balance, without any Withdraw call; nothing changes.
   */
  lemma WithdrawRefusalsOnCalmStorage(db: DB, id: int, sum: int64, tries: int)
    requires Calm(db.faults) && sum > 0
    requires id !in db.balance || sum > db.balance[id]
    ensures var (r, db') := WithdrawSpec(db, id, sum, tries);
      && db'.balance == db.balance
      && (id !in db.balance ==> r == Fail(NoAccount("")) && db'.trace == db.trace + [ExistsCall(id)])
      && (id in db.balance ==> r == Fail(NotEnoughMoney) && db'.trace == db.trace + [ExistsCall(id), BalanceCall(id)])
  {
  }

  /** On storage that never fails, a covered Withdraw checks, then debits exactly once. */
  lemma WithdrawOnCalmStorage(db: DB, id: int, sum: int64, tries: int)
    requires Calm(db.faults) && sum > 0 && tries > 0
    requires id in db.balance && sum <= db.balance[id]
    ensures var (r, db') := WithdrawSpec(db, id, sum, tries);
      && r == Pass
      && db'.balance == db.balance[id := db.balance[id] - sum]
      && db'.trace == db.trace + [ExistsCall(id), BalanceCall(id), WithdrawCall(id, sum)]
  {
    var (found, db1) := ExistsStep(db, id);
    var (enough, db2) := EnoughStep(db1, id, sum);
    GoodDebit(db2, WithdrawDebit(id), sum, tries);
    assert Fits(db.balance[id] as int - sum as int);
  }

  /**
   * On storage that never fails, Transfer checks the sender before the recipient, then the
   * sender's balance; each refusal changes nothing.
   */
  lemma TransferRefusalsOnCalmStorage(db: DB, sender: int, recipient: int, sum: int64, tries: int)
    requires Calm(db.faults) && sum > 0
    requires sender !in db.balance || recipient !in db.balance || sum > db.balance[sender]
    ensures var (r, db') := TransferSpec(db, sender, recipient, sum, tries);
      && db'.balance == db.balance
      && (sender !in db.balance ==>
            r == Fail(NoAccount("sender")) && db'.trace == db.trace + [ExistsCall(sender)])
      && (sender in db.balance && recipient !in db.balance ==>
            r == Fail(NoAccount("recipient")) && db'.trace == db.trace + [ExistsCall(sender), ExistsCall(recipient)])
      && (sender in db.balance && recipient in db.balance ==> r == Fail(NotEnoughMoney))
  {
  }

  /** On storage that never fails, a covered Transfer checks, then moves the sum exactly once. */
  lemma TransferOnCalmStorage(db: DB, sender: int, recipient: int, sum: int64, tries: int)
    requires Calm(db.faults) && sum > 0 && tries > 0
    requires sender in db.balance && recipient in db.balance && sum <= db.balance[sender]
    ensures var (r, db') := TransferSpec(db, sender, recipient, sum, tries);
      && r == Pass
      && db'.balance == Debited(db.balance, TransferDebit(sender, recipient), sum)
      && db'.trace == db.trace +
           [ExistsCall(sender), ExistsCall(recipient), BalanceCall(sender), TransferCall(sender, recipient, sum)]
  {
    var (found, db1) := ExistsStep(db, sender);
    var (found', db2) := ExistsStep(db1, recipient);
    var (enough, db3) := EnoughStep(db2, sender, sum);
    GoodDebit(db3, TransferDebit(sender, recipient), sum, tries);
  }

  /**
   * Without interleaved writers, a successful Transfer between two accounts moves exactly the sum:
   * the pair's total is preserved and no other account changes (given the recipient cannot overflow).
   */
  lemma TransferPreservesPairTotal(db: DB, sender: int, recipient: int, sum: int64, tries: int)
    requires NoInterleaving(db.faults) && sender != recipient
    requires recipient in db.balance ==> Fits(db.balance[recipient] as int + sum as int)
    ensures var (r, db') := TransferSpec(db, sender, recipient, sum, tries);
      r == Pass ==>
        && sender in db.balance && recipient in db.balance && db'.balance.Keys == db.balance.Keys
        && db'.balance[sender] as int + db'.balance[recipient] as int
           == db.balance[sender] as int + db.balance[recipient] as int
        && forall k :: k in db.balance && k != sender && k != recipient ==> db'.balance[k] == db.balance[k]
  {
    if sum > 0 {
      var (found, db1) := ExistsStep(db, sender);
      var (found', db2) := ExistsStep(db1, recipient);
      var (enough, db3) := EnoughStep(db2, sender, sum);
      if found.Success? && found.value && found'.Success? && found'.value && enough.Success? && enough.value {
        assert db3.balance == db.balance && NoInterleaving(db3.faults);
        DebitLoopExactlyOnce(db3, TransferDebit(sender, recipient), sum, tries);
        var probe := DB(db.balance, [], []);
        DebitedIsStep(probe, TransferDebit(sender, recipient), sum);
        TransferPreservesTotal(probe, sender, recipient, sum);
      }
    }
  }

  /** Without interleaved writers, Balance changes no balance. */
  lemma BalanceIsReadOnly(db: DB, c: CurrConv.Cache, token: string, quotient: (int64, CurrConv.Rate) -> int64,
                          id: int, currency: string)
    requires NoInterleaving(db.faults)
    ensures BalanceSpec(db, c, token, quotient, id, currency).1.balance == db.balance
  {
  }

  /**
   * On storage that never fails: a missing account is NoAccount with the cache untouched; an
   * existing one is converted from its stored value exactly as the converter converts it.
   */
  lemma BalanceConvertsStoredValue(db: DB, c: CurrConv.Cache, token: string, quotient: (int64, CurrConv.Rate) -> int64,
                                   id: int, currency: string)
    requires Calm(db.faults)
    ensures var (r, db', c') := BalanceSpec(db, c, token, quotient, id, currency);
      && (id !in db.balance ==> r == Failure(NoAccount("")) && c' == c)
      && (id in db.balance ==>
            var (converted, c1) := CurrConv.FromRubSpec(c, token, quotient, db.balance[id], currency);
            && c' == c1
            && (r.Success? <==> converted.Success?)
            && (r.Success? ==> r.value == converted.value)
            && (r.Failure? ==> r.error == OperationError("balance")))
  {
  }

  /** In the base currency, on storage that never fails, Balance returns the stored value and fetches nothing. */
  lemma BalanceInBaseCurrency(db: DB, c: CurrConv.Cache, token: string, quotient: (int64, CurrConv.Rate) -> int64,
                              id: int, currency: string)
    requires Calm(db.faults) && id in db.balance && (currency == "" || currency == CurrConv.RUB)
    ensures var (r, db', c') := BalanceSpec(db, c, token, quotient, id, currency);
      r == Success(db.balance[id]) && c' == c && db'.balance == db.balance
  {
    CurrConv.BaseCurrencyShortCircuits(c, token, quotient, db.balance[id], currency);
  }

  /* ---------------------------------------------------------------- the engine */

  class Bank {
    const cfg: Config.BankConfig
    const db: MemDB
    const converter: CurrConv.Converter

    /** What New establishes: a usable config, and a converter built from its token. */
    ghost predicate Valid()
      reads converter
    {
      && Config.CheckRestrictions(cfg).None?
      && converter.token == cfg.ratesApiToken && converter.token != ""
      && converter.Valid()
    }

    constructor (cfg: Config.BankConfig, db: MemDB, converter: CurrConv.Converter)
      ensures this.cfg == cfg && this.db == db && this.converter == converter
    {
      this.cfg := cfg;
      this.db := db;
      this.converter := converter;
    }

    /** New: refuses a config with a non-positive tries count, then one without an API token. */
    static method New(db: MemDB, cfg: Config.BankConfig, replies: seq<CurrConv.Reply>,
                      quotient: (int64, CurrConv.Rate) -> int64)
      returns (r: Result<Bank, InitError>)
      ensures r.Failure? <==> Config.CheckRestrictions(cfg).Some? || cfg.ratesApiToken == ""
      ensures r.Failure? ==>
        r.error == (if Config.CheckRestrictions(cfg).Some? then InvalidConfig else ConverterInitFailed)
      ensures r.Success? ==>
        && fresh(r.value) && fresh(r.value.converter)
        && r.value.cfg == cfg && r.value.db == db && r.value.Valid()
        && r.value.converter.quotient == quotient
        && r.value.converter.State() == CurrConv.Cache(map[], replies, [])
    {
      if Config.CheckRestrictions(cfg).Some? {
        return Failure(InvalidConfig);
      }
      var conv := CurrConv.Converter.New(cfg.ratesApiToken, replies, quotient);
      if conv.Failure? {
        return Failure(ConverterInitFailed);
      }
      var b := new Bank(cfg, db, conv.value);
      r := Success(b);
    }

    method CheckAccountExist(id: int) returns (r: Result<bool, DbError>)
      modifies db
      ensures (r, db.State()) == ExistsStep(old(db.State()), id)
    {
      r := db.IsAccountExist(id);
    }

    method CheckEnoughBalanceToWithdraw(id: int, sum: int64) returns (r: Result<bool, DbError>)
      modifies db
      ensures (r, db.State()) == EnoughStep(old(db.State()), id, sum)
    {
      var b := db.Balance(id);
      if b.Failure? {
        return Failure(b.error);
      }
      r := Success(sum <= b.value);
    }

    method Balance(id: int, currency: string) returns (r: Result<int64, BankError>)
      requires Valid()
      modifies db, converter
      ensures Valid()
      ensures (r, db.State(), converter.State()) ==
        BalanceSpec(old(db.State()), old(converter.State()), converter.token, converter.quotient, id, currency)
    {
      var found := CheckAccountExist(id);
      if found.Failure? {
        return Failure(OperationError("balance"));
      }
      if !found.value {
        return Failure(NoAccount(""));
      }
      var b := db.Balance(id);
      if b.Failure? {
        return Failure(OperationError("balance"));
      }
      var converted := converter.FromRUB(b.value, currency);
      if converted.Failure? {
        return Failure(OperationError("balance"));
      }
      r := Success(converted.value);
    }

    method Add(id: int, sum: int64) returns (r: Outcome<BankError>)
      modifies db
      ensures (r, db.State()) == AddSpec(old(db.State()), id, sum, cfg.addTxTriesCount)
    {
      var invalid := Validate("add", sum);
      if invalid.Some? {
        return Fail(invalid.value);
      }
      r := AddPositive(id, sum);
    }

    method AddPositive(id: int, sum: int64) returns (r: Outcome<BankError>)
      modifies db
      ensures (r, db.State()) == AddPositiveSpec(old(db.State()), id, sum, cfg.addTxTriesCount)
    {
      var found := CheckAccountExist(id);
      if found.Failure? {
        return Fail(OperationError("add"));
      }
      if !found.value {
        var created := db.CreateID(id);
        if created.Fail? {
          return Fail(OperationError("add"));
        }
      }
      r := RetryAdd(id, sum);
    }

    /** add's retry loop: Add calls until one succeeds or the tries run out. */
    method RetryAdd(id: int, sum: int64) returns (r: Outcome<BankError>)
      modifies db
      ensures (r, db.State()) == AddLoop(old(db.State()), id, sum, cfg.addTxTriesCount)
    {
      ghost var start := db.State();
      var tries := cfg.addTxTriesCount;
      var i := 0;
      while i < tries
        invariant AddLoop(db.State(), id, sum, tries - i) == AddLoop(start, id, sum, tries)
        decreases tries - i
      {
        var t := db.Add(id, sum);
        if t == Pass {
          return Pass;
        }
        i := i + 1;
      }
      r := Fail(OperationError("add"));
    }

    method Withdraw(id: int, sum: int64) returns (r: Outcome<BankError>)
      modifies db
      ensures (r, db.State()) == WithdrawSpec(old(db.State()), id, sum, cfg.withdrawTxTriesCount)
    {
      var invalid := Validate("withdraw", sum);
      if invalid.Some? {
        return Fail(invalid.value);
      }
      r := WithdrawPositive(id, sum);
    }

    method WithdrawPositive(id: int, sum: int64) returns (r: Outcome<BankError>)
      modifies db
      ensures (r, db.State()) == WithdrawPositiveSpec(old(db.State()), id, sum, cfg.withdrawTxTriesCount)
    {
      var found := CheckAccountExist(id);
      if found.Failure? {
        return Fail(OperationError("transfer"));
      }
      if !found.value {
        return Fail(NoAccount(""));
      }
      var enough := CheckEnoughBalanceToWithdraw(id, sum);
      if enough.Failure? {
        return Fail(OperationError("transfer"));
      }
      if !enough.value {
        return Fail(NotEnoughMoney);
      }
      r := RetryWithdraw(id, sum);
    }

    /** withdraw's retry loop: a Withdraw call, and after each failure a recheck of the balance. */
    method RetryWithdraw(id: int, sum: int64) returns (r: Outcome<BankError>)
      modifies db
      ensures (r, db.State()) == DebitLoop(old(db.State()), WithdrawDebit(id), sum, cfg.withdrawTxTriesCount)
    {
      ghost var start := db.State();
      ghost var d := WithdrawDebit(id);
      var tries := cfg.withdrawTxTriesCount;
      var i := 0;
      while i < tries
        invariant DebitLoop(db.State(), d, sum, tries - i) == DebitLoop(start, d, sum, tries)
        decreases tries - i
      {
        ghost var before := db.State();
        var t := db.Withdraw(id, sum);
        assert (t, db.State()) == DebitStep(before, d, sum);
        if t == Pass {
          return Pass;
        }
        var recheck := CheckEnoughBalanceToWithdraw(id, sum);
        if recheck.Failure? {
          return Fail(OperationError("withdraw"));
        }
        if !recheck.value {
          return Fail(NotEnoughMoney);
        }
        i := i + 1;
      }
      r := Fail(OperationError("withdraw"));
    }

    method Transfer(sender: int, recipient: int, sum: int64) returns (r: Outcome<BankError>)
      modifies db
      ensures (r, db.State()) == TransferSpec(old(db.State()), sender, recipient, sum, cfg.transferTxTriesCount)
    {
      var invalid := Validate("transfer", sum);
      if invalid.Some? {
        return Fail(invalid.value);
      }
      r := TransferPositive(sender, recipient, sum);
    }

    method TransferPositive(sender: int, recipient: int, sum: int64) returns (r: Outcome<BankError>)
      modifies db
      ensures (r, db.State()) ==
        TransferPositiveSpec(old(db.State()), sender, recipient, sum, cfg.transferTxTriesCount)
    {
      var senderFound := CheckAccountExist(sender);
      if senderFound.Failure? {
        return Fail(OperationError("transfer"));
      }
      if !senderFound.value {
        return Fail(NoAccount("sender"));
      }
      var recipientFound := CheckAccountExist(recipient);
      if recipientFound.Failure? {
        return Fail(OperationError("transfer"));
      }
      if !recipientFound.value {
        return Fail(NoAccount("recipient"));
      }
      var enough := CheckEnoughBalanceToWithdraw(sender, sum);
      if enough.Failure? {
        return Fail(OperationError("transfer"));
      }
      if !enough.value {
        return Fail(NotEnoughMoney);
      }
      r := RetryTransfer(sender, recipient, sum);
    }

    /** transfer's retry loop: a Transfer call, and after each failure a recheck of the sender's balance. */
    method RetryTransfer(sender: int, recipient: int, sum: int64) returns (r: Outcome<BankError>)
      modifies db
      ensures (r, db.State()) ==
        DebitLoop(old(db.State()), TransferDebit(sender, recipient), sum, cfg.transferTxTriesCount)
    {
      ghost var start := db.State();
      ghost var d := TransferDebit(sender, recipient);
      var tries := cfg.transferTxTriesCount;
      var i := 0;
      while i < tries
        invariant DebitLoop(db.State(), d, sum, tries - i) == DebitLoop(start, d, sum, tries)
        decreases tries - i
      {
        ghost var before := db.State();
        var t := db.Transfer(sender, recipient, sum);
        assert (t, db.State()) == DebitStep(before, d, sum);
        if t == Pass {
          return Pass;
        }
        var recheck := CheckEnoughBalanceToWithdraw(sender, sum);
        if recheck.Failure? {
          return Fail(OperationError("transfer"));
        }
        if !recheck.value {
          return Fail(NotEnoughMoney);
        }
        i := i + 1;
      }
      r := Fail(OperationError("transfer"));
    }
  }
}
