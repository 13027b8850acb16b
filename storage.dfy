/**
 * The storage port the ledger engine talks to (the BankDB interface), with the semantics of the
 * in-memory dbMock of the bank package's tests. A fault plan says which calls fail: a failed call
 * applies nothing of its own, but writes that other clients commit meanwhile may become visible.
 */
module Storage {
  import opened Wrappers

  newtype int64 = x: int | -0x8000_0000_0000_0000 <= x < 0x8000_0000_0000_0000

  /** Whether a mathematical integer is an int64 value. */
  predicate Fits(x: int) {
    -0x8000_0000_0000_0000 <= x < 0x8000_0000_0000_0000
  }

  /** Go's two's-complement int64 arithmetic: the exact value when it fits, wrapped otherwise. */
  function Wrap(x: int): (r: int64)
    ensures Fits(x) ==> r as int == x
  {
    ((x + 0x8000_0000_0000_0000) % 0x1_0000_0000_0000_0000 - 0x8000_0000_0000_0000) as int64
  }

  /** Wrapping forgets whole multiples of 2^64 and nothing else. */
  lemma WrapShift(x: int, k: int)
    ensures Wrap(x + k * 0x1_0000_0000_0000_0000) == Wrap(x)
  {
    var m := 0x1_0000_0000_0000_0000;
    var a := x + 0x8000_0000_0000_0000;
    assert (a + k * m) % m == a % m by {
      assert a + k * m == (a / m + k) * m + a % m;
    }
  }

  /** Adding back what was subtracted restores an int64, overflow or not. */
  lemma WrapSubAdd(b: int64, s: int64)
    ensures Wrap(Wrap(b as int - s as int) as int + s as int) == b
  {
    var m := 0x1_0000_0000_0000_0000;
    var x := b as int - s as int;
    var a := x + 0x8000_0000_0000_0000;
    var k := a / m;
    assert Wrap(x) as int == x - k * m;
    WrapShift(b as int, -k);
  }

  /** What the storage does with one call. */
  datatype Fault =
    | Ok                                    // the call behaves as dbMock's method does
    | Transient                             // the call fails and changes nothing
    | Interleaved(writes: map<int, int64>)  // the call fails; other clients' writes commit meanwhile

  datatype DbError = NoRows | TxFailed

  /** One call of the BankDB interface, as the log records it. */
  datatype Call =
    | ExistsCall(id: int)
    | BalanceCall(id: int)
    | CreateIdCall(id: int)
    | AddCall(id: int, sum: int64)
    | WithdrawCall(id: int, sum: int64)
    | TransferCall(sender: int, recipient: int, sum: int64)

  /** The storage as the engine sees it: the balances, the faults to come, the calls made so far. */
  datatype DB = DB(balance: map<int, int64>, faults: seq<Fault>, trace: seq<Call>)

  /** A plan under which no call fails. */
  ghost predicate Calm(faults: seq<Fault>) {
    forall j :: 0 <= j < |faults| ==> faults[j] == Ok
  }

  /** A plan under which calls may fail, but no other client writes meanwhile. */
  ghost predicate NoInterleaving(faults: seq<Fault>) {
    forall j :: 0 <= j < |faults| ==> !faults[j].Interleaved?
  }

  /** How many calls fail before the first one that behaves. */
  function FirstOk(faults: seq<Fault>): (k: nat)
    ensures k <= |faults|
    ensures forall j :: 0 <= j < k ==> faults[j] != Ok
    ensures k < |faults| ==> faults[k] == Ok
  {
    if faults == [] || faults[0] == Ok then 0 else 1 + FirstOk(faults[1..])
  }

  /** Once the plan is used up, every call behaves as dbMock's does. */
  function NextFault(faults: seq<Fault>): Fault {
    if faults == [] then Ok else faults[0]
  }

  function LaterFaults(faults: seq<Fault>): seq<Fault> {
    if faults == [] then [] else faults[1..]
  }

  /** One call has been made: it is logged, it used up one fault, and no account disappeared. */
  ghost predicate Advanced(db: DB, db': DB, c: Call) {
    && db'.trace == db.trace + [c]
    && db'.faults == LaterFaults(db.faults)
    && db.balance.Keys <= db'.balance.Keys
  }

  /** The start of every call: whether the fault plan makes it fail, and the state it then sees. */
  function Attempt(db: DB, c: Call): (r: (bool, DB))
    ensures Advanced(db, r.1, c)
    ensures r.0 <==> NextFault(db.faults) != Ok
    ensures !NextFault(db.faults).Interleaved? ==> r.1.balance == db.balance
    ensures NextFault(db.faults).Interleaved? ==> r.1.balance == db.balance + NextFault(db.faults).writes
  {
    var next := db.(faults := LaterFaults(db.faults), trace := db.trace + [c]);
    match NextFault(db.faults)
    case Ok => (false, next)
    case Transient => (true, next)
    case Interleaved(writes) => (true, next.(balance := next.balance + writes))
  }

  /** IsAccountExist. */
  function ExistsStep(db: DB, id: int): (r: (Result<bool, DbError>, DB))
    ensures Advanced(db, r.1, ExistsCall(id))
    ensures r.0.Success? ==> r.1.balance == db.balance && r.0.value == (id in db.balance)
  {
    var (failed, db1) := Attempt(db, ExistsCall(id));
    if failed then (Failure(TxFailed), db1) else (Success(id in db1.balance), db1)
  }

  /** Balance: the stored value, or NoRows for an unknown account. */
  function BalanceStep(db: DB, id: int): (r: (Result<int64, DbError>, DB))
    ensures Advanced(db, r.1, BalanceCall(id))
    ensures r.0.Success? ==> r.1.balance == db.balance && id in db.balance && r.0.value == db.balance[id]
  {
    var (failed, db1) := Attempt(db, BalanceCall(id));
    if failed then (Failure(TxFailed), db1)
    else if id !in db1.balance then (Failure(NoRows), db1)
    else (Success(db1.balance[id]), db1)
  }

  /** CreateID: the balance becomes 0 whether or not the account existed. */
  function CreateIdStep(db: DB, id: int): (r: (Outcome<DbError>, DB))
    ensures Advanced(db, r.1, CreateIdCall(id))
  {
    var (failed, db1) := Attempt(db, CreateIdCall(id));
    if failed then (Fail(TxFailed), db1) else (Pass, db1.(balance := db1.balance[id := 0]))
  }

  /** Add: credits an existing account, wrapping on overflow. */
  function AddStep(db: DB, id: int, sum: int64): (r: (Outcome<DbError>, DB))
    ensures Advanced(db, r.1, AddCall(id, sum))
  {
    var (failed, db1) := Attempt(db, AddCall(id, sum));
    if failed then (Fail(TxFailed), db1)
    else if id !in db1.balance then (Fail(NoRows), db1)
    else (Pass, db1.(balance := db1.balance[id := Wrap(db1.balance[id] as int + sum as int)]))
  }

  /** Withdraw: debits an existing account with no floor on the result. */
  function WithdrawStep(db: DB, id: int, sum: int64): (r: (Outcome<DbError>, DB))
    ensures Advanced(db, r.1, WithdrawCall(id, sum))
  {
    var (failed, db1) := Attempt(db, WithdrawCall(id, sum));
    if failed then (Fail(TxFailed), db1)
    else if id !in db1.balance then (Fail(NoRows), db1)
    else (Pass, db1.(balance := db1.balance[id := Wrap(db1.balance[id] as int - sum as int)]))
  }

  /** Transfer: needs both accounts; debits the sender, then credits the recipient. */
  function TransferStep(db: DB, sender: int, recipient: int, sum: int64): (r: (Outcome<DbError>, DB))
    ensures Advanced(db, r.1, TransferCall(sender, recipient, sum))
  {
    var (failed, db1) := Attempt(db, TransferCall(sender, recipient, sum));
    if failed then (Fail(TxFailed), db1)
    else if sender !in db1.balance || recipient !in db1.balance then (Fail(NoRows), db1)
    else
      var debited := db1.balance[sender := Wrap(db1.balance[sender] as int - sum as int)];
      (Pass, db1.(balance := debited[recipient := Wrap(debited[recipient] as int + sum as int)]))
  }

  /** CreateID sets the balance to 0 whether or not the account existed, and touches no other account. */
  lemma CreateIdSetsZero(db: DB, id: int)
    requires NextFault(db.faults) == Ok
    ensures CreateIdStep(db, id).0 == Pass
    ensures CreateIdStep(db, id).1.balance == db.balance[id := 0]
  {
  }

  /** Balance, Add and Withdraw of an unknown account report NoRows and change nothing. */
  lemma MissingAccountIsNoRows(db: DB, id: int, sum: int64)
    requires NextFault(db.faults) == Ok && id !in db.balance
    ensures BalanceStep(db, id).0 == Failure(NoRows) && BalanceStep(db, id).1.balance == db.balance
    ensures AddStep(db, id, sum).0 == Fail(NoRows) && AddStep(db, id, sum).1.balance == db.balance
    ensures WithdrawStep(db, id, sum).0 == Fail(NoRows) && WithdrawStep(db, id, sum).1.balance == db.balance
  {
  }

  /** Transfer fails with nothing changed unless both accounts exist. */
  lemma TransferNeedsBothAccounts(db: DB, sender: int, recipient: int, sum: int64)
    requires NextFault(db.faults) == Ok
    ensures var (r, db') := TransferStep(db, sender, recipient, sum);
      (r == Pass <==> sender in db.balance && recipient in db.balance) &&
      (r != Pass ==> r == Fail(NoRows) && db'.balance == db.balance)
  {
  }

  /** A transfer from an account to itself leaves every balance as it was, even when it wraps. */
  lemma SelfTransferIsNoop(db: DB, id: int, sum: int64)
    requires NextFault(db.faults) == Ok && id in db.balance
    ensures TransferStep(db, id, id, sum).0 == Pass
    ensures TransferStep(db, id, id, sum).1.balance == db.balance
  {
    WrapSubAdd(db.balance[id], sum);
    var b := TransferStep(db, id, id, sum).1.balance;
    assert b == db.balance[id := Wrap(Wrap(db.balance[id] as int - sum as int) as int + sum as int)];
  }

  /**
   * Between two distinct accounts, a transfer that does not overflow moves `sum` from the sender
   * to the recipient: their total is preserved and no other account changes.
   */
  lemma TransferPreservesTotal(db: DB, sender: int, recipient: int, sum: int64)
    requires NextFault(db.faults) == Ok && sender != recipient
    requires sender in db.balance && recipient in db.balance
    requires Fits(db.balance[sender] as int - sum as int)
    requires Fits(db.balance[recipient] as int + sum as int)
    ensures var (r, db') := TransferStep(db, sender, recipient, sum);
      && r == Pass
      && db'.balance.Keys == db.balance.Keys
      && db'.balance[sender] as int == db.balance[sender] as int - sum as int
      && db'.balance[recipient] as int == db.balance[recipient] as int + sum as int
      && db'.balance[sender] as int + db'.balance[recipient] as int ==
         db.balance[sender] as int + db.balance[recipient] as int
      && forall k :: k in db.balance && k != sender && k != recipient ==> db'.balance[k] == db.balance[k]
  {
  }

  /** Withdraw has no floor: debiting more than the balance succeeds and leaves it negative. */
  lemma WithdrawIsUnguarded(db: DB, id: int, sum: int64)
    requires NextFault(db.faults) == Ok && id in db.balance && sum > db.balance[id]
    requires Fits(db.balance[id] as int - sum as int)
    ensures WithdrawStep(db, id, sum).0 == Pass
    ensures WithdrawStep(db, id, sum).1.balance[id] < 0
  {
  }

  /**
   * The storage object: dbMock's balance map, the fault plan still to come, and (ghost) the log of
   * calls made so far.
   */
  class MemDB {
    var balance: map<int, int64>
    var faults: seq<Fault>
    ghost var trace: seq<Call>

    ghost function State(): DB
      reads this
    {
      DB(balance, faults, trace)
    }

    /** NewDB: an empty store whose calls fail as `faults` says. */
    constructor (faults: seq<Fault>)
      ensures State() == DB(map[], faults, [])
    {
      balance := map[];
      this.faults := faults;
      trace := [];
    }

    method StartCall(c: Call) returns (failed: bool)
      modifies this
      ensures (failed, State()) == Attempt(old(State()), c)
    {
      trace := trace + [c];
      var f := if faults == [] then Ok else faults[0];
      faults := if faults == [] then [] else faults[1..];
      match f
      case Ok => failed := false;
      case Transient => failed := true;
      case Interleaved(writes) =>
        balance := balance + writes;
        failed := true;
    }

    method IsAccountExist(id: int) returns (r: Result<bool, DbError>)
      modifies this
      ensures (r, State()) == ExistsStep(old(State()), id)
    {
      var failed := StartCall(ExistsCall(id));
      if failed {
        return Failure(TxFailed);
      }
      r := Success(id in balance);
    }

    method Balance(id: int) returns (r: Result<int64, DbError>)
      modifies this
      ensures (r, State()) == BalanceStep(old(State()), id)
    {
      var failed := StartCall(BalanceCall(id));
      if failed {
        return Failure(TxFailed);
      }
      if id !in balance {
        return Failure(NoRows);
      }
      r := Success(balance[id]);
    }

    method CreateID(id: int) returns (r: Outcome<DbError>)
      modifies this
      ensures (r, State()) == CreateIdStep(old(State()), id)
    {
      var failed := StartCall(CreateIdCall(id));
      if failed {
        return Fail(TxFailed);
      }
      balance := balance[id := 0];
      r := Pass;
    }

    method Add(id: int, sum: int64) returns (r: Outcome<DbError>)
      modifies this
      ensures (r, State()) == AddStep(old(State()), id, sum)
    {
      var failed := StartCall(AddCall(id, sum));
      if failed {
        return Fail(TxFailed);
      }
      if id !in balance {
        return Fail(NoRows);
      }
      balance := balance[id := Wrap(balance[id] as int + sum as int)];
      r := Pass;
    }

    method Withdraw(id: int, sum: int64) returns (r: Outcome<DbError>)
      modifies this
      ensures (r, State()) == WithdrawStep(old(State()), id, sum)
    {
      var failed := StartCall(WithdrawCall(id, sum));
      if failed {
        return Fail(TxFailed);
      }
      if id !in balance {
        return Fail(NoRows);
      }
      balance := balance[id := Wrap(balance[id] as int - sum as int)];
      r := Pass;
    }

    method Transfer(sender: int, recipient: int, sum: int64) returns (r: Outcome<DbError>)
      modifies this
      ensures (r, State()) == TransferStep(old(State()), sender, recipient, sum)
    {
      var failed := StartCall(TransferCall(sender, recipient, sum));
      if failed {
        return Fail(TxFailed);
      }
      if sender !in balance || recipient !in balance {
        return Fail(NoRows);
      }
      balance := balance[sender := Wrap(balance[sender] as int - sum as int)];
      balance := balance[recipient := Wrap(balance[recipient] as int + sum as int)];
      r := Pass;
    }
  }
}
