/**
 * The bank package's test scenarios, run against the in-memory storage with no faults and a
 * converter that is never asked for a rate (every read is in roubles).
 */
module BankTests {
  import opened Wrappers
  import opened Storage
  import opened BankErrors
  import Config
  import CurrConv
  import Bank

  /** The engine the scenarios use: every tries count 1, over a fresh store that never fails. */
  method NewTestBank(token: string) returns (b: Bank.Bank)
    requires token != ""
    ensures fresh(b) && fresh(b.db) && fresh(b.converter)
    ensures b.Valid() && b.db.State() == DB(map[], [], [])
    ensures b.cfg.addTxTriesCount == 1 && b.cfg.withdrawTxTriesCount == 1 && b.cfg.transferTxTriesCount == 1
  {
    var db := new MemDB([]);
    var cfg := Config.BankConfig(1, 1, 1, token);
    var r := Bank.Bank.New(db, cfg, [], (sum: int64, rate: CurrConv.Rate) => sum);
    b := r.value;
  }

  /** Add creates and credits an account; its balance reads back in roubles; an unknown account is NoAccount. */
  method Basics() returns (added: Outcome<BankError>, balance: Result<int64, BankError>,
                           missing: Result<int64, BankError>)
    ensures added == Pass && balance == Success(10) && missing == Failure(NoAccount(""))
  {
    var b := NewTestBank("Token");
    ghost var db0 := b.db.State();
    Bank.AddCreditsExactlyOnce(db0, 1, 10, 1);
    added := b.Add(1, 10);
    assert b.db.balance == map[1 := 10];

    Bank.BalanceInBaseCurrency(b.db.State(), b.converter.State(), b.converter.token, b.converter.quotient, 1, "RUB");
    balance := b.Balance(1, "RUB");

    Bank.BalanceConvertsStoredValue(b.db.State(), b.converter.State(), b.converter.token, b.converter.quotient, 42, "RUB");
    missing := b.Balance(42, "RUB");
  }

  /** An overdraft is refused and changes nothing; a covered withdrawal debits exactly once. */
  method WithDraw() returns (overdraft: Outcome<BankError>, kept: Result<int64, BankError>,
                             withdrawn: Outcome<BankError>, remaining: Result<int64, BankError>)
    ensures overdraft == Fail(NotEnoughMoney) && kept == Success(10)
    ensures withdrawn == Pass && remaining == Success(5)
  {
    var b := NewTestBank("Token");
    Bank.AddCreditsExactlyOnce(b.db.State(), 1, 10, 1);
    var added := b.Add(1, 10);
    assert b.db.balance == map[1 := 10];

    Bank.WithdrawRefusalsOnCalmStorage(b.db.State(), 1, 100, 1);
    overdraft := b.Withdraw(1, 100);
    assert b.db.balance == map[1 := 10];

    Bank.BalanceInBaseCurrency(b.db.State(), b.converter.State(), b.converter.token, b.converter.quotient, 1, "RUB");
    kept := b.Balance(1, "RUB");

    Bank.WithdrawOnCalmStorage(b.db.State(), 1, 5, 1);
    withdrawn := b.Withdraw(1, 5);
    assert b.db.balance == map[1 := 5];

    Bank.BalanceInBaseCurrency(b.db.State(), b.converter.State(), b.converter.token, b.converter.quotient, 1, "RUB");
    remaining := b.Balance(1, "RUB");
  }

  /** One round of the Transfer scenario: move `sum`, then read both balances in roubles. */
  method TransferAndRead(b: Bank.Bank, sender: int, recipient: int, sum: int64)
    returns (t: Outcome<BankError>, s: Result<int64, BankError>, r: Result<int64, BankError>)
    requires b.Valid() && b.db.faults == [] && b.cfg.transferTxTriesCount == 1
    requires sender != recipient && b.db.balance.Keys == {sender, recipient}
    requires 0 < sum <= b.db.balance[sender] && b.db.balance[recipient] as int + sum as int < 0x8000_0000_0000_0000
    modifies b.db, b.converter
    ensures b.Valid() && b.db.faults == []
    ensures b.db.balance == map[sender := old(b.db.balance[sender]) - sum, recipient := old(b.db.balance[recipient]) + sum]
    ensures t == Pass && s == Success(b.db.balance[sender]) && r == Success(b.db.balance[recipient])
  {
    var before := b.db.balance;
    Bank.TransferOnCalmStorage(b.db.State(), sender, recipient, sum, 1);
    ghost var probe := DB(before, [], []);
    ghost var moved := Bank.Debited(before, Bank.TransferDebit(sender, recipient), sum);
    Bank.DebitedIsStep(probe, Bank.TransferDebit(sender, recipient), sum);
    TransferPreservesTotal(probe, sender, recipient, sum);
    assert moved.Keys == {sender, recipient};
    assert moved == map[sender := before[sender] - sum, recipient := before[recipient] + sum];
    t := b.Transfer(sender, recipient, sum);
    assert b.db.balance == moved;

    Bank.BalanceInBaseCurrency(b.db.State(), b.converter.State(), b.converter.token, b.converter.quotient, sender, "RUB");
    s := b.Balance(sender, "RUB");
    Bank.BalanceInBaseCurrency(b.db.State(), b.converter.State(), b.converter.token, b.converter.quotient, recipient, "RUB");
    r := b.Balance(recipient, "RUB");
  }

  /**
   * Accounts 1 and 2 start at 200 and 50. A transfer of 1000000 is refused; then ten transfers of
   * 100, the roles swapping after each, all succeed, and each leaves the sender and recipient
   * balances the scenario expects.
   */
  method Transfer() returns (overdraft: Outcome<BankError>, transfers: seq<Outcome<BankError>>,
                             senderBalances: seq<Result<int64, BankError>>,
                             recipientBalances: seq<Result<int64, BankError>>)
    ensures overdraft == Fail(NotEnoughMoney)
    ensures |transfers| == 10 && forall i :: 0 <= i < 10 ==> transfers[i] == Pass
    ensures |senderBalances| == 10 && forall i :: 0 <= i < 10 ==>
      senderBalances[i] == Success(if i % 2 == 0 then 100 else 50)
    ensures |recipientBalances| == 10 && forall i :: 0 <= i < 10 ==>
      recipientBalances[i] == Success(if i % 2 == 0 then 150 else 200)
  {
    var b := NewTestBank("Token");
    var db := b.db;
    db.balance := map[1 := 200, 2 := 50];

    Bank.TransferRefusalsOnCalmStorage(db.State(), 1, 2, 1000000, 1);
    overdraft := b.Transfer(1, 2, 1000000);

    var sender, recipient := 1, 2;
    var b1: int64, b2: int64 := 200, 50;
    transfers, senderBalances, recipientBalances := [], [], [];
    for i := 0 to 10
      invariant b.Valid() && db.faults == []
      invariant i % 2 == 0 ==> sender == 1 && recipient == 2 && b1 == 200 && b2 == 50
      invariant i % 2 == 1 ==> sender == 2 && recipient == 1 && b1 == 150 && b2 == 100
      invariant db.balance == map[sender := b1, recipient := b2]
      invariant |transfers| == i && forall j :: 0 <= j < i ==> transfers[j] == Pass
      invariant |senderBalances| == i && forall j :: 0 <= j < i ==>
        senderBalances[j] == Success(if j % 2 == 0 then 100 else 50)
      invariant |recipientBalances| == i && forall j :: 0 <= j < i ==>
        recipientBalances[j] == Success(if j % 2 == 0 then 150 else 200)
    {
      b1, b2 := b1 - 100, b2 + 100;
      var t, s, r := TransferAndRead(b, sender, recipient, 100);
      transfers, senderBalances, recipientBalances := transfers + [t], senderBalances + [s], recipientBalances + [r];
      sender, recipient := recipient, sender;
      b1, b2 := b2, b1;
    }
  }
}
