/** The retry-count record of the bank package, a copy of the counts in Config.BankConfig without the token. */
module BankTxConfig {
  import opened Wrappers
  import opened Config

  datatype TxConfig = TxConfig(addTxTriesCount: int, withdrawTxTriesCount: int, transferTxTriesCount: int)

  /** Config.CheckRestrictions of the bank package: the counts are checked in the order add, withdraw, transfer. */
  function CheckRestrictions(c: TxConfig): (r: Option<TriesError>)
    ensures r.None? <==>
      c.addTxTriesCount > 0 && c.withdrawTxTriesCount > 0 && c.transferTxTriesCount > 0
    ensures c.addTxTriesCount <= 0 ==> r == Some(AddTriesNotPositive(c.addTxTriesCount))
    ensures c.addTxTriesCount > 0 && c.withdrawTxTriesCount <= 0 ==>
      r == Some(WithdrawTriesNotPositive(c.withdrawTxTriesCount))
    ensures c.addTxTriesCount > 0 && c.withdrawTxTriesCount > 0 && c.transferTxTriesCount <= 0 ==>
      r == Some(TransferTriesNotPositive(c.transferTxTriesCount))
  {
    if c.addTxTriesCount <= 0 then Some(AddTriesNotPositive(c.addTxTriesCount))
    else if c.withdrawTxTriesCount <= 0 then Some(WithdrawTriesNotPositive(c.withdrawTxTriesCount))
    else if c.transferTxTriesCount <= 0 then Some(TransferTriesNotPositive(c.transferTxTriesCount))
    else None
  }

  /** Both packages' checks give the same verdict and the same error on the same three counts. */
  lemma ChecksAgree(c: TxConfig, token: string)
    ensures CheckRestrictions(c) ==
      Config.CheckRestrictions(BankConfig(c.addTxTriesCount, c.withdrawTxTriesCount, c.transferTxTriesCount, token))
  {
  }
}
