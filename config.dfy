/** The service configuration records and their pure helpers; loading them from YAML is not modelled. */
module Config {
  import opened Wrappers
  import Strings

  datatype ServerConfig = ServerConfig(host: string, port: int)

  datatype DBConfig = DBConfig(
    name: string, host: string, port: int, user: string, password: string,
    connTryTime: int, connTriesCnt: int, maxIdleConns: int, maxOpenConns: int)

  datatype BankConfig = BankConfig(
    addTxTriesCount: int, withdrawTxTriesCount: int, transferTxTriesCount: int,
    ratesApiToken: string)

  /** The error CheckRestrictions returns: which count is not positive, and its value. */
  datatype TriesError =
    | AddTriesNotPositive(count: int)
    | WithdrawTriesNotPositive(count: int)
    | TransferTriesNotPositive(count: int)

  function TriesLabel(e: TriesError): string {
    match e
    case AddTriesNotPositive(_) => "add"
    case WithdrawTriesNotPositive(_) => "withdraw"
    case TransferTriesNotPositive(_) => "transfer"
  }

  /** The text of the error, as `fmt.Errorf("... tx tries count <= 0: %d", count)` prints it. */
  function TriesMessage(e: TriesError): string {
    TriesLabel(e) + " tx tries count <= 0: " + Strings.Itoa(e.count)
  }

  /** The offending value can be read back from the end of the message. */
  lemma TriesMessageEmbedsCount(e: TriesError)
    ensures Strings.SplitLast(TriesMessage(e), ' ').Some?
    ensures Strings.Atoi(Strings.SplitLast(TriesMessage(e), ' ').value.1) == Some(e.count)
  {
    var digits := Strings.Itoa(e.count);
    assert TriesMessage(e) == TriesLabel(e) + " tx tries count <= 0:" + [' '] + digits;
    Strings.SplitLastJoin(TriesLabel(e) + " tx tries count <= 0:", ' ', digits);
    Strings.ItoaRoundTrip(e.count);
  }

  /** BankConfig.CheckRestrictions: None (nil) when the config is usable. */
  function CheckRestrictions(c: BankConfig): (r: Option<TriesError>)
    ensures r.None? <==>
      c.addTxTriesCount > 0 && c.withdrawTxTriesCount > 0 && c.transferTxTriesCount > 0
    ensures c.addTxTriesCount <= 0 ==> r == Some(AddTriesNotPositive(c.addTxTriesCount))
    ensures c.addTxTriesCount > 0 && c.withdrawTxTriesCount <= 0 ==>
      r == Some(WithdrawTriesNotPositive(c.withdrawTxTriesCount))
    ensures c.addTxTriesCount > 0 && c.withdrawTxTriesCount > 0 && c.transferTxTriesCount <= 0 ==>
      r == Some(TransferTriesNotPositive(c.transferTxTriesCount))
  {
    if c.addTxTriesCount <= 0 then Some(AddTriesNotPositive(c.addTxTriesCount))
    else if c.withdrawTxTriesCount <= 0 then Some(WithdrawTriesNotPositive(c.withdrawTxTriesCount))
    else if c.transferTxTriesCount <= 0 then Some(TransferTriesNotPositive(c.transferTxTriesCount))
    else None
  }

  /** The rates API token plays no part in the check. */
  lemma CheckRestrictionsIgnoresToken(c: BankConfig, token: string)
    ensures CheckRestrictions(c.(ratesApiToken := token)) == CheckRestrictions(c)
  {
  }

  /** ServerConfig.Address: `host:port`. */
  function Address(c: ServerConfig): string {
    c.host + ":" + Strings.Itoa(c.port)
  }

  /** Splitting an address at its last colon gives back the host and the port. */
  lemma AddressRoundTrip(c: ServerConfig)
    ensures Strings.SplitLast(Address(c), ':') == Some((c.host, Strings.Itoa(c.port)))
    ensures Strings.Atoi(Strings.Itoa(c.port)) == Some(c.port)
  {
    assert Address(c) == c.host + [':'] + Strings.Itoa(c.port);
    Strings.SplitLastJoin(c.host, ':', Strings.Itoa(c.port));
    Strings.ItoaRoundTrip(c.port);
  }

  /** DBConfig.ConnectURL: a postgres URL naming user, password, host, port and database. */
  function ConnectURL(c: DBConfig): string {
    "postgres://" + c.user + ":" + c.password + "@" + c.host + ":" + Strings.Itoa(c.port) + "/" + c.name
  }

  /**
   * The URL is the credentials, then the server address of the same host and port, then the
   * database name; a name without '/' is exactly what follows the URL's last '/'.
   */
  lemma ConnectUrlShape(c: DBConfig)
    ensures ConnectURL(c) ==
      "postgres://" + c.user + ":" + c.password + "@" + Address(ServerConfig(c.host, c.port)) + "/" + c.name
    ensures (forall j :: 0 <= j < |c.name| ==> c.name[j] != '/') ==>
      Strings.SplitLast(ConnectURL(c), '/').Some? &&
      Strings.SplitLast(ConnectURL(c), '/').value.1 == c.name
  {
    var head := "postgres://" + c.user + ":" + c.password + "@" + c.host + ":" + Strings.Itoa(c.port);
    assert ConnectURL(c) == head + ['/'] + c.name;
    if forall j :: 0 <= j < |c.name| ==> c.name[j] != '/' {
      Strings.SplitLastJoin(head, '/', c.name);
    }
  }
}
