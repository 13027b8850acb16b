/** The ledger engine's closed error taxonomy and the texts their Error() methods return. */
module BankErrors {
  import opened Wrappers

  /** One constructor per error struct; the string fields are the optional tags. */
  datatype BankError =
    | OperationError(op: string)
    | NotEnoughMoney
    | NoAccount(info: string)
    | InvalidSum(wrapped: bool)  // `wrapped` says whether the struct's Err field is non-nil
    | NegativeSum(op: string)
    | ZeroSum(op: string)

  /** The common shape of the tagged messages: the base text, then ": " and the tag when there is one. */
  function Tagged(base: string, tag: string): string {
    if tag != "" then base + ": " + tag else base
  }

  /**
   * What Error() returns, or None where it never returns: InvalidSumError with a non-nil Err
   * calls its own Error() again (see InvalidSumErrorCall).
   */
  function Message(e: BankError): (m: Option<string>)
    ensures m.None? <==> e == InvalidSum(true)
  {
    match e
    case OperationError(op) => Some(Tagged("bad operation", op))
    case NotEnoughMoney => Some("balance has not enough money")
    case NoAccount(info) => Some(Tagged("account doesn't exist", info))
    case InvalidSum(wrapped) => if wrapped then None else Some("")
    case NegativeSum(op) => Some(Tagged("negative sum", op))
    case ZeroSum(op) => Some(Tagged("zero sum", op))
  }

  /**
   * InvalidSumError.Error() followed for at most `fuel` nested calls: None when it has not
   * returned within them.
   */
  function InvalidSumErrorCall(wrapped: bool, fuel: nat): Option<string>
    decreases fuel
  {
    if wrapped then (if fuel == 0 then None else InvalidSumErrorCall(wrapped, fuel - 1))
    else Some("")
  }

  /**
   * No amount of unfolding makes InvalidSumError.Error() return when Err is non-nil, and it
   * returns "" at once otherwise: this is what Message records for InvalidSum.
   */
  lemma {:induction false} InvalidSumErrorNeverReturns(wrapped: bool, fuel: nat)
    ensures InvalidSumErrorCall(wrapped, fuel) == Message(InvalidSum(wrapped))
    decreases fuel
  {
    if wrapped && fuel > 0 {
      InvalidSumErrorNeverReturns(wrapped, fuel - 1);
    }
  }

  /** The same error with its tag removed. */
  function Untagged(e: BankError): BankError {
    match e
    case OperationError(_) => OperationError("")
    case NoAccount(_) => NoAccount("")
    case NegativeSum(_) => NegativeSum("")
    case ZeroSum(_) => ZeroSum("")
    case _ => e
  }

  /** Tagging only appends: the untagged text is a prefix of every tagged one. */
  lemma UntaggedMessageIsPrefix(e: BankError)
    requires e != InvalidSum(true)
    ensures Message(Untagged(e)).Some? && Message(e).Some?
    ensures Message(Untagged(e)).value <= Message(e).value
  {
  }

  /** The texts Message gives the untagged errors, InvalidSum aside, one per kind. */
  const BaseTexts: seq<string> := [
    "bad operation", "balance has not enough money", "account doesn't exist",
    "negative sum", "zero sum"]

  function Kind(e: BankError): (k: nat)
    requires !e.InvalidSum?
    ensures k < |BaseTexts|
  {
    match e
    case OperationError(_) => 0
    case NotEnoughMoney => 1
    case NoAccount(_) => 2
    case NegativeSum(_) => 3
    case ZeroSum(_) => 4
  }

  function Tag(e: BankError): string {
    match e
    case OperationError(op) => op
    case NoAccount(info) => info
    case NegativeSum(op) => op
    case ZeroSum(op) => op
    case _ => ""
  }

  lemma MessageIsTaggedBase(e: BankError)
    requires !e.InvalidSum?
    ensures Message(e) == Some(Tagged(BaseTexts[Kind(e)], Tag(e)))
  {
  }

  lemma NoBaseIsPrefixOfAnother(i: nat, j: nat)
    requires i < |BaseTexts| && j < |BaseTexts| && i != j
    ensures !(BaseTexts[i] <= BaseTexts[j])
  {
    var d := if i <= 1 && j <= 1 then 2 else 0;
    assert BaseTexts[i][d] != BaseTexts[j][d];
  }

  lemma TaggedDeterminesTag(base: string, t: string, u: string)
    requires Tagged(base, t) == Tagged(base, u)
    ensures t == u
  {
    var n := |base + ": "|;
    if t != "" && u != "" {
      assert t == Tagged(base, t)[n..];
      assert u == Tagged(base, u)[n..];
    }
  }

  /** Distinct errors (of those whose Error() returns) have distinct messages. */
  lemma MessageIdentifiesError(a: BankError, b: BankError)
    requires Message(a).Some? && Message(a) == Message(b)
    ensures a == b
  {
    var m := Message(a).value;
    if a.InvalidSum? || b.InvalidSum? {
      var e := if a.InvalidSum? then b else a;
      if !e.InvalidSum? {
        MessageIsTaggedBase(e);
        assert false;
      }
    } else {
      MessageIsTaggedBase(a);
      MessageIsTaggedBase(b);
      var i, j := Kind(a), Kind(b);
      assert BaseTexts[i] <= m && BaseTexts[j] <= m;
      if i != j {
        if |BaseTexts[i]| <= |BaseTexts[j]| {
          assert BaseTexts[i] <= BaseTexts[j];
          NoBaseIsPrefixOfAnother(i, j);
        } else {
          assert BaseTexts[j] <= BaseTexts[i];
          NoBaseIsPrefixOfAnother(j, i);
        }
        assert false;
      }
      TaggedDeterminesTag(BaseTexts[i], Tag(a), Tag(b));
    }
  }
}
