/**
 * The currency converter: converts a rouble amount into another currency with a cache of rates
 * filled from a rates API on a miss. The network request is an oracle: a script of replies.
 */
module CurrConv {
  import opened Wrappers
  import opened Storage
  import Strings

  /** The base currency: balances are held in roubles. */
  const RUB: string := "RUB"

  /** A float64 exchange rate; the model only stores, compares and passes rates on. */
  type Rate = real

  /**
   * What one rates request yields: the (code, rate) pairs of the reply, in the order the store
   * loop visits them, or None when the request failed (network, status, decoding, success flag).
   */
  type Reply = Option<seq<(string, Rate)>>

  datatype ConvError = EmptyToken | UpdateFailed | NoSuchPair

  /** The converter's state: the rate cache, the replies still to come, the URLs requested so far. */
  datatype Cache = Cache(rates: map<string, Rate>, replies: seq<Reply>, requests: seq<string>)

  function BaseURL(token: string): string {
    "http://api.exchangeratesapi.io/v1/latest?access_key=" + token
  }

  function RatesURL(token: string, from: string, to: string): string {
    BaseURL(token) + "&format=1" + "&base=" + from + "&symbols=" + to
  }

  /**
   * The rates URL extends the base URL with the query parameters; a target code without '='
   * is exactly the value of the last parameter.
   */
  lemma RatesUrlShape(token: string, from: string, to: string)
    ensures BaseURL(token) <= RatesURL(token, from, to)
    ensures RatesURL(token, from, to)[|BaseURL(token)|..] == "&format=1&base=" + from + "&symbols=" + to
    ensures (forall j :: 0 <= j < |to| ==> to[j] != '=') ==>
      Strings.SplitLast(RatesURL(token, from, to), '=').Some? &&
      Strings.SplitLast(RatesURL(token, from, to), '=').value.1 == to
  {
    var head := BaseURL(token) + "&format=1" + "&base=" + from + "&symbols";
    assert RatesURL(token, from, to) == head + ['='] + to;
    if forall j :: 0 <= j < |to| ==> to[j] != '=' {
      Strings.SplitLastJoin(head, '=', to);
    }
  }

  /** getRate(from, RUB): one request to the rates URL, answered by the next reply of the script. */
  function FetchStep(c: Cache, token: string, from: string): (r: (Reply, Cache))
    ensures r.1.requests == c.requests + [RatesURL(token, from, RUB)]
    ensures r.1.rates == c.rates
  {
    var reply := if c.replies == [] then None else c.replies[0];
    (reply, c.(replies := if c.replies == [] then [] else c.replies[1..],
               requests := c.requests + [RatesURL(token, from, RUB)]))
  }

  /** The cache after updateRate's store loop has visited `pairs`: each visit writes its rate under `from`. */
  function StoreRates(rates: map<string, Rate>, from: string, pairs: seq<(string, Rate)>): map<string, Rate>
    decreases |pairs|
  {
    if pairs == [] then rates
    else StoreRates(rates, from, pairs[..|pairs| - 1])[from := pairs[|pairs| - 1].1]
  }

  /** Every pair lands on the one key `from`, so the last rate visited wins and no other key changes. */
  lemma {:induction false} StoreRatesLastWins(rates: map<string, Rate>, from: string, pairs: seq<(string, Rate)>)
    ensures pairs == [] ==> StoreRates(rates, from, pairs) == rates
    ensures pairs != [] ==> StoreRates(rates, from, pairs) == rates[from := pairs[|pairs| - 1].1]
    decreases |pairs|
  {
    if |pairs| > 1 {
      StoreRatesLastWins(rates, from, pairs[..|pairs| - 1]);
      var inner := pairs[..|pairs| - 1];
      assert StoreRates(rates, from, inner) == rates[from := inner[|inner| - 1].1];
    }
  }

  /** updateRate(from): fetch, then store the reply's rates under `from` as given. */
  function UpdateRateSpec(c: Cache, token: string, from: string): (Outcome<ConvError>, Cache) {
    var (reply, c1) := FetchStep(c, token, from);
    match reply
    case None => (Fail(UpdateFailed), c1)
    case Some(pairs) => (Pass, c1.(rates := StoreRates(c1.rates, from, pairs)))
  }

  /**
   * FromRUB(sum, to): the amount unchanged for "" and "RUB"; otherwise converted with the rate
   * cached under the upper-cased code, fetching once on a miss. `quotient` stands for
   * `int64(float64(sum) / rate)`.
   */
  function FromRubSpec(c: Cache, token: string, quotient: (int64, Rate) -> int64, sum: int64, to: string)
    : (Result<int64, ConvError>, Cache)
  {
    if to == "" || to == RUB then (Success(sum), c)
    else
      var key := Strings.ToUpper(to);
      if key in c.rates then (Success(quotient(sum, c.rates[key])), c)
      else
        var (updated, c1) := UpdateRateSpec(c, token, to);
        if updated.Fail? then (Failure(updated.error), c1)
        else if key in c1.rates then (Success(quotient(sum, c1.rates[key])), c1)
        else (Failure(NoSuchPair), c1)
  }

  /** "" and "RUB", and only these exact strings, return the amount with no lookup and no request. */
  lemma BaseCurrencyShortCircuits(c: Cache, token: string, quotient: (int64, Rate) -> int64, sum: int64, to: string)
    requires to == "" || to == RUB
    ensures FromRubSpec(c, token, quotient, sum, to) == (Success(sum), c)
  {
  }

  /** A cache hit converts with the cached rate, makes no request and changes nothing. */
  lemma CacheHitFetchesNothing(c: Cache, token: string, quotient: (int64, Rate) -> int64, sum: int64, to: string)
    requires to != "" && to != RUB && Strings.ToUpper(to) in c.rates
    ensures FromRubSpec(c, token, quotient, sum, to) ==
      (Success(quotient(sum, c.rates[Strings.ToUpper(to)])), c)
  {
  }

  /**
   * A miss makes exactly one request, for base `to` as given. A failed request is reported and
   * leaves the cache alone. A reply's rates are stored under the raw code `to`, the last one
   * visited winning, while the lookup uses the upper-cased code: the conversion succeeds only
   * when the reply had a rate and `to` was already upper case.
   */
  lemma CacheMissKeyDiscipline(c: Cache, token: string, quotient: (int64, Rate) -> int64, sum: int64, to: string)
    requires to != "" && to != RUB && Strings.ToUpper(to) !in c.rates
    ensures var (r, c') := FromRubSpec(c, token, quotient, sum, to);
      && c'.requests == c.requests + [RatesURL(token, to, RUB)]
      && c'.replies == (if c.replies == [] then [] else c.replies[1..])
      && (c.replies == [] || c.replies[0].None? ==> r == Failure(UpdateFailed) && c'.rates == c.rates)
      && (c.replies != [] && c.replies[0].Some? ==>
            var pairs := c.replies[0].value;
            && c'.rates == (if pairs == [] then c.rates else c.rates[to := pairs[|pairs| - 1].1])
            && r == (if pairs != [] && Strings.ToUpper(to) == to
                     then Success(quotient(sum, pairs[|pairs| - 1].1)) else Failure(NoSuchPair)))
  {
    if c.replies != [] && c.replies[0].Some? {
      StoreRatesLastWins(c.rates, to, c.replies[0].value);
    }
  }

  /** A code with a lower-case letter that is not cached upper-cased never converts, whatever the reply. */
  lemma LowerCaseMissFails(c: Cache, token: string, quotient: (int64, Rate) -> int64, sum: int64, to: string)
    requires to != "" && to != RUB && Strings.ToUpper(to) !in c.rates && Strings.HasLower(to)
    ensures FromRubSpec(c, token, quotient, sum, to).0.Failure?
  {
    Strings.ToUpperFixesExactlyUpper(to);
    CacheMissKeyDiscipline(c, token, quotient, sum, to);
  }

  /** "RUB" is never stored as a key: the only key ever written is a `to` that was not short-circuited. */
  lemma RubNeverCached(c: Cache, token: string, quotient: (int64, Rate) -> int64, sum: int64, to: string)
    requires RUB !in c.rates
    ensures RUB !in FromRubSpec(c, token, quotient, sum, to).1.rates
  {
    if to != "" && to != RUB && Strings.ToUpper(to) !in c.rates && c.replies != [] && c.replies[0].Some? {
      StoreRatesLastWins(c.rates, to, c.replies[0].value);
    }
  }

  /** So "rub", "Rub" and the like are not short-circuited and always fail. */
  lemma RubInOtherCaseFails(c: Cache, token: string, quotient: (int64, Rate) -> int64, sum: int64, to: string)
    requires RUB !in c.rates && to != RUB && Strings.ToUpper(to) == RUB
    ensures FromRubSpec(c, token, quotient, sum, to).0.Failure?
  {
    assert to != "";
    CacheMissKeyDiscipline(c, token, quotient, sum, to);
  }

  /** Once a code has converted, converting it again is a cache hit: no second request. */
  lemma ConvertedCodeStaysCached(c: Cache, token: string, quotient: (int64, Rate) -> int64, sum: int64, sum2: int64, to: string)
    requires FromRubSpec(c, token, quotient, sum, to).0.Success?
    ensures var c1 := FromRubSpec(c, token, quotient, sum, to).1;
      FromRubSpec(c1, token, quotient, sum2, to).1 == c1
  {
    if to != "" && to != RUB && Strings.ToUpper(to) !in c.rates {
      CacheMissKeyDiscipline(c, token, quotient, sum, to);
    }
  }

  class Converter {
    const token: string
    /** `int64(float64(sum) / rate)`: float64 division and truncation, left uninterpreted. */
    const quotient: (int64, Rate) -> int64
    var rates: map<string, Rate>
    var replies: seq<Reply>
    ghost var requests: seq<string>

    ghost function State(): Cache
      reads this
    {
      Cache(rates, replies, requests)
    }

    /** The cache never holds the base currency's own code. */
    ghost predicate Valid()
      reads this
    {
      RUB !in rates
    }

    constructor (token: string, replies: seq<Reply>, quotient: (int64, Rate) -> int64)
      requires token != ""
      ensures this.token == token && this.quotient == quotient
      ensures State() == Cache(map[], replies, []) && Valid()
    {
      this.token := token;
      this.quotient := quotient;
      rates := map[];
      this.replies := replies;
      requests := [];
    }

    /** New: refuses an empty API token; otherwise an empty cache. */
    static method New(token: string, replies: seq<Reply>, quotient: (int64, Rate) -> int64)
      returns (r: Result<Converter, ConvError>)
      ensures r.Failure? <==> token == ""
      ensures r.Failure? ==> r.error == EmptyToken
      ensures r.Success? ==> fresh(r.value) && r.value.Valid() && r.value.token == token
      ensures r.Success? ==> r.value.quotient == quotient && r.value.State() == Cache(map[], replies, [])
    {
      if token == "" {
        return Failure(EmptyToken);
      }
      var c := new Converter(token, replies, quotient);
      r := Success(c);
    }

    /** getRate(from, RUB), standing in for the HTTP request and the decoding of its reply. */
    method GetRate(from: string) returns (reply: Reply)
      modifies this
      ensures (reply, State()) == FetchStep(old(State()), token, from)
    {
      requests := requests + [RatesURL(token, from, RUB)];
      if replies == [] {
        return None;
      }
      reply := replies[0];
      replies := replies[1..];
    }

    method UpdateRate(from: string) returns (r: Outcome<ConvError>)
      modifies this
      ensures (r, State()) == UpdateRateSpec(old(State()), token, from)
    {
      var reply := GetRate(from);
      if reply.None? {
        return Fail(UpdateFailed);
      }
      var pairs := reply.value;
      ghost var fetched := State();
      for i := 0 to |pairs|
        invariant rates == StoreRates(fetched.rates, from, pairs[..i])
        invariant replies == fetched.replies && requests == fetched.requests
      {
        assert pairs[..i + 1][..i] == pairs[..i];
        rates := rates[from := pairs[i].1];
      }
      assert pairs[..|pairs|] == pairs;
      r := Pass;
    }

    method FromRUB(sum: int64, to: string) returns (r: Result<int64, ConvError>)
      requires Valid()
      modifies this
      ensures Valid()
      ensures (r, State()) == FromRubSpec(old(State()), token, quotient, sum, to)
    {
      RubNeverCached(State(), token, quotient, sum, to);
      if to == "" || to == RUB {
        return Success(sum);
      }
      var key := Strings.ToUpper(to);
      if key in rates {
        return Success(quotient(sum, rates[key]));
      }
      var updated := UpdateRate(to);
      if updated.Fail? {
        return Failure(updated.error);
      }
      if key !in rates {
        return Failure(NoSuchPair);
      }
      r := Success(quotient(sum, rates[key]));
    }
  }
}
