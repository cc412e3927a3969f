/** The endpoint fallbacks of src/lib/tx/btc/UtxoContext.ts: the recommended fee rate and the
    transaction broadcast both ask every endpoint, wait for all of them to settle, and take the
    first fulfilled result in endpoint order. The HTTP exchanges are inputs, one per endpoint. */
module UtxoContext {
  import opened Wrappers
  import opened JsString

  const BaseEndpoints: seq<string> := ["https://mempool.space/api", "https://blockstream.info/api"]

  /** The fee rate used when no endpoint answers. */
  const DefaultFeeRate: int := 10

  /** The block target read from the fee-estimates map. */
  const EstimateTarget: string := "6"

  /** A settled promise; `reason` is the thrown error's message, `None` when it has none. */
  datatype Settled<+T> = Fulfilled(value: T) | Rejected(reason: Option<string>)

  /** What one `fetch` produced: a failed request (its error's message, if any), or a response
      with its `ok` flag and its body. */
  datatype Exchange<+B> = RequestFailed(reason: Option<string>) | Received(ok: bool, body: B)

  /** `responses.find(r => r.status === 'fulfilled')`. */
  function FirstFulfilled<T>(results: seq<Settled<T>>): (r: Option<T>)
    ensures r.None? <==> forall k :: 0 <= k < |results| ==> results[k].Rejected?
    ensures r.Some? ==> exists k :: (0 <= k < |results| && results[k] == Fulfilled(r.value)
      && forall j :: 0 <= j < k ==> results[j].Rejected?)
  {
    if results == [] then None
    else if results[0].Fulfilled? then Some(results[0].value)
    else
      var r := FirstFulfilled(results[1..]);
      assert r.Some? ==> exists k :: (0 <= k < |results| - 1 && results[1..][k] == Fulfilled(r.value)
        && forall j :: 0 <= j < k ==> results[1..][j].Rejected?);
      r
  }

  /** The first fulfilled value does not depend on what follows it. */
  lemma {:induction false} FirstFulfilledIgnoresLater<T>(results: seq<Settled<T>>, later: seq<Settled<T>>, k: nat)
    requires k < |results| && results[k].Fulfilled?
    requires forall j :: 0 <= j < k ==> results[j].Rejected?
    ensures FirstFulfilled(results + later) == Some(results[k].value)
  {
    if k > 0 {
      assert (results + later)[1..] == results[1..] + later;
      FirstFulfilledIgnoresLater(results[1..], later, k - 1);
    }
  }

  // ---------------------------------------------------------------------------
  // Recommended fee rate
  // ---------------------------------------------------------------------------

  function MempoolFeeUrl(): string { BaseEndpoints[0] + "/v1/fees/recommended" }

  function EstimatesFeeUrl(): string { BaseEndpoints[1] + "/fee-estimates" }

  function FeeFetchFailed(url: string): string { "Failed to fetch fee from " + url }

  /** A JSON number field as `BigInt` sees it: absent, an integer, or a number with a
      fractional part. */
  datatype NumberField = Absent | Integral(n: int) | Fractional

  /** The `/v1/fees/recommended` JSON. */
  datatype MempoolFees = MempoolFees(fastestFee: NumberField)

  /** The first extractor: `BigInt(data.fastestFee)`, which throws a TypeError when the field
      is absent and a RangeError when it is not an integer. */
  function MempoolFee(data: MempoolFees): (r: Settled<int>)
    ensures r.Fulfilled? <==> data.fastestFee.Integral?
    ensures r.Fulfilled? ==> r.value == data.fastestFee.n
  {
    match data.fastestFee
    case Integral(v) => Fulfilled(v)
    case Absent => Rejected(None)
    case Fractional => Rejected(None)
  }

  /** The value stored under `key` in an object given as its entries in property order. */
  function Lookup(entries: seq<(string, int)>, key: string): (r: Option<int>)
    ensures r.Some? <==> exists i :: 0 <= i < |entries| && entries[i].0 == key
    ensures r.Some? ==> exists i :: 0 <= i < |entries| && entries[i] == (key, r.value)
  {
    if entries == [] then None
    else if entries[0].0 == key then Some(entries[0].1)
    else
      var r := Lookup(entries[1..], key);
      assert forall i :: 1 <= i < |entries| ==> entries[i] == entries[1..][i - 1];
      r
  }

  /** The second extractor on a `/fee-estimates` object (integer rates only): the rate for
      target "6" when it is present and non-zero; otherwise the first rate in property order
      when it is non-zero; otherwise 10. */
  function EstimatesFee(entries: seq<(string, int)>): (r: int)
    ensures r != 0
    ensures Lookup(entries, EstimateTarget).Some? && Lookup(entries, EstimateTarget).value != 0
      ==> r == Lookup(entries, EstimateTarget).value
    ensures (Lookup(entries, EstimateTarget).None? || Lookup(entries, EstimateTarget).value == 0)
      ==> r == if entries != [] && entries[0].1 != 0 then entries[0].1 else DefaultFeeRate
  {
    var fee := Lookup(entries, EstimateTarget);
    if fee.Some? && fee.value != 0 then fee.value
    else if entries != [] && entries[0].1 != 0 then entries[0].1
    else DefaultFeeRate
  }

  /** One fee endpoint settled: a failed request or a non-OK status rejects; otherwise the
      body (`None` when it is not JSON) goes through the endpoint's extractor. */
  function SettleFee<B>(url: string, exchange: Exchange<Option<B>>, extract: B -> Settled<int>): (s: Settled<int>)
    ensures exchange.RequestFailed? ==> s == Rejected(exchange.reason)
    ensures exchange.Received? && !exchange.ok ==> s == Rejected(Some(FeeFetchFailed(url)))
    ensures exchange.Received? && exchange.ok && exchange.body.Some? ==> s == extract(exchange.body.value)
  {
    match exchange
    case RequestFailed(reason) => Rejected(reason)
    case Received(ok, body) =>
      if !ok then Rejected(Some(FeeFetchFailed(url)))
      else if body.None? then Rejected(None)
      else extract(body.value)
  }

  function FeeResults(mempool: Exchange<Option<MempoolFees>>, estimates: Exchange<Option<seq<(string, int)>>>): seq<Settled<int>> {
    [SettleFee(MempoolFeeUrl(), mempool, MempoolFee),
     SettleFee(EstimatesFeeUrl(), estimates, (e: seq<(string, int)>) => Fulfilled(EstimatesFee(e)))]
  }

  /** `fetchRecommendedFeeRate`: the first fulfilled endpoint in list order, else 10. */
  function FetchRecommendedFeeRate(mempool: Exchange<Option<MempoolFees>>, estimates: Exchange<Option<seq<(string, int)>>>): (rate: int)
    ensures var results := FeeResults(mempool, estimates);
      && (results[0].Fulfilled? ==> rate == results[0].value)
      && (results[0].Rejected? && results[1].Fulfilled? ==> rate == results[1].value)
      && (results[0].Rejected? && results[1].Rejected? ==> rate == DefaultFeeRate)
  {
    FirstFulfilled(FeeResults(mempool, estimates)).GetOr(DefaultFeeRate)
  }

  /** The fee rate is never zero: each extractor that can fulfil with zero is the mempool's,
      and the fallbacks are all non-zero; so a zero rate can only come from the mempool
      endpoint reporting `fastestFee: 0`. */
  lemma FeeRateZeroOnlyFromMempool(mempool: Exchange<Option<MempoolFees>>, estimates: Exchange<Option<seq<(string, int)>>>)
    requires FetchRecommendedFeeRate(mempool, estimates) == 0
    ensures mempool == Received(true, Some(MempoolFees(Integral(0))))
  {
  }

  /** A mempool reply whose `fastestFee` is not an integer makes `BigInt` throw, so the rate
      comes from the estimates endpoint, or is 10 when that one fails too. */
  lemma FractionalFastestFeeFallsThrough(estimates: Exchange<Option<seq<(string, int)>>>)
    ensures var rate := FetchRecommendedFeeRate(Received(true, Some(MempoolFees(Fractional))), estimates);
      && (estimates.Received? && estimates.ok && estimates.body.Some? ==> rate == EstimatesFee(estimates.body.value))
      && (!(estimates.Received? && estimates.ok && estimates.body.Some?) ==> rate == DefaultFeeRate)
  {
  }

  // ---------------------------------------------------------------------------
  // Broadcast
  // ---------------------------------------------------------------------------

  /** The broadcast endpoints: each base endpoint with `/tx` appended, in the same order. */
  function BroadcastEndpoints(): (r: seq<string>)
    ensures |r| == |BaseEndpoints|
    ensures forall i :: 0 <= i < |r| ==> r[i] == BaseEndpoints[i] + "/tx"
  {
    seq(|BaseEndpoints|, i requires 0 <= i < |BaseEndpoints| => BaseEndpoints[i] + "/tx")
  }

  function BroadcastRejected(errorText: string): string { "Failed to broadcast: " + errorText }

  function BroadcastFailedEverywhere(errors: string): string {
    "Failed to broadcast to all endpoints: " + errors
  }

  /** One broadcast endpoint settled: the body is the response text. */
  function SettleBroadcast(exchange: Exchange<string>): (s: Settled<string>)
    ensures s.Fulfilled? <==> exchange.Received? && exchange.ok
    ensures s.Fulfilled? ==> s.value == exchange.body
    ensures exchange.Received? && !exchange.ok ==> s == Rejected(Some(BroadcastRejected(exchange.body)))
    ensures exchange.RequestFailed? ==> s == Rejected(exchange.reason)
  {
    match exchange
    case RequestFailed(reason) => Rejected(reason)
    case Received(ok, text) => if ok then Fulfilled(text) else Rejected(Some(BroadcastRejected(text)))
  }

  /** `r.reason?.message || 'Unknown error'`. */
  function ReasonMessage(reason: Option<string>): (m: string)
    ensures m != ""
    ensures reason.Some? && reason.value != "" ==> m == reason.value
  {
    if reason.Some? && reason.value != "" then reason.value else "Unknown error"
  }

  /** The messages of the rejected results, in order. */
  function RejectionMessages<T>(results: seq<Settled<T>>): (ms: seq<string>)
    ensures |ms| <= |results|
    ensures (forall k :: 0 <= k < |results| ==> results[k].Rejected?) ==>
      |ms| == |results| && forall k :: 0 <= k < |results| ==> ms[k] == ReasonMessage(results[k].reason)
  {
    if results == [] then []
    else
      var rest := RejectionMessages(results[1..]);
      if results[0].Rejected? then [ReasonMessage(results[0].reason)] + rest else rest
  }

  function SettleAll(exchanges: seq<Exchange<string>>): (r: seq<Settled<string>>)
    ensures |r| == |exchanges| && forall i :: 0 <= i < |exchanges| ==> r[i] == SettleBroadcast(exchanges[i])
  {
    seq(|exchanges|, i requires 0 <= i < |exchanges| => SettleBroadcast(exchanges[i]))
  }

  /** `broadcastTransaction`, given the exchange with each endpoint in endpoint order. */
  function BroadcastTransaction(exchanges: seq<Exchange<string>>): (r: Result<string>)
    ensures r.Ok? <==> exists i :: 0 <= i < |exchanges| && exchanges[i].Received? && exchanges[i].ok
    ensures r.Ok? ==> exists i :: (0 <= i < |exchanges| && exchanges[i] == Received(true, r.value)
      && forall j :: 0 <= j < i ==> !(exchanges[j].Received? && exchanges[j].ok))
    ensures r.Err? ==> r.error == BroadcastFailedEverywhere(Join(RejectionMessages(SettleAll(exchanges)), ", "))
  {
    var results := SettleAll(exchanges);
    match FirstFulfilled(results)
    case Some(text) => Ok(text)
    case None => Err(BroadcastFailedEverywhere(Join(RejectionMessages(results), ", ")))
  }

  /** When every endpoint fails, the error names each endpoint's failure: the message of a
      failed request, or the rejected response's text. */
  lemma BroadcastErrorNamesEachEndpoint(exchanges: seq<Exchange<string>>, i: nat)
    requires BroadcastTransaction(exchanges).Err?
    requires i < |exchanges|
    ensures var e := exchanges[i];
      IsInfix(if e.Received? then BroadcastRejected(e.body) else ReasonMessage(e.reason),
        BroadcastTransaction(exchanges).error)
  {
    var results := SettleAll(exchanges);
    var ms := RejectionMessages(results);
    var joined := Join(ms, ", ");
    var whole := BroadcastTransaction(exchanges).error;
    var prefix := "Failed to broadcast to all endpoints: ";
    assert whole == prefix + joined;
    JoinContainsEachPart(ms, ", ", i);
    var k :| 0 <= k <= |joined| && ms[i] <= joined[k..];
    assert whole[|prefix| + k..] == joined[k..];
    var e := exchanges[i];
    if e.Received? {
      assert ms[i] == BroadcastRejected(e.body);
    }
  }
}
