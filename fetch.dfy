/** HTTP fetching with exponential-backoff retries, and URL helpers (utils/fetch.ts). */
module Fetch {
  import opened Wrappers

  /** What `new URL(...)` yields when it succeeds: the one field the program reads. */
  datatype Url = Url(hostname: string)

  /** One GET request: either axios throws, or a response arrives with a status and body. */
  datatype Attempt = Throw | Response(status: int, body: string)

  /** `HttpResponseData`: the body is `null` exactly when no response ever arrived. */
  datatype HttpResponseData = HttpResponseData(valid: bool, body: Option<string>)

  /** Number of retries `checkHttpResponse` allows when its caller gives none. */
  const DefaultRetryCount: int := 5

  /** Milliseconds per second of backoff. */
  const BackoffUnitMs: nat := 1000

  /** A valid result always carries the response body. */
  predicate WellFormed(r: HttpResponseData) {
    r.valid ==> r.body.Some?
  }

  /** The outcome of the k-th GET (0-based); requests past the end of `network` throw. */
  function AttemptAt(network: seq<Attempt>, k: nat): Attempt {
    if k < |network| then network[k] else Throw
  }

  function Pow2(n: nat): nat {
    if n == 0 then 1 else 2 * Pow2(n - 1)
  }

  /** `Math.pow(2, currentRetry) * 1000`: the wait before retry number `k` (0-based). */
  function BackoffDelay(k: nat): nat {
    Pow2(k) * BackoffUnitMs
  }

  /** Retries are made while the shared counter is below `retryCount`, so a negative count allows none. */
  function RetryLimit(retryCount: int): nat {
    if retryCount < 0 then 0 else retryCount
  }

  function Sum(s: seq<nat>): nat {
    if s == [] then 0 else Sum(s[..|s| - 1]) + s[|s| - 1]
  }

  /** The waits of the first n retries add up to (2^n - 1) seconds. */
  lemma {:induction false} SumOfBackoffs(delays: seq<nat>)
    requires forall k :: 0 <= k < |delays| ==> delays[k] == BackoffDelay(k)
    ensures Sum(delays) == (Pow2(|delays|) - 1) * BackoffUnitMs
  {
    if delays != [] {
      var n := |delays| - 1;
      SumOfBackoffs(delays[..n]);
      assert delays[n] == Pow2(n) * BackoffUnitMs;
    }
  }

  /**
   * `checkHttpResponse(url, retryCount)` against a network that answers the k-th GET with
   * `AttemptAt(network, k)`. Each loop iteration is one call of the inner
   * `retryWithExponentialBackoff`; `currentRetry` is the counter those calls share.
   * Besides the result it reports how many GETs were made and the backoff waits, in order.
   */
  method CheckHttpResponse(network: seq<Attempt>, retryCount: int := DefaultRetryCount)
    returns (result: HttpResponseData, attempts: nat, delays: seq<nat>)
    ensures 1 <= attempts <= RetryLimit(retryCount) + 1
    // every GET but the last threw: the first response ends the loop
    ensures forall k :: 0 <= k < attempts - 1 ==> AttemptAt(network, k).Throw?
    // a response, whatever its status, is final and decides validity by `status < 400`
    ensures AttemptAt(network, attempts - 1).Response? ==>
      result == HttpResponseData(AttemptAt(network, attempts - 1).status < 400,
                                 Some(AttemptAt(network, attempts - 1).body))
    // a throw is final only once the retries are used up
    ensures AttemptAt(network, attempts - 1).Throw? ==>
      attempts == RetryLimit(retryCount) + 1 && result == HttpResponseData(false, None)
    // retry k waits 2^k seconds
    ensures |delays| == attempts - 1
    ensures forall k :: 0 <= k < |delays| ==> delays[k] == BackoffDelay(k)
    ensures Sum(delays) == (Pow2(attempts - 1) - 1) * BackoffUnitMs
    ensures AttemptAt(network, attempts - 1).Throw? ==>
      Sum(delays) == (Pow2(RetryLimit(retryCount)) - 1) * BackoffUnitMs
    ensures WellFormed(result)
    ensures result.body.None? <==> AttemptAt(network, attempts - 1).Throw?
  {
    var currentRetry: nat := 0;
    delays := [];
    var outcome := AttemptAt(network, 0);
    attempts := 1;
    while outcome.Throw? && currentRetry < retryCount
      invariant currentRetry <= RetryLimit(retryCount)
      invariant attempts == currentRetry + 1
      invariant outcome == AttemptAt(network, attempts - 1)
      invariant forall k :: 0 <= k < attempts - 1 ==> AttemptAt(network, k).Throw?
      invariant |delays| == currentRetry
      invariant forall k :: 0 <= k < |delays| ==> delays[k] == BackoffDelay(k)
      decreases retryCount - currentRetry
    {
      delays := delays + [BackoffDelay(currentRetry)];
      currentRetry := currentRetry + 1;
      outcome := AttemptAt(network, attempts);
      attempts := attempts + 1;
    }
    SumOfBackoffs(delays);
    match outcome
    case Response(status, body) =>
      result := HttpResponseData(status < 400, Some(body));
    case Throw =>
      result := HttpResponseData(false, None);
  }

  /**
   * `isValidURL`: true exactly when `new URL(url)` does not throw. Nothing about the
   * parsed URL is examined, so a URL with any scheme (say "ftp://host") is valid.
   */
  function IsValidUrl(parse: string -> Option<Url>, url: string): (valid: bool)
    ensures valid <==> parse(url).Some?
  {
    match parse(url)
    case Some(_) => true
    case None => false
  }

  /** `hostname.replace(/^www\./, '')`: removes one leading "www." if there is one. */
  function StripWww(hostname: string): (domain: string)
    ensures "www." <= hostname ==> domain == hostname[4..]
    ensures !("www." <= hostname) ==> domain == hostname
  {
    if |hostname| >= 4 && hostname[..4] == "www." then hostname[4..] else hostname
  }

  /** `getDomainName`: the hostname without a leading "www.", or "" when the URL does not parse. */
  function GetDomainName(parse: string -> Option<Url>, urlString: string): (domain: string)
    ensures parse(urlString).None? ==> domain == ""
    ensures parse(urlString).Some? ==> domain == StripWww(parse(urlString).value.hostname)
  {
    match parse(urlString)
    case None => ""
    case Some(u) => StripWww(u.hostname)
  }

  /** The domain is always a suffix of the hostname, and putting back what was removed gives the hostname. */
  lemma StripWwwIsSuffix(hostname: string)
    ensures var d := StripWww(hostname);
      |d| <= |hostname| && d == hostname[|hostname| - |d|..] &&
      (if "www." <= hostname then "www." + d == hostname else d == hostname)
  {
  }

  /** Only one prefix goes: "www.www.a" becomes "www.a". */
  lemma StripWwwOnce()
    ensures StripWww("www.www.a") == "www.a"
    ensures StripWww(StripWww("www.www.a")) == "a"
  {
  }

  /** Six throwing GETs with the default count: five retries (1, 2, 4, 8, 16 s), then `{valid: false, body: null}`. */
  method ExhaustedRetriesScenario() returns (result: HttpResponseData, attempts: nat, delays: seq<nat>)
    ensures attempts == 6 && result == HttpResponseData(false, None)
    ensures delays == [1000, 2000, 4000, 8000, 16000]
  {
    result, attempts, delays := CheckHttpResponse([Throw, Throw, Throw, Throw, Throw, Throw]);
    assert AttemptAt([Throw, Throw, Throw, Throw, Throw, Throw], attempts - 1).Throw?;
    assert Pow2(4) == 16;
  }

  /** Two throws and then a 200: three GETs, no further retries, and the body is passed on. */
  method ThirdAttemptSucceedsScenario() returns (result: HttpResponseData, attempts: nat, delays: seq<nat>)
    ensures attempts == 3 && result == HttpResponseData(true, Some("<html></html>"))
    ensures delays == [1000, 2000]
  {
    var network := [Throw, Throw, Response(200, "<html></html>")];
    result, attempts, delays := CheckHttpResponse(network);
    assert AttemptAt(network, 2).Response?;
    assert Pow2(1) == 2;
  }
}
