/** The routing decision of the health-check worker (internal/workers/health_check.go).
    The two probes that run concurrently in Go are given here as their outcomes. */
module HealthCheck {
  import opened Wrappers
  import opened Dtos
  import opened Selector

  const MinInt64: int := -0x8000_0000_0000_0000
  const TwoTo64: int := 0x1_0000_0000_0000_0000

  predicate IsInt64(x: int) {
    MinInt64 <= x < MinInt64 + TwoTo64
  }

  /** Go's 64-bit int arithmetic: the mathematical result wrapped into range. */
  function Wrap64(x: int): (r: int)
    ensures IsInt64(r)
    ensures IsInt64(x) ==> r == x
    ensures (x - r) % TwoTo64 == 0
  {
    (x - MinInt64) % TwoTo64 + MinInt64
  }

  /** How one health probe ended. */
  datatype ProbeOutcome =
    | RequestBuildFailed                                    // http.NewRequestWithContext failed
    | TransportFailed                                       // httpClient.Do failed or timed out
    | Panicked                                              // recovered panic
    | Responded(status: int, body: Option<HealthCheckResponse>)  // body None: undecodable

  /** check: a reading only from a 200 answer whose body decodes; nil otherwise. */
  function Check(outcome: ProbeOutcome): (r: Option<HealthCheckResponse>)
    ensures r.Some? <==> outcome.Responded? && outcome.status == 200 && outcome.body.Some?
    ensures r.Some? ==> r == outcome.body
  {
    match outcome
    case Responded(status, body) => if status == 200 then body else None
    case _ => None
  }

  /** A reading that exists and does not report failure. */
  predicate Healthy(r: Option<HealthCheckResponse>) {
    r.Some? && !r.value.failing
  }

  /** The branches of chooseService. The fallback is chosen exactly when it is
      healthy and either the default is not, or the default's minimum response
      time exceeds the fallback's times the bias (a Go int product). */
  function ChooseApi(defaultRes: Option<HealthCheckResponse>, fallbackRes: Option<HealthCheckResponse>, bias: int): (api: PaymentAPI)
    ensures api == FallbackApi <==>
      Healthy(fallbackRes) &&
      (!Healthy(defaultRes) ||
       defaultRes.value.minResponseTime > Wrap64(fallbackRes.value.minResponseTime * bias))
  {
    if defaultRes.None? || defaultRes.value.failing then
      if fallbackRes.Some? && !fallbackRes.value.failing then FallbackApi else DefaultApi
    else if fallbackRes.Some? && !fallbackRes.value.failing then
      if defaultRes.value.minResponseTime > Wrap64(fallbackRes.value.minResponseTime * bias) then FallbackApi
      else DefaultApi
    else DefaultApi
  }

  /** Fail open: with neither service healthy the default stays chosen. */
  lemma FailOpen(defaultRes: Option<HealthCheckResponse>, fallbackRes: Option<HealthCheckResponse>, bias: int)
    requires !Healthy(defaultRes) && !Healthy(fallbackRes)
    ensures ChooseApi(defaultRes, fallbackRes, bias) == DefaultApi
  {
  }

  /** A healthy default is kept whatever the latencies when the fallback is unhealthy. */
  lemma DefaultKeptWithoutFallback(defaultRes: Option<HealthCheckResponse>, fallbackRes: Option<HealthCheckResponse>, bias: int)
    requires Healthy(defaultRes) && !Healthy(fallbackRes)
    ensures ChooseApi(defaultRes, fallbackRes, bias) == DefaultApi
  {
  }

  /** With both healthy and no overflow in the product, the fallback is chosen
      exactly when the default is slower than bias times the fallback; equality keeps the default. */
  lemma BiasComparison(d: HealthCheckResponse, f: HealthCheckResponse, bias: int)
    requires !d.failing && !f.failing && IsInt64(f.minResponseTime * bias)
    ensures ChooseApi(Some(d), Some(f), bias) == FallbackApi <==> d.minResponseTime > f.minResponseTime * bias
  {
  }

  /** 300 ms against 50 ms with bias 3 switches; 100 and 150 against 50 keep the default. */
  lemma BiasExamples()
    ensures ChooseApi(Some(HealthCheckResponse(false, 300)), Some(HealthCheckResponse(false, 50)), 3) == FallbackApi
    ensures ChooseApi(Some(HealthCheckResponse(false, 100)), Some(HealthCheckResponse(false, 50)), 3) == DefaultApi
    ensures ChooseApi(Some(HealthCheckResponse(false, 150)), Some(HealthCheckResponse(false, 50)), 3) == DefaultApi
  {
  }

  /** A product beyond 64 bits wraps around: a fallback reporting 2^62 ms with
      bias 2 compares as a negative latency, so any default is "slower". */
  lemma ProductWraps()
    ensures ChooseApi(Some(HealthCheckResponse(false, 100)), Some(HealthCheckResponse(false, 0x4000_0000_0000_0000)), 2) == FallbackApi
  {
    assert Wrap64(0x4000_0000_0000_0000 * 2) == MinInt64;
  }

  class HealthCheckWorker {
    const bias: int
    const selector: ServiceSelector

    /** NewHealthCheckWorker. */
    constructor (selector: ServiceSelector, bias: int)
      ensures this.selector == selector && this.bias == bias
    {
      this.selector := selector;
      this.bias := bias;
    }

    /** chooseService: probes both processors, decides, and stores the decision in
        the selector whatever it held before; it always returns nil. */
    method ChooseService(defaultProbe: ProbeOutcome, fallbackProbe: ProbeOutcome) returns (err: Option<string>)
      modifies selector
      ensures selector.active == Some(ChooseApi(Check(defaultProbe), Check(fallbackProbe), bias))
      ensures err == None
    {
      var defaultRes := Check(defaultProbe);
      var fallbackRes := Check(fallbackProbe);
      var chosen := ChooseApi(defaultRes, fallbackRes, bias);
      selector.SetActive(chosen);
      err := None;
    }
  }
}
