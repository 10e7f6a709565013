/** The payment worker (internal/workers/worker.go): error classification, the
    retry loop against the default processor with one fallback call, and the
    control flow of processing one queued payment. Every downstream answer and
    every repository reply is an input; the worker's calls are returned as a trace. */
module Workers {
  import opened Wrappers
  import opened Dtos
  import opened TimeLayout
  import opened Digits

  /** NewWorkers' retry budget: up to MaxRetries + 1 calls to the default processor. */
  const MaxRetries: nat := 5

  /** What one POST to a processor came back with. */
  datatype Response =
    | Status(code: int, text: string)  // an HTTP answer with its status line
    | NoResponse                       // marshalling, request building or transport failed

  /** The errors callPaymentAPI returns: an HTTPError, or any other error. */
  datatype CallError = HTTPError(statusCode: int, status: string) | RequestError

  /** callPaymentAPI: nil only for status 200; any other status, 2xx included,
      is an HTTPError carrying it. */
  function CallPaymentAPI(resp: Response): (err: Option<CallError>)
    ensures err.None? <==> resp.Status? && resp.code == 200
    ensures resp.Status? && resp.code != 200 ==> err == Some(HTTPError(resp.code, resp.text))
    ensures resp.NoResponse? ==> err == Some(RequestError)
  {
    match resp
    case Status(code, text) => if code == 200 then None else Some(HTTPError(code, text))
    case NoResponse => Some(RequestError)
  }

  /** isRetryableError: an HTTP error is retried for 429 and for the server
      errors 500, 502, 503 and 504; an error without a status is always retried. */
  function IsRetryableError(err: CallError): (b: bool)
    ensures err.HTTPError? ==>
      (b <==> err.statusCode == 429 || (500 <= err.statusCode <= 504 && err.statusCode != 501))
    ensures err.RequestError? ==> b
  {
    match err
    case HTTPError(code, _) =>
      (match code
       case 500 => true  // Internal Server Error
       case 502 => true  // Bad Gateway
       case 503 => true  // Service Unavailable
       case 504 => true  // Gateway Timeout
       case 429 => true  // Too Many Requests
       case _ => false)
    case RequestError => true
  }

  // ---------------------------------------------------------------------------
  // The payload and the record

  /** The payload posted on every attempt. The timestamp is the dispatch time
      written in the millisecond layout the repository parses (see BuildPayloadAsWritten). */
  function BuildPayload(payment: PaymentRequest, now: DateTime): (payload: PaymentAPIRequest)
    requires Valid(now)
    ensures payload.correlationId == payment.correlationId && payload.amount == payment.amount
    ensures ParseMillis(payload.requestedAt) == Ok(now)
  {
    PaymentAPIRequest(payment.correlationId, payment.amount, FormatMillis(now))
  }

  /** The payload as worker.go:118-122 builds it: time.Now() in RFC 3339, which
      StoreProcessed cannot parse. */
  function BuildPayloadAsWritten(payment: PaymentRequest, now: DateTime): (payload: PaymentAPIRequest)
    requires Valid(now)
    ensures payload.correlationId == payment.correlationId && payload.amount == payment.amount
    ensures ParseMillis(payload.requestedAt).Err?
  {
    PaymentAPIRequest(payment.correlationId, payment.amount, FormatRFC3339(now))
  }

  /** A payload a processor accepted, and which processor accepted it. */
  datatype Accepted = Accepted(payload: PaymentAPIRequest, acceptedBy: PaymentAPI)

  /** The record stored for an accepted payload, credited to the processor that accepted it. */
  function ProcessedRecord(acc: Accepted): (p: ProcessedPayment)
    ensures p.api == acc.acceptedBy
    ensures p.correlationId == acc.payload.correlationId && p.amount == acc.payload.amount
    ensures p.processedAt == acc.payload.requestedAt
  {
    ProcessedPayment(acc.payload.correlationId, acc.acceptedBy, acc.payload.amount, acc.payload.requestedAt)
  }

  /** The record as worker.go:99-103 builds it: Api keeps its zero value, DEFAULT_API. */
  function ProcessedRecordAsWritten(payload: PaymentAPIRequest): (p: ProcessedPayment)
    ensures p.api == DefaultApi
    ensures p.correlationId == payload.correlationId && p.amount == payload.amount
    ensures p.processedAt == payload.requestedAt
  {
    ProcessedPayment(payload.correlationId, DefaultApi, payload.amount, payload.requestedAt)
  }

  // ---------------------------------------------------------------------------
  // Retry

  /** The error callPaymentAPIWithRetry returns. */
  datatype RetryError =
    | NonRetryable(cause: CallError)         // "Erro não recuperável"
    | AllFailed(lastErr: Option<CallError>)  // "Todas as tentativas falharam", wrapping lastErr (nil possible)

  datatype Call = Call(api: PaymentAPI, payload: PaymentAPIRequest)

  predicate Succeeded(resp: Response) {
    CallPaymentAPI(resp).None?
  }

  predicate FailedRetryably(resp: Response) {
    var err := CallPaymentAPI(resp);
    err.Some? && IsRetryableError(err.value)
  }

  predicate FailedPermanently(resp: Response) {
    var err := CallPaymentAPI(resp);
    err.Some? && !IsRetryableError(err.value)
  }

  /** Attempts 0 .. k-1 on the default processor all failed with a retryable error. */
  ghost predicate RetriedThrough(outcome: nat -> Response, k: nat) {
    forall j: nat :: j < k ==> FailedRetryably(outcome(j))
  }

  function DefaultCalls(payload: PaymentAPIRequest, n: nat): (calls: seq<Call>)
    ensures |calls| == n
    ensures forall i :: 0 <= i < n ==> calls[i] == Call(DefaultApi, payload)
  {
    if n == 0 then [] else DefaultCalls(payload, n - 1) + [Call(DefaultApi, payload)]
  }

  /** The error kept in lastErr when the last default attempt fails: that of the
      attempt before it, never classified; nil when there was only one attempt. */
  function LastErr(outcome: nat -> Response, maxRetries: nat): Option<CallError> {
    if maxRetries == 0 then None else CallPaymentAPI(outcome(maxRetries - 1))
  }

  /** What callPaymentAPIWithRetry promises, attempt by attempt (attempt k answered by outcome(k)):
      success on attempt k after retryable failures: k + 1 default calls and the payload;
      a non-retryable failure on an attempt before the last: stop there with that error;
      a failure of the last attempt (whatever its kind): exactly one fallback call,
      whose success returns the payload and whose failure wraps lastErr. */
  ghost predicate RetryContract(
    maxRetries: nat, payload: PaymentAPIRequest, outcome: nat -> Response, fallback: Response,
    res: Result<Accepted, RetryError>, calls: seq<Call>)
  {
    && (forall k: nat :: k <= maxRetries && RetriedThrough(outcome, k) && Succeeded(outcome(k)) ==>
          res == Ok(Accepted(payload, DefaultApi)) && calls == DefaultCalls(payload, k + 1))
    && (forall k: nat :: k < maxRetries && RetriedThrough(outcome, k) && FailedPermanently(outcome(k)) ==>
          res == Err(NonRetryable(CallPaymentAPI(outcome(k)).value)) && calls == DefaultCalls(payload, k + 1))
    && (RetriedThrough(outcome, maxRetries) && !Succeeded(outcome(maxRetries)) ==>
          && calls == DefaultCalls(payload, maxRetries + 1) + [Call(FallbackApi, payload)]
          && res == (if Succeeded(fallback) then Ok(Accepted(payload, FallbackApi))
                     else Err(AllFailed(LastErr(outcome, maxRetries)))))
  }

  /** callPaymentAPIWithRetry; outcome(k) answers default attempt k, fallback answers the fallback call. */
  method CallPaymentAPIWithRetry(
    maxRetries: nat, payment: PaymentRequest, now: DateTime, outcome: nat -> Response, fallback: Response)
    returns (res: Result<Accepted, RetryError>, calls: seq<Call>)
    requires Valid(now)
    ensures RetryContract(maxRetries, BuildPayload(payment, now), outcome, fallback, res, calls)
  {
    var payload := BuildPayload(payment, now);
    var lastErr: Option<CallError> := None;
    calls := [];
    var attempt: nat := 0;
    while attempt <= maxRetries
      invariant attempt <= maxRetries
      invariant RetriedThrough(outcome, attempt)
      invariant calls == DefaultCalls(payload, attempt)
      invariant lastErr == if attempt == 0 then None else CallPaymentAPI(outcome(attempt - 1))
    {
      var err := CallPaymentAPI(outcome(attempt));
      calls := calls + [Call(DefaultApi, payload)];
      if err.None? {
        res := Ok(Accepted(payload, DefaultApi));
        ContractOnSuccess(maxRetries, payload, outcome, fallback, attempt);
        return;
      }
      if attempt == maxRetries {
        break;
      }
      lastErr := err;
      if !IsRetryableError(err.value) {
        res := Err(NonRetryable(err.value));
        ContractOnPermanent(maxRetries, payload, outcome, fallback, attempt);
        return;
      }
      attempt := attempt + 1;
    }
    calls := calls + [Call(FallbackApi, payload)];
    var err := CallPaymentAPI(fallback);
    if err.None? {
      res := Ok(Accepted(payload, FallbackApi));
    } else {
      res := Err(AllFailed(lastErr));
    }
    ContractOnLast(maxRetries, payload, outcome, fallback);
  }

  /** At most one attempt ends the run of retryable failures. */
  lemma StopUnique(outcome: nat -> Response, k: nat, k': nat)
    requires RetriedThrough(outcome, k) && !FailedRetryably(outcome(k))
    requires RetriedThrough(outcome, k') && !FailedRetryably(outcome(k'))
    ensures k == k'
  {
  }

  /** Success on attempt k after retryable failures meets the contract. */
  lemma ContractOnSuccess(maxRetries: nat, payload: PaymentAPIRequest, outcome: nat -> Response, fallback: Response, k: nat)
    requires k <= maxRetries && RetriedThrough(outcome, k) && Succeeded(outcome(k))
    ensures RetryContract(maxRetries, payload, outcome, fallback, Ok(Accepted(payload, DefaultApi)), DefaultCalls(payload, k + 1))
  {
    forall k': nat | RetriedThrough(outcome, k') && !FailedRetryably(outcome(k')) ensures k' == k {
      StopUnique(outcome, k, k');
    }
  }

  /** A permanent failure on attempt k, before the last, meets the contract. */
  lemma ContractOnPermanent(maxRetries: nat, payload: PaymentAPIRequest, outcome: nat -> Response, fallback: Response, k: nat)
    requires k < maxRetries && RetriedThrough(outcome, k) && FailedPermanently(outcome(k))
    ensures RetryContract(maxRetries, payload, outcome, fallback,
                          Err(NonRetryable(CallPaymentAPI(outcome(k)).value)), DefaultCalls(payload, k + 1))
  {
    forall k': nat | RetriedThrough(outcome, k') && !FailedRetryably(outcome(k')) ensures k' == k {
      StopUnique(outcome, k, k');
    }
  }

  /** A failure of the last attempt, after retryable failures, meets the contract with one fallback call. */
  lemma ContractOnLast(maxRetries: nat, payload: PaymentAPIRequest, outcome: nat -> Response, fallback: Response)
    requires RetriedThrough(outcome, maxRetries) && !Succeeded(outcome(maxRetries))
    ensures RetryContract(maxRetries, payload, outcome, fallback,
                          if Succeeded(fallback) then Ok(Accepted(payload, FallbackApi))
                          else Err(AllFailed(LastErr(outcome, maxRetries))),
                          DefaultCalls(payload, maxRetries + 1) + [Call(FallbackApi, payload)])
  {
  }

  /** The attempt where the retry loop stops: every earlier attempt failed
      retryably, and this one succeeded, failed for good, or was the last. */
  lemma StopAttempt(maxRetries: nat, outcome: nat -> Response) returns (k: nat)
    ensures k <= maxRetries && RetriedThrough(outcome, k)
    ensures Succeeded(outcome(k)) || FailedPermanently(outcome(k)) || k == maxRetries
  {
    k := 0;
    while !(Succeeded(outcome(k)) || FailedPermanently(outcome(k)) || k == maxRetries)
      invariant k <= maxRetries && RetriedThrough(outcome, k)
      decreases maxRetries - k
    {
      k := k + 1;
    }
  }

  /** The contract fixes both the result and the calls made: one outcome per input. */
  lemma RetryContractDeterministic(
    maxRetries: nat, payload: PaymentAPIRequest, outcome: nat -> Response, fallback: Response,
    res1: Result<Accepted, RetryError>, calls1: seq<Call>,
    res2: Result<Accepted, RetryError>, calls2: seq<Call>)
    requires RetryContract(maxRetries, payload, outcome, fallback, res1, calls1)
    requires RetryContract(maxRetries, payload, outcome, fallback, res2, calls2)
    ensures res1 == res2 && calls1 == calls2
  {
    var k := StopAttempt(maxRetries, outcome);
  }

  /** At most maxRetries + 1 calls to the default processor (6 with NewWorkers),
      at most one to the fallback and only as the last call, and every call
      carries the same payload. */
  lemma RetryBounds(
    maxRetries: nat, payload: PaymentAPIRequest, outcome: nat -> Response, fallback: Response,
    res: Result<Accepted, RetryError>, calls: seq<Call>)
    requires RetryContract(maxRetries, payload, outcome, fallback, res, calls)
    ensures 1 <= |calls| <= maxRetries + 2
    ensures forall i :: 0 <= i < |calls| ==> calls[i].payload == payload
    ensures forall i :: 0 <= i < |calls| - 1 ==> calls[i].api == DefaultApi
    ensures calls[|calls| - 1].api == FallbackApi ==> |calls| == maxRetries + 2
    ensures |calls| == maxRetries + 2 ==> calls[|calls| - 1].api == FallbackApi
    ensures forall i :: 0 <= i < |calls| && calls[i].api == DefaultApi ==> i <= maxRetries
    ensures res.Ok? ==> res.value.payload == payload && res.value.acceptedBy == calls[|calls| - 1].api
  {
    var k := StopAttempt(maxRetries, outcome);
    if !Succeeded(outcome(k)) && k == maxRetries {
      assert calls == DefaultCalls(payload, maxRetries + 1) + [Call(FallbackApi, payload)];
    }
  }

  /** With NewWorkers' budget: at most six calls to the default processor and
      seven calls in all. */
  lemma NewWorkersCallBounds(
    payload: PaymentAPIRequest, outcome: nat -> Response, fallback: Response,
    res: Result<Accepted, RetryError>, calls: seq<Call>)
    requires RetryContract(MaxRetries, payload, outcome, fallback, res, calls)
    ensures 1 <= |calls| <= 7
    ensures forall i :: 0 <= i < |calls| && calls[i].api == DefaultApi ==> i < 6
  {
    RetryBounds(MaxRetries, payload, outcome, fallback, res, calls);
  }

  /** A processor failing with 500 four times and accepting on the fifth call:
      five calls, all to the default, and the payment goes through. */
  lemma FiveHundredFourTimes(payload: PaymentAPIRequest, fallback: Response, res: Result<Accepted, RetryError>, calls: seq<Call>)
    requires RetryContract(MaxRetries, payload, k => if k < 4 then Status(500, "500 Internal Server Error") else Status(200, "200 OK"), fallback, res, calls)
    ensures res == Ok(Accepted(payload, DefaultApi))
    ensures |calls| == 5 && calls == DefaultCalls(payload, 5)
  {
    var outcome: nat -> Response := k => if k < 4 then Status(500, "500 Internal Server Error") else Status(200, "200 OK");
    assert RetriedThrough(outcome, 4) by {
      forall j: nat | j < 4 ensures FailedRetryably(outcome(j)) { }
    }
    assert Succeeded(outcome(4));
  }

  /** A client error other than 429 on the first call: one call, no fallback, a permanent failure. */
  lemma ClientErrorStopsAtOnce(payload: PaymentAPIRequest, outcome: nat -> Response, fallback: Response, res: Result<Accepted, RetryError>, calls: seq<Call>)
    requires outcome(0) == Status(422, "422 Unprocessable Entity")
    requires RetryContract(MaxRetries, payload, outcome, fallback, res, calls)
    ensures res == Err(NonRetryable(HTTPError(422, "422 Unprocessable Entity")))
    ensures calls == [Call(DefaultApi, payload)]
  {
    assert RetriedThrough(outcome, 0);
    assert FailedPermanently(outcome(0));
  }

  // ---------------------------------------------------------------------------
  // Processing one payment

  /** What the worker did, in order. */
  datatype Event =
    | Dequeued
    | CheckedProcessed(correlationId: string)
    | Posted(call: Call)
    | Stored(record: ProcessedPayment)
    | RemovedFromProcessing(correlationId: string)

  /** The error processPayment returns, wrapping the failing step's error. */
  datatype WorkerError =
    | DequeueFailed(reason: string)
    | CheckFailed(reason: string)
    | PaymentFailed(cause: RetryError)
    | StoreFailed(reason: string)

  function Posts(calls: seq<Call>): (events: seq<Event>)
    ensures |events| == |calls|
    ensures forall i :: 0 <= i < |calls| ==> events[i] == Posted(calls[i])
  {
    if calls == [] then [] else Posts(calls[..|calls| - 1]) + [Posted(calls[|calls| - 1])]
  }

  /** processPayment. The repository's replies are inputs: dequeued for
      DequeueForProcessing, processed for IsProcessed, storeReply for StoreProcessed.
      Once a payment is dequeued, RemoveFromProcessing runs on every way out;
      a payment already processed is neither posted nor stored; the record
      stored copies the payload and names the processor that accepted it. */
  method ProcessPayment(
    maxRetries: nat,
    dequeued: Result<Option<PaymentRequest>, string>,
    processed: Result<bool, string>,
    now: DateTime, outcome: nat -> Response, fallback: Response,
    storeReply: Option<string>)
    returns (err: Option<WorkerError>, trace: seq<Event>,
             ghost apiResult: Result<Accepted, RetryError>, ghost calls: seq<Call>)
    requires Valid(now)
    ensures dequeued.Err? ==> err == Some(DequeueFailed(dequeued.error)) && trace == [Dequeued]
    ensures dequeued == Ok(None) ==> err == None && trace == [Dequeued]
    ensures dequeued.Ok? && dequeued.value.Some? && processed != Ok(false) ==>
      var id := dequeued.value.value.correlationId;
      && trace == [Dequeued] + [CheckedProcessed(id), RemovedFromProcessing(id)]
      && err == (if processed.Err? then Some(CheckFailed(processed.error)) else None)
    ensures dequeued.Ok? && dequeued.value.Some? && processed == Ok(false) ==>
      var p := dequeued.value.value;
      && RetryContract(maxRetries, BuildPayload(p, now), outcome, fallback, apiResult, calls)
      && trace == [Dequeued] + [CheckedProcessed(p.correlationId)] + Posts(calls)
                  + (if apiResult.Ok? then [Stored(ProcessedRecord(apiResult.value))] else [])
                  + [RemovedFromProcessing(p.correlationId)]
      && err == (if apiResult.Err? then Some(PaymentFailed(apiResult.error))
                 else if storeReply.Some? then Some(StoreFailed(storeReply.value))
                 else None)
  {
    apiResult, calls := Err(AllFailed(None)), [];
    trace := [Dequeued];
    if dequeued.Err? {
      err := Some(DequeueFailed(dequeued.error));
      return;
    }
    if dequeued.value.None? {
      err := None;
      return;
    }
    var payment := dequeued.value.value;
    err, trace, apiResult, calls := HandleDequeued(maxRetries, payment, processed, now, outcome, fallback, storeReply, trace);
  }

  /** processPayment once a payment is dequeued, appending to the trace so far:
      the processed check, then dispatch of a payment not yet processed; the
      deferred RemoveFromProcessing closes every path. */
  method HandleDequeued(
    maxRetries: nat, payment: PaymentRequest, processed: Result<bool, string>,
    now: DateTime, outcome: nat -> Response, fallback: Response, storeReply: Option<string>,
    prefix: seq<Event>)
    returns (err: Option<WorkerError>, trace: seq<Event>,
             ghost apiResult: Result<Accepted, RetryError>, ghost calls: seq<Call>)
    requires Valid(now)
    ensures processed != Ok(false) ==>
      && trace == prefix + [CheckedProcessed(payment.correlationId), RemovedFromProcessing(payment.correlationId)]
      && err == (if processed.Err? then Some(CheckFailed(processed.error)) else None)
    ensures processed == Ok(false) ==>
      && RetryContract(maxRetries, BuildPayload(payment, now), outcome, fallback, apiResult, calls)
      && trace == prefix + [CheckedProcessed(payment.correlationId)] + Posts(calls)
                  + (if apiResult.Ok? then [Stored(ProcessedRecord(apiResult.value))] else [])
                  + [RemovedFromProcessing(payment.correlationId)]
      && err == (if apiResult.Err? then Some(PaymentFailed(apiResult.error))
                 else if storeReply.Some? then Some(StoreFailed(storeReply.value))
                 else None)
  {
    apiResult, calls := Err(AllFailed(None)), [];
    // deferred: RemoveFromProcessing(payment.correlationId) on every return below
    trace := prefix + [CheckedProcessed(payment.correlationId)];
    if processed.Err? {
      err := Some(CheckFailed(processed.error));
    } else if processed.value {
      err := None;
    } else {
      err, trace, apiResult, calls := Dispatch(maxRetries, payment, now, outcome, fallback, storeReply, trace);
    }
    trace := trace + [RemovedFromProcessing(payment.correlationId)];
  }

  /** The part of processPayment after the processed check, appending to the
      trace so far: post with retry, then store the record of an accepted payload. */
  method Dispatch(
    maxRetries: nat, payment: PaymentRequest, now: DateTime, outcome: nat -> Response, fallback: Response,
    storeReply: Option<string>, prefix: seq<Event>)
    returns (err: Option<WorkerError>, trace: seq<Event>,
             ghost apiResult: Result<Accepted, RetryError>, ghost calls: seq<Call>)
    requires Valid(now)
    ensures RetryContract(maxRetries, BuildPayload(payment, now), outcome, fallback, apiResult, calls)
    ensures trace == prefix + Posts(calls) + (if apiResult.Ok? then [Stored(ProcessedRecord(apiResult.value))] else [])
    ensures err == (if apiResult.Err? then Some(PaymentFailed(apiResult.error))
                    else if storeReply.Some? then Some(StoreFailed(storeReply.value))
                    else None)
  {
    var res, posted := CallPaymentAPIWithRetry(maxRetries, payment, now, outcome, fallback);
    apiResult, calls := res, posted;
    trace := prefix + Posts(posted);
    if res.Err? {
      err := Some(PaymentFailed(res.error));
    } else {
      trace := trace + [Stored(ProcessedRecord(res.value))];
      err := if storeReply.Some? then Some(StoreFailed(storeReply.value)) else None;
    }
  }

  /** The record processPayment stores: the dequeued payment's id and amount,
      the dispatch time in the millisecond layout (which the repository parses
      back to that time), credited to the processor that accepted it. */
  lemma StoredRecordFields(maxRetries: nat, p: PaymentRequest, now: DateTime, outcome: nat -> Response, fallback: Response,
                           res: Result<Accepted, RetryError>, calls: seq<Call>)
    requires Valid(now)
    requires RetryContract(maxRetries, BuildPayload(p, now), outcome, fallback, res, calls)
    requires res.Ok?
    ensures ProcessedRecord(res.value).correlationId == p.correlationId
    ensures ProcessedRecord(res.value).amount == p.amount
    ensures ParseMillis(ProcessedRecord(res.value).processedAt) == Ok(now)
    ensures |calls| > 0 && ProcessedRecord(res.value).api == calls[|calls| - 1].api
  {
    RetryBounds(maxRetries, BuildPayload(p, now), outcome, fallback, res, calls);
  }

  /** Every default call fails with 500 and the fallback accepts: the record
      worker.go builds is credited to DEFAULT_API although the fallback took the
      payment, while ProcessedRecord credits FALLBACK_API. */
  method FallbackCreditScenario(payment: PaymentRequest, now: DateTime)
    returns (asWritten: ProcessedPayment, corrected: ProcessedPayment, calls: seq<Call>)
    requires Valid(now)
    ensures |calls| == MaxRetries + 2 && calls[|calls| - 1].api == FallbackApi
    ensures asWritten.api == DefaultApi
    ensures corrected.api == FallbackApi
  {
    var outcome: nat -> Response := k => Status(500, "500 Internal Server Error");
    assert RetriedThrough(outcome, MaxRetries) by {
      forall j: nat | j < MaxRetries ensures FailedRetryably(outcome(j)) { }
    }
    var res;
    res, calls := CallPaymentAPIWithRetry(MaxRetries, payment, now, outcome, Status(200, "200 OK"));
    assert !Succeeded(outcome(MaxRetries));
    asWritten := ProcessedRecordAsWritten(res.value.payload);
    corrected := ProcessedRecord(res.value);
  }
}
