# Payment dispatch core of rinha-backend-25, in Dafny

This project models the asynchronous dispatch pipeline of the Go service
`rinha-backend-25`. The service takes payment requests and queues them in a
Redis stream. Workers in one consumer group claim the queued payments and post
each one to one of two payment processors, "default" and "fallback". Each
processed payment is recorded in a sorted set scored by its processing time,
and a summary sums the recorded amounts over a time range.

The modules, one file each:

- `Wrappers` (`wrappers.dfy`): `Option` and `Result`.
- `Digits` (`digits.dfy`): decimal digit strings, their values and zero padding, shared by the time layouts and the amount text.
- `Dtos` (`dtos.dfy`): the records of `internal/dtos/types.go`.
- `TimeLayout` (`time_layout.dfy`): Go's `Format` and `Parse` for the two layouts the code uses.
  - `"2006-01-02T15:04:05.000Z"`, the millisecond layout.
  - `time.RFC3339` for a UTC time.

  It also holds `UnixMilli`, the proof that formatting then parsing gives back the same time, and the proof that `UnixMilli` follows chronological order.
- `Numbers` (`numbers.dfy`): `math.Round`, the rounding to cents used by the summary, and `strconv.ParseFloat` restricted to plain decimal text. It also holds `CentsText`, the shortest decimal text go-redis writes for a float64 amount of whole cents, and the proof that `ParseFloat` reads that text back as the amount.
- `Selector` (`selector.dfy`): the shared cell holding the active processor (`internal/workers/selector.go`), as a class.
- `HealthCheck` (`health_check.dfy`): the health probe and the routing decision with its bias (`internal/workers/health_check.go`).
- `Workers` (`worker.dfy`): three parts of `internal/workers/worker.go`.
  - Error classification.
  - The retry loop against the default processor, with one fallback call. The loop is a `while` with invariants, proved against the predicate `RetryContract`.
  - The control flow of `processPayment`, returned as a trace of events.
- `Repositories` (`redis.dfy`): `internal/repositories/redis.go` over an abstract Redis.
  - The stream holds entries with increasing ids.
  - Consumer groups each have a delivery cursor and a pending-entries list.
  - There is one sorted set per processor.
  - Every Redis round trip may fail; the failure is an input (`fault`).

Downstream processors, probes and repository replies are inputs: a function from attempt number to response, probe outcomes and reply values. Clocks are inputs too (`now`).

## Behaviour of the code worth knowing

- The retry loop in `worker.go:115-152` never reads the active-service selector. It always posts to the default processor first, then once to the fallback. It has no backoff: `baseDelay` is set but never used.
- A payment that fails with a permanent (non-retryable) error is never acknowledged: `processPayment` returns the error without storing a record (`worker.go:94-97`), and only `StoreProcessed` acknowledges an entry (`redis.go:162`).
- `processPayment` calls repository operations that `redis.go` does not have: `DequeueForProcessing`, `IsProcessed`, `RemoveFromProcessing`, and a two-argument `StoreProcessed`. They come from a different revision of the repository. The worker model therefore takes their replies as inputs.
- Each processor's total is rounded to cents on its own (`redis.go:223`). The two rounded summaries add up to the rounded grand total when every amount is a whole number of cents (`Repositories.SummariesAddUp`), and can miss it by a cent otherwise (`Repositories.SubCentAmountsDrift`).

## Model

| member | source | states |
|---|---|---|
| Digits.PadValue | internal/repositories/redis.go:84 | a number below 10^n written as n zero-padded digits reads back as itself |
| TimeLayout.Parse | internal/repositories/redis.go:128 | time.Parse with a layout succeeds only with an in-range date-time (day checked against its month and leap years) |
| TimeLayout.FormatMillis | internal/repositories/redis.go:84 | the millisecond-layout text of a valid time parses back to that time |
| TimeLayout.ParseMillis | internal/repositories/redis.go:128 | a millisecond-layout parse succeeds only with an in-range date-time |
| TimeLayout.FormatRFC3339 | internal/workers/worker.go:121 | the RFC 3339 text of a valid time is rejected by the millisecond-layout parse |
| TimeLayout.UnixMilli | internal/repositories/redis.go:154 | for a valid time, the milliseconds divide into its day number since 1970-01-01 and the milliseconds into that day |
| TimeLayout.ParseFormatMillis | internal/repositories/redis.go:84-126 | a valid time written in the millisecond layout parses back to exactly that time |
| TimeLayout.ParseFormat | internal/repositories/redis.go:84-126 | any layout that holds every field and delimits the hour parses the text it formats back to the same valid time |
| TimeLayout.ParseMillisRejectsRFC3339 | internal/workers/worker.go:121 | a time written as RFC 3339 (no fraction) never parses with the millisecond layout |
| TimeLayout.UnixMilliOrder | internal/repositories/redis.go:154 | the Unix-millisecond score is strictly increasing in chronological order, so distinct valid times get distinct scores |
| Numbers.Round | internal/repositories/redis.go:223 | math.Round gives an integer within half of x, halves going away from zero |
| Numbers.ParseUnsigned | internal/repositories/redis.go:121 | unsigned decimal text that parses is non-empty and reads as a non-negative number |
| Numbers.ParseDecimal | internal/repositories/redis.go:121 | only non-empty text parses; a negative value needs a leading minus; text starting with a digit reads as unsigned text |
| Numbers.RoundCents | internal/repositories/redis.go:223 | math.Round(x*100)/100 gives a whole number of cents at most half a cent away from x |
| Numbers.RoundCentsWhole | internal/repositories/redis.go:223 | a whole number of cents is left unchanged by the rounding |
| Numbers.RoundCentsIdempotent | internal/repositories/redis.go:223 | rounding to cents twice is rounding once |
| Numbers.FractionValue | internal/repositories/redis.go:121 | the digits after a decimal point are worth at least zero and less than one |
| Numbers.ParsePoint | internal/repositories/redis.go:121 | digits, a point and digits parse as the whole digits' value plus the fraction's value |
| Numbers.ParseWhole | internal/repositories/redis.go:121 | the decimal digits of a whole number parse back as that number |
| Numbers.ParseOneDecimal | internal/repositories/redis.go:121 | q's digits, a point and one digit t parse as q + t/10 |
| Numbers.ParseTwoDecimals | internal/repositories/redis.go:121 | q's digits, a point and digits t, u parse as q + (10t+u)/100 |
| Numbers.ParseDecimalText | internal/repositories/redis.go:121 | decimal text with its trailing zeros dropped (and the point when nothing follows it) parses as q + (10t+u)/100 |
| Numbers.ParseMinus | internal/repositories/redis.go:121 | a leading minus sign negates the value of the unsigned text after it |
| Numbers.ParseCentsText | internal/repositories/redis.go:117-122 | the shortest decimal text of a whole-cent amount ("12.5", "12", "-0.05"), as go-redis writes a float64 field, parses back as exactly that amount |
| Numbers.ParseUnsignedCentsText | internal/repositories/redis.go:117-122 | the shortest text of a non-negative whole-cent amount starts with a digit and reads back as that number of cents over 100 |
| Numbers.ParseNegativeCentsText | internal/repositories/redis.go:117-122 | a minus sign before the shortest text of |cents| reads back as the negative amount |
| Selector.ServiceSelector.constructor | internal/workers/selector.go:13-17 | a new selector holds DEFAULT_API |
| Selector.ServiceSelector.Zero | internal/workers/selector.go:9-11 | a zero-value selector holds nothing and reports DEFAULT_API |
| Selector.ServiceSelector.GetActive | internal/workers/selector.go:19-25 | returns the stored processor, or DEFAULT_API when the cell is empty |
| Selector.ServiceSelector.SetActive | internal/workers/selector.go:27-29 | replaces the whole value; afterwards GetActive reports it |
| Selector.SelectorHistory | internal/workers/selector.go:13-29 | a fresh selector reads DEFAULT_API; a set value is read back; setting twice equals setting once; the last writer wins |
| Selector.ZeroSelectorReadsDefault | internal/workers/selector.go:19-25 | reading a selector nothing was stored in yields DEFAULT_API |
| HealthCheck.Wrap64 | internal/workers/health_check.go:62 | Go int multiplication: the result is in int64 range, equals the exact product when that fits, and is congruent to it mod 2^64 |
| HealthCheck.Check | internal/workers/health_check.go:73-113 | a probe gives a reading exactly when it got status 200 with a decodable body; request, transport, panic or decode failures give nil |
| HealthCheck.ChooseApi | internal/workers/health_check.go:56-65 | the fallback is chosen iff it is healthy and either the default is not, or default latency > fallback latency × bias (int64 product) |
| HealthCheck.FailOpen | internal/workers/health_check.go:57-60 | with neither processor healthy the default is chosen |
| HealthCheck.DefaultKeptWithoutFallback | internal/workers/health_check.go:61-65 | a healthy default is kept when the fallback is unhealthy, whatever the latencies |
| HealthCheck.BiasComparison | internal/workers/health_check.go:61-64 | with both healthy and no overflow: fallback iff default latency is strictly greater than bias × fallback latency |
| HealthCheck.BiasExamples | internal/workers/health_check.go:61-64 | 300 vs 50 with bias 3 switches to fallback; 100 and 150 vs 50 keep the default |
| HealthCheck.ProductWraps | internal/workers/health_check.go:62 | a fallback latency of 2^62 with bias 2 wraps negative and makes the fallback win |
| HealthCheck.HealthCheckWorker.constructor | internal/workers/health_check.go:18-23 | the worker keeps the given selector and bias |
| HealthCheck.HealthCheckWorker.ChooseService | internal/workers/health_check.go:44-71 | the selector afterwards holds ChooseApi of both probes' readings, whatever it held; the result is always nil |
| Workers.CallPaymentAPI | internal/workers/worker.go:154-179 | success exactly for status 200; any other status is an HTTPError carrying it; no response is a plain error |
| Workers.IsRetryableError | internal/workers/worker.go:190-204 | an HTTP error is retryable iff its status is 429, 500, 502, 503 or 504; any other error is retryable |
| Workers.BuildPayload | internal/workers/worker.go:118-122 | the payload copies id and amount, and its timestamp parses in the repository's layout back to the dispatch time (corrected) |
| Workers.BuildPayloadAsWritten | internal/workers/worker.go:118-122 | the payload as written copies id and amount, but its RFC 3339 timestamp fails the repository's parse |
| Workers.ProcessedRecord | internal/workers/worker.go:99-103 | the record copies id, amount and timestamp of the accepted payload and names the processor that accepted it (corrected) |
| Workers.ProcessedRecordAsWritten | internal/workers/worker.go:99-103 | the record as written copies id, amount and timestamp, and names DEFAULT_API whoever accepted it |
| Workers.DefaultCalls | internal/workers/worker.go:125-126 | n calls, each to the default processor with the same payload |
| Workers.CallPaymentAPIWithRetry | internal/workers/worker.go:115-152 | meets RetryContract: stops at the first success or the first permanent error before the last attempt; when the last of maxRetries+1 default attempts fails, makes exactly one fallback call whose failure reports the previous attempt's error (corrected: posts BuildPayload and stores ProcessedRecord) |
| Workers.StopAttempt | internal/workers/worker.go:125-142 | the loop stops at an attempt after only retryable failures: success, permanent failure, or the last attempt |
| Workers.RetryContractDeterministic | internal/workers/worker.go:115-152 | the contract determines both the result and the sequence of calls |
| Workers.RetryBounds | internal/workers/worker.go:115-152 | 1 to maxRetries+2 calls, all with one payload; at most maxRetries+1 go to the default processor, and a run of maxRetries+2 calls ends with the fallback call; only the last may go to the fallback, and only after all default attempts; a success names the last call's processor |
| Workers.NewWorkersCallBounds | internal/workers/worker.go:25-31 | with NewWorkers' maxRetries of 5: one to seven calls in all, and at most six to the default processor |
| Workers.FiveHundredFourTimes | internal/workers/worker.go:125-142 | four 500s then 200 with the default budget of 5: five default calls and success |
| Workers.ClientErrorStopsAtOnce | internal/workers/worker.go:136-138 | a 422 on the first attempt: one call, no fallback, a non-retryable error |
| Workers.Posts | internal/workers/worker.go:126 | one Posted event per call, in call order |
| Workers.ProcessPayment | internal/workers/worker.go:70-113 | per reply: dequeue failure or empty queue ends at once; once dequeued, removal from processing ends every path; a processed payment is not posted; otherwise the calls of the retry contract, the record stored only on success, and the error of the first failing step (corrected: posts BuildPayload and stores ProcessedRecord) |
| Workers.HandleDequeued | internal/workers/worker.go:84-112 | after the processed check: an error or an already processed payment stops before any call; otherwise the payment is dispatched, and removal from processing closes every path (corrected: posts BuildPayload and stores ProcessedRecord) |
| Workers.Dispatch | internal/workers/worker.go:94-108 | the retry contract holds; the record is stored only after a success, and the error names the failed call or the failed store (corrected: posts BuildPayload and stores ProcessedRecord) |
| Workers.StoredRecordFields | internal/workers/worker.go:94-105 | the stored record has the dequeued id and amount, a timestamp the repository parses back to the dispatch time, and the processor of the last call (corrected: posts BuildPayload and stores ProcessedRecord) |
| Workers.FallbackCreditScenario | internal/workers/worker.go:94-103 | when every default call fails with 500 and the fallback accepts, the record as written names DEFAULT_API and the corrected one FALLBACK_API |
| Repositories.GroupCreationError | internal/repositories/redis.go:31-37 | a group-creation reply is success iff there is none or it contains BUSYGROUP; otherwise it is passed through |
| Repositories.Contains | internal/repositories/redis.go:33 | strings.Contains: true exactly when sub equals the slice of s at some offset; a prefix is contained, and a contained text is no longer than the text |
| Repositories.BusyGroupIsSuccess | internal/repositories/redis.go:33 | the BUSYGROUP reply of an existing group counts as success |
| Repositories.EncodeFields | internal/repositories/redis.go:81-85 | the three XADD fields: the id as text, the amount as a number, and requestedAt as text that parses back to the stamped time |
| Repositories.TextField | internal/repositories/redis.go:115 | the text of a string field; "" when the field is missing or not a string, as Go's unchecked type assertion gives |
| Repositories.DecodeEntry | internal/repositories/redis.go:111-138 | decoding fails iff a text amount is not a number (BadAmount) or requestedAt does not parse in the millisecond layout; otherwise the id and correlationId come from the entry, requestedAt from its text, and the amount is the number, the parsed text, or 0 when missing or of another type |
| Repositories.DecodeEncodedEntry | internal/repositories/redis.go:79-134 | the fields AddToStream writes decode to the same payment, stamped time included, with the entry id |
| Repositories.DecodeCentsTextEntry | internal/repositories/redis.go:115-138 | an entry whose amount is the shortest decimal text of a whole-cent amount, as go-redis writes a float64, decodes to exactly that amount |
| Repositories.ZAdd | internal/repositories/redis.go:157-160 | adds a new member or rescores an existing one; members stay distinct and no other member changes |
| Repositories.InRange | internal/repositories/redis.go:203-206 | exactly the members whose score lies in [from, to], no more of them than the set holds |
| Repositories.InRangeDistinct | internal/repositories/redis.go:203-206 | a set holding each member once yields each in-range member once |
| Repositories.Decoded | internal/repositories/redis.go:213-221 | exactly the payments of the members that decode; malformed ones are skipped |
| Repositories.DecodedCount | internal/repositories/redis.go:213-221 | each payment is counted exactly as many times as its encoding occurs among the members |
| Repositories.DecodedDistinct | internal/repositories/redis.go:213-221 | distinct members decode to distinct payments |
| Repositories.WindowDistinct | internal/repositories/redis.go:197-221 | no payment is counted twice in a summary window |
| Repositories.RedisRepository.constructor | internal/repositories/redis.go:46-73 | an empty Redis with the read group created at the end of the stream |
| Repositories.RedisRepository.Index | internal/repositories/redis.go:155 | processedSetKey: the default processor's set for DEFAULT_API, the fallback's for FALLBACK_API |
| Repositories.RedisRepository.CreateStreamGroup | internal/repositories/redis.go:31-37 | a new group starts at the stream's end; an existing group is left as it is and reported as success; a connection error is reported |
| Repositories.RedisRepository.AddToStream | internal/repositories/redis.go:79-91 | stamps the payment with now, then appends its fields with a fresh, larger id; on error nothing is appended |
| Repositories.RedisRepository.ReadFromStream | internal/repositories/redis.go:93-139 | delivers the group's next entry and makes it pending for the consumer, then decodes it; nothing new is (nil, nil); a missing group or a connection error is an error |
| Repositories.RedisRepository.StoreProcessed | internal/repositories/redis.go:141-173 | an unparsable processedAt or a failed EXEC changes nothing; otherwise the record goes into its processor's set only, scored by processedAt in Unix ms, and the entry is acknowledged |
| Repositories.RedisRepository.AckMessage | internal/repositories/redis.go:175-187 | removes the id from the read group's pending list; on error nothing changes |
| Repositories.RedisRepository.FlushDB | internal/repositories/redis.go:189-195 | clears the stream, its groups and both sets, keeping the id counter; on error nothing changes |
| Repositories.RedisRepository.GetSummaryByDateRange | internal/repositories/redis.go:197-229 | counts and sums the decodable payments of the processor's set scored within [from, to], rounding the sum to cents once |
| Repositories.SumDecoded | internal/repositories/redis.go:211-221 | the summary loop counts exactly the decoded payments and sums exactly their total, skipping malformed members |
| Repositories.Acked | internal/repositories/redis.go:178 | the read group loses the id from its pending list, every other pending entry keeps its consumer, and the cursor stays; other groups are unchanged |
| Repositories.ZAddIdempotent | internal/repositories/redis.go:157-160 | storing the same record twice leaves the set as storing it once |
| Repositories.StoredIsCounted | internal/repositories/redis.go:150-156 | a record stored with a score inside [from, to] is among the payments summed for that window |
| Repositories.TotalAppend | internal/repositories/redis.go:214-221 | the total of two runs of payments is the sum of their totals |
| Repositories.TotalWholeCents | internal/repositories/redis.go:214-221 | a sum of whole-cent amounts is a whole number of cents |
| Repositories.RoundWholeCents | internal/repositories/redis.go:223 | a whole-cent total is not changed by the rounding |
| Repositories.SummariesAddUp | internal/repositories/redis.go:197-229 | with whole-cent amounts, the two processors' rounded totals add up to the rounded total of all payments |
| Repositories.SubCentAmountsDrift | internal/repositories/redis.go:223 | two payments of 0.004: each rounded total is 0.00, but their combined total rounds to 0.01 |
| Repositories.EnqueueAndRead | internal/repositories/redis.go:79-139 | after XADD to an empty Redis, the group reads back the stamped payment with id 0, pending for the reader |
| Repositories.PaymentLifecycle | internal/repositories/redis.go:79-229 | a payment added, read, stored as processed by the default processor at now: read back intact, counted once in the summary of that millisecond, nothing left pending |
| Repositories.StoreAndSummarize | internal/repositories/redis.go:141-229 | storing the record acknowledges entry 0, and the default summary of its millisecond counts it once |
| Repositories.PopulatedRepository | internal/repositories/redis.go:79-173 | one payment queued and one record stored for the fallback processor |
| Repositories.FlushedRepository | internal/repositories/redis.go:189-229 | after FLUSHDB both summaries are zero, and the next read fails because the group is gone |

## Left out

- HTTP, JSON and goroutines. Probe and POST outcomes are inputs, and the two concurrent probes are given as their results. The JSON form of the member stored in a sorted set is abstracted as `Encoded(payment)`. A malformed member is `Malformed(text)`.
- `Start`, `StartWorkers` and `start`: endless loops with a sleep and cancellation. The model covers one iteration of each: `ChooseService` and `ProcessPayment`.
- Log lines and the selector read made only for logging (`health_check.go:66-68`).
- `Close`, the client options in `NewRedisRepository`, and `log.Fatalf` when group creation fails at start-up. The constructor starts from an empty Redis.
- Workers.ProcessPayment: the repository operations it calls (`DequeueForProcessing`, `IsProcessed`, `RemoveFromProcessing`, two-argument `StoreProcessed`) are not in `redis.go`. Their replies are inputs.
- Amounts are exact reals, not float64. Float rounding in the sum is not modelled.
- AddToStream stores the amount as a float64. go-redis writes it as text with strconv's shortest 'f' formatting, and Redis hands it back as text. go-redis's encoding is not part of this model. CentsText models that text only for amounts in whole cents, and DecodeCentsTextEntry covers only those. An amount finer than a cent, such as "0.004", is not covered.
- Numbers.ParseUnsigned: its contract does not state the value. The value is proved by the lemmas ParsePoint, ParseWhole, ParseOneDecimal and ParseTwoDecimals, and for the shortest text of whole-cent amounts by ParseCentsText.
- Numbers.ParseDecimal: its contract states the value only through ParseUnsigned; the sign is covered by the lemma ParseMinus. It accepts plain decimal text with an optional sign. It does not cover ParseFloat's exponents, hexadecimal, underscores, `inf`, `nan` or range errors.
- TimeLayout: only what the two layouts need. Go's zone offsets other than `Z`, the local zone of `time.Now()`, years outside 0-9999, and the `Z07:00` zone parse are left out.
- Redis stream ids (`<ms>-<seq>` strings) are modelled as a counter. The XADD result id is not returned, as in the code.
- ZRANGEBYSCORE result order is the set's insertion order, not score order. The summary does not depend on the order.
- `json.Marshal` of a `ProcessedPayment` cannot fail, so its error path is left out.
- Repositories.RedisRepository.StoreProcessed: a failed EXEC applies neither command. Redis's partial application of a transaction whose command fails at run time is not modelled.
- `AckMessage` with a pipeline (`redis.go:176-179`) always returns nil. It is part of `StoreProcessed`, and only the direct path is a method of its own.
- `maxRetries` is a `nat`. A negative budget in Go would skip the loop.
- `baseDelay` and the 30 s HTTP timeout are left out. A timeout is a `NoResponse`.
- `internal/handlers/handlers.go` and `cmd/api/main.go` are not part of this model.

## Findings

| source | as written | input that shows it | evidently intended | confidence | as-written member | corrected member |
|---|---|---|---|---|---|---|
| internal/workers/worker.go:121 | the payload timestamp, later used as the record's processedAt, is `time.Now().Format(time.RFC3339)`, with no fraction; StoreProcessed (redis.go:142) parses processedAt with `"2006-01-02T15:04:05.000Z"` and rejects it, so that StoreProcessed rejects every such record (the worker calls a two-argument StoreProcessed of another revision, not part of this model) | any dispatch time, e.g. 2025-07-01T12:00:00 UTC gives "2025-07-01T12:00:00Z", which lacks ".000" | write the timestamp in the millisecond layout the repository parses | high for the layouts, not executed | Workers.BuildPayloadAsWritten | Workers.BuildPayload |
| internal/workers/worker.go:99-103 | the ProcessedPayment built after a successful call leaves Api unset, so DEFAULT_API (the zero value) is recorded even when the fallback processor accepted the payment | every default attempt answers 500 and the fallback answers 200 | credit the processor that accepted the payment | high, not executed | Workers.FallbackCreditScenario | Workers.ProcessedRecord |
