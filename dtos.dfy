/** The records exchanged between the components (internal/dtos/types.go).
    Amounts are exact reals; timestamps are civil date-times of module TimeLayout. */
module Dtos {
  import opened TimeLayout

  /** The two downstream payment processors; DEFAULT_API is the zero value. */
  datatype PaymentAPI = DefaultApi | FallbackApi

  /** A payment read back from the stream (PaymentRequest); the entry id is the stream's own. */
  datatype PaymentRequest = PaymentRequest(
    correlationId: string,
    amount: real,
    requestedAt: DateTime,
    redisStreamId: nat)

  /** The JSON body posted to a payment processor (PaymentAPIRequest). */
  datatype PaymentAPIRequest = PaymentAPIRequest(
    correlationId: string,
    amount: real,
    requestedAt: string)

  /** One service's line of the summary (APISummary). */
  datatype APISummary = APISummary(totalRequests: int, totalAmount: real)

  /** A processor's answer to the health probe (HealthCheckResponse). */
  datatype HealthCheckResponse = HealthCheckResponse(failing: bool, minResponseTime: int)

  /** A completed payment as the processed store keeps it (ProcessedPayment). */
  datatype ProcessedPayment = ProcessedPayment(
    correlationId: string,
    api: PaymentAPI,
    amount: real,
    processedAt: string)
}
