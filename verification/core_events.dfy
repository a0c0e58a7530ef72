/** The status enumeration and the event records the services exchange over
    Kafka (core-common). Event ids and timestamps are not represented. */
module CoreEvents {
  import opened Common

  /** `PaymentStatus`: the three states of a payment. */
  datatype PaymentStatus = Pending | Approved | Rejected {
    /** The enum constant's name, as `toString()` and JSON give it. */
    function Name(): string {
      match this
      case Pending => "PENDING"
      case Approved => "APPROVED"
      case Rejected => "REJECTED"
    }
  }

  /** `PaymentCreatedEvent`, announced by the intake and consumed by the
      merchant listener and the saga orchestrator. `payerEmail` is read by the
      orchestrator although the intake never fills it. */
  datatype PaymentCreatedEvent = PaymentCreatedEvent(
    paymentId: Option<Id>,
    payerId: Option<Id>,
    payeeId: Option<Id>,
    amount: Option<Money>,
    currency: Option<string>,
    status: Option<PaymentStatus>,
    payerEmail: Option<string>)

  /** `PaymentCompletedEvent`, published by the saga after a successful debit. */
  datatype PaymentCompletedEvent = PaymentCompletedEvent(
    paymentId: Option<Id>,
    payerId: Option<Id>,
    payerEmail: Option<string>,
    payeeId: Option<Id>,
    amount: Option<Money>,
    currency: Option<string>,
    status: Option<PaymentStatus>)

  /** `PaymentProcessedEvent`, the response of the merchant listener and the
      orchestrator, and the input of the notification service. Its status is
      text, as its producers and consumers use it. */
  datatype ProcessedEvent = ProcessedEvent(
    paymentId: Option<Id>,
    payerId: Option<Id>,
    payeeId: Option<Id>,
    amount: Option<Money>,
    currency: Option<string>,
    status: Option<string>,
    payerEmail: Option<string>,
    description: Option<string>)

  /** One `kafkaTemplate.send(topic, key, event)` of a processed event. */
  datatype ProcessedSend = ProcessedSend(topic: string, key: Id, event: ProcessedEvent)

  /** What a listener that answers with processed events does: how it ends,
      and the sends it attempted, in order. */
  datatype Reaction = Reaction(outcome: Outcome<string>, sent: seq<ProcessedSend>)
}
