/** `PaymentEventStore`: the append-only ledger of payment events and its
    three history queries. */
module PaymentLedger {
  import opened Common
  import opened CoreEvents
  import opened PaymentData

  /** The `eventType` texts of the ledger. */
  datatype PaymentEventType = PaymentCreated | PaymentApproved | PaymentRejected {
    function Name(): string {
      match this
      case PaymentCreated => "PAYMENT_CREATED"
      case PaymentApproved => "PAYMENT_APPROVED"
      case PaymentRejected => "PAYMENT_REJECTED"
    }
  }

  /** `PaymentEventEntity` without its random id and timestamps. */
  datatype PaymentEvent = PaymentEvent(
    paymentId: Option<Id>,
    payerId: Option<Id>,
    payeeId: Option<Id>,
    amount: Option<Money>,
    currency: Option<string>,
    status: Option<PaymentStatus>,
    eventType: PaymentEventType)

  const NotFoundMessage := "Payment not found"

  /** The approved or rejected event built from the stored payment row. */
  function OutcomeEvent(paymentId: Id, row: PaymentEntity, approved: bool): (ev: PaymentEvent)
    ensures ev.paymentId == Some(paymentId)
    ensures ev.payerId == row.payerId && ev.payeeId == row.payeeId
    ensures ev.amount == row.amount && ev.currency == row.currency
    ensures approved ==> ev.status == Some(Approved) && ev.eventType == PaymentApproved
    ensures !approved ==> ev.status == Some(Rejected) && ev.eventType == PaymentRejected
  {
    if approved then
      PaymentEvent(Some(paymentId), row.payerId, row.payeeId, row.amount, row.currency, Some(Approved), PaymentApproved)
    else
      PaymentEvent(Some(paymentId), row.payerId, row.payeeId, row.amount, row.currency, Some(Rejected), PaymentRejected)
  }

  /** Which column a history query filters on, and the value it asks for
      (a `null` argument selects the events whose column is `null`). */
  datatype HistoryKey = ByPayment(paymentId: Option<Id>) | ByPayer(payerId: Option<Id>) | ByPayee(payeeId: Option<Id>)

  predicate Matches(ev: PaymentEvent, key: HistoryKey) {
    match key
    case ByPayment(id) => ev.paymentId == id
    case ByPayer(id) => ev.payerId == id
    case ByPayee(id) => ev.payeeId == id
  }

  /** The derived `findBy…` query: the matching events, in log order. The
      query itself has no `OrderBy`; the model fixes append order. */
  function Select(log: seq<PaymentEvent>, key: HistoryKey): (r: seq<PaymentEvent>)
    ensures |r| <= |log|
    ensures forall i :: 0 <= i < |r| ==> Matches(r[i], key)
    ensures forall ev :: ev in r <==> ev in log && Matches(ev, key)
  {
    if log == [] then []
    else if Matches(log[0], key) then [log[0]] + Select(log[1..], key)
    else Select(log[1..], key)
  }

  /** Querying a log extended at its end gives the old answer extended by
      the matching new events: earlier history is never rewritten. */
  lemma {:induction false} SelectAppend(log: seq<PaymentEvent>, extra: seq<PaymentEvent>, key: HistoryKey)
    ensures Select(log + extra, key) == Select(log, key) + Select(extra, key)
  {
    if log == [] {
      assert log + extra == extra;
    } else {
      assert (log + extra)[1..] == log[1..] + extra;
      SelectAppend(log[1..], extra, key);
    }
  }

  /** Selecting twice by the same key selects nothing more. */
  lemma {:induction false} SelectIdempotent(log: seq<PaymentEvent>, key: HistoryKey)
    ensures Select(Select(log, key), key) == Select(log, key)
  {
    if log != [] {
      SelectIdempotent(log[1..], key);
    }
  }

  /** `PaymentEventStore`: its own event log, and read access to the payment rows. */
  class PaymentEventStore {
    const repository: PaymentRepository
    var events: seq<PaymentEvent>

    constructor (repository: PaymentRepository)
      ensures this.repository == repository && events == []
    {
      this.repository := repository;
      events := [];
    }

    /** `savePaymentCreatedEvent`: one PAYMENT_CREATED event with the given
        fields, appended when the event repository accepts it. */
    method SavePaymentCreatedEvent(paymentId: Option<Id>, payerId: Option<Id>, payeeId: Option<Id>,
                                   amount: Option<Money>, currency: Option<string>,
                                   status: Option<PaymentStatus>, answer: Answer)
      returns (r: Outcome<string>)
      modifies this`events
      ensures r == AsOutcome(answer)
      ensures events == old(events) + if r.Pass? then [PaymentEvent(paymentId, payerId, payeeId, amount, currency, status, PaymentCreated)] else []
    {
      r := AsOutcome(answer);
      if r.Pass? {
        events := events + [PaymentEvent(paymentId, payerId, payeeId, amount, currency, status, PaymentCreated)];
      }
    }

    /** `savePaymentApprovedEvent` (`approved`) and `savePaymentRejectedEvent`:
        the lookup by id runs first; an unknown payment throws before anything
        is written. The stored status is not consulted, and the row is only read. */
    method SaveOutcomeEvent(paymentId: Option<Id>, approved: bool, answer: Answer) returns (r: Outcome<string>)
      modifies this`events
      ensures paymentId.None? ==> r == Fail(NullIdMessage)
      ensures paymentId.Some? && paymentId.value !in repository.rows ==> r == Fail(NotFoundMessage)
      ensures paymentId.Some? && paymentId.value in repository.rows ==> r == AsOutcome(answer)
      ensures events == old(events) + if r.Pass? then [OutcomeEvent(paymentId.value, repository.rows[paymentId.value], approved)] else []
    {
      if paymentId.None? {
        return Fail(NullIdMessage);
      }
      if paymentId.value !in repository.rows {
        return Fail(NotFoundMessage);
      }
      var row := repository.rows[paymentId.value];
      r := AsOutcome(answer);
      if r.Pass? {
        events := events + [OutcomeEvent(paymentId.value, row, approved)];
      }
    }

    /** `savePaymentApprovedEvent`. */
    method SavePaymentApprovedEvent(paymentId: Option<Id>, answer: Answer) returns (r: Outcome<string>)
      modifies this`events
      ensures paymentId.None? ==> r == Fail(NullIdMessage)
      ensures paymentId.Some? && paymentId.value !in repository.rows ==> r == Fail(NotFoundMessage)
      ensures paymentId.Some? && paymentId.value in repository.rows ==> r == AsOutcome(answer)
      ensures events == old(events) + if r.Pass? then [OutcomeEvent(paymentId.value, repository.rows[paymentId.value], true)] else []
    {
      r := SaveOutcomeEvent(paymentId, true, answer);
    }

    /** `savePaymentRejectedEvent`. */
    method SavePaymentRejectedEvent(paymentId: Option<Id>, answer: Answer) returns (r: Outcome<string>)
      modifies this`events
      ensures paymentId.None? ==> r == Fail(NullIdMessage)
      ensures paymentId.Some? && paymentId.value !in repository.rows ==> r == Fail(NotFoundMessage)
      ensures paymentId.Some? && paymentId.value in repository.rows ==> r == AsOutcome(answer)
      ensures events == old(events) + if r.Pass? then [OutcomeEvent(paymentId.value, repository.rows[paymentId.value], false)] else []
    {
      r := SaveOutcomeEvent(paymentId, false, answer);
    }

    /** `getPaymentHistory`. */
    function GetPaymentHistory(paymentId: Option<Id>): (r: seq<PaymentEvent>)
      reads this
      ensures forall ev :: ev in r <==> ev in events && ev.paymentId == paymentId
    {
      Select(events, ByPayment(paymentId))
    }

    /** `getPayerPaymentHistory`. */
    function GetPayerPaymentHistory(payerId: Option<Id>): (r: seq<PaymentEvent>)
      reads this
      ensures forall ev :: ev in r <==> ev in events && ev.payerId == payerId
    {
      Select(events, ByPayer(payerId))
    }

    /** `getPayeePaymentHistory`. */
    function GetPayeePaymentHistory(payeeId: Option<Id>): (r: seq<PaymentEvent>)
      reads this
      ensures forall ev :: ev in r <==> ev in events && ev.payeeId == payeeId
    {
      Select(events, ByPayee(payeeId))
    }
  }
}
