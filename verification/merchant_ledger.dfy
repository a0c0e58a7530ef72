/** `MerchantEventStore`: the append-only ledger of balance events. */
module MerchantLedger {
  import opened Common

  /** The `eventType` texts of the merchant ledger. */
  datatype MerchantEventType = MerchantRegistered | PaymentReceived {
    function Name(): string {
      match this
      case MerchantRegistered => "MERCHANT_REGISTERED"
      case PaymentReceived => "PAYMENT_RECEIVED"
    }
  }

  /** `MerchantEventEntity` without its random id and timestamps. */
  datatype MerchantEvent = MerchantEvent(
    merchantId: Option<Id>,
    balanceChange: Option<Money>,
    newBalance: Option<Money>,
    eventType: MerchantEventType,
    description: string)

  const RegisteredDescription := "Merchant registered with initial balance"
  const ReceivedDescription := "Payment received from customer"

  /** The derived `findByMerchantId` query: the events of one merchant, in log
      order. The query itself has no `OrderBy`; the model fixes append order. */
  function ForMerchant(log: seq<MerchantEvent>, merchantId: Option<Id>): (r: seq<MerchantEvent>)
    ensures |r| <= |log|
    ensures forall i :: 0 <= i < |r| ==> r[i].merchantId == merchantId
    ensures forall ev :: ev in r <==> ev in log && ev.merchantId == merchantId
  {
    if log == [] then []
    else if log[0].merchantId == merchantId then [log[0]] + ForMerchant(log[1..], merchantId)
    else ForMerchant(log[1..], merchantId)
  }

  /** Appending to the log extends each merchant's history by the new events
      of that merchant, and rewrites nothing. */
  lemma {:induction false} ForMerchantAppend(log: seq<MerchantEvent>, extra: seq<MerchantEvent>, merchantId: Option<Id>)
    ensures ForMerchant(log + extra, merchantId) == ForMerchant(log, merchantId) + ForMerchant(extra, merchantId)
  {
    if log == [] {
      assert log + extra == extra;
    } else {
      assert (log + extra)[1..] == log[1..] + extra;
      ForMerchantAppend(log[1..], extra, merchantId);
    }
  }

  /** An event of another merchant leaves a merchant's history as it was. */
  lemma OtherMerchantUnaffected(log: seq<MerchantEvent>, ev: MerchantEvent, merchantId: Option<Id>)
    requires ev.merchantId != merchantId
    ensures ForMerchant(log + [ev], merchantId) == ForMerchant(log, merchantId)
  {
    ForMerchantAppend(log, [ev], merchantId);
  }

  /** `MerchantEventStore`. */
  class MerchantEventStore {
    var events: seq<MerchantEvent>

    constructor ()
      ensures events == []
    {
      events := [];
    }

    /** `saveMerchantRegisteredEvent`: one MERCHANT_REGISTERED event whose
        change and new balance are both the initial balance. */
    method SaveMerchantRegisteredEvent(merchantId: Option<Id>, initialBalance: Option<Money>, answer: Answer)
      returns (r: Outcome<string>)
      modifies this
      ensures r == AsOutcome(answer)
      ensures events == old(events) +
        if r.Pass? then [MerchantEvent(merchantId, initialBalance, initialBalance, MerchantRegistered, RegisteredDescription)] else []
    {
      r := AsOutcome(answer);
      if r.Pass? {
        events := events + [MerchantEvent(merchantId, initialBalance, initialBalance, MerchantRegistered, RegisteredDescription)];
      }
    }

    /** `savePaymentReceivedEvent`: one PAYMENT_RECEIVED event with the amount
        and the new balance as given; nothing ties the two together. */
    method SavePaymentReceivedEvent(merchantId: Option<Id>, amount: Option<Money>, newBalance: Option<Money>, answer: Answer)
      returns (r: Outcome<string>)
      modifies this
      ensures r == AsOutcome(answer)
      ensures events == old(events) +
        if r.Pass? then [MerchantEvent(merchantId, amount, newBalance, PaymentReceived, ReceivedDescription)] else []
    {
      r := AsOutcome(answer);
      if r.Pass? {
        events := events + [MerchantEvent(merchantId, amount, newBalance, PaymentReceived, ReceivedDescription)];
      }
    }

    /** `getMerchantHistory`. */
    function GetMerchantHistory(merchantId: Option<Id>): (r: seq<MerchantEvent>)
      reads this
      ensures forall ev :: ev in r <==> ev in events && ev.merchantId == merchantId
    {
      ForMerchant(events, merchantId)
    }
  }
}
