/** The payment aggregate (`Payment`): a validation guard and a status
    machine PENDING -> APPROVED | REJECTED. */
module PaymentModel {
  import opened Common
  import opened CoreEvents

  const AmountMessage := "Amount must be greater than zero"
  const CurrencyMessage := "Currency cannot be null or empty"
  const PayerMessage := "Payer ID cannot be null or empty"
  const PayeeMessage := "Payee id is null"
  const ApproveGuardMessage := "Only PENDING payment can be approved"
  const RejectGuardMessage := "Only PENDING payment can be rejected"

  /** The characters `String.trim()` strips: code points up to U+0020. */
  predicate IsTrimmed(c: char) {
    c <= ' '
  }

  /** Every character of `s` would be trimmed away. */
  predicate IsBlank(s: string) {
    forall i :: 0 <= i < |s| ==> IsTrimmed(s[i])
  }

  /** `s` with its leading trimmable characters removed. */
  function TrimStart(s: string): (r: string)
    ensures r == [] <==> IsBlank(s)
    ensures r != [] ==> !IsTrimmed(r[0])
    decreases |s|
  {
    if s != [] && IsTrimmed(s[0]) then TrimStart(s[1..]) else s
  }

  /** `s` with its trailing trimmable characters removed. */
  function TrimEnd(s: string): (r: string)
    ensures r == [] <==> IsBlank(s)
    decreases |s|
  {
    if s != [] && IsTrimmed(s[|s| - 1]) then TrimEnd(s[..|s| - 1]) else s
  }

  /** `String.trim()`. */
  function Trim(s: string): (r: string)
    ensures r == [] <==> IsBlank(s)
  {
    TrimEnd(TrimStart(s))
  }

  /** What `validate()` accepts: a positive amount, a currency that is not
      blank, and both party ids present. */
  predicate IsValidPayment(amount: Option<Money>, currency: Option<string>, payerId: Option<Id>, payeeId: Option<Id>) {
    && amount.Some? && amount.value > 0.0
    && currency.Some? && !IsBlank(currency.value)
    && payerId.Some?
    && payeeId.Some?
  }

  /** `validate()`: the checks run in source order and the first failing one
      decides the message. */
  function Validate(amount: Option<Money>, currency: Option<string>, payerId: Option<Id>, payeeId: Option<Id>): (r: Outcome<string>)
    ensures r.Pass? <==> IsValidPayment(amount, currency, payerId, payeeId)
    ensures (amount.None? || amount.value <= 0.0) ==> r == Fail(AmountMessage)
    ensures amount.Some? && amount.value > 0.0 && (currency.None? || IsBlank(currency.value)) ==> r == Fail(CurrencyMessage)
    ensures amount.Some? && amount.value > 0.0 && currency.Some? && !IsBlank(currency.value) && payerId.None? ==> r == Fail(PayerMessage)
    ensures amount.Some? && amount.value > 0.0 && currency.Some? && !IsBlank(currency.value) && payerId.Some? && payeeId.None? ==> r == Fail(PayeeMessage)
  {
    if amount.None? || amount.value <= 0.0 then Fail(AmountMessage)
    else if currency.None? || Trim(currency.value) == [] then Fail(CurrencyMessage)
    else if payerId.None? then Fail(PayerMessage)
    else if payeeId.None? then Fail(PayeeMessage)
    else Pass
  }

  /** The status `approve()` (target APPROVED) or `reject()` (target REJECTED)
      leaves behind, or the guard's message when the payment is not PENDING. */
  function Transition(s: Option<PaymentStatus>, target: PaymentStatus): Result<PaymentStatus, string>
    requires target != Pending
  {
    if s == Some(Pending) then Success(target)
    else Failure(if target == Approved then ApproveGuardMessage else RejectGuardMessage)
  }

  /** Only a PENDING payment moves, and it moves to the requested status. */
  lemma OnlyPendingMoves(s: Option<PaymentStatus>, target: PaymentStatus)
    requires target != Pending
    ensures Transition(s, target).Success? <==> s == Some(Pending)
    ensures Transition(s, target).Success? ==> Transition(s, target).value == target
  {
  }

  /** APPROVED and REJECTED are absorbing: after a successful transition,
      neither `approve()` nor `reject()` succeeds again. */
  lemma TerminalStatesAbsorb(s: Option<PaymentStatus>, first: PaymentStatus, second: PaymentStatus)
    requires first != Pending && second != Pending
    requires Transition(s, first).Success?
    ensures Transition(Some(Transition(s, first).value), second).Failure?
  {
  }

  /** The domain object `Payment`; its methods assign `status` only. */
  class Payment {
    var id: Option<Id>
    var payerId: Option<Id>
    var payerEmail: Option<string>
    var payeeId: Option<Id>
    var amount: Option<Money>
    var currency: Option<string>
    var status: Option<PaymentStatus>

    constructor (id: Option<Id>, payerId: Option<Id>, payerEmail: Option<string>, payeeId: Option<Id>,
                 amount: Option<Money>, currency: Option<string>, status: Option<PaymentStatus>)
      ensures this.id == id && this.payerId == payerId && this.payerEmail == payerEmail
      ensures this.payeeId == payeeId && this.amount == amount && this.currency == currency
      ensures this.status == status
    {
      this.id := id;
      this.payerId := payerId;
      this.payerEmail := payerEmail;
      this.payeeId := payeeId;
      this.amount := amount;
      this.currency := currency;
      this.status := status;
    }

    /** `initialize()`: PENDING when validation passes; otherwise the
        validation exception and the status is left as it was. */
    method Initialize() returns (r: Outcome<string>)
      modifies this`status
      ensures r == Validate(amount, currency, payerId, payeeId)
      ensures status == if r.Pass? then Some(Pending) else old(status)
    {
      r := Validate(amount, currency, payerId, payeeId);
      if r.Pass? {
        status := Some(Pending);
      }
    }

    /** `approve()`: PENDING -> APPROVED, otherwise it throws and nothing changes. */
    method Approve() returns (r: Outcome<string>)
      modifies this`status
      ensures r.Pass? <==> old(status) == Some(Pending)
      ensures r.Fail? ==> r.error == ApproveGuardMessage
      ensures status == if r.Pass? then Some(Approved) else old(status)
    {
      var t := Transition(status, Approved);
      if t.Success? {
        status := Some(t.value);
        r := Pass;
      } else {
        r := Fail(t.error);
      }
    }

    /** `reject()`: PENDING -> REJECTED, otherwise it throws and nothing changes. */
    method Reject() returns (r: Outcome<string>)
      modifies this`status
      ensures r.Pass? <==> old(status) == Some(Pending)
      ensures r.Fail? ==> r.error == RejectGuardMessage
      ensures status == if r.Pass? then Some(Rejected) else old(status)
    {
      var t := Transition(status, Rejected);
      if t.Success? {
        status := Some(t.value);
        r := Pass;
      } else {
        r := Fail(t.error);
      }
    }
  }

  /** `validate()` has no self-payment check: a payment from an
      account to itself is accepted (the tests expect a rejection). */
  lemma SelfPaymentAccepted(account: Id)
    ensures Validate(Some(100.0), Some("BRL"), Some(account), Some(account)) == Pass
  {
  }

  /** `validate()` has no scale check: 100.559 is accepted (the
      tests expect a rejection of more than two decimals). */
  lemma ThreeDecimalAmountAccepted(payer: Id, payee: Id)
    ensures Validate(Some(100.559), Some("BRL"), Some(payer), Some(payee)) == Pass
  {
  }

  /** A currency of blanks only is rejected like a missing one. */
  lemma BlankCurrencyRejected(amount: Money, payer: Id, payee: Id)
    requires amount > 0.0
    ensures Validate(Some(amount), Some(" \t "), Some(payer), Some(payee)) == Fail(CurrencyMessage)
  {
  }
}
