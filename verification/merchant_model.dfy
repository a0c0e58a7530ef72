/** The merchant aggregate (`Merchant`): a balance credited and debited
    under guards. */
module MerchantModel {
  import opened Common

  const AmountMessage := "Amount must be greater than zero"
  const InsufficientMessage := "Insufficient balance"

  /** The balance after `receivePayment(amount)`, or the exception. */
  function Credit(balance: Money, amount: Option<Money>): (r: Result<Money, string>)
    ensures r.Success? <==> amount.Some? && amount.value > 0.0
    ensures r.Success? ==> r.value == balance + amount.value && r.value > balance
    ensures r.Failure? ==> r.error == AmountMessage
  {
    if amount.None? || amount.value <= 0.0 then Failure(AmountMessage)
    else Success(balance + amount.value)
  }

  /** The balance after `debitPayment(amount)`, or the exception: the amount
      check comes before the funds check. */
  function Debit(balance: Money, amount: Option<Money>): (r: Result<Money, string>)
    ensures r.Success? <==> amount.Some? && 0.0 < amount.value <= balance
    ensures r.Success? ==> r.value == balance - amount.value && 0.0 <= r.value < balance
    ensures (amount.None? || amount.value <= 0.0) ==> r == Failure(AmountMessage)
    ensures amount.Some? && balance < amount.value && amount.value > 0.0 ==> r == Failure(InsufficientMessage)
  {
    if amount.None? || amount.value <= 0.0 then Failure(AmountMessage)
    else if balance < amount.value then Failure(InsufficientMessage)
    else Success(balance - amount.value)
  }

  /** A debit never takes a non-negative balance below zero, and the whole
      balance may be debited. */
  lemma DebitKeepsNonNegative(balance: Money, amount: Option<Money>)
    requires balance >= 0.0
    ensures Debit(balance, amount).Success? ==> Debit(balance, amount).value >= 0.0
    ensures balance > 0.0 ==> Debit(balance, Some(balance)) == Success(0.0)
  {
  }

  /** Receiving an amount and then debiting the same amount restores the
      balance. */
  lemma CreditThenDebitRestores(balance: Money, amount: Money)
    requires amount > 0.0 && balance >= 0.0
    ensures Credit(balance, Some(amount)).Success?
    ensures Debit(Credit(balance, Some(amount)).value, Some(amount)) == Success(balance)
  {
  }

  /** `initialize` takes any initial balance, negative ones included; such a
      merchant can then be credited but never debited. */
  lemma NegativeBalanceAccepted(balance: Money, amount: Money)
    requires balance < 0.0 && amount > 0.0
    ensures Debit(balance, Some(amount)) == Failure(InsufficientMessage)
    ensures Credit(balance, Some(amount)).Success?
  {
  }

  /** The domain object `Merchant`; its methods assign `balance` (and `id`). */
  class Merchant {
    var id: Option<Id>
    var name: string
    var email: string
    var phone: string
    var balance: Money
    var currency: string

    constructor (id: Option<Id>, name: string, email: string, phone: string, balance: Money, currency: string)
      ensures this.id == id && this.name == name && this.email == email
      ensures this.phone == phone && this.balance == balance && this.currency == currency
    {
      this.id := id;
      this.name := name;
      this.email := email;
      this.phone := phone;
      this.balance := balance;
      this.currency := currency;
    }

    /** `receivePayment`: a positive amount is added; otherwise it throws and
        the balance stays. */
    method ReceivePayment(amount: Option<Money>) returns (r: Outcome<string>)
      modifies this`balance
      ensures r.Pass? <==> Credit(old(balance), amount).Success?
      ensures r.Fail? ==> r.error == AmountMessage
      ensures balance == if r.Pass? then Credit(old(balance), amount).value else old(balance)
    {
      var next := Credit(balance, amount);
      if next.Failure? {
        return Fail(next.error);
      }
      balance := next.value;
      r := Pass;
    }

    /** `debitPayment`: a positive amount up to the balance is subtracted;
        otherwise it throws and the balance stays. */
    method DebitPayment(amount: Option<Money>) returns (r: Outcome<string>)
      modifies this`balance
      ensures r.Pass? <==> Debit(old(balance), amount).Success?
      ensures r.Fail? ==> r.error == Debit(old(balance), amount).error
      ensures balance == if r.Pass? then Debit(old(balance), amount).value else old(balance)
    {
      var next := Debit(balance, amount);
      if next.Failure? {
        return Fail(next.error);
      }
      balance := next.value;
      r := Pass;
    }

    /** `initialize`: a new id (`freshId`, standing for `UUID.randomUUID()`) and
        the given balance, with no sign check. */
    method Initialize(initialBalance: Money, freshId: Id)
      modifies this`id, this`balance
      ensures id == Some(freshId) && balance == initialBalance
    {
      id := Some(freshId);
      balance := initialBalance;
    }
  }
}
