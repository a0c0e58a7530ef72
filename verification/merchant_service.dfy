/** `MerchantService`: registration, the three lookups, and crediting a
    received payment. */
module MerchantServices {
  import opened Common
  import opened MerchantModel
  import opened MerchantData
  import opened MerchantMapping

  /** The controller's `MerchantDto`. */
  datatype MerchantRequest = MerchantRequest(
    merchantId: Option<Id>,
    name: string,
    email: string,
    phone: string,
    initialBalance: Money,
    currency: string)

  const NotFoundById := "Merchant not found with id: "
  const NotFoundByEmail := "Merchant not found with email: "
  const NotFoundByPhone := "Merchant not found with phone: "

  /** The row `registerMerchant` persists: the request's fields, under the
      supplied id, or under a new one (`freshId`) when none was supplied. */
  function RegisteredRow(request: MerchantRequest, freshId: Id): (e: MerchantEntity)
    ensures request.merchantId.Some? ==> e.id == request.merchantId
    ensures request.merchantId.None? ==> e.id == Some(freshId)
    ensures e.name == request.name && e.email == request.email && e.phone == request.phone
    ensures e.balance == request.initialBalance && e.currency == request.currency
  {
    var id := if request.merchantId.Some? then request.merchantId.value else freshId;
    MerchantEntity(Some(id), request.name, request.email, request.phone, request.initialBalance, request.currency)
  }

  /** The rows after `processReceivedPayment(payeeId, amount)`, or its
      exception: the lookup comes first, then `receivePayment`'s guard. */
  function ReceiveOutcome(rows: map<Id, MerchantEntity>, payeeId: Option<Id>, amount: Option<Money>)
    : (r: Result<map<Id, MerchantEntity>, string>)
    ensures payeeId.None? ==> r == Failure(NullIdMessage)
    ensures payeeId.Some? && payeeId.value !in rows ==> r == Failure(NotFoundById + payeeId.value)
    ensures payeeId.Some? && payeeId.value in rows ==>
      (r.Success? <==> amount.Some? && amount.value > 0.0) &&
      (r.Failure? ==> r.error == AmountMessage)
    ensures r.Success? ==>
      && payeeId.Some? && payeeId.value in rows && amount.Some?
      && r.value.Keys == rows.Keys
      && r.value[payeeId.value] == rows[payeeId.value].(balance := rows[payeeId.value].balance + amount.value)
      && (forall k :: k in rows && k != payeeId.value ==> r.value[k] == rows[k])
  {
    if payeeId.None? then Failure(NullIdMessage)
    else if payeeId.value !in rows then Failure(NotFoundById + payeeId.value)
    else
      var row := rows[payeeId.value];
      match Credit(row.balance, amount)
      case Failure(m) => Failure(m)
      case Success(b) => Success(rows[payeeId.value := row.(balance := b)])
  }

  /** Crediting never lowers anyone's balance: every row keeps or raises its balance. */
  lemma ReceiveNeverLowers(rows: map<Id, MerchantEntity>, payeeId: Option<Id>, amount: Option<Money>)
    requires ReceiveOutcome(rows, payeeId, amount).Success?
    ensures forall k :: k in rows ==> ReceiveOutcome(rows, payeeId, amount).value[k].balance >= rows[k].balance
  {
  }

  /** `MerchantService`, over the merchant rows. */
  class MerchantService {
    const repository: MerchantRepository

    constructor (repository: MerchantRepository)
      ensures this.repository == repository
    {
      this.repository := repository;
    }

    /** `registerMerchant`: persists `RegisteredRow` and returns a new
        merchant equal field by field to it; a `persist` that throws
        (`persistAnswer`) propagates and nothing is stored. */
    method RegisterMerchant(request: MerchantRequest, freshId: Id, persistAnswer: Answer)
      returns (r: Result<Merchant, string>)
      requires repository.Valid()
      modifies repository
      ensures repository.Valid()
      ensures r.Success? <==> persistAnswer.Returns?
      ensures r.Failure? ==> r.error == persistAnswer.message && repository.rows == old(repository.rows)
      ensures var row := RegisteredRow(request, freshId);
        r.Success? ==> fresh(r.value) && repository.rows == old(repository.rows)[row.id.value := row] && ToEntity(r.value) == row
    {
      var merchant := new Merchant(request.merchantId, request.name, request.email, request.phone,
                                   request.initialBalance, request.currency);
      if merchant.id.None? {
        merchant.Initialize(request.initialBalance, freshId);
      }
      var entity := ToEntity(merchant);
      var persisted := repository.Save(entity, persistAnswer);
      if persisted.Fail? {
        return Failure(persisted.error);
      }
      var found := ToDomain(Some(entity));
      r := Success(found);
    }

    /** `getMerchant`. */
    method GetMerchant(merchantId: Option<Id>) returns (r: Result<Merchant, string>)
      ensures merchantId.None? ==> r == Failure(NullIdMessage)
      ensures merchantId.Some? && merchantId.value !in repository.rows ==> r == Failure(NotFoundById + merchantId.value)
      ensures merchantId.Some? && merchantId.value in repository.rows ==>
        r.Success? && fresh(r.value) && ToEntity(r.value) == repository.rows[merchantId.value]
    {
      if merchantId.None? {
        return Failure(NullIdMessage);
      }
      if merchantId.value !in repository.rows {
        return Failure(NotFoundById + merchantId.value);
      }
      var m := ToDomain(Some(repository.rows[merchantId.value]));
      r := Success(m);
    }

    /** `getMerchantByEmail`: the one row with this e-mail; none is "not
        found", several make the single-result query throw. */
    method GetMerchantByEmail(email: string) returns (r: Result<Merchant, string>)
      ensures |repository.WithEmail(email)| == 0 ==> r == Failure(NotFoundByEmail + email)
      ensures |repository.WithEmail(email)| > 1 ==> r == Failure(NonUniqueMessage)
      ensures r.Success? <==> |repository.WithEmail(email)| == 1
      ensures r.Success? ==> fresh(r.value) && ToEntity(r.value) in repository.rows.Values && r.value.email == email
    {
      var ids := repository.WithEmail(email);
      if |ids| == 0 {
        return Failure(NotFoundByEmail + email);
      }
      if |ids| > 1 {
        return Failure(NonUniqueMessage);
      }
      var k :| k in ids;
      var m := ToDomain(Some(repository.rows[k]));
      r := Success(m);
    }

    /** `getMerchantByPhone`: as `getMerchantByEmail`, on the phone number. */
    method GetMerchantByPhone(phone: string) returns (r: Result<Merchant, string>)
      ensures |repository.WithPhone(phone)| == 0 ==> r == Failure(NotFoundByPhone + phone)
      ensures |repository.WithPhone(phone)| > 1 ==> r == Failure(NonUniqueMessage)
      ensures r.Success? <==> |repository.WithPhone(phone)| == 1
      ensures r.Success? ==> fresh(r.value) && ToEntity(r.value) in repository.rows.Values && r.value.phone == phone
    {
      var ids := repository.WithPhone(phone);
      if |ids| == 0 {
        return Failure(NotFoundByPhone + phone);
      }
      if |ids| > 1 {
        return Failure(NonUniqueMessage);
      }
      var k :| k in ids;
      var m := ToDomain(Some(repository.rows[k]));
      r := Success(m);
    }

    /** `processReceivedPayment`: the rows become those of `ReceiveOutcome`
        once the save (`saveAnswer`) returns; on any exception, the lookup's,
        the guard's or the save's, nothing is stored. */
    method ProcessReceivedPayment(payeeId: Option<Id>, amount: Option<Money>, saveAnswer: Answer)
      returns (r: Outcome<string>)
      requires repository.Valid()
      modifies repository
      ensures repository.Valid()
      ensures var next := ReceiveOutcome(old(repository.rows), payeeId, amount);
        && r == (if next.Failure? then Fail(next.error) else AsOutcome(saveAnswer))
        && repository.rows == if r.Pass? then next.value else old(repository.rows)
    {
      if payeeId.None? {
        return Fail(NullIdMessage);
      }
      var id := payeeId.value;
      if id !in repository.rows {
        return Fail(NotFoundById + id);
      }
      var merchant := ToDomain(Some(repository.rows[id]));
      r := merchant.ReceivePayment(amount);
      if r.Fail? {
        return;
      }
      r := repository.Save(ToEntity(merchant), saveAnswer);
    }
  }
}
