/** `MerchantMapper`: field copies between the domain object and the row. */
module MerchantMapping {
  import opened Common
  import opened MerchantModel
  import opened MerchantData

  /** `toEntity`. */
  function ToEntity(m: Merchant): MerchantEntity
    reads m
  {
    MerchantEntity(m.id, m.name, m.email, m.phone, m.balance, m.currency)
  }

  /** The row determines the merchant: two merchants map to the same row
      exactly when they agree on all six fields. */
  lemma ToEntityInjective(m: Merchant, n: Merchant)
    ensures ToEntity(m) == ToEntity(n) <==>
      && m.id == n.id && m.name == n.name && m.email == n.email
      && m.phone == n.phone && m.balance == n.balance && m.currency == n.currency
  {
  }

  /** `toDomain`: `null` for `null`; otherwise a new merchant that maps back
      to the same row. With `ToEntityInjective` this gives both round trips:
      `toEntity(toDomain(e)) == e`, and `toDomain(toEntity(m))` agrees with `m`
      on all six fields. */
  method ToDomain(e: Option<MerchantEntity>) returns (m: Merchant?)
    ensures e.None? <==> m == null
    ensures m != null ==> fresh(m) && ToEntity(m) == e.value
  {
    if e.None? {
      return null;
    }
    var row := e.value;
    m := new Merchant(row.id, row.name, row.email, row.phone, row.balance, row.currency);
  }
}
