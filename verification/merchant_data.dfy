/** The persisted merchant row (`MerchantEntity`) and the merchant
    repository, modelled as a map from id to row. */
module MerchantData {
  import opened Common

  /** `MerchantEntity`. */
  datatype MerchantEntity = MerchantEntity(
    id: Option<Id>,
    name: string,
    email: string,
    phone: string,
    balance: Money,
    currency: string)

  /** Message of the exception the persistence layer raises for a row without an id. */
  const MissingIdMessage := "ids for this class must be manually assigned before calling save()"

  /** Message of the exception a single-result query raises on several matches. */
  const NonUniqueMessage := "query did not return a unique result"

  /** `MerchantRepository` (and the entity manager's `persist`): one row per id. */
  class MerchantRepository {
    var rows: map<Id, MerchantEntity>

    /** Every row is stored under its own id. */
    ghost predicate Valid()
      reads this
    {
      forall k :: k in rows ==> rows[k].id == Some(k)
    }

    constructor ()
      ensures Valid() && rows == map[]
    {
      rows := map[];
    }

    /** `save` and `persist`: insert or overwrite the row under its id;
        `answer` says whether the database accepts the write or throws. */
    method Save(e: MerchantEntity, answer: Answer) returns (r: Outcome<string>)
      requires Valid()
      modifies this
      ensures Valid()
      ensures r.Pass? <==> e.id.Some? && answer.Returns?
      ensures e.id.None? ==> r == Fail(MissingIdMessage)
      ensures e.id.Some? ==> r == AsOutcome(answer)
      ensures rows == if r.Pass? then old(rows)[e.id.value := e] else old(rows)
    {
      if e.id.None? {
        return Fail(MissingIdMessage);
      }
      r := AsOutcome(answer);
      if r.Pass? {
        rows := rows[e.id.value := e];
      }
    }

    /** The ids of the rows with this e-mail: the derived `findByEmail`
        query. `WithPhone` is the same query on the phone column, kept as a
        member of its own because the repository declares both. */
    function WithEmail(email: string): (ids: set<Id>)
      reads this
      ensures forall k :: k in ids <==> k in rows && rows[k].email == email
    {
      set k | k in rows && rows[k].email == email
    }

    /** The ids of the rows with this phone number: `findByPhone`. */
    function WithPhone(phone: string): (ids: set<Id>)
      reads this
      ensures forall k :: k in ids <==> k in rows && rows[k].phone == phone
    {
      set k | k in rows && rows[k].phone == phone
    }
  }
}
