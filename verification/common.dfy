/** Shared vocabulary of the banking services: identifiers, money, nullable
    values, exceptions as return values, and the answers of collaborators. */
module Common {

  /** A UUID, represented by its canonical text (what `toString()` yields). */
  type Id = string

  /** A `BigDecimal` amount as an exact rational: amounts are only ever
      compared with `compareTo`, added and subtracted, so scale plays no part. */
  type Money = real

  /** A Java reference that may be `null`. */
  datatype Option<+T> = None | Some(value: T)

  /** Normal completion, or an exception carrying its message. */
  datatype Outcome<+E> = Pass | Fail(error: E)

  /** A returned value, or an exception carrying its message. */
  datatype Result<+R, +E> = Success(value: R) | Failure(error: E)

  /** What one call into a collaborator (a repository, Kafka, an e-mail
      notifier) does: return normally or throw. Supplied by the environment. */
  datatype Answer = Returns | Throws(message: string)

  /** Message of the exception Spring Data raises for `findById(null)`. */
  const NullIdMessage := "The given id must not be null"

  /** Stands for the JVM's message of the `NullPointerException` raised by
      `null.toString()` (since JDK 15 a longer "helpful" text); it only ever
      appears as the payload of a `Fail`, never in anything sent. */
  const NullPointerMessage := "NullPointerException"

  /** Outcome of a collaborator call with the given answer. */
  function AsOutcome(a: Answer): (r: Outcome<string>)
    ensures r.Pass? <==> a.Returns?
    ensures r.Fail? ==> r.error == a.message
  {
    match a
    case Returns => Pass
    case Throws(m) => Fail(m)
  }

  /** How Java renders a possibly-null string with `+` and `%s`. */
  function Text(s: Option<string>): string {
    match s
    case None => "null"
    case Some(v) => v
  }

  /** `t` occurs in `s` starting at position `k`. */
  ghost predicate OccursAt(t: string, s: string, k: int) {
    0 <= k <= |s| - |t| && s[k..k + |t|] == t
  }

  /** `s.contains(t)`. */
  ghost predicate IsInfix(t: string, s: string) {
    exists k :: OccursAt(t, s, k)
  }

  /** A string occurs in any text that has it between a prefix and a suffix. */
  lemma InfixBetween(a: string, t: string, b: string)
    ensures IsInfix(t, a + t + b)
  {
    var s := a + t + b;
    assert s[|a|..|a| + |t|] == t;
    assert OccursAt(t, s, |a|);
  }
}
