/** Shared value types: optional columns, outcomes of calls, and identifiers. */
module Prelude {

  datatype Option<+T> = None | Some(value: T)

  datatype Result<+T, +E> = Ok(value: T) | Err(error: E)

  /** Identifiers the services store.  A random uuid is `Uuid(n)` with `n` drawn from a
      counter, so a new one differs from every earlier one; a hashed identity is the
      triple it is hashed from, so two of them are equal exactly when their inputs are. */
  datatype Id =
    | Uuid(n: nat)
    | Derived(scope: Scope, principal: nat, key: nat)
    | StrengthsOf(job: Id)

  datatype Scope = RecordingScope | RecordingJobScope

  /** Every uuid inside `id` was drawn before the counter reached `next`. */
  predicate Known(id: Id, next: nat) {
    match id
    case Uuid(n) => n < next
    case Derived(_, _, _) => true
    case StrengthsOf(job) => Known(job, next)
  }

  lemma {:induction false} KnownMonotone(id: Id, next: nat, later: nat)
    requires Known(id, next) && next <= later
    ensures Known(id, later)
  {
    match id
    case Uuid(_) =>
    case Derived(_, _, _) =>
    case StrengthsOf(job) => KnownMonotone(job, next, later);
  }

  lemma FullSubset<T>(a: set<T>, b: set<T>)
    requires a <= b && |a| == |b|
    ensures a == b
  {
    assert |b - a| == |b| - |a|;
  }
}
