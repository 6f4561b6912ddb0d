/** What may go wrong outside: every statement of the database has an outcome, which the caller learns only in part. */
module Faults {

  /** Carried out and answered; refused; or carried out although the caller gets an error. */
  datatype Outcome = Served | Refused | Unreported

  /** Every statement from `first` to before `next` was carried out and answered. */
  ghost predicate AllServed(outcomes: nat -> Outcome, first: nat, next: nat) {
    forall c :: first <= c < next ==> outcomes(c) == Served
  }

  lemma ServedBoth(outcomes: nat -> Outcome, first: nat, middle: nat, next: nat)
    requires first <= middle <= next
    ensures AllServed(outcomes, first, next) <==>
            AllServed(outcomes, first, middle) && AllServed(outcomes, middle, next)
  {
  }

  lemma ServedOne(outcomes: nat -> Outcome, first: nat)
    ensures AllServed(outcomes, first, first + 1) <==> outcomes(first) == Served
  {
  }
}
