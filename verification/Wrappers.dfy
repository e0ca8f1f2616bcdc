/** Failure-compatible datatypes shared by the model. */
module Wrappers {

  datatype Option<+T> = None | Some(value: T)

  /** How an awaited step ended: it completed, or the execution stopped there
      (an exception left the function, or the process was killed). */
  datatype Outcome = Completed | Stopped {
    predicate IsFailure() {
      Stopped?
    }

    function PropagateFailure(): Outcome
      requires Stopped?
    {
      this
    }
  }

  /** An execution that survives `before` suspensions passes at most `cost` of them, and stops only when
      it survives fewer: with a budget of `cost` it completes. */
  predicate Spends(before: nat, after: nat, cost: nat, o: Outcome) {
    if o == Completed then after <= before <= after + cost else after == 0 && before < cost
  }
}
