/**
 * The JavaScript and driver semantics the services and controllers rely on:
 * optional request fields, truthiness, `||` defaulting, and the outcome of a
 * service call (a resolved value or a rejected promise).
 */
module Js {

  /** A request field or nullable column: `None` stands for `undefined` / `null` / SQL NULL. */
  datatype Option<+T> = None | Some(value: T)

  /** Why a service call was rejected. */
  datatype Failure =
    | StoreError(statement: nat)   // the store refused statement number `statement` of the operation
    | NotFound                     // a checked update found no row (only the corrected ledger raises it)

  /** How a service promise settles. */
  datatype Outcome<+T> = Resolved(value: T) | Rejected(error: Failure)

  /** JavaScript truthiness of a numeric field: `undefined`, `null` and `0` are falsy. */
  predicate TruthyInt(v: Option<int>)
  {
    v.Some? && v.value != 0
  }

  /** JavaScript truthiness of a string field: `undefined`, `null` and `""` are falsy. */
  predicate TruthyString(v: Option<string>)
  {
    v.Some? && v.value != ""
  }

  /** `v || fallback` for a string field. */
  function OrElse(v: Option<string>, fallback: string): (r: string)
    ensures TruthyString(v) ==> r == v.value
    ensures !TruthyString(v) ==> r == fallback
  {
    if TruthyString(v) then v.value else fallback
  }

  /** Statements `0 .. n-1` of an operation all succeed when none of them is in `faults`. */
  predicate AllSucceed(faults: set<nat>, n: nat)
  {
    forall k: nat :: k < n ==> k !in faults
  }

  /**
   * `e` is the error of the first statement below `n` that is in `faults`: the one a
   * sequence of awaited queries rejects with.
   */
  predicate RaisedFirst(faults: set<nat>, e: Failure, n: nat)
  {
    && e.StoreError?
    && e.statement < n
    && e.statement in faults
    && AllSucceed(faults, e.statement)
  }
}
