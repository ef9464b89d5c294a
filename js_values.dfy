/**
 * The few JavaScript value conventions the portal's client code relies on:
 * absent values, the `||` and `??` defaulting operators, values read back
 * from the database that may be `undefined` or `null`, and the `NaN` that
 * arises when `undefined` takes part in an addition.
 */
module JsValues {

  datatype Option<+T> = None | Some(value: T)

  /** A computation that either yields a value or throws a typed error. */
  datatype Result<+T, +E> = Ok(value: T) | Err(error: E)

  /** `x || d` on a nullable number: `null`, `undefined` and `0` are falsy. */
  function OrDefault(x: Option<int>, d: int): (r: int)
    ensures x.None? ==> r == d
    ensures x.Some? && x.value != 0 ==> r == x.value
    ensures x.Some? && x.value == 0 ==> r == d
  {
    match x
    case None => d
    case Some(v) => if v != 0 then v else d
  }

  /** `x ?? d` on a nullable number: only `null` and `undefined` are replaced. */
  function Coalesce(x: Option<int>, d: int): (r: int)
    ensures x.None? ==> r == d
    ensures x.Some? ==> r == x.value
  {
    match x
    case None => d
    case Some(v) => v
  }

  /** JavaScript truthiness of a nullable number. */
  predicate Truthy(x: Option<int>) {
    x.Some? && x.value != 0
  }

  /** A number read from a record that may be missing (`undefined`), SQL `NULL` (`null`), or present. */
  datatype Reported = Undefined | Null | Value(n: int) {
    /** The value `null` takes in arithmetic and comparisons (`null < 3`, `null + 2`). */
    function AsNumber(): (r: int)
      requires !Undefined?
    {
      if Null? then 0 else n
    }
  }

  /** A JavaScript number restricted to what the pricing code can produce: a real amount or `NaN`. */
  datatype Num = Finite(amount: real) | NaN

  /**
   * `a + b + c` where `b` and `c` may be `undefined`, which turns the sum into `NaN`.
   * A model of the JavaScript primitive: its ensures only expose the body to callers.
   */
  function SumWithUndefined(a: real, b: Option<real>, c: Option<real>): (r: Num)
    ensures r.Finite? <==> b.Some? && c.Some?
    ensures r.Finite? ==> r.amount - a - b.value == c.value
  {
    if b.Some? && c.Some? then Finite(a + b.value + c.value) else NaN
  }
}
