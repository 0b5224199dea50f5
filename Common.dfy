/** Small helpers shared by every module: optional values, handler results and the
    error taxonomy of the route handlers. */
module Common {

  /** A nullable column or an absent request field. */
  datatype Option<+T> = None | Some(value: T)

  /** What a route handler answers: a value, or an error after which nothing was written. */
  datatype Result<+T> = Ok(value: T) | Err(error: Error)

  /** The error outcomes the handlers distinguish. */
  datatype Error =
    | NotFound                      // row absent, of another tenant, or in the wrong status
    | UnknownPartner                // the partner reference does not resolve (foreign key)
    | InsufficientStock(material: nat)
    | InvalidCalculation            // a division by a zero sample or a zero net weight

  /** `parseFloat(x) || 0` on a value that is either a number or missing. */
  function OrZero(x: Option<real>): real
  {
    if x.Some? then x.value else 0.0
  }

  /** `a ?? b`: the column value, or the fallback when it is null. */
  function OrElse(x: Option<real>, fallback: real): real
  {
    if x.Some? then x.value else fallback
  }

  function Min(a: real, b: real): real
  {
    if a <= b then a else b
  }
}
