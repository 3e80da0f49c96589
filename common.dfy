/** Vocabulary shared by every part of the model: document ids, optional values,
    handler outcomes and the result of a JavaScript division. */
module Common {

  /** A MongoDB ObjectId. Only equality matters to the code modelled here, so ids are
      naturals; stores hand out fresh ones from a counter. */
  type Id = nat

  datatype Option<+T> = None | Some(value: T)

  /** What a request handler sends back: a value with a success status, or an error
      status with the text it puts in the response body. */
  datatype Outcome<+T> = Ok(value: T) | Fail(status: int, message: string)

  /** An error object as it travels through `next(err)`: `statusCode` is None when the
      property is undefined. */
  datatype AppError = AppError(statusCode: Option<int>, message: string)

  /** A JavaScript quotient: a finite number, or NaN / Infinity when the divisor is 0. */
  datatype Ratio = Finite(value: real) | NotFinite

  /** `(a / b) * 100` as JavaScript evaluates it on two numbers. */
  function PercentOf(a: int, b: int): (r: Ratio)
    ensures r.Finite? <==> b != 0
    ensures r.Finite? ==> r.value * (b as real) == (a as real) * 100.0
  {
    if b == 0 then NotFinite else Finite((a as real / b as real) * 100.0)
  }
}
