/** Outcome types shared by the harness: an optional value for quantities
    that the numeric library leaves undefined, and a success/failure result
    for steps that raise. */
module Results {

  /** `None` stands for a value numpy would report as NaN or infinity. */
  datatype Option<+T> = None | Some(value: T)

  /** `Err` stands for an exception that ends the evaluation run. */
  datatype Result<+T, +E> = Ok(value: T) | Err(error: E)
}
