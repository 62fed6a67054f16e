/** Outcome types shared by the contract models: a reverted call is an `Err`,
    and Java's nullable references become `Option`. */
module Results {

  /** The result of a contract call: `Ok` with the successor value, or `Err`
      with the reason the call reverted (a failed `require`). */
  datatype Result<+T, +E> = Ok(value: T) | Err(error: E)

  /** A possibly-null reference. */
  datatype Option<+T> = None | Some(value: T)
}
