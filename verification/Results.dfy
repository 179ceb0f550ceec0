module Results {
  datatype Option<+T> = None | Some(value: T)

  /** The ways in which the drift code declines an input. */
  datatype DriftError =
    | Drift
    | EmptyEmbedding
    | DimensionMismatch(expected: nat, actual: nat)

  datatype Result<+T> = Ok(value: T) | Err(error: DriftError)
}
