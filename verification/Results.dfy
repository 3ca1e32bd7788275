/** Error kinds and result wrappers shared by every store operation.
    Only the kind of an error is modelled, never its message. */
module Results {

  /** NotFound: no matching row, or a row the requesting user may not see.
      ConstraintViolation: the insert collided with an existing primary key. */
  datatype DbError = NotFound | ConstraintViolation

  /** Outcome of a get: the stored record, or an error kind. */
  datatype Result<T> = Ok(value: T) | Err(error: DbError)

  /** Outcome of a create: nothing on success, an error kind otherwise. */
  datatype Status = Success | Failure(error: DbError)
}
