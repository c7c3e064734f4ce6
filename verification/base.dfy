/** Value types shared by every module of the model. */
module Base {

  /** An optional value: `nil`, `null` and `undefined` in the source. */
  datatype Option<+T> = None | Some(value: T)

  /** The `(value, error)` pair of a Go call, with the error as its message text. */
  datatype Result<+T> = Ok(value: T) | Err(error: string)

  /** A UUID, represented by its canonical 36-character text form. */
  type Uuid = string

  /** The zero value of `uuid.UUID`. */
  const NilUuid: Uuid := "00000000-0000-0000-0000-000000000000"
}
