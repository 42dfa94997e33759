/** Small value types shared by the rest of the model. */
module Common {

  /**
   * An optional JSON field: absent (`None`) or holding a value of the
   * expected type.  A field present with `null` is not represented.
   */
  datatype Option<+T> = None | Some(value: T) {
    function GetOr(default: T): T {
      match this
      case Some(v) => v
      case None => default
    }
  }

  /** The outcome of an operation that raises on failure in the source. */
  datatype Result<+T, +E> = Success(value: T) | Failure(error: E)

  /**
   * The exceptions the upload and directory code raises: a failed request
   * (`requests.exceptions.RequestException`), an error status surfaced by
   * `raise_for_status`, and the three `Exception`s of the upload handler
   * ("Server error", "Upload URL error", "File ID error").  A chunk size of
   * zero, which makes the source divide by zero, is `ZeroChunkSize`.
   */
  datatype Error =
    | NetworkError
    | HttpStatusError(status: int)
    | ServerError
    | UploadUrlError(partNumber: nat)
    | FileIdError
    | ZeroChunkSize

  /** One byte of the uploaded file. */
  newtype byte = x: int | 0 <= x < 256

  /** Python truthiness of an optional string: present and not empty. */
  predicate Present(s: Option<string>) {
    s.Some? && s.value != ""
  }
}
