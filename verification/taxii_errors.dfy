/** The error taxonomy of the client (src/error.rs) and its `Result` alias. */
module TaxiiErrors {

  /** A raw HTTP response as the transport hands it over. Its body is only
      ever read by a decoder, which the model treats as an oracle. */
  datatype Response = Response(status: int, body: string)

  /** One variant per `TaxiiError` variant; the payloads are opaque. */
  datatype TaxiiError =
    | TaxiiConnectionError(message: string)
    | TaxiiAuthorizationError(response: Response)
    | TaxiiNotFound(response: Response)
    | TaxiiGenericError(response: Response)
    | TaxiiCollectionError(message: string)
    | JsonDeserializationError(message: string)

  /** `Result<T> = std::result::Result<T, Box<TaxiiError>>`; usable with `:-`. */
  datatype Result<+T> = Ok(value: T) | Err(error: TaxiiError) {

    predicate IsFailure() {
      Err?
    }

    function PropagateFailure<U>(): Result<U>
      requires Err?
    {
      Err(error)
    }

    function Extract(): T
      requires Ok?
    {
      value
    }
  }

  /** The kinds of error that the transport step alone can produce. */
  predicate IsTransportError(e: TaxiiError) {
    e.TaxiiConnectionError? || e.TaxiiAuthorizationError? || e.TaxiiNotFound? || e.TaxiiGenericError?
  }
}
