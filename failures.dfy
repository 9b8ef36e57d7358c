/** The exceptions the Kotlin core raises or lets through. */
module Failures {

  datatype Failure =
    /** `CodefApiException(msg)`, raised by `CodefClient`. */
    | CodefApiException(message: string)
    /** Whatever the HTTP client itself throws: connection errors, error statuses, bodies it cannot deserialise. */
    | HttpClientException(reason: string)
    /** Kotlin's failed cast of `null` to a non-null type. */
    | NullPointerException(message: string)
    /** Kotlin's failed cast of a value of another class. */
    | ClassCastException
    | IllegalArgumentException(message: string)
    | IllegalStateException(message: string)
}
