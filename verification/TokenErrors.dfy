/** Errors of the token endpoint (code_grant/error.rs and the `Error` types of its two flows). */
module TokenErrors {
  import opened Registrars

  datatype TokenErrorType = InvalidRequest | InvalidClient | InvalidGrant | UnsupportedGrantType | InvalidScope

  /** An unauthorized client is always told `InvalidClient`. */
  datatype TokenError = Invalid(kind: TokenErrorType) | Unauthorized(authtype: string) | Primitive

  /** How both loops report a failed client authentication. */
  function FromRegistrar(e: RegistrarError): TokenError {
    match e
    case Unspecified => Unauthorized("basic")
    case RegistrarFailure => Primitive
  }
}
