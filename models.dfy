/** Shared data model of the front end: roles, the authentication response,
    the backend error payload, and the optional/result wrappers the other
    modules use for `null` and for failed HTTP calls. */
module Models {

  /** A value that may be `null` (or absent from storage). */
  datatype Option<+T> = None | Some(value: T)

  /** The outcome of an HTTP call: the decoded body, or the error response. */
  datatype Result<+T, +E> = Success(value: T) | Failure(error: E)

  /** `Ruolo`: the two roles the backend knows. */
  datatype Ruolo = ADMIN | UTENTE

  /** The string the role travels as (in JSON and in storage). */
  function RoleName(r: Ruolo): (name: string)
    ensures name != ""
  {
    match r
    case ADMIN => "ADMIN"
    case UTENTE => "UTENTE"
  }

  /** Body of the login and refresh responses. `ruolo` is a plain string on
      the wire; the client stores and publishes it as it arrives. */
  datatype AuthResponseDTO = AuthResponseDTO(
    accessToken: string,
    refreshToken: string,
    codiceFiscale: string,
    ruolo: string)

  /** Body of the login call. */
  datatype LoginRequest = LoginRequest(codiceFiscale: string, password: string)

  /** Body of the registration call. */
  datatype RegistrazioneRequest = RegistrazioneRequest(
    codiceFiscale: string,
    password: string,
    nome: string,
    cognome: string,
    dataNascita: string)

  /** The backend's error payload. */
  datatype ErrorResponse = ErrorResponse(
    timestamp: string,
    status: int,
    error: string,
    message: string,
    path: string)

  /** A failed HTTP call: its status and, when the body parsed as JSON, the payload. */
  datatype HttpError = HttpError(status: int, body: Option<ErrorResponse>)

  /** JavaScript truthiness of a `string | null`: both `null` and `""` are false. */
  predicate Present(s: Option<string>)
  {
    s.Some? && s.value != ""
  }
}
