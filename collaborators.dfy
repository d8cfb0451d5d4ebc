/**
 * The inputs every file-operation handler receives from code outside the
 * modelled handlers: the application configuration, the bearer token, the
 * claims extractor, the path resolver and the read-only guard. Their
 * internals live in files this model does not contain, so each is an
 * uninterpreted function handed to the handler as a parameter.
 */
module Collaborators {
  import opened Wrappers

  /** The verified token payload (subject, user id, role, expiry). */
  datatype Claims = Claims(sub: string, id: int, role: int, exp: nat)

  /**
   * The part of the application configuration the handlers read: the two
   * secrets the handlers pass to the claims extractor (`config.jwt.secret`
   * and `config.server.secret`) and the read-only flag.
   */
  datatype Config = Config(jwtSecret: string, serverSecret: string, readOnly: bool)

  /** The raw token taken from the `Authorization` header. */
  datatype Jwt = Jwt(token: string)

  /** Error values produced by the hidden collaborators; their wording is theirs. */
  datatype AuthError = AuthError(message: string)
  datatype GuardError = GuardError(message: string)
  datatype PathError = PathError(message: string)
  datatype IoError = IoError(message: string)

  /** A resolved absolute filesystem path, as `resolve_path` returns it. */
  type Path = string

  /** `jwt::extract_claims(token, secret)`. */
  type ExtractClaims = (string, string) -> Result<Claims, AuthError>

  /** `resolve_path(id, relative)` where the caller treats it as fallible. */
  type ResolvePath = (int, string) -> Result<Path, PathError>

  /** `read_only_guard(config)`. */
  type ReadOnlyGuard = Config -> Result<(), GuardError>

  /** What `ErrorInternalServerError` wraps: an I/O error or a message. */
  datatype InternalCause = FromIo(io: IoError) | Message(text: string)

  /** The error a handler answers with, tagged by the step that produced it. */
  datatype HandlerError =
    | ReadOnlyRefused(guard: GuardError)
    | ClaimsRejected(auth: AuthError)
    | PathRejected(path: PathError)
    | FsFailed(io: IoError)
    | InternalServerError(cause: InternalCause)
}
