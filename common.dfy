/** Values shared by every part of the model: optional values, results of
    library and SDK calls, and the three ways a flow of this tool can end. */
module Common {

  datatype Option<+T> = None | Some(value: T)

  /** What a library or SDK call answers: a value, or the error it returned. */
  datatype Result<+T, +E> = Success(value: T) | Failure(error: E)

  /** The Aliyun SDK's error kinds: a server error carries the error code
      the service answered with; a client error never came from the service. */
  datatype SdkError = ServerError(code: string) | ClientError(message: string)

  /** Every error this core can produce, named after where it is raised. */
  datatype Error =
    | MissingAccountData                 // non-new user without a stored registration resource
    | NotDue                             // renewal asked for while the certificate still has time left
    | CaCertificate                      // the bundle starts with a CA certificate
    | EmptyBundle                        // the parsed bundle holds no certificate at all
    | InvalidCredentials                 // empty access key id or secret
    | DomainStillValid                   // the load balancer already holds a valid certificate
    | ListenerStartFailed(port: int, loadBalancerId: string, body: string)
    | Library(cause: string)             // an error returned by the ACME library or a crypto/JSON call
    | Sdk(sdk: SdkError)                 // an error returned by the Aliyun SDK

  /** How a flow ends: with a value, with an error returned to the caller,
      or by terminating the whole process (Go's log.Fatal). */
  datatype Outcome<+T> = Ok(value: T) | Err(error: Error) | Fatal(reason: Error)
}
