/** The outcome type of the setup services: a value, or the code of the RABError that was raised. */
module SetupErrors {
  /** The steps whose exceptions, when they are not RABErrors, can leave something behind. */
  datatype Place = ReadingAuthorizedKeys | TestingKeyLinks | Elsewhere

  /** `Escaped` is any other exception; a setup reports it as SSH_BOOTSTRAP_FAILED, like `BootstrapFailed`. */
  datatype SetupError =
    | ProfileInvalid | ProfileExists | ProfileBusy | DiscoveryFailed | RemotePortUnavailable | ManagedSetupFailed
    | HandshakeFailed | AuthenticationFailed | BootstrapFailed | BatchLoginFailed
    | HostKeyConfirmationRequired | HostKeyChanged | HostKeyRejected | HostKeyInvalid
    | KnownHostsUnavailable | KnownHostsWriteFailed
    | KeyIdInvalid | KeyNotFound | KeyInvalid | KeyGenerationFailed
    | AuthorizedKeysUnsafe | AuthorizedKeysWriteFailed
    | RollbackFailed
    | Escaped(place: Place)

  datatype Result<+T> = Ok(value: T) | Err(error: SetupError)

  /** How the system lets one step end: well, with a RABError, or with another exception. */
  datatype Fault = Fine | Refused | Escapes
}
