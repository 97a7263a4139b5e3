/**
 * The answers a `paramiko.ServerInterface` hook may give. Paramiko itself is
 * not part of this model; only the values the honeypot returns to it are.
 */
module Paramiko {

  /** Replies to a channel-open request (`OPEN_SUCCEEDED`, `OPEN_FAILED_*`). */
  datatype OpenResult =
    | OpenSucceeded
    | OpenFailedAdministrativelyProhibited
    | OpenFailedConnectFailed
    | OpenFailedUnknownChannelType
    | OpenFailedResourceShortage

  /** Replies to an authentication request (`AUTH_*`). */
  datatype AuthResult = AuthSuccessful | AuthPartiallySuccessful | AuthFailed
}
