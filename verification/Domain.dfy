/**
 The values the tunnel services pass around: profiles, runtime records and check results
 (app/domain/profile.py, app/domain/health.py, app/domain/supervisor.py).
 */
module Domain {
  import opened Wrappers

  /** What the operating system says about one process: ProcessIdentity. */
  datatype Identity = Identity(pid: int, created: real, exe: string)

  /** The remote half of a runtime record; either all five values are saved or none. */
  datatype Remote = Remote(user: string, sshdPid: int, startTicks: int, bootId: string, connection: string)

  /** RuntimeState: the ownership evidence a tunnel leaves in the store. */
  datatype Record = Record(
    name: string,
    pid: int,
    created: real,
    exe: string,
    tunnelId: string,
    supervisorPid: int,
    port: int,
    probedAt: Option<int>,
    remote: Option<Remote>)

  /** The process a record names. */
  function RecId(r: Record): Identity {
    Identity(r.pid, r.created, r.exe)
  }

  datatype Managed = Managed(
    host: string,
    username: string,
    sshPort: nat,
    keyId: string,
    hostKeyType: string,
    fingerprint: string)

  /** Profile: `managed.None?` is schema version 1 (legacy), `managed.Some?` is version 2. */
  datatype Profile = Profile(
    name: string,
    sshTarget: string,
    localProxyPort: int,
    remotePort: int,
    autoReconnect: bool,
    endpointUrl: string,
    managed: Option<Managed>)

  /** The error codes that decide a branch or are part of a stated result. */
  datatype Code =
    | ListenerAbsent | UnsafeRemoteBinding | RemoteCheckFailed | RemotePortConflict
    | TunnelStartFailed | ProcessIdentityUnavailable | ProcessIdentityMismatch
    | RemoteIdentityUnavailable | RemoteIdentityInvalid | RemoteIdentityMismatch | TunnelExited
    | ProcessStopTimeout | ProcessStopFailed | ProfileNotFound | ProfileBusy | SupervisorFailed
    | ExecutableNotFound | ProcessStartFailed | SshForwardingDenied | EndpointUnhealthy | LocalProxyUnhealthy
    | RuntimeStateUnavailable | RuntimeStopInProgress | StaleCleanupFailed

  datatype CheckStatus = PASS | FAIL | SKIP

  datatype Check = Check(status: CheckStatus, code: Option<Code>) {
    predicate Passed() { status == PASS }
  }
}
