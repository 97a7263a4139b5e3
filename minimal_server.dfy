/**
 * server.py: the minimal, fixed-configuration server. It listens on port 22
 * (`PUERTO`) with a backlog of 10 (`MAX_CONEXIONES`), always presents the
 * Raspbian banner, reads its key from `llave_rsa` (`KEY_FILE_NAME`) and logs
 * to `log.txt`; `Servidor` is its policy object. Only the banner, the log and
 * the policy are modelled.
 */
module MinimalServer {
  import opened Wrappers
  import opened Paramiko
  import opened CredentialLog
  import SshHoneypot

  /** `LOG_FILE_NAME`. */
  const LogFileName := "log.txt"

  /** The `local_version` every transport announces. */
  function Banner(): (b: string)
    ensures b == SshHoneypot.Banners[SshHoneypot.DefaultBannerIndex]
  {
    "SSH-2.0-OpenSSH_7.4p1 Raspbian-10+deb9u2"
  }

  /** The policy object for one connection (`Servidor(direccion_cliente)`). */
  class Servidor {
    /** The peer's `(host, port)` as `accept()` returned it. */
    const direccionCliente: (string, int)
    /** `log.txt`, shared with every other connection, and its lock. */
    const log: LogFile
    const console: Console

    /** Every `Servidor` writes to the one fixed log file. */
    predicate Valid()
    {
      log.path == LogFileName
    }

    constructor (direccionCliente: (string, int), log: LogFile, console: Console)
      requires log.path == LogFileName
      ensures Valid()
      ensures this.direccionCliente == direccionCliente && this.log == log && this.console == console
    {
      this.direccionCliente := direccionCliente;
      this.log := log;
      this.console := console;
    }

    /** `check_channel_request`: only interactive sessions may be opened. */
    function CheckChannelRequest(kind: string, chanid: int): (r: OpenResult)
      ensures r == OpenSucceeded <==> kind == "session"
      ensures r != OpenSucceeded ==> r == OpenFailedAdministrativelyProhibited
    {
      if kind == "session" then OpenSucceeded else OpenFailedAdministrativelyProhibited
    }

    /**
     * `check_auth_password`: append the attempt to `log.txt` under the lock,
     * then refuse it. The IP written is the host of the constructor's address.
     * If opening the log, printing or writing raises, the lock is still released
     * and the exception is what the call produces; no path grants access.
     */
    method CheckAuthPassword(username: string, password: string, consoleTime: string, fileTime: string, io: IoOutcome)
      returns (r: Result<AuthResult, IoError>)
      requires Valid() && !log.locked
      modifies log, console
      ensures Valid() && !log.locked
      ensures r.Success? ==> r.value == AuthFailed
      ensures r == if io == Completed then Success(AuthFailed) else Failure(Raised(io))
      ensures log.lines == if io == Completed then old(log.lines) + [FileLine(fileTime, direccionCliente.0, username, password)]
                           else old(log.lines)
      ensures console.lines == if io == OpenFailed || io == PrintFailed then old(console.lines)
                               else old(console.lines) + [Record(consoleTime, direccionCliente.0, username, password)]
    {
      var logged := CaptureAttempt(log, console, consoleTime, fileTime, direccionCliente.0, username, password, io);
      match logged
      case Success(_) => r := Success(AuthFailed);
      case Failure(e) => r := Failure(e);
    }
  }
}
