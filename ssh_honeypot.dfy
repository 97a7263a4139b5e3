/**
 * ssh-honeypot.py: the configurable honeypot. `Server` is the policy object
 * paramiko consults for each connection (channel opens, password attempts);
 * the rest turns command-line values into the listener's configuration.
 */
module SshHoneypot {
  import opened Wrappers
  import opened Text
  import opened Util
  import opened Paramiko
  import opened CredentialLog

  /** `LOG_FILE_NAME`: the log used when no `--output` is given. */
  const LogFileName := "ssh-honeypot.log"

  /** `BANNERS`: the catalog `--banner INDEX` chooses from. */
  const Banners: seq<string> := [
    "",
    "OpenSSH_5.9p1 Debian-5ubuntu1.4",
    "OpenSSH_7.2p2 Ubuntu-4ubuntu2.1",
    "OpenSSH_7.6p1 Ubuntu-4ubuntu0.3",
    "OpenSSH_6.6.1",
    "OpenSSH_6.7p1 Debian-5+deb8u3",
    "OpenSSH_7.5",
    "dropbear_2014.63",
    "SSH-2.0-OpenSSH_7.4p1 Raspbian-10+deb9u2"
  ]

  /** The catalog entry used when neither `--banner` nor `--banner-string` is given. */
  const DefaultBannerIndex := 8
  const DefaultNumber := 10
  const DefaultPort := 2222
  /** `IntRange(min=1)`, the type of `--number`. */
  const NumberRange := IntRange(Some(1), None)
  /** `IntRange(1, 65535)`, the type of `--port`. */
  const PortRange := IntRange(Some(1), Some(65535))

  /** The Raspbian entry is the default, and the only entry with the `SSH-2.0-` protocol prefix. */
  lemma DefaultBanner()
    ensures Banners[DefaultBannerIndex] == "SSH-2.0-OpenSSH_7.4p1 Raspbian-10+deb9u2"
    ensures forall i :: 0 <= i < |Banners| ==> (StartsWith(Banners[i], "SSH-2.0-") <==> i == DefaultBannerIndex)
  {
    forall i | 0 <= i < |Banners|
      ensures StartsWith(Banners[i], "SSH-2.0-") <==> i == DefaultBannerIndex
    {
      if i == DefaultBannerIndex {
        assert Banners[i][..8] == "SSH-2.0-";
      } else if i == 0 {
        assert Banners[i] == "";
      } else if i == 7 {
        assert Banners[i][0] == 'd';
      } else {
        assert Banners[i][0] == 'O';
      }
    }
  }

  /** The policy object for one connection (`Server(client_address, log_file_name)`). */
  class Server {
    /** The peer's `(host, port)` as `accept()` returned it. */
    const clientAddress: (string, int)
    const logFileName: string
    /** The log opened by `logFileName`, shared with every other connection, and its lock. */
    const log: LogFile
    const console: Console

    constructor (clientAddress: (string, int), log: LogFile, console: Console)
      ensures this.clientAddress == clientAddress && this.log == log && this.console == console
      ensures logFileName == log.path
    {
      this.clientAddress := clientAddress;
      this.logFileName := log.path;
      this.log := log;
      this.console := console;
    }

    /** `check_channel_request`: only interactive sessions may be opened. */
    function CheckChannelRequest(kind: string, chanid: int): (r: OpenResult)
      ensures r == OpenSucceeded <==> kind == "session"
      ensures r != OpenSucceeded ==> r == OpenFailedAdministrativelyProhibited
    {
      if kind == "session" then OpenSucceeded else OpenFailedAdministrativelyProhibited
    }

    /**
     * `check_auth_password`: record the attempt under the log lock, then refuse
     * it. The IP written is the host of the address given at construction. If
     * opening the log, printing or writing raises, the lock is still released
     * and the exception is what the call produces; no path grants access.
     */
    method CheckAuthPassword(username: string, password: string, consoleTime: string, fileTime: string, io: IoOutcome)
      returns (r: Result<AuthResult, IoError>)
      requires !log.locked
      modifies log, console
      ensures !log.locked
      ensures r.Success? ==> r.value == AuthFailed
      ensures r == if io == Completed then Success(AuthFailed) else Failure(Raised(io))
      ensures log.lines == if io == Completed then old(log.lines) + [FileLine(fileTime, clientAddress.0, username, password)]
                           else old(log.lines)
      ensures console.lines == if io == OpenFailed || io == PrintFailed then old(console.lines)
                               else old(console.lines) + [Record(consoleTime, clientAddress.0, username, password)]
    {
      var logged := CaptureAttempt(log, console, consoleTime, fileTime, clientAddress.0, username, password, io);
      match logged
      case Success(_) => r := Success(AuthFailed);
      case Failure(e) => r := Failure(e);
    }
  }

  /** The option values as given on the command line (`None` when absent). */
  datatype RawArgs = RawArgs(
    listBanners: bool,
    banner: Option<string>,
    bannerString: Option<string>,
    file: Option<string>,
    number: Option<string>,
    output: Option<string>,
    port: Option<string>)

  /** The namespace `parse_args` returns; files are known by their paths. */
  datatype Options = Options(
    listBanners: bool,
    banner: Option<int>,
    bannerString: Option<string>,
    file: Option<string>,
    number: int,
    output: Option<string>,
    port: int)

  /** Why argparse refuses a value. */
  datatype ArgError =
    | InvalidInt(option: string, arg: string)
    | InvalidChoice(option: string, value: int)
    | InvalidValue(option: string, error: ArgumentTypeError)

  /** What `parse_args` guarantees of the values it returns. */
  predicate ValidOptions(opts: Options)
  {
    (opts.banner.Some? ==> 0 <= opts.banner.value < |Banners|) &&
    NumberRange.Admits(opts.number) && PortRange.Admits(opts.port)
  }

  /** `--banner INDEX`: `type=int`, then `choices=range(len(BANNERS))`. */
  function ConvertBanner(arg: string): (r: Result<int, ArgError>)
    ensures r.Success? <==> ParseInt(arg).Some? && 0 <= ParseInt(arg).value < |Banners|
    ensures r.Success? ==> r.value == ParseInt(arg).value
  {
    match ParseInt(arg)
    case None => Failure(InvalidInt("-b/--banner", arg))
    case Some(index) =>
      if 0 <= index < |Banners| then Success(index) else Failure(InvalidChoice("-b/--banner", index))
  }

  /** An option typed by an `IntRange`; its default is used as is when the option is absent. */
  function ConvertRanged(option: string, range: IntRange, arg: Option<string>, default: int): (r: Result<int, ArgError>)
    ensures r.Success? <==> arg.None? || range.Call(arg.value).Success?
    ensures r.Success? ==> r.value == if arg.None? then default else ParseInt(arg.value).value
    ensures arg.Some? && r.Success? ==> range.Admits(r.value)
    ensures r.Failure? ==> r.error == InvalidValue(option, range.Exception())
  {
    match arg
    case None => Success(default)
    case Some(text) =>
      match range.Call(text)
      case Success(value) => Success(value)
      case Failure(e) => Failure(InvalidValue(option, e))
  }

  /**
   * The value conversions of `parse_args`. argparse reports the first bad
   * value in command-line order; this model looks at them in declaration order.
   */
  function ParseArgs(raw: RawArgs): (r: Result<Options, ArgError>)
    ensures r.Success? <==>
      (raw.banner.Some? ==> ConvertBanner(raw.banner.value).Success?) &&
      (raw.number.Some? ==> NumberRange.Call(raw.number.value).Success?) &&
      (raw.port.Some? ==> PortRange.Call(raw.port.value).Success?)
    ensures r.Success? ==> ValidOptions(r.value)
    ensures r.Success? ==>
      r.value.banner == (if raw.banner.Some? then Some(ParseInt(raw.banner.value).value) else None) &&
      r.value.number == (if raw.number.Some? then ParseInt(raw.number.value).value else DefaultNumber) &&
      r.value.port == (if raw.port.Some? then ParseInt(raw.port.value).value else DefaultPort)
    ensures r.Success? ==> r.value.listBanners == raw.listBanners && r.value.bannerString == raw.bannerString
                           && r.value.file == raw.file && r.value.output == raw.output
  {
    var banner :=
      match raw.banner
      case None => Success(None)
      case Some(arg) =>
        match ConvertBanner(arg)
        case Success(index) => Success(Some(index))
        case Failure(e) => Failure(e);
    var number := ConvertRanged("-n/--number", NumberRange, raw.number, DefaultNumber);
    var port := ConvertRanged("-p/--port", PortRange, raw.port, DefaultPort);
    if banner.Failure? then Failure(banner.error)
    else if number.Failure? then Failure(number.error)
    else if port.Failure? then Failure(port.error)
    else
      Success(Options(raw.listBanners, banner.value, raw.bannerString, raw.file, number.value, raw.output, port.value))
  }

  /** What `start_server` runs with once the socket is bound. */
  datatype Config = Config(
    port: int,
    /** `--number`, the backlog passed to `listen()`. */
    number: int,
    keyFile: Option<string>,
    banner: string,
    logFile: string)

  /** What the program does with its command line. */
  datatype Action =
    | UsageError(error: ArgError)
    | ShowBanners
    | Refuse(message: string, status: int)
    | Serve(config: Config)

  const ConflictMessage := "[!] Error: --banner and --banner-string options cannot be used together.\n"

  /** The range of a C `long` on an LP64 POSIX system. */
  const LongMin: int := -0x8000_0000_0000_0000
  const LongMax: int := 0x7FFF_FFFF_FFFF_FFFF

  /**
   * The status a POSIX parent sees after `exit(code)`. A code that fits in a
   * C `long` keeps its low eight bits; CPython exits with -1, so status 255,
   * for one that does not.
   */
  function ExitStatus(code: int): (status: int)
    ensures 0 <= status < 256
    ensures LongMin <= code <= LongMax ==> (status - code) % 256 == 0
    ensures !(LongMin <= code <= LongMax) ==> status == 255
  {
    if LongMin <= code <= LongMax then code % 256 else 255
  }

  /** The banner `start_server` hands to every transport: index, else literal, else the default. */
  function SelectBanner(banner: Option<int>, bannerString: Option<string>): (b: string)
    requires banner.Some? ==> 0 <= banner.value < |Banners|
    ensures b in Banners || (banner.None? && bannerString == Some(b))
  {
    if banner.Some? then Banners[banner.value]
    else if bannerString.Some? then bannerString.value
    else Banners[DefaultBannerIndex]
  }

  /** The log path: `--output`'s, else `LOG_FILE_NAME`. */
  function SelectLogFile(output: Option<string>): (f: string)
    ensures output.Some? ==> f == output.value
    ensures output.None? ==> f == "ssh-honeypot.log"
  {
    if output.Some? then output.value else LogFileName
  }

  /** `main`: parse, list the banners if asked, refuse conflicting banner options, else serve. */
  function Run(raw: RawArgs): (a: Action)
    ensures a.UsageError? <==> ParseArgs(raw).Failure?
    ensures a.ShowBanners? <==> ParseArgs(raw).Success? && raw.listBanners
    ensures a.Refuse? <==> ParseArgs(raw).Success? && !raw.listBanners && raw.banner.Some? && raw.bannerString.Some?
    ensures a.Serve? <==> ParseArgs(raw).Success? && !raw.listBanners && !(raw.banner.Some? && raw.bannerString.Some?)
  {
    match ParseArgs(raw)
    case Failure(e) => UsageError(e)
    case Success(opts) =>
      if opts.listBanners then ShowBanners
      else if opts.banner.Some? && opts.bannerString.Some? then Refuse(ConflictMessage, ExitStatus(-1))
      else Serve(Config(opts.port, opts.number, opts.file, SelectBanner(opts.banner, opts.bannerString), SelectLogFile(opts.output)))
  }

  /** A banner index is accepted exactly when it names a catalog entry. */
  lemma BannerIndexAccepted(index: int)
    ensures ConvertBanner(IntToString(index)).Success? <==> 0 <= index < |Banners|
    ensures ConvertBanner(IntToString(index)).Success? ==> ConvertBanner(IntToString(index)).value == index
  {
    ParseIntRoundTrip(index);
    if 0 <= index < |Banners| {
      assert NatToString(index) == [DigitChar(index)];
    }
  }

  /**
   * The server only starts with a port in 1..65535, a backlog of at least one,
   * at most one banner option, and a banner from the catalog or the literal given.
   */
  lemma ServeConfigValid(raw: RawArgs)
    requires Run(raw).Serve?
    ensures var c := Run(raw).config;
      1 <= c.port <= 65535 && c.number >= 1 && !raw.listBanners &&
      !(raw.banner.Some? && raw.bannerString.Some?) &&
      (c.banner in Banners || Some(c.banner) == raw.bannerString)
  {
  }

  /** Banner choice: the indexed entry, else the literal, else `BANNERS[8]`. */
  lemma BannerSelection(raw: RawArgs)
    requires Run(raw).Serve?
    ensures raw.banner.Some? ==> Run(raw).config.banner == Banners[ParseInt(raw.banner.value).value]
    ensures raw.banner.None? && raw.bannerString.Some? ==> Run(raw).config.banner == raw.bannerString.value
    ensures raw.banner.None? && raw.bannerString.None? ==>
      Run(raw).config.banner == "SSH-2.0-OpenSSH_7.4p1 Raspbian-10+deb9u2"
  {
    DefaultBanner();
  }

  /** The log path defaults to `LOG_FILE_NAME`; port and backlog default to 2222 and 10. */
  lemma ServeDefaults(raw: RawArgs)
    requires Run(raw).Serve?
    ensures Run(raw).config.logFile == if raw.output.Some? then raw.output.value else "ssh-honeypot.log"
    ensures raw.port.None? ==> Run(raw).config.port == 2222
    ensures raw.number.None? ==> Run(raw).config.number == 10
    ensures raw.port.Some? ==> Run(raw).config.port == ParseInt(raw.port.value).value
  {
  }

  /**
   * `--banner` together with `--banner-string` never starts the server: once
   * the values parse, `exit(-1)` ends the program with status 255, unless
   * `--list-banners` was given, which is checked first.
   */
  lemma BannerConflictRefused(raw: RawArgs)
    requires ParseArgs(raw).Success?
    requires raw.banner.Some? && raw.bannerString.Some?
    ensures !Run(raw).Serve?
    ensures Run(raw) == if raw.listBanners then ShowBanners else Refuse(ConflictMessage, 255)
  {
  }

  /**
   * Every command line whose values parse, that does not ask for the list and
   * gives at most one banner option, starts the server with the converted
   * port and number, the key file, the selected banner and the log path.
   */
  lemma RunServes(raw: RawArgs)
    requires ParseArgs(raw).Success?
    requires !raw.listBanners && !(raw.banner.Some? && raw.bannerString.Some?)
    ensures var opts := ParseArgs(raw).value;
      Run(raw) == Serve(Config(opts.port, opts.number, raw.file, SelectBanner(opts.banner, raw.bannerString), SelectLogFile(raw.output)))
  {
  }

  /** With no options at all the server starts on port 2222, backlog 10, with the Raspbian banner and the default log. */
  lemma DefaultCommandLine()
    ensures Run(RawArgs(false, None, None, None, None, None, None)) ==
      Serve(Config(2222, 10, None, "SSH-2.0-OpenSSH_7.4p1 Raspbian-10+deb9u2", "ssh-honeypot.log"))
  {
    DefaultBanner();
  }

  /**
   * Any in-range decimal values given for the banner index, number and port
   * parse to exactly those values, for a number of at most 4300 digits.
   */
  lemma ValidValuesParse(index: int, number: int, port: int, raw: RawArgs)
    requires 0 <= index < |Banners| && NumberRange.Admits(number) && PortRange.Admits(port)
    requires Printable(number) && Printable(port)
    requires raw.banner == Some(IntToString(index)) && raw.number == Some(IntToString(number))
    requires raw.port == Some(IntToString(port))
    ensures ParseArgs(raw).Success?
    ensures ParseArgs(raw).value.banner == Some(index)
    ensures ParseArgs(raw).value.number == number && ParseArgs(raw).value.port == port
  {
    BannerIndexAccepted(index);
    ParseIntRoundTrip(number);
    ParseIntRoundTrip(port);
  }

  /** A port outside 1..65535 is a usage error carrying `IntRange`'s message. */
  lemma PortOutOfRangeRefused(raw: RawArgs, port: int)
    requires raw.port == Some(IntToString(port))
    requires port < 1 || port > 65535
    ensures !Run(raw).Serve? && !Run(raw).ShowBanners?
    ensures ParseArgs(raw).Failure?
  {
    ParseIntRoundTrip(port);
  }
}
