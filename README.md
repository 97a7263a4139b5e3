# SSH honeypot: policy, credential log and startup options, in Dafny

The honeypot poses as an SSH server to capture credentials, and it never lets
anyone log in. Paramiko does the SSH transport work (version exchange, key
exchange, encryption). Paramiko consults a policy object for two decisions: may
a channel of a given kind be opened, and is a username/password pair accepted.
This model covers the logic the repository itself contributes:

- `Util` (util.py): `IntRange`, the argparse type that accepts an integer
  within optional inclusive bounds. Otherwise it raises `ArgumentTypeError`
  with a message that names the bounds that are set. Python's `int(str)` is
  modelled in `Text.ParseInt`: ASCII whitespace around the text is ignored,
  one optional sign is allowed, single underscores may separate digits, and
  at most 4300 digits are read (CPython's default limit).
  `str(int)` is modelled in `Text.IntToString`.
- `CredentialLog`: the log both servers write. `LogFile` is a class that holds
  the file's text (`lines`, one entry per `write`) and the lock that guards it
  (`locked`). `Console` holds the printed lines. `CaptureAttempt` is the common
  body of both `check_auth_password` methods: acquire the lock, open the file
  for appending, print the record, write the record with its line end, close,
  and release the lock in `finally`. The filesystem's behaviour is an input
  (`IoOutcome`): every step works, or `open`, the console `print` or the
  file `write` raises. Timestamps
  are opaque string inputs. The console and the file each read the clock
  separately, so each gets its own timestamp.
- `SshHoneypot` (ssh-honeypot.py): the banner catalog and the `Server` policy
  class. It also covers how the command line becomes the listener's
  configuration: argparse's value conversions (`type=int` with `choices`,
  the two `IntRange`s, defaults), banner and log-path selection in
  `start_server`, and the checks `main` makes before starting.
- `MinimalServer` (server.py): the minimal, fixed-configuration server, and its policy class `Servidor`. It always announces the
  banner that is the catalog's default entry.
- `Paramiko`: the reply constants that paramiko defines and the policy
  objects return, written as datatypes. This makes "never `AUTH_SUCCESSFUL`"
  a statement with content.

The proved properties are:

- Channels open only for `"session"`.
- A password attempt is always refused.
- Each attempt that reaches the file appends exactly one line,
  `timestamp\tip\tusername\tpassword\n`, after the earlier text.
- The IP in that line is the host part of the address the policy object was
  built with.
- That line reads back as the four fields, as long as no field holds a tab or
  a line end.
- The lock is free again after every call, including the calls where `open`,
  `print` or `write` raises.
- `IntRange` accepts exactly the integers within its inclusive bounds.
- `IntRange`'s message determines which bounds are set and their values.
- A command line starts the server exactly when its values parse, it does
  not ask for the banner list, and it gives at most one of `--banner` and
  `--banner-string`. The server then gets the port and backlog given, or
  2222 and 10, and the banner that the index/literal/default rule selects.

In the catalog, only the default entry (`BANNERS[8]`) starts with the
`SSH-2.0-` prefix. Section 4.2 of RFC 4253 requires that prefix in an
identification string. The other entries are handed to paramiko as they are.
What paramiko then sends is not part of this model.

## Model

| member | source | states |
|---|---|---|
| `Text.ParseInt` | util.py:12 | a parsed value is never positive when the text (blanks aside) starts with "-", and never negative otherwise |
| `Text.IntToString` | util.py:23-27 | `str(n)` is digits, with a leading "-" exactly when `n` is negative |
| `Text.ParseIntRoundTrip` | util.py:12 | `int(str(n)) == n` for every integer of at most 4300 digits, and `int()` refuses the decimal text of every longer one |
| `Util.IntRange.Call` | util.py:10-19 | the call succeeds iff `int(arg)` parses and the value lies within every bound that is set; on success the value is the parsed integer unchanged; every failure is the error `exception()` builds |
| `Util.IntRange.Exception` | util.py:21-29 | the message always starts with "Must be an integer", and it is exactly that text iff neither bound is set |
| `Util.DecodeMessageRoundTrip` | util.py:21-29 | for bounds `str()` can write, the message states the bounds that are set and their values: reading it back gives the same `IntRange` |
| `Util.ExceptionDeterminesBounds` | util.py:21-29 | two ranges (with bounds `str()` can write) that have the same error message have the same bounds, so the message depends only on which bounds are set and what they are |
| `Util.PortRangeMessage` | util.py:23 | for bounds (1, 65535) the message is "Must be an integer in the range [(1, 65535)]"; the intended form is "... [1, 65535]" |
| `Util.TupleMessageIsNotInterval` | util.py:23 | for every range with both bounds, the message as written cannot be read as an interval: the bracket holds a tuple |
| `Util.IntRange.IntendedException` | util.py:21-29 | the corrected message starts with "Must be an integer", and it is exactly that text iff neither bound is set; with both bounds it writes the interval `[min, max]`, which `DecodeMessageRoundTrip` reads back |
| `Util.UnparsableRejected` | util.py:11-14 | text that `int()` rejects yields the `exception()` error and no value |
| `Util.OutOfBoundsRejected` | util.py:16-17 | a value below a set minimum, or above a set maximum, yields the `exception()` error |
| `Util.InclusiveBounds` | util.py:16-19 | every argument that spells an integer within the bounds, however it is spelled, yields that integer unchanged |
| `Util.BoundsAccepted` | util.py:16-19 | when min ≤ max and both bounds have at most 4300 digits, each set bound, written in decimal, is itself accepted: both bounds are inclusive (with min > max no integer is accepted) |
| `Util.UnboundedAcceptsAll` | util.py:16-19 | with neither bound set, every integer `int()` accepts is returned |
| `CredentialLog.Record` | ssh-honeypot.py:52 | the console record is timestamp, IP, username and password, in this order, separated by single tabs (also server.py:35) |
| `CredentialLog.FileLine` | ssh-honeypot.py:53 | the file text is the record followed by a line end; when no field holds a line end, that final one is its only line end, so one attempt is one line (also server.py:36) |
| `CredentialLog.FileLineRoundTrip` | ssh-honeypot.py:53 | when no field holds a tab or a line end, dropping the line end and splitting on tabs gives back exactly the four fields, in order |
| `CredentialLog.TabsMakeLinesAmbiguous` | ssh-honeypot.py:53 | fields are written unescaped: user "a\tb" with password "c" and user "a" with password "b\tc" write the same line |
| `CredentialLog.LogFile.Acquire` | ssh-honeypot.py:47 | acquiring the free lock leaves it held |
| `CredentialLog.LogFile.Release` | ssh-honeypot.py:57 | releasing the held lock leaves it free |
| `CredentialLog.LogFile.Append` | ssh-honeypot.py:51-53 | a write in append mode adds the line after the existing text and keeps that text; it is allowed only while the lock is held |
| `CredentialLog.Console.Print` | ssh-honeypot.py:52 | a print adds one line to the console |
| `CredentialLog.CaptureAttempt` | ssh-honeypot.py:47-57 | the lock is free on return on every path. If `open` or `print` raises, neither the file nor the console changes. If `write` raises, only the console line is added. Otherwise exactly one file line is appended after the old text. The result is the exception of the step that raised |
| `SshHoneypot.DefaultBanner` | ssh-honeypot.py:18-28 | `BANNERS[8]` is "SSH-2.0-OpenSSH_7.4p1 Raspbian-10+deb9u2", and it is the only catalog entry with the `SSH-2.0-` prefix |
| `SshHoneypot.Server.constructor` | ssh-honeypot.py:33-36 | the object keeps the client address and the log it writes, and the log file name is that log's path |
| `SshHoneypot.Server.CheckChannelRequest` | ssh-honeypot.py:38-42 | returns `OPEN_SUCCEEDED` iff the kind is "session", and `OPEN_FAILED_ADMINISTRATIVELY_PROHIBITED` for every other kind |
| `SshHoneypot.Server.CheckAuthPassword` | ssh-honeypot.py:45-60 | never returns success: the reply is `AUTH_FAILED` when all the I/O completes, and otherwise the exception of the step that raised (`open`, `print` or `write`). The lock is free afterwards. The file gains exactly the line with the constructor address's host, and the console gains its mirror line, each only if its step was reached |
| `SshHoneypot.ConvertBanner` | ssh-honeypot.py:162 | a banner index is accepted iff `int()` parses it and it lies in `0..len(BANNERS)-1`; the accepted value is the parsed integer |
| `SshHoneypot.BannerIndexAccepted` | ssh-honeypot.py:162 | the decimal text of an index is accepted iff the index names a catalog entry, and it converts to that index |
| `SshHoneypot.ConvertRanged` | ssh-honeypot.py:165-167 | an option typed by an `IntRange` converts iff it is absent or the range accepts its text; the value is the default or the integer given, the latter within the range; a refusal carries the range's `exception()` |
| `SshHoneypot.ParseArgs` | ssh-honeypot.py:161-169 | parsing succeeds iff each given banner index, number and port converts; the parsed index, number and port are the integers given (number and port default to 10 and 2222), always with the index in the catalog, the number at least 1 and the port in 1..65535; the flag, literal banner, key file and output path pass through unchanged |
| `SshHoneypot.ValidValuesParse` | ssh-honeypot.py:161-169 | every catalog index, number of at least 1 and of at most 4300 digits, and port in 1..65535, written in decimal, parses to exactly those values |
| `SshHoneypot.SelectBanner` | ssh-honeypot.py:121-127 | the banner is a catalog entry, or the literal when no index is given |
| `SshHoneypot.SelectLogFile` | ssh-honeypot.py:131-134 | the log path is `--output`'s path when given, else "ssh-honeypot.log" |
| `SshHoneypot.BannerSelection` | ssh-honeypot.py:121-127 | with an index, the banner is `BANNERS[index]`; else with a literal, the literal; else `BANNERS[8]`, the Raspbian string |
| `SshHoneypot.ServeDefaults` | ssh-honeypot.py:131-134 | the log path is `--output`'s, else "ssh-honeypot.log"; port and number default to 2222 and 10; a given port is the integer it spells |
| `SshHoneypot.ExitStatus` | ssh-honeypot.py:189 | the status a POSIX parent sees after `exit(code)` lies in 0..255; it agrees with the code modulo 256 for a code within a 64-bit C `long` (so `exit(-1)` gives 255), and is 255 for any other code |
| `SshHoneypot.BannerConflictRefused` | ssh-honeypot.py:183-189 | `--banner` together with `--banner-string` never starts the server: `exit(-1)` ends the program with status 255, unless `--list-banners` was given, which `main` checks first |
| `SshHoneypot.Run` | ssh-honeypot.py:178-192 | the program reports a usage error iff parsing fails; it lists the banners iff parsing succeeds with `--list-banners`; it refuses iff parsing succeeds without it and both banner options are given; and it serves in every other case |
| `SshHoneypot.RunServes` | ssh-honeypot.py:178-192 | every command line that parses, does not ask for the list and gives at most one banner option starts the server with the parsed port and number, the key file, the selected banner and the selected log path |
| `SshHoneypot.DefaultCommandLine` | ssh-honeypot.py:131-134 | with no options the server starts on port 2222 with backlog 10, no key file, the Raspbian banner and "ssh-honeypot.log" |
| `SshHoneypot.ServeConfigValid` | ssh-honeypot.py:178-192 | the server starts only with a port in 1..65535, a number of at least 1, no banner listing, at most one banner option, and a banner from the catalog or the given literal |
| `SshHoneypot.PortOutOfRangeRefused` | ssh-honeypot.py:167 | a port outside 1..65535 is a usage error: the server neither starts nor lists banners |
| `MinimalServer.Banner` | server.py:52 | the fixed banner equals `BANNERS[8]` of ssh-honeypot.py |
| `MinimalServer.Servidor.constructor` | server.py:17-19 | the object keeps the client address and writes to the fixed file "log.txt" |
| `MinimalServer.Servidor.CheckChannelRequest` | server.py:21-25 | returns `OPEN_SUCCEEDED` iff the kind is "session", and `OPEN_FAILED_ADMINISTRATIVELY_PROHIBITED` for every other kind |
| `MinimalServer.Servidor.CheckAuthPassword` | server.py:28-43 | never returns success: the reply is `AUTH_FAILED` when all the I/O completes, and otherwise the exception of the step that raised (`open`, `print` or `write`). The lock is free afterwards. "log.txt" gains exactly the line with the constructor address's host, and the console gains its mirror line, each only if its step was reached |

## Findings

| source | as written | input that shows it | evidently intended | confidence | as-written member | corrected member |
|---|---|---|---|---|---|---|
| util.py:23 | the f-string field `{self.__min, self.__max}` formats a Python tuple, so the brackets enclose parentheses | `IntRange(1, 65535)` with argument "0" gives "Must be an integer in the range [(1, 65535)]" | "Must be an integer in the range [1, 65535]" | high for the text produced; medium that it is unintended; not executed | `Util.TupleMessageIsNotInterval` | `Util.IntRange.IntendedException` |

`Util.IntRange.Call` keeps the message as written, because that is the text the
program emits. `Util.PortRangeMessage` shows the two texts side by side.

## Left out

- SSH transport work is left out: the handshake, algorithm negotiation, key exchange and encryption. Paramiko's `Transport` does all of it (ssh-honeypot.py:67-79, server.py:50-61), and paramiko is not part of this model.
- The socket bind/listen/accept loop is left out. So is the thread handling: each connection gets a thread, and the loop then joins all threads (ssh-honeypot.py:98-154, server.py:81-107). This is networking and concurrency. Exit status 1 on a bind failure is not modelled either.
- The `threading.Event` wait and the transport close in `ssh_handle`/`ssh` are left out (ssh-honeypot.py:86-92, server.py:68-74). They block on a signal that nothing ever sets.
- RSA key loading and generation are left out (ssh-honeypot.py:113-118, server.py:51). The key file is kept only as a path.
- `list_banners`, the startup prints and the stderr messages are left out. Only the conflict message and its exit status are kept.
- Argparse internals are left out: usage text, exit status 2 and the message wording for usage errors (`ArgError` only says which option failed and why). Reporting the first bad value in command-line order is not modelled: `SshHoneypot.ParseArgs` looks at the options in declaration order. `FileType` opens `--file` and `--output` during parsing, and treats "-" as stdin/stdout; both are left out, and the model keeps each path as given.
- Text.ParseInt: Unicode digits and Unicode whitespace are not modelled. Python's `int()` also accepts those. Only ASCII digits and the six ASCII whitespace characters are modelled.
- Text.ParseInt: the 4300-digit limit is CPython's default. Interpreters older than 3.11, other than the security releases named in `Text.MaxStrDigits`, have no limit, and the limit can be changed through `PYTHONINTMAXSTRDIGITS`; neither is modelled.
- Text.IntToString: `str()` also raises on integers of more than 4300 digits; this is not modelled. So the message lemmas (`Util.DecodeMessageRoundTrip`, `Util.ExceptionDeterminesBounds`) require bounds within the limit. The program's own bounds are 1 and 65535.
- CredentialLog.CaptureAttempt: the password is taken to be text. Paramiko hands `check_auth_password` the raw `bytes` when the password is not valid UTF-8, and the format string at ssh-honeypot.py:52-53 and server.py:35-36 then writes the bytes' repr (`b'\xff'`), not the value the client sent; that case is not modelled, here or in `SshHoneypot.Server.CheckAuthPassword` and `MinimalServer.Servidor.CheckAuthPassword`.
- SshHoneypot.ExitStatus: a C `long` is taken to be 64 bits wide, as on LP64 POSIX systems; narrower `long`s, and the way CPython versions differ in converting a code outside that range, are not modelled. The program only ever calls `exit(-1)`.
- The clock is left out. Timestamps are opaque inputs. In both files the console line and the file line read the clock separately, so the model does not say the two stamps are equal. ssh-honeypot.py uses seconds precision; server.py uses `str(datetime.now())`.
- I/O failure is modelled as three outcomes: `open` raises, `print` raises with nothing printed, or `write` raises with nothing written. A partial print, a partial write and a failing `close` are not modelled. Neither is the file object that is left unclosed when `print` or `write` raises.
- Both modules share one `LogFile` model of the lock and the file. The source has one lock per module, guarding whatever file name the `Server` was given. Since one process writes one log file, the model puts both in one object.
- Lock contention between threads is not modelled. In one thread of control, the lock is free whenever `check_auth_password` starts (`requires !log.locked`).
