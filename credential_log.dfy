/**
 * The credential log both servers share in shape: a text file opened in
 * append mode by path, a process-wide lock around every access, and one
 * tab-separated line per password attempt, mirrored on the console.
 */
module CredentialLog {
  import opened Wrappers
  import opened Text

  /** A credential attempt as the fields of one log line, in file order. */
  function Fields(timestamp: string, ip: string, username: string, password: string): seq<string>
  {
    [timestamp, ip, username, password]
  }

  /** `"{}\t{}\t{}\t{}".format(timestamp, ip, username, password)`: the console line. */
  function Record(timestamp: string, ip: string, username: string, password: string): (r: string)
    ensures r == timestamp + "\t" + ip + "\t" + username + "\t" + password
  {
    JoinFour(timestamp, ip, username, password, '\t');
    Join(Fields(timestamp, ip, username, password), '\t')
  }

  /**
   * The same record with its line end: the text written to the file. It is
   * one line, ending in its only line end, whenever no field holds a line end.
   */
  function FileLine(timestamp: string, ip: string, username: string, password: string): (r: string)
    ensures |r| > 0 && r[|r| - 1] == '\n'
    ensures r[..|r| - 1] == Record(timestamp, ip, username, password)
    ensures '\n' !in timestamp && '\n' !in ip && '\n' !in username && '\n' !in password ==>
      '\n' !in r[..|r| - 1]
  {
    var line := Record(timestamp, ip, username, password) + "\n";
    assert line[..|line| - 1] == Record(timestamp, ip, username, password);
    line
  }

  /** Reads a written line back: drop the line end, split on tabs. */
  function ParseLine(line: string): seq<string>
  {
    if |line| > 0 && line[|line| - 1] == '\n' then Split(line[..|line| - 1], '\t') else Split(line, '\t')
  }

  predicate Plain(field: string)
  {
    '\t' !in field && '\n' !in field
  }

  /**
   * Round trip: when no field holds a tab or a line end, the written line
   * reads back as exactly the four fields, in order.
   */
  lemma FileLineRoundTrip(timestamp: string, ip: string, username: string, password: string)
    requires Plain(timestamp) && Plain(ip) && Plain(username) && Plain(password)
    ensures ParseLine(FileLine(timestamp, ip, username, password)) == [timestamp, ip, username, password]
  {
    var line := FileLine(timestamp, ip, username, password);
    assert line[..|line| - 1] == Record(timestamp, ip, username, password);
    SplitJoin(Fields(timestamp, ip, username, password), '\t');
  }

  /**
   * Fields are written without escaping, so a tab inside a username or
   * password makes two different attempts write the same line.
   */
  lemma TabsMakeLinesAmbiguous(timestamp: string, ip: string)
    ensures FileLine(timestamp, ip, "a\tb", "c") == FileLine(timestamp, ip, "a", "b\tc")
  {
    assert "a\tb" + "\t" + "c" == "a" + "\t" + "b\tc";
  }

  /**
   * What the I/O of one attempt does: everything works, or `open`, the
   * console `print` or the file `write` raises (a print can fail on a closed
   * stdout, or on a username the console's encoding cannot write).
   */
  datatype IoOutcome = Completed | OpenFailed | PrintFailed | WriteFailed

  /** The exception `check_auth_password` lets through after releasing the lock. */
  datatype IoError = OpenError | PrintError | WriteError

  /** The exception each failing outcome raises. */
  function Raised(io: IoOutcome): IoError
    requires io != Completed
  {
    match io
    case OpenFailed => OpenError
    case PrintFailed => PrintError
    case WriteFailed => WriteError
  }

  /** The log file, known by its path, together with the lock that guards it. */
  class LogFile {
    const path: string
    /** The text written so far, one entry per `write` call. */
    var lines: seq<string>
    /** Whether the log lock is held. */
    var locked: bool

    constructor (path: string, existing: seq<string>)
      ensures this.path == path && lines == existing && !locked
    {
      this.path := path;
      lines := existing;
      locked := false;
    }

    /** `LOG_FILE_LOCK.acquire()`; in one thread of control the lock is free here. */
    method Acquire()
      requires !locked
      modifies this`locked
      ensures locked
    {
      locked := true;
    }

    /** `LOG_FILE_LOCK.release()`. */
    method Release()
      requires locked
      modifies this`locked
      ensures !locked
    {
      locked := false;
    }

    /** One `write` to the file opened with mode `"a"`: earlier text is kept. Only under the lock. */
    method Append(line: string)
      requires locked
      modifies this`lines
      ensures lines == old(lines) + [line]
    {
      lines := lines + [line];
    }
  }

  /** The operator's console: the lines printed so far. */
  class Console {
    var lines: seq<string>

    constructor ()
      ensures lines == []
    {
      lines := [];
    }

    method Print(line: string)
      modifies this
      ensures lines == old(lines) + [line]
    {
      lines := lines + [line];
    }
  }

  /**
   * The body of `check_auth_password` in both servers: take the lock, open
   * the log for appending, print the record, write it with its line end,
   * and release the lock in `finally`. A step that raises ends the attempt
   * with its exception, and what it would have output is not output. The console and the file each read the
   * clock, so each gets its own timestamp.
   */
  method CaptureAttempt(log: LogFile, console: Console, consoleTime: string, fileTime: string,
                        ip: string, username: string, password: string, io: IoOutcome)
    returns (r: Result<(), IoError>)
    requires !log.locked
    modifies log, console
    ensures !log.locked
    ensures log.lines == if io == Completed then old(log.lines) + [FileLine(fileTime, ip, username, password)]
                         else old(log.lines)
    ensures console.lines == if io == OpenFailed || io == PrintFailed then old(console.lines)
                             else old(console.lines) + [Record(consoleTime, ip, username, password)]
    ensures r == if io == Completed then Success(()) else Failure(Raised(io))
  {
    log.Acquire();
    if io == OpenFailed {
      r := Failure(OpenError);
    } else if io == PrintFailed {
      r := Failure(PrintError);
    } else {
      console.Print(Record(consoleTime, ip, username, password));
      if io == WriteFailed {
        r := Failure(WriteError);
      } else {
        log.Append(FileLine(fileTime, ip, username, password));
        r := Success(());
      }
    }
    log.Release();
  }
}
