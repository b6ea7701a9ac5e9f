/** The Transport interface (transport.go) over the concrete kinds the package ships. */
module Transports {
  import opened Wrappers
  import opened Levels
  import opened Entries
  import opened Formatters
  import opened Sinks
  import WriterTransport
  import ConsoleTransport
  import FileTransport
  import LumberjackTransport
  import SyslogTransport

  /** The dynamic type behind a `Transport` and its struct fields. `Other` is any
      implementation outside the package (a filtering wrapper, a test double); its
      WriteLog is not visible, only that it receives the entry, and `closes` says whether
      it also implements `io.Closer`. Every kind has a `level`, the value its MinLevel
      returns. */
  datatype TransportKind =
    | Writer(writer: nat, level: Level, formatter: Formatter)
    | Console(level: Level, formatter: Formatter, toStdErr: bool)
    | File(file: nat, level: Level, formatter: Formatter)
    | Lumberjack(logger: nat, rotation: LumberjackTransport.Rotation, level: Level, formatterOpt: Option<Formatter>)
    | Syslog(writer: nat, level: Level, formatter: Formatter)
    | Other(id: nat, level: Level, closes: bool)

  /** A transport value: a pointer to a struct. Two transports are the same exactly
      when they are the same object, as Go compares interface values holding pointers. */
  class Transport {
    const kind: TransportKind

    constructor (kind: TransportKind)
      ensures this.kind == kind
    {
      this.kind := kind;
    }
  }

  /** `MinLevel()`: every kind returns its `Level` field. */
  function MinLevel(t: Transport): (r: Level)
    ensures match t.kind
      case Writer(_, l, _) => r == l
      case Console(l, _, _) => r == l
      case File(_, l, _) => r == l
      case Lumberjack(_, _, l, _) => r == l
      case Syslog(_, l, _) => r == l
      case Other(_, l, _) => r == l
  {
    t.kind.level
  }

  /** `t.WriteLog(e)`, dispatched on the dynamic type; `ioErr` is what the transport's
      one sink operation (write, send, or the foreign WriteLog) returns. */
  function WriteLog(rt: Runtime, levels: LevelTable, k: TransportKind, e: Entry, ioErr: Option<Error>): (r: Outcome)
    ensures r.effect.Some? ==> r.err == ioErr
    ensures r.effect.None? ==> k.Syslog? && r.err.Some?
    ensures k.Other? ==> r.effect == Some(Handoff(e))
  {
    match k
    case Writer(w, _, f) => WriterTransport.WriteLog(rt, levels, w, f, e, ioErr)
    case Console(_, f, toStdErr) => ConsoleTransport.WriteLog(rt, levels, toStdErr, f, e, ioErr)
    case File(file, _, f) => FileTransport.WriteLog(rt, levels, file, f, e, ioErr)
    case Lumberjack(logger, _, _, f) => LumberjackTransport.WriteLog(rt, levels, logger, f, e, ioErr)
    case Syslog(w, _, f) => SyslogTransport.WriteLog(rt, levels, w, f, e, ioErr)
    case Other(_, _, _) => Outcome(Some(Handoff(e)), ioErr)
  }

  /** The raw sink of the four kinds the per-call formatter override knows how to reach. */
  function RawSink(k: TransportKind): (s: Option<Sink>)
    ensures s.Some? <==> (k.Writer? || k.Console? || k.File? || k.Lumberjack?)
  {
    match k
    case Writer(w, _, _) => Some(Stream(w))
    case Console(_, _, toStdErr) => Some(ConsoleTransport.Out(toStdErr))
    case File(file, _, _) => Some(OsFile(file))
    case Lumberjack(logger, _, _, _) => Some(RotatingFile(logger))
    case _ => None
  }

  /** The four kinds that fall back to the fixed line write, whatever the formatter does,
      exactly once, and to the same sink the override path uses. */
  lemma WriteLogAlwaysWritesRawSink(rt: Runtime, levels: LevelTable, k: TransportKind, e: Entry, ioErr: Option<Error>)
    requires RawSink(k).Some?
    ensures var o := WriteLog(rt, levels, k, e, ioErr);
      o.effect.Some? && o.effect.value.Write? && o.effect.value.sink == RawSink(k).value && o.err == ioErr
  {
  }

  /** Whatever error two format failures carry, a falling-back transport does the same
      thing: the format error never reaches the caller. */
  lemma FormatErrorDiscarded(rt: Runtime, levels: LevelTable, k: TransportKind, e: Entry, ioErr: Option<Error>)
    requires RawSink(k).Some?
    requires k.Lumberjack? ==> Formatted(rt, levels, LumberjackTransport.FormatterOrDefault(k.formatterOpt), e).Err?
    requires !k.Lumberjack? ==> Formatted(rt, levels, k.formatter, e).Err?
    ensures WriteLog(rt, levels, k, e, ioErr) == Wrote(RawSink(k).value, FallbackLine(rt, levels, e), ioErr)
  {
  }

  /** `t.(io.Closer)`: FileTransport and LumberjackTransport define Close; Writer, Console
      and Syslog transports do not; a foreign transport may. */
  predicate IsCloser(k: TransportKind): (r: bool)
    ensures k.Writer? || k.Console? || k.Syslog? ==> !r
    ensures k.File? || k.Lumberjack? ==> r
    ensures k.Other? ==> (r <==> k.closes)
  {
    k.File? || k.Lumberjack? || (k.Other? && k.closes)
  }

  /** `NewFileTransport`: open the file (the runtime's `open` decides the handle or the
      error), then build the struct; an open error is returned with no transport. */
  method NewFileTransport(path: string, level: Level, formatter: Formatter, open: string -> Result<nat>)
    returns (r: Result<Transport>)
    ensures r.Ok? <==> open(path).Ok?
    ensures r.Ok? ==> fresh(r.value) && r.value.kind == File(open(path).value, level, formatter)
    ensures r.Err? ==> r.error == open(path).error
  {
    var result := open(path);
    if result.Err? {
      return Err(result.error);
    }
    var t := new Transport(File(result.value, level, formatter));
    r := Ok(t);
  }

  /** `NewLumberjackTransport`: the level, formatter and rotation settings are copied
      unchanged; `logger` names the `lumberjack.Logger` it allocates. */
  method NewLumberjackTransport(logger: nat, filename: string, level: Level, formatter: Option<Formatter>,
                                maxSize: int, maxBackups: int, maxAge: int, compress: bool)
    returns (t: Transport)
    ensures fresh(t)
    ensures t.kind == Lumberjack(logger, LumberjackTransport.Rotation(filename, maxSize, maxBackups, maxAge, compress), level, formatter)
    ensures MinLevel(t) == level && IsCloser(t.kind)
  {
    t := new Transport(Lumberjack(logger, LumberjackTransport.Rotation(filename, maxSize, maxBackups, maxAge, compress), level, formatter));
  }

  /** `NewSyslogTransport`: connect (the runtime's `connected` decides the writer or the
      error), then build the struct. */
  method NewSyslogTransport(connected: Result<nat>, level: Level, formatter: Formatter)
    returns (r: Result<Transport>)
    ensures r.Ok? <==> connected.Ok?
    ensures r.Ok? ==> fresh(r.value) && r.value.kind == Syslog(connected.value, level, formatter)
    ensures r.Ok? ==> !IsCloser(r.value.kind)
    ensures r.Err? ==> r.error == connected.error
  {
    if connected.Err? {
      return Err(connected.error);
    }
    var t := new Transport(Syslog(connected.value, level, formatter));
    r := Ok(t);
  }
}
