/** Where the concrete transports write, what one WriteLog call does to the outside
    world, and the fixed-layout line four of the transports fall back to. */
module Sinks {
  import opened Wrappers
  import opened Levels
  import opened Entries
  import opened Formatters

  /** A destination for bytes, named by the handle the transport holds.
      `SyslogInfo` is a syslog writer receiving Info-priority messages. */
  datatype Sink =
    | Stdout
    | Stderr
    | Stream(writer: nat)
    | OsFile(file: nat)
    | RotatingFile(logger: nat)
    | SyslogInfo(writer: nat)

  /** The one thing a transport call does outside the process: write bytes to a
      sink, or hand an entry to a transport whose code the model does not see. */
  datatype Effect =
    | Write(sink: Sink, data: Bytes)
    | Handoff(entry: Entry)

  /** One WriteLog call: the effect it had (if any) and the error it returned. */
  datatype Outcome = Outcome(effect: Option<Effect>, err: Option<Error>)

  /** The layout literal the fallback line uses. */
  const FallbackLayout := "2006-01-02T15:04:05Z07:00"

  /** `ts + " [" + LEVEL + "] " + message + "\n"`, written when a formatter fails. */
  function FallbackLine(rt: Runtime, levels: LevelTable, e: Entry): Bytes
  {
    rt.formatTime(e.timestamp, FallbackLayout) + " [" + Name(levels, e.level) + "] " + e.message + "\n"
  }

  /** The fallback line is exactly what a default TextFormatter prints for the entry
      stripped of its fields. */
  lemma FallbackIsPlainText(rt: Runtime, levels: LevelTable, e: Entry)
    ensures FallbackLine(rt, levels, e) == TextOutput(rt, levels, "", e.(fields := map[]))
  {
    TextWithoutFields(rt, levels, "", e.(fields := map[]));
  }

  /** A write of `data` to `sink` that returned `writeErr`; the common tail of every
      transport that formats and then writes. */
  function Wrote(sink: Sink, data: Bytes, writeErr: Option<Error>): Outcome
  {
    Outcome(Some(Write(sink, data)), writeErr)
  }

  /** The bytes a falling-back transport writes: the formatted ones, or the fallback line. */
  function FormattedOrFallback(rt: Runtime, levels: LevelTable, f: Formatter, e: Entry): Bytes
  {
    match Formatted(rt, levels, f, e)
    case Ok(b) => b
    case Err(_) => FallbackLine(rt, levels, e)
  }
}
