/** ConsoleTransport (console_transport.go): standard output or standard error. */
module ConsoleTransport {
  import opened Wrappers
  import opened Levels
  import opened Entries
  import opened Formatters
  import opened Sinks

  /** The stream a console transport writes to. */
  function Out(toStdErr: bool): (s: Sink)
    ensures s == Stderr <==> toStdErr
    ensures s == Stdout <==> !toStdErr
  {
    if toStdErr then Stderr else Stdout
  }

  /** `WriteLog`: one write to the chosen stream, of the formatted bytes or of the
      fallback line; the write's error is returned, the format error dropped. */
  function WriteLog(rt: Runtime, levels: LevelTable, toStdErr: bool, f: Formatter, e: Entry, writeErr: Option<Error>)
    : (o: Outcome)
    ensures o.effect.Some? && o.effect.value.Write? && o.effect.value.sink == Out(toStdErr)
    ensures Formatted(rt, levels, f, e).Ok? ==> o.effect.value.data == Formatted(rt, levels, f, e).value
    ensures Formatted(rt, levels, f, e).Err? ==> o.effect.value.data == FallbackLine(rt, levels, e)
    ensures o.err == writeErr
  {
    Wrote(Out(toStdErr), FormattedOrFallback(rt, levels, f, e), writeErr)
  }
}
