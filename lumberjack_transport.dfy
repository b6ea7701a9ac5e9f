/** LumberjackTransport (lumberjack_transport.go): a size-rotated log file. */
module LumberjackTransport {
  import opened Wrappers
  import opened Levels
  import opened Entries
  import opened Formatters
  import opened Sinks

  /** The settings copied into the `lumberjack.Logger`. Rotation itself is not modelled. */
  datatype Rotation = Rotation(filename: string, maxSize: int, maxBackups: int, maxAge: int, compress: bool)

  /** The formatter WriteLog uses: its own, or a default TextFormatter when it has none. */
  function FormatterOrDefault(f: Option<Formatter>): (used: Formatter)
    ensures f.Some? ==> used == f.value
    ensures f.None? ==> used == TextFormatter("")
  {
    match f
    case Some(g) => g
    case None => TextFormatter("")
  }

  /** `WriteLog`: one write to the rotating file, of the bytes the (possibly default)
      formatter produced, or of the fallback line; the write's error is returned. */
  function WriteLog(rt: Runtime, levels: LevelTable, logger: nat, f: Option<Formatter>, e: Entry, writeErr: Option<Error>)
    : (o: Outcome)
    ensures o.effect.Some? && o.effect.value.Write? && o.effect.value.sink == RotatingFile(logger)
    ensures f.None? ==> o.effect.value.data == TextOutput(rt, levels, "", e)
    ensures Formatted(rt, levels, FormatterOrDefault(f), e).Ok? ==>
      o.effect.value.data == Formatted(rt, levels, FormatterOrDefault(f), e).value
    ensures Formatted(rt, levels, FormatterOrDefault(f), e).Err? ==> o.effect.value.data == FallbackLine(rt, levels, e)
    ensures o.err == writeErr
  {
    Wrote(RotatingFile(logger), FormattedOrFallback(rt, levels, FormatterOrDefault(f), e), writeErr)
  }
}
