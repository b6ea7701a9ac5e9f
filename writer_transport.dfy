/** WriterTransport (writer_transport.go): an `io.Writer` with a level and a formatter. */
module WriterTransport {
  import opened Wrappers
  import opened Levels
  import opened Entries
  import opened Formatters
  import opened Sinks

  /** `WriteLog`: one write to the writer, of the formatted bytes or, when formatting
      fails, of the fallback line; the write's error is returned, the format error dropped. */
  function WriteLog(rt: Runtime, levels: LevelTable, writer: nat, f: Formatter, e: Entry, writeErr: Option<Error>)
    : (o: Outcome)
    ensures o.effect.Some? && o.effect.value.Write? && o.effect.value.sink == Stream(writer)
    ensures Formatted(rt, levels, f, e).Ok? ==> o.effect.value.data == Formatted(rt, levels, f, e).value
    ensures Formatted(rt, levels, f, e).Err? ==> o.effect.value.data == FallbackLine(rt, levels, e)
    ensures o.err == writeErr
  {
    Wrote(Stream(writer), FormattedOrFallback(rt, levels, f, e), writeErr)
  }
}
