/** FileTransport (file_transport.go): an open `*os.File`, appended to. */
module FileTransport {
  import opened Wrappers
  import opened Levels
  import opened Entries
  import opened Formatters
  import opened Sinks

  /** `WriteLog`: one write to the file, of the formatted bytes or of the fallback
      line; the write's error is returned, the format error dropped. */
  function WriteLog(rt: Runtime, levels: LevelTable, file: nat, f: Formatter, e: Entry, writeErr: Option<Error>)
    : (o: Outcome)
    ensures o.effect.Some? && o.effect.value.Write? && o.effect.value.sink == OsFile(file)
    ensures Formatted(rt, levels, f, e).Ok? ==> o.effect.value.data == Formatted(rt, levels, f, e).value
    ensures Formatted(rt, levels, f, e).Err? ==> o.effect.value.data == FallbackLine(rt, levels, e)
    ensures o.err == writeErr
  {
    Wrote(OsFile(file), FormattedOrFallback(rt, levels, f, e), writeErr)
  }
}
