/** SyslogTransport (syslog_transport.go): messages sent to syslog at Info priority. */
module SyslogTransport {
  import opened Wrappers
  import opened Levels
  import opened Entries
  import opened Formatters
  import opened Sinks

  /** `WriteLog`: a format error is returned as it is and nothing is sent (no fallback
      line); otherwise the bytes go out as one Info message and the send's error is returned. */
  function WriteLog(rt: Runtime, levels: LevelTable, writer: nat, f: Formatter, e: Entry, sendErr: Option<Error>)
    : (o: Outcome)
    ensures Formatted(rt, levels, f, e).Err? ==> o == Outcome(None, Some(Formatted(rt, levels, f, e).error))
    ensures Formatted(rt, levels, f, e).Ok? ==>
      o.effect == Some(Write(SyslogInfo(writer), Formatted(rt, levels, f, e).value)) && o.err == sendErr
  {
    match Formatted(rt, levels, f, e)
    case Err(err) => Outcome(None, Some(err))
    case Ok(b) => Wrote(SyslogInfo(writer), b, sendErr)
  }
}
