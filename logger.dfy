/** The `Logger` of lazylog.go: its lists and stack-trace policy, the mutators that edit
    them, `Close`, the log entry points that build an entry and hand it to the dispatch
    engine, the child logger, the entry builder and construction from a configuration.
    Time, stack dumps and sink results are parameters: `now` is `time.Now()`, `stack` is
    `debug.Stack()`, and `io(i)` is what transport `i`'s sink operation returns. */
module Lazylog {
  import opened Wrappers
  import opened Levels
  import opened Entries
  import opened Formatters
  import opened Transports
  import opened Dispatch

  // ---------------------------------------------------------------------------
  // Transport list editing

  /** The list without its first element identical to `t`; unchanged when `t` is absent. */
  function RemoveFirst(ts: seq<Transport>, t: Transport): seq<Transport>
  {
    if ts == [] then []
    else if ts[0] == t then ts[1..]
    else [ts[0]] + RemoveFirst(ts[1..], t)
  }

  /** Removing splices out exactly the first occurrence and keeps the rest in order. */
  lemma {:induction false} RemoveFirstAt(ts: seq<Transport>, t: Transport, i: nat)
    requires i < |ts| && ts[i] == t
    requires forall j :: 0 <= j < i ==> ts[j] != t
    ensures RemoveFirst(ts, t) == ts[..i] + ts[i + 1..]
  {
    if i > 0 {
      RemoveFirstAt(ts[1..], t, i - 1);
      assert ts[1..][..i - 1] == ts[1..i];
      assert ts[1..][i..] == ts[i + 1..];
      assert ts[..i] == [ts[0]] + ts[1..i];
    }
  }

  lemma {:induction false} RemoveFirstAbsent(ts: seq<Transport>, t: Transport)
    requires t !in ts
    ensures RemoveFirst(ts, t) == ts
  {
    if ts != [] {
      RemoveFirstAbsent(ts[1..], t);
      assert ts == [ts[0]] + ts[1..];
    }
  }

  /** Removing takes away one copy of `t` when there is one and nothing else. */
  lemma {:induction false} RemoveFirstCounts(ts: seq<Transport>, t: Transport)
    ensures multiset(RemoveFirst(ts, t)) == multiset(ts) - multiset{t}
  {
    if ts != [] {
      assert ts == [ts[0]] + ts[1..];
      assert multiset(ts) == multiset{ts[0]} + multiset(ts[1..]);
      if ts[0] != t {
        RemoveFirstCounts(ts[1..], t);
        assert multiset(RemoveFirst(ts, t)) == multiset{ts[0]} + multiset(RemoveFirst(ts[1..], t));
      }
    }
  }

  /** Removing a transport just added (and not there before) restores the list. */
  lemma RemoveUndoesAdd(ts: seq<Transport>, t: Transport)
    requires t !in ts
    ensures RemoveFirst(ts + [t], t) == ts
  {
    RemoveFirstAt(ts + [t], t, |ts|);
    assert (ts + [t])[..|ts|] == ts;
  }

  // ---------------------------------------------------------------------------
  // Close

  /** The positions of the transports that are closers, in list order. */
  function Closers(ts: seq<Transport>): (cs: seq<nat>)
    ensures forall j :: 0 <= j < |cs| ==> cs[j] < |ts| && IsCloser(ts[cs[j]].kind)
    ensures forall i :: 0 <= i < |ts| && IsCloser(ts[i].kind) ==> i in cs
    ensures forall p, q :: 0 <= p < q < |cs| ==> cs[p] < cs[q]
  {
    if ts == [] then []
    else
      var n := |ts| - 1;
      var before := Closers(ts[..n]);
      assert forall j :: 0 <= j < |before| ==> before[j] < n && ts[before[j]] == ts[..n][before[j]];
      assert forall i :: 0 <= i < n ==> ts[..n][i] == ts[i];
      before + (if IsCloser(ts[n].kind) then [n] else [])
  }

  /** The error `Close` returns: the first non-nil error among the closers' `Close`
      calls, where `closeErr(i)` is what transport `i`'s Close returns. */
  function FirstCloseError(ts: seq<Transport>, closeErr: nat -> Option<Error>): (r: Option<Error>)
    ensures r.None? <==> forall i :: 0 <= i < |ts| && IsCloser(ts[i].kind) ==> closeErr(i).None?
    ensures r.Some? ==> exists i :: (0 <= i < |ts| && IsCloser(ts[i].kind) && closeErr(i) == r
      && forall j :: 0 <= j < i && IsCloser(ts[j].kind) ==> closeErr(j).None?)
  {
    if ts == [] then None
    else
      var n := |ts| - 1;
      var r := FirstCloseError(ts[..n], closeErr);
      assert forall i :: 0 <= i < n ==> ts[..n][i] == ts[i];
      if r.Some? then r
      else if IsCloser(ts[n].kind) then closeErr(n)
      else None
  }

  // ---------------------------------------------------------------------------
  // Entry construction

  /** The stack-trace injection of `log` and `logWithFields`: only when the policy is
      enabled and lists the level does `"stacktrace"` get set; nothing else changes. */
  function WithStacktrace(policy: StacktraceConfig, level: Level, fields: Fields, stack: string): (r: Fields)
    ensures policy.enabled && level in policy.levels ==>
      r.Keys == fields.Keys + {"stacktrace"} && r["stacktrace"] == Str(stack)
    ensures !(policy.enabled && level in policy.levels) ==> r == fields
    ensures forall k :: k in fields && k != "stacktrace" ==> r[k] == fields[k]
  {
    if policy.enabled && level in policy.levels then fields["stacktrace" := Str(stack)] else fields
  }

  /** What `logWithFields` dispatches, given the snapshot it took. */
  function FieldsTrace(rt: Runtime, levels: LevelTable, snap: Snapshot, level: Level, message: string,
                       fields: Fields, now: Time, stack: string, io: nat -> Option<Error>): seq<Event>
  {
    var e := Entry(level, now, message, WithStacktrace(snap.stacktrace, level, fields, stack));
    DispatchTrace(rt, levels, snap, e, None, io)
  }

  /** The fields `Fatal` and `Panic` log: the first map passed, or a new one, with
      `"stacktrace"` set. Later maps are ignored. */
  function TerminalFields(fields: seq<Fields>, stack: string): (r: Fields)
    ensures "stacktrace" in r && r["stacktrace"] == Str(stack)
    ensures |fields| > 0 ==> r.Keys == fields[0].Keys + {"stacktrace"}
    ensures |fields| == 0 ==> r.Keys == {"stacktrace"}
    ensures |fields| > 0 ==> forall k :: k in fields[0] && k != "stacktrace" ==> r[k] == fields[0][k]
  {
    (if |fields| > 0 then fields[0] else map[])["stacktrace" := Str(stack)]
  }

  /** `CtxKey`, the package's own context-key type, and a plain string key. */
  datatype ContextKey = CtxKey(name: string) | StringKey(name: string)

  /** A `context.Context` as seen through `Value(key)`: a missing key reads as nil. */
  type Context = map<ContextKey, Value>

  function ContextValue(ctx: Context, key: ContextKey): Value
  {
    if key in ctx then ctx[key] else Nil
  }

  /** The keys `logWithContext` tries, in order. */
  const TraceIdKeys: seq<ContextKey> := [CtxKey("trace_id"), StringKey("trace_id")]

  /** The fields `logWithContext` logs: `trace_id` from the typed key when it is set,
      otherwise from the string key, otherwise the fields unchanged. */
  function WithTraceId(ctx: Context, fields: Fields): (r: Fields)
    ensures forall k :: k != "trace_id" ==> (k in r <==> k in fields) && (k in fields ==> r[k] == fields[k])
    ensures ContextValue(ctx, CtxKey("trace_id")) != Nil ==>
      "trace_id" in r && r["trace_id"] == ContextValue(ctx, CtxKey("trace_id"))
    ensures ContextValue(ctx, CtxKey("trace_id")) == Nil && ContextValue(ctx, StringKey("trace_id")) != Nil ==>
      "trace_id" in r && r["trace_id"] == ContextValue(ctx, StringKey("trace_id"))
    ensures ContextValue(ctx, CtxKey("trace_id")) == Nil && ContextValue(ctx, StringKey("trace_id")) == Nil ==>
      r == fields
  {
    var typed := ContextValue(ctx, CtxKey("trace_id"));
    var plain := ContextValue(ctx, StringKey("trace_id"));
    if typed != Nil then fields["trace_id" := typed]
    else if plain != Nil then fields["trace_id" := plain]
    else fields
  }

  /** The key loop of `logWithContext`: the first key with a non-nil value sets
      `trace_id`, and the loop stops there. */
  method AttachTraceId(ctx: Context, fields: Fields) returns (r: Fields)
    ensures r == WithTraceId(ctx, fields)
  {
    r := fields;
    var keys := TraceIdKeys;
    assert keys[0] == CtxKey("trace_id") && keys[1] == StringKey("trace_id");
    var i := 0;
    while i < |keys|
      invariant 0 <= i <= |keys|
      invariant r == fields
      invariant i >= 1 ==> ContextValue(ctx, CtxKey("trace_id")) == Nil
      invariant i >= 2 ==> ContextValue(ctx, StringKey("trace_id")) == Nil
    {
      var v := ContextValue(ctx, keys[i]);
      if v != Nil {
        r := r["trace_id" := v];
        break;
      }
      i := i + 1;
    }
  }

  // ---------------------------------------------------------------------------
  // The logger

  class Logger {
    var transports: seq<Transport>
    var beforeHooks: seq<Hook>
    var afterHooks: seq<Hook>
    var errorHooks: seq<ErrorHook>
    var stacktrace: StacktraceConfig

    /** `NewLogger(transports...)`: the given transports, no hooks, no stack traces. */
    constructor (transports: seq<Transport>)
      ensures this.transports == transports
      ensures beforeHooks == [] && afterHooks == [] && errorHooks == []
      ensures stacktrace == StacktraceConfig(false, {})
    {
      this.transports := transports;
      beforeHooks := [];
      afterHooks := [];
      errorHooks := [];
      stacktrace := StacktraceConfig(false, {});
    }

    /** `snapshot`: what one log call sees. */
    function Snap(): (s: Snapshot)
      reads this
      ensures s.transports == transports && s.stacktrace == stacktrace
      ensures s.beforeHooks == beforeHooks && s.afterHooks == afterHooks && s.errorHooks == errorHooks
    {
      Snapshot(transports, beforeHooks, afterHooks, errorHooks, stacktrace)
    }

    /** `EnableStacktrace(levels...)`: the policy is switched on and its level set is
        replaced by exactly the given levels. */
    method EnableStacktrace(levels: seq<Level>)
      modifies this
      ensures stacktrace.enabled
      ensures forall l :: l in stacktrace.levels <==> l in levels
      ensures transports == old(transports) && beforeHooks == old(beforeHooks)
      ensures afterHooks == old(afterHooks) && errorHooks == old(errorHooks)
    {
      stacktrace := StacktraceConfig(true, {});
      for j := 0 to |levels|
        invariant stacktrace.enabled
        invariant forall l :: l in stacktrace.levels <==> l in levels[..j]
        invariant transports == old(transports) && beforeHooks == old(beforeHooks)
        invariant afterHooks == old(afterHooks) && errorHooks == old(errorHooks)
      {
        assert levels[..j + 1] == levels[..j] + [levels[j]];
        stacktrace := stacktrace.(levels := stacktrace.levels + {levels[j]});
      }
      assert levels[..|levels|] == levels;
    }

    /** `AddTransport`: `t` goes at the end; nothing else changes. */
    method AddTransport(t: Transport)
      modifies this
      ensures transports == old(transports) + [t]
      ensures beforeHooks == old(beforeHooks) && afterHooks == old(afterHooks)
      ensures errorHooks == old(errorHooks) && stacktrace == old(stacktrace)
    {
      transports := transports + [t];
    }

    /** `RemoveTransport`: the first transport identical to `t` is spliced out; the list
        is unchanged when there is none. */
    method RemoveTransport(t: Transport)
      modifies this
      ensures transports == RemoveFirst(old(transports), t)
      ensures beforeHooks == old(beforeHooks) && afterHooks == old(afterHooks)
      ensures errorHooks == old(errorHooks) && stacktrace == old(stacktrace)
    {
      var i := 0;
      while i < |transports|
        invariant 0 <= i <= |transports|
        invariant transports == old(transports)
        invariant forall j :: 0 <= j < i ==> transports[j] != t
      {
        if transports[i] == t {
          RemoveFirstAt(transports, t, i);
          transports := transports[..i] + transports[i + 1..];
          return;
        }
        i := i + 1;
      }
      RemoveFirstAbsent(transports, t);
    }

    /** `AddHook(hook, before)`: appended to the before- or the after-list. */
    method AddHook(hook: Hook, before: bool)
      modifies this
      ensures before ==> beforeHooks == old(beforeHooks) + [hook] && afterHooks == old(afterHooks)
      ensures !before ==> afterHooks == old(afterHooks) + [hook] && beforeHooks == old(beforeHooks)
      ensures transports == old(transports) && errorHooks == old(errorHooks) && stacktrace == old(stacktrace)
    {
      if before {
        beforeHooks := beforeHooks + [hook];
      } else {
        afterHooks := afterHooks + [hook];
      }
    }

    /** `AddErrorHook`: appended to the error-hook list. */
    method AddErrorHook(hook: ErrorHook)
      modifies this
      ensures errorHooks == old(errorHooks) + [hook]
      ensures transports == old(transports) && beforeHooks == old(beforeHooks)
      ensures afterHooks == old(afterHooks) && stacktrace == old(stacktrace)
    {
      errorHooks := errorHooks + [hook];
    }

    /** `Close`: every closer is closed, in list order, even after one fails; the first
        error is returned. `closed` lists the positions whose Close was called. */
    method Close(closeErr: nat -> Option<Error>) returns (err: Option<Error>, closed: seq<nat>)
      ensures closed == Closers(transports)
      ensures err == FirstCloseError(transports, closeErr)
    {
      var ts := transports;
      err := None;
      closed := [];
      for i := 0 to |ts|
        invariant closed == Closers(ts[..i])
        invariant err == FirstCloseError(ts[..i], closeErr)
      {
        assert ts[..i + 1][..i] == ts[..i];
        if IsCloser(ts[i].kind) {
          closed := closed + [i];
          var e := closeErr(i);
          if e.Some? && err.None? {
            err := e;
          }
        }
      }
      assert ts[..|ts|] == ts;
    }

    /** `logWithFields`: the entry gets the level, `now`, the message and the fields,
        plus a stack trace when the policy asks for one; then it is dispatched. */
    method LogWithFields(rt: Runtime, levels: LevelTable, level: Level, message: string, fields: Fields,
                         now: Time, stack: string, io: nat -> Option<Error>) returns (trace: seq<Event>)
      ensures trace == FieldsTrace(rt, levels, Snap(), level, message, fields, now, stack, io)
    {
      var snap := Snap();
      var entryFields := fields;
      if snap.stacktrace.enabled && level in snap.stacktrace.levels {
        entryFields := entryFields["stacktrace" := Str(stack)];
      }
      trace := DispatchEntry(rt, levels, snap, Entry(level, now, message, entryFields), None, io);
    }

    /** `log` (behind Debug, Info, Warn and Error): `logWithFields` with no fields. */
    method Log(rt: Runtime, levels: LevelTable, level: Level, message: string, now: Time, stack: string,
               io: nat -> Option<Error>) returns (trace: seq<Event>)
      ensures trace == FieldsTrace(rt, levels, Snap(), level, message, map[], now, stack, io)
    {
      trace := LogWithFields(rt, levels, level, message, map[], now, stack, io);
    }

    /** `logWithFieldsCustomFormatter`: the fields exactly as given, never a stack trace,
        and the per-call formatter (if any) passed to the dispatch. */
    method LogWithFieldsCustomFormatter(rt: Runtime, levels: LevelTable, level: Level, message: string,
                                        fields: Fields, formatter: Option<Formatter>, now: Time,
                                        io: nat -> Option<Error>) returns (trace: seq<Event>)
      ensures trace == DispatchTrace(rt, levels, Snap(), Entry(level, now, message, fields), formatter, io)
    {
      var snap := Snap();
      trace := DispatchEntry(rt, levels, snap, Entry(level, now, message, fields), formatter, io);
    }

    /** `logWithContext` (behind InfoCtx and the others): `trace_id` taken from the
        context, never a stack trace. */
    method LogWithContext(rt: Runtime, levels: LevelTable, ctx: Context, level: Level, message: string,
                          fields: Fields, now: Time, io: nat -> Option<Error>) returns (trace: seq<Event>)
      ensures trace == DispatchTrace(rt, levels, Snap(), Entry(level, now, message, WithTraceId(ctx, fields)), None, io)
    {
      var snap := Snap();
      var entryFields := AttachTraceId(ctx, fields);
      trace := DispatchEntry(rt, levels, snap, Entry(level, now, message, entryFields), None, io);
    }

    /** `Fatal`: logs at ERROR with a stack trace in the fields, and only once that
        dispatch is over does the process exit with status 1. `stack` is Fatal's own
        `debug.Stack()`, `innerStack` the one `logWithFields` may add over it. */
    method Fatal(rt: Runtime, levels: LevelTable, message: string, fields: seq<Fields>, now: Time,
                 stack: string, innerStack: string, io: nat -> Option<Error>) returns (trace: seq<Event>)
      ensures |trace| > 0 && trace[|trace| - 1] == Exited(1)
      ensures trace[..|trace| - 1]
           == FieldsTrace(rt, levels, Snap(), ERROR, message, TerminalFields(fields, stack), now, innerStack, io)
    {
      var flds: Fields := if |fields| > 0 then fields[0] else map[];
      flds := flds["stacktrace" := Str(stack)];
      trace := LogWithFields(rt, levels, ERROR, message, flds, now, innerStack, io);
      trace := trace + [Exited(1)];
    }

    /** `Panic`: as `Fatal`, but the last event is a panic carrying the message. */
    method Panic(rt: Runtime, levels: LevelTable, message: string, fields: seq<Fields>, now: Time,
                 stack: string, innerStack: string, io: nat -> Option<Error>) returns (trace: seq<Event>)
      ensures |trace| > 0 && trace[|trace| - 1] == Panicked(message)
      ensures trace[..|trace| - 1]
           == FieldsTrace(rt, levels, Snap(), ERROR, message, TerminalFields(fields, stack), now, innerStack, io)
    {
      var flds: Fields := if |fields| > 0 then fields[0] else map[];
      flds := flds["stacktrace" := Str(stack)];
      trace := LogWithFields(rt, levels, ERROR, message, flds, now, innerStack, io);
      trace := trace + [Panicked(message)];
    }
  }

  /** Whatever the policy, the entry `Fatal` and `Panic` dispatch carries a stack trace. */
  lemma TerminalEntryHasStacktrace(policy: StacktraceConfig, fields: seq<Fields>, stack: string, innerStack: string)
    ensures "stacktrace" in WithStacktrace(policy, ERROR, TerminalFields(fields, stack), innerStack)
  {
  }

  // ---------------------------------------------------------------------------
  // Child logger

  /** `ChildLogger`: a parent and the fields bound to it by `WithFields`. */
  datatype ChildLogger = ChildLogger(parent: Logger, fields: Fields)

  /** The merge of `logWithMergedFields`: a new map holding the bound fields, then the
      first call-site map written over them, one top-level key at a time. */
  function Merged(bound: Fields, callSite: seq<Fields>): (m: Fields)
    ensures |callSite| == 0 ==> m == bound
    ensures |callSite| > 0 ==> m.Keys == bound.Keys + callSite[0].Keys
    ensures |callSite| > 0 ==> forall k :: k in callSite[0] ==> m[k] == callSite[0][k]
    ensures |callSite| > 0 ==> forall k :: k in bound && k !in callSite[0] ==> m[k] == bound[k]
  {
    if |callSite| > 0 then bound + callSite[0] else bound
  }

  /** The two copy loops of `logWithMergedFields`. */
  method MergeFields(bound: Fields, callSite: seq<Fields>) returns (merged: Fields)
    ensures merged == Merged(bound, callSite)
  {
    merged := map[];
    var rest := bound.Keys;
    while rest != {}
      invariant rest <= bound.Keys
      invariant merged.Keys == bound.Keys - rest
      invariant forall k :: k in merged ==> merged[k] == bound[k]
      decreases rest
    {
      var k :| k in rest;
      merged := merged[k := bound[k]];
      rest := rest - {k};
    }
    if |callSite| > 0 {
      var extra := callSite[0];
      rest := extra.Keys;
      while rest != {}
        invariant rest <= extra.Keys
        invariant merged.Keys == bound.Keys + (extra.Keys - rest)
        invariant forall k :: k in extra.Keys - rest ==> merged[k] == extra[k]
        invariant forall k :: k in bound && k !in extra.Keys - rest ==> merged[k] == bound[k]
        decreases rest
      {
        var k :| k in rest;
        merged := merged[k := extra[k]];
        rest := rest - {k};
      }
    }
  }

  /** `logWithMergedFields` (behind the child's Debug, Info, Warn and Error). */
  method ChildLog(rt: Runtime, levels: LevelTable, c: ChildLogger, level: Level, message: string,
                  fields: seq<Fields>, now: Time, stack: string, io: nat -> Option<Error>) returns (trace: seq<Event>)
    ensures trace == FieldsTrace(rt, levels, c.parent.Snap(), level, message, Merged(c.fields, fields), now, stack, io)
  {
    var merged := MergeFields(c.fields, fields);
    trace := c.parent.LogWithFields(rt, levels, level, message, merged, now, stack, io);
  }

  /** The merge is shallow: a nested object under a shared key is replaced as a whole,
      so keys only the bound object had are lost. */
  lemma MergeIsShallow()
    ensures var bound := map["user" := Object(map["id" := Int(1), "name" := Str("ana")])];
      var call := map["user" := Object(map["id" := Int(2)])];
      Merged(bound, [call])["user"] == Object(map["id" := Int(2)])
      && "name" !in Merged(bound, [call])["user"].members
  {
  }

  // ---------------------------------------------------------------------------
  // Entry builder

  /** `EntryBuilder`: `ComFields` sets the fields and no formatter; `WithFormatter`
      sets the formatter and no fields. */
  datatype EntryBuilder = EntryBuilder(logger: Logger, fields: Fields, formatter: Option<Formatter>)

  /** The builder's Debug, Info, Warn and Error: `logWithFieldsCustomFormatter`. Even
      with the stack-trace policy on, a builder never adds a stack trace. */
  method BuilderLog(rt: Runtime, levels: LevelTable, b: EntryBuilder, level: Level, message: string, now: Time,
                    io: nat -> Option<Error>) returns (trace: seq<Event>)
    ensures trace == DispatchTrace(rt, levels, b.logger.Snap(), Entry(level, now, message, b.fields), b.formatter, io)
  {
    trace := b.logger.LogWithFieldsCustomFormatter(rt, levels, level, message, b.fields, b.formatter, now, io);
  }

  // ---------------------------------------------------------------------------
  // Construction from a configuration

  /** `TransportConfig`; `options` holds the decoded option values. */
  datatype TransportConfig = TransportConfig(transportType: string, level: string, formatter: string,
                                             options: map<string, Value>)

  /** `"json"` selects the JSON formatter; any other name, the text formatter. */
  function ConfigFormatter(name: string): (f: Formatter)
    ensures name == "json" <==> f == JsonFormatter
    ensures name != "json" ==> f == TextFormatter("")
  {
    if name == "json" then JsonFormatter else TextFormatter("")
  }

  /** `Options["stderr"].(bool)`: false unless the option holds a boolean. */
  function StderrOption(options: map<string, Value>): (r: bool)
    ensures r <==> "stderr" in options && options["stderr"] == Bool(true)
  {
    if "stderr" in options && options["stderr"].Bool? then options["stderr"].b else false
  }

  /** `Options["path"].(string)`: empty unless the option holds a string. */
  function PathOption(options: map<string, Value>): (r: string)
    ensures r != "" ==> "path" in options && options["path"] == Str(r)
    ensures "path" in options && options["path"].Str? ==> r == options["path"].s
  {
    if "path" in options && options["path"].Str? then options["path"].s else ""
  }

  /** The transport one configuration entry builds: a console transport, a file
      transport on the opened path (or the open error), or an unknown-type error. */
  function ConfigKind(levels: LevelTable, cfg: TransportConfig, open: string -> Result<nat>): (r: Result<TransportKind>)
    ensures cfg.transportType == "console" ==>
      r == Ok(Console(Parse(levels, cfg.level), ConfigFormatter(cfg.formatter), StderrOption(cfg.options)))
    ensures cfg.transportType == "file" && open(PathOption(cfg.options)).Ok? ==>
      r == Ok(File(open(PathOption(cfg.options)).value, Parse(levels, cfg.level), ConfigFormatter(cfg.formatter)))
    ensures cfg.transportType == "file" && open(PathOption(cfg.options)).Err? ==>
      r == Err(open(PathOption(cfg.options)).error)
    ensures cfg.transportType != "console" && cfg.transportType != "file" ==>
      r == Err(UnknownTransportType(cfg.transportType))
  {
    var formatter := ConfigFormatter(cfg.formatter);
    var level := Parse(levels, cfg.level);
    if cfg.transportType == "console" then
      Ok(Console(level, formatter, StderrOption(cfg.options)))
    else if cfg.transportType == "file" then
      match open(PathOption(cfg.options))
      case Ok(file) => Ok(File(file, level, formatter))
      case Err(err) => Err(err)
    else
      Err(UnknownTransportType(cfg.transportType))
  }

  /** The transports a whole configuration builds, in order, or the first error. */
  function BuildKinds(levels: LevelTable, cfgs: seq<TransportConfig>, open: string -> Result<nat>)
    : (r: Result<seq<TransportKind>>)
    ensures r.Ok? <==> forall i :: 0 <= i < |cfgs| ==> ConfigKind(levels, cfgs[i], open).Ok?
    ensures r.Ok? ==> (|r.value| == |cfgs|
      && forall i :: 0 <= i < |cfgs| ==> r.value[i] == ConfigKind(levels, cfgs[i], open).value)
    ensures r.Err? ==> exists i :: (0 <= i < |cfgs| && ConfigKind(levels, cfgs[i], open) == Err(r.error)
      && forall j :: 0 <= j < i ==> ConfigKind(levels, cfgs[j], open).Ok?)
  {
    if cfgs == [] then Ok([])
    else
      var n := |cfgs| - 1;
      var prefix := BuildKinds(levels, cfgs[..n], open);
      assert forall i :: 0 <= i < n ==> cfgs[..n][i] == cfgs[i];
      if prefix.Err? then prefix
      else match ConfigKind(levels, cfgs[n], open)
        case Ok(k) => Ok(prefix.value + [k])
        case Err(err) => Err(err)
  }

  /** The kinds behind a list of transports. */
  function Kinds(ts: seq<Transport>): seq<TransportKind>
  {
    seq(|ts|, i requires 0 <= i < |ts| => ts[i].kind)
  }

  /** `NewLoggerFromConfig`: one transport per entry, in order; on the first error no
      logger is returned, only the error. */
  method NewLoggerFromConfig(levels: LevelTable, cfgs: seq<TransportConfig>, open: string -> Result<nat>)
    returns (r: Result<Logger>)
    ensures r.Ok? <==> BuildKinds(levels, cfgs, open).Ok?
    ensures r.Err? ==> r.error == BuildKinds(levels, cfgs, open).error
    ensures r.Ok? ==> fresh(r.value) && Kinds(r.value.transports) == BuildKinds(levels, cfgs, open).value
    ensures r.Ok? ==> r.value.beforeHooks == [] && r.value.afterHooks == [] && r.value.errorHooks == []
    ensures r.Ok? ==> !r.value.stacktrace.enabled
  {
    var logger := new Logger([]);
    for i := 0 to |cfgs|
      invariant fresh(logger)
      invariant BuildKinds(levels, cfgs[..i], open).Ok?
      invariant Kinds(logger.transports) == BuildKinds(levels, cfgs[..i], open).value
      invariant logger.beforeHooks == [] && logger.afterHooks == [] && logger.errorHooks == []
      invariant !logger.stacktrace.enabled
    {
      assert cfgs[..i + 1][..i] == cfgs[..i];
      var cfg := cfgs[i];
      var formatter := ConfigFormatter(cfg.formatter);
      var level := Parse(levels, cfg.level);
      if cfg.transportType == "console" {
        var t := new Transport(Console(level, formatter, StderrOption(cfg.options)));
        logger.AddTransport(t);
      } else if cfg.transportType == "file" {
        var ft := NewFileTransport(PathOption(cfg.options), level, formatter, open);
        if ft.Err? {
          BuildKindsStops(levels, cfgs, open, i);
          return Err(ft.error);
        }
        logger.AddTransport(ft.value);
      } else {
        BuildKindsStops(levels, cfgs, open, i);
        return Err(UnknownTransportType(cfg.transportType));
      }
    }
    assert cfgs[..|cfgs|] == cfgs;
    r := Ok(logger);
  }

  /** When every earlier entry builds and entry `i` does not, the whole configuration
      fails with entry `i`'s error. */
  lemma BuildKindsStops(levels: LevelTable, cfgs: seq<TransportConfig>, open: string -> Result<nat>, i: nat)
    requires i < |cfgs|
    requires BuildKinds(levels, cfgs[..i], open).Ok?
    requires ConfigKind(levels, cfgs[i], open).Err?
    ensures BuildKinds(levels, cfgs, open) == Err(ConfigKind(levels, cfgs[i], open).error)
  {
    var r := BuildKinds(levels, cfgs, open);
    assert forall j :: 0 <= j < i ==> cfgs[..i][j] == cfgs[j];
    assert r.Err?;
    var first :| 0 <= first < |cfgs| && ConfigKind(levels, cfgs[first], open) == Err(r.error)
      && forall j :: 0 <= j < first ==> ConfigKind(levels, cfgs[j], open).Ok?;
    assert first == i;
  }
}
