/** The dispatch engine of lazylog.go: `dispatchEntry` and `writeFormatted`.
    A dispatch is described by the trace of events it produces: hook runs, the
    effect each transport had, and error-hook runs. */
module Dispatch {
  import opened Wrappers
  import opened Levels
  import opened Entries
  import opened Formatters
  import opened Sinks
  import opened Transports

  /** A before- or after-hook: `func(entry *Entry)`, which may change the entry in place. */
  datatype Hook = Hook(id: nat, apply: Entry -> Entry)

  /** A `TransportErrorHook`; it only observes `(entry, transport, err)`. */
  datatype ErrorHook = ErrorHook(id: nat)

  /** `StacktraceConfig`: the levels map holds only `true` entries, so it is a set. */
  datatype StacktraceConfig = StacktraceConfig(enabled: bool, levels: set<Level>)

  /** `logSnapshot`: the logger's lists and policy as one log call sees them. */
  datatype Snapshot = Snapshot(
    transports: seq<Transport>,
    beforeHooks: seq<Hook>,
    afterHooks: seq<Hook>,
    errorHooks: seq<ErrorHook>,
    stacktrace: StacktraceConfig)

  datatype Phase = Before | After

  /** What a log call does, in order. `transport` and `index` are positions in the
      snapshot's lists; `seen` is the entry as the hook received it. */
  datatype Event =
    | HookRan(phase: Phase, index: nat, seen: Entry)
    | Delivered(transport: nat, effect: Effect)
    | ErrorHookRan(index: nat, transport: nat, seen: Entry, err: Error)
    | Exited(code: int)
    | Panicked(message: string)

  // ---------------------------------------------------------------------------
  // Specification

  /** The entry after running `hooks` on it in order. */
  function Hooked(hooks: seq<Hook>, e: Entry): Entry
  {
    if hooks == [] then e else hooks[|hooks| - 1].apply(Hooked(hooks[..|hooks| - 1], e))
  }

  /** The runs of `hooks` in order, each seeing what the previous ones left. */
  function HookEvents(phase: Phase, hooks: seq<Hook>, e: Entry): seq<Event>
  {
    if hooks == [] then []
    else HookEvents(phase, hooks[..|hooks| - 1], e) + [HookRan(phase, |hooks| - 1, Hooked(hooks[..|hooks| - 1], e))]
  }

  /** The runs of the first `count` error hooks for transport `i` failing with `err`. */
  function ErrorHookEvents(count: nat, i: nat, e: Entry, err: Error): (evs: seq<Event>)
    ensures |evs| == count
    ensures forall j :: 0 <= j < count ==> evs[j] == ErrorHookRan(j, i, e, err)
  {
    if count == 0 then [] else ErrorHookEvents(count - 1, i, e, err) + [ErrorHookRan(count - 1, i, e, err)]
  }

  /** `writeFormatted`: raw bytes straight to the sink of the four known kinds; any other
      kind gets `WriteLog(&Entry{Message: data})`. */
  function WriteFormatted(rt: Runtime, levels: LevelTable, k: TransportKind, data: Bytes, ioErr: Option<Error>)
    : (o: Outcome)
    ensures RawSink(k).Some? ==> o == Wrote(RawSink(k).value, data, ioErr)
    ensures RawSink(k).None? ==> o == WriteLog(rt, levels, k, BareEntry(data), ioErr)
  {
    match k
    case Writer(w, _, _) => Wrote(Stream(w), data, ioErr)
    case Console(_, _, toStdErr) => Wrote(ConsoleTransport.Out(toStdErr), data, ioErr)
    case File(file, _, _) => Wrote(OsFile(file), data, ioErr)
    case Lumberjack(logger, _, _, _) => Wrote(RotatingFile(logger), data, ioErr)
    case _ => WriteLog(rt, levels, k, BareEntry(data), ioErr)
  }

  /** One transport's attempt: its own WriteLog, or, with a per-call formatter, that
      formatter's output (a format error is the transport's error and nothing is written). */
  function Attempt(rt: Runtime, levels: LevelTable, k: TransportKind, e: Entry, override: Option<Formatter>,
                   ioErr: Option<Error>): (o: Outcome)
    ensures override.None? ==> o == WriteLog(rt, levels, k, e, ioErr)
    ensures override.Some? && Formatted(rt, levels, override.value, e).Err? ==>
      o == Outcome(None, Some(Formatted(rt, levels, override.value, e).error))
    ensures override.Some? && Formatted(rt, levels, override.value, e).Ok? ==>
      o == WriteFormatted(rt, levels, k, Formatted(rt, levels, override.value, e).value, ioErr)
  {
    match override
    case None => WriteLog(rt, levels, k, e, ioErr)
    case Some(f) =>
      match Formatted(rt, levels, f, e)
      case Err(err) => Outcome(None, Some(err))
      case Ok(b) => WriteFormatted(rt, levels, k, b, ioErr)
  }

  /** The events of an outcome: its effect, then every error hook if it failed. */
  function OutcomeEvents(o: Outcome, i: nat, hookCount: nat, e: Entry): seq<Event>
  {
    (if o.effect.Some? then [Delivered(i, o.effect.value)] else [])
    + (if o.err.Some? then ErrorHookEvents(hookCount, i, e, o.err.value) else [])
  }

  /** What transport `t` at position `i` contributes: nothing below its level. */
  function Step(rt: Runtime, levels: LevelTable, t: Transport, i: nat, hookCount: nat, e: Entry,
                override: Option<Formatter>, ioErr: Option<Error>): seq<Event>
  {
    if e.level >= MinLevel(t) then OutcomeEvents(Attempt(rt, levels, t.kind, e, override, ioErr), i, hookCount, e)
    else []
  }

  /** The fan-out over `ts` in list order; `io(i)` is what transport `i`'s sink operation returns. */
  function FanOut(rt: Runtime, levels: LevelTable, ts: seq<Transport>, hookCount: nat, e: Entry,
                  override: Option<Formatter>, io: nat -> Option<Error>): seq<Event>
  {
    if ts == [] then []
    else
      var n := |ts| - 1;
      FanOut(rt, levels, ts[..n], hookCount, e, override, io) + Step(rt, levels, ts[n], n, hookCount, e, override, io(n))
  }

  /** `dispatchEntry`: before-hooks, fan-out, after-hooks. */
  function DispatchTrace(rt: Runtime, levels: LevelTable, snap: Snapshot, e: Entry, override: Option<Formatter>,
                         io: nat -> Option<Error>): seq<Event>
  {
    var hooked := Hooked(snap.beforeHooks, e);
    HookEvents(Before, snap.beforeHooks, e)
    + FanOut(rt, levels, snap.transports, |snap.errorHooks|, hooked, override, io)
    + HookEvents(After, snap.afterHooks, hooked)
  }

  // ---------------------------------------------------------------------------
  // The engine

  /** Run `hooks` in order on the entry, recording each run. */
  method RunHooks(phase: Phase, hooks: seq<Hook>, e: Entry) returns (entry: Entry, events: seq<Event>)
    ensures entry == Hooked(hooks, e)
    ensures events == HookEvents(phase, hooks, e)
  {
    entry := e;
    events := [];
    var h := 0;
    while h < |hooks|
      invariant 0 <= h <= |hooks|
      invariant entry == Hooked(hooks[..h], e)
      invariant events == HookEvents(phase, hooks[..h], e)
    {
      assert hooks[..h + 1][..h] == hooks[..h];
      events := events + [HookRan(phase, h, entry)];
      entry := hooks[h].apply(entry);
      h := h + 1;
    }
    assert hooks[..h] == hooks;
  }

  /** Call every error hook, in order, with the entry, the transport and its error. */
  method RunErrorHooks(count: nat, i: nat, entry: Entry, err: Error) returns (events: seq<Event>)
    ensures events == ErrorHookEvents(count, i, entry, err)
  {
    events := [];
    var j := 0;
    while j < count
      invariant 0 <= j <= count
      invariant events == ErrorHookEvents(j, i, entry, err)
    {
      events := events + [ErrorHookRan(j, i, entry, err)];
      j := j + 1;
    }
  }

  /** The body of the fan-out for one transport that passed the level filter. */
  method AttemptTransport(rt: Runtime, levels: LevelTable, t: Transport, entry: Entry, override: Option<Formatter>,
                          ioErr: Option<Error>)
    returns (o: Outcome)
    ensures o == Attempt(rt, levels, t.kind, entry, override, ioErr)
  {
    if override.Some? {
      var formatted := Format(rt, levels, override.value, entry);
      if formatted.Err? {
        o := Outcome(None, Some(formatted.error));
      } else {
        o := WriteFormatted(rt, levels, t.kind, formatted.value, ioErr);
      }
    } else {
      o := WriteLog(rt, levels, t.kind, entry, ioErr);
    }
  }

  /** One turn of the fan-out loop: the level filter, the attempt, the error hooks. */
  method Visit(rt: Runtime, levels: LevelTable, t: Transport, i: nat, hookCount: nat, entry: Entry,
               override: Option<Formatter>, ioErr: Option<Error>)
    returns (events: seq<Event>)
    ensures events == Step(rt, levels, t, i, hookCount, entry, override, ioErr)
  {
    events := [];
    if entry.level >= MinLevel(t) {
      var o := AttemptTransport(rt, levels, t, entry, override, ioErr);
      if o.effect.Some? {
        events := [Delivered(i, o.effect.value)];
      }
      if o.err.Some? {
        var hooked := RunErrorHooks(hookCount, i, entry, o.err.value);
        events := events + hooked;
      }
    }
  }

  /** Regrouping the trace the loop builds; the loop runs out of resource without it. */
  lemma ConcatAssoc(a: seq<Event>, b: seq<Event>, c: seq<Event>)
    ensures (a + b) + c == a + (b + c)
  {
  }

  lemma FanOutExtends(rt: Runtime, levels: LevelTable, ts: seq<Transport>, i: nat, hookCount: nat, e: Entry,
                      override: Option<Formatter>, io: nat -> Option<Error>)
    requires i < |ts|
    ensures FanOut(rt, levels, ts[..i + 1], hookCount, e, override, io)
         == FanOut(rt, levels, ts[..i], hookCount, e, override, io) + Step(rt, levels, ts[i], i, hookCount, e, override, io(i))
  {
    assert ts[..i + 1][..i] == ts[..i];
  }

  /** `dispatchEntry(snap, entry, formatter)`, step by step as the source does it. */
  method DispatchEntry(rt: Runtime, levels: LevelTable, snap: Snapshot, e: Entry, override: Option<Formatter>,
                       io: nat -> Option<Error>)
    returns (trace: seq<Event>)
    ensures trace == DispatchTrace(rt, levels, snap, e, override, io)
  {
    var entry, before := RunHooks(Before, snap.beforeHooks, e);
    trace := before;
    var ts := snap.transports;
    var i := 0;
    assert ts[..0] == [];
    while i < |ts|
      invariant 0 <= i <= |ts|
      invariant trace == before + FanOut(rt, levels, ts[..i], |snap.errorHooks|, entry, override, io)
    {
      FanOutExtends(rt, levels, ts, i, |snap.errorHooks|, entry, override, io);
      var events := Visit(rt, levels, ts[i], i, |snap.errorHooks|, entry, override, io(i));
      ghost var done := FanOut(rt, levels, ts[..i], |snap.errorHooks|, entry, override, io);
      ConcatAssoc(before, done, events);
      trace := trace + events;
      i := i + 1;
    }
    assert ts[..i] == ts;
    var _, after := RunHooks(After, snap.afterHooks, entry);
    trace := trace + after;
  }
}
