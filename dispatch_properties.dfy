/** What a dispatch promises (lazylog.go:132-161), proved of its trace. */
module DispatchProperties {
  import opened Wrappers
  import opened Levels
  import opened Entries
  import opened Formatters
  import opened Sinks
  import opened Transports
  import opened Dispatch

  /** Events that belong to a transport: its effect and the error hooks it set off. */
  predicate IsTransportEvent(ev: Event)
  {
    ev.Delivered? || ev.ErrorHookRan?
  }

  /** The position of the transport an event belongs to; -1 for hook runs and exits. */
  function Owner(ev: Event): int
  {
    match ev
    case Delivered(t, _) => t
    case ErrorHookRan(_, t, _, _) => t
    case _ => -1
  }

  predicate Concerns(ev: Event, i: nat)
  {
    Owner(ev) == i
  }

  /** The events of `trace` that belong to transport `i`, in order. */
  function EventsFor(trace: seq<Event>, i: nat): seq<Event>
  {
    if trace == [] then []
    else EventsFor(trace[..|trace| - 1], i) + (if Concerns(trace[|trace| - 1], i) then [trace[|trace| - 1]] else [])
  }

  lemma {:induction false} EventsForConcat(a: seq<Event>, b: seq<Event>, i: nat)
    ensures EventsFor(a + b, i) == EventsFor(a, i) + EventsFor(b, i)
  {
    if b == [] {
      assert a + b == a;
    } else {
      var n := |b| - 1;
      var ab := a + b;
      var last: seq<Event> := if Concerns(b[n], i) then [b[n]] else [];
      assert ab[..|ab| - 1] == a + b[..n];
      assert ab[|ab| - 1] == b[n];
      assert EventsFor(ab, i) == EventsFor(a + b[..n], i) + last;
      EventsForConcat(a, b[..n], i);
      assert EventsFor(b, i) == EventsFor(b[..n], i) + last;
    }
  }

  lemma {:induction false} EventsForAll(s: seq<Event>, i: nat)
    requires forall k :: 0 <= k < |s| ==> Concerns(s[k], i)
    ensures EventsFor(s, i) == s
  {
    if s != [] {
      EventsForAll(s[..|s| - 1], i);
    }
  }

  lemma {:induction false} EventsForNone(s: seq<Event>, i: nat)
    requires forall k :: 0 <= k < |s| ==> !Concerns(s[k], i)
    ensures EventsFor(s, i) == []
  {
    if s != [] {
      EventsForNone(s[..|s| - 1], i);
    }
  }

  lemma {:induction false} EventsForMembers(s: seq<Event>, i: nat, ev: Event)
    ensures ev in EventsFor(s, i) <==> ev in s && Concerns(ev, i)
  {
    if s != [] {
      EventsForMembers(s[..|s| - 1], i, ev);
      assert s == s[..|s| - 1] + [s[|s| - 1]];
    }
  }

  // ---------------------------------------------------------------------------
  // Hooks

  /** Hook `k` runs `k`-th, exactly once, on the entry the hooks before it produced. */
  lemma {:induction false} HookEventsAt(phase: Phase, hooks: seq<Hook>, e: Entry)
    ensures |HookEvents(phase, hooks, e)| == |hooks|
    ensures forall k :: 0 <= k < |hooks| ==> HookEvents(phase, hooks, e)[k] == HookRan(phase, k, Hooked(hooks[..k], e))
  {
    if hooks != [] {
      var n := |hooks| - 1;
      HookEventsAt(phase, hooks[..n], e);
      forall k | 0 <= k < n
        ensures hooks[..n][..k] == hooks[..k]
      {
      }
    }
  }

  // ---------------------------------------------------------------------------
  // The fan-out

  /** Every event of a step belongs to that step's transport. */
  lemma StepConcerns(rt: Runtime, levels: LevelTable, t: Transport, i: nat, hookCount: nat, e: Entry,
                     override: Option<Formatter>, ioErr: Option<Error>)
    ensures forall k :: 0 <= k < |Step(rt, levels, t, i, hookCount, e, override, ioErr)| ==>
      Concerns(Step(rt, levels, t, i, hookCount, e, override, ioErr)[k], i)
  {
    if e.level >= MinLevel(t) {
      var o := Attempt(rt, levels, t.kind, e, override, ioErr);
      var d: seq<Event> := if o.effect.Some? then [Delivered(i, o.effect.value)] else [];
      var h: seq<Event> := if o.err.Some? then ErrorHookEvents(hookCount, i, e, o.err.value) else [];
      assert Step(rt, levels, t, i, hookCount, e, override, ioErr) == d + h;
      assert forall k :: 0 <= k < |h| ==> Concerns(h[k], i);
      assert forall k :: 0 <= k < |d| ==> Concerns(d[k], i);
    }
  }

  /** The fan-out holds only transport events, of transports in the list. */
  lemma {:induction false} FanOutIndices(rt: Runtime, levels: LevelTable, ts: seq<Transport>, hookCount: nat, e: Entry,
                                         override: Option<Formatter>, io: nat -> Option<Error>)
    ensures forall k :: 0 <= k < |FanOut(rt, levels, ts, hookCount, e, override, io)| ==>
      0 <= Owner(FanOut(rt, levels, ts, hookCount, e, override, io)[k]) < |ts|
  {
    if ts != [] {
      var n := |ts| - 1;
      var prefix := FanOut(rt, levels, ts[..n], hookCount, e, override, io);
      var step := Step(rt, levels, ts[n], n, hookCount, e, override, io(n));
      FanOutIndices(rt, levels, ts[..n], hookCount, e, override, io);
      assert |ts[..n]| == n;
      StepConcerns(rt, levels, ts[n], n, hookCount, e, override, io(n));
      var f := prefix + step;
      assert f == FanOut(rt, levels, ts, hookCount, e, override, io);
      forall k | 0 <= k < |f|
        ensures 0 <= Owner(f[k]) < |ts|
      {
        if k < |prefix| {
          assert f[k] == prefix[k];
        } else {
          assert f[k] == step[k - |prefix|];
        }
      }
    }
  }

  /** Transports are visited in list order: the fan-out never goes back to an earlier
      transport, so all of one transport's events (its error hooks included) come before
      any event of a later one. */
  lemma {:induction false} FanOutInListOrder(rt: Runtime, levels: LevelTable, ts: seq<Transport>, hookCount: nat, e: Entry,
                                             override: Option<Formatter>, io: nat -> Option<Error>)
    ensures forall p, q :: 0 <= p < q < |FanOut(rt, levels, ts, hookCount, e, override, io)| ==>
      Owner(FanOut(rt, levels, ts, hookCount, e, override, io)[p]) <= Owner(FanOut(rt, levels, ts, hookCount, e, override, io)[q])
  {
    if ts != [] {
      var n := |ts| - 1;
      var prefix := FanOut(rt, levels, ts[..n], hookCount, e, override, io);
      var step := Step(rt, levels, ts[n], n, hookCount, e, override, io(n));
      FanOutInListOrder(rt, levels, ts[..n], hookCount, e, override, io);
      FanOutIndices(rt, levels, ts[..n], hookCount, e, override, io);
      assert |ts[..n]| == n;
      StepConcerns(rt, levels, ts[n], n, hookCount, e, override, io(n));
      var f := prefix + step;
      assert f == FanOut(rt, levels, ts, hookCount, e, override, io);
      forall p, q | 0 <= p < q < |f|
        ensures Owner(f[p]) <= Owner(f[q])
      {
        if p < |prefix| {
          assert f[p] == prefix[p];
        } else {
          assert f[p] == step[p - |prefix|];
        }
        if q < |prefix| {
          assert f[q] == prefix[q];
        } else {
          assert f[q] == step[q - |prefix|];
        }
      }
    }
  }

  /** The events the fan-out has for transport `i` are exactly that transport's step. */
  lemma {:induction false} FanOutFor(rt: Runtime, levels: LevelTable, ts: seq<Transport>, hookCount: nat, e: Entry,
                                     override: Option<Formatter>, io: nat -> Option<Error>, i: nat)
    requires i < |ts|
    ensures EventsFor(FanOut(rt, levels, ts, hookCount, e, override, io), i)
         == Step(rt, levels, ts[i], i, hookCount, e, override, io(i))
  {
    var n := |ts| - 1;
    var prefix := FanOut(rt, levels, ts[..n], hookCount, e, override, io);
    var step := Step(rt, levels, ts[n], n, hookCount, e, override, io(n));
    EventsForConcat(prefix, step, i);
    StepConcerns(rt, levels, ts[n], n, hookCount, e, override, io(n));
    if i == n {
      FanOutIndices(rt, levels, ts[..n], hookCount, e, override, io);
      assert |ts[..n]| == n;
      EventsForNone(prefix, i);
      EventsForAll(step, i);
    } else {
      FanOutFor(rt, levels, ts[..n], hookCount, e, override, io, i);
      EventsForNone(step, i);
    }
  }

  // ---------------------------------------------------------------------------
  // A whole dispatch

  /** The pipeline order: every before-hook, in registration order, first; then only
      transport events; then every after-hook, in registration order, on the entry the
      before-hooks left. */
  lemma DispatchPhases(rt: Runtime, levels: LevelTable, snap: Snapshot, e: Entry, override: Option<Formatter>,
                       io: nat -> Option<Error>)
    ensures var trace := DispatchTrace(rt, levels, snap, e, override, io);
      var nb, na := |snap.beforeHooks|, |snap.afterHooks|;
      && nb + na <= |trace|
      && (forall k :: 0 <= k < nb ==> trace[k] == HookRan(Before, k, Hooked(snap.beforeHooks[..k], e)))
      && (forall k :: nb <= k < |trace| - na ==> 0 <= Owner(trace[k]) < |snap.transports|)
      && (forall k :: 0 <= k < na ==>
            trace[|trace| - na + k] == HookRan(After, k, Hooked(snap.afterHooks[..k], Hooked(snap.beforeHooks, e))))
  {
    var hooked := Hooked(snap.beforeHooks, e);
    var b := HookEvents(Before, snap.beforeHooks, e);
    var f := FanOut(rt, levels, snap.transports, |snap.errorHooks|, hooked, override, io);
    var a := HookEvents(After, snap.afterHooks, hooked);
    HookEventsAt(Before, snap.beforeHooks, e);
    HookEventsAt(After, snap.afterHooks, hooked);
    FanOutIndices(rt, levels, snap.transports, |snap.errorHooks|, hooked, override, io);
    PhasesOf(b, f, a, |snap.transports|);
  }

  /** The three parts of a trace, told apart by position. */
  lemma PhasesOf(b: seq<Event>, f: seq<Event>, a: seq<Event>, n: nat)
    requires forall k :: 0 <= k < |f| ==> 0 <= Owner(f[k]) < n
    ensures var trace := b + f + a;
      && |b| + |a| <= |trace|
      && (forall k :: 0 <= k < |b| ==> trace[k] == b[k])
      && (forall k :: |b| <= k < |trace| - |a| ==> 0 <= Owner(trace[k]) < n)
      && (forall k :: 0 <= k < |a| ==> trace[|trace| - |a| + k] == a[k])
  {
    var trace := b + f + a;
    forall k | |b| <= k < |trace| - |a|
      ensures 0 <= Owner(trace[k]) < n
    {
      assert trace[k] == f[k - |b|];
    }
  }

  /** The events of a dispatch that belong to transport `i` are its step on the hooked entry. */
  lemma DispatchFor(rt: Runtime, levels: LevelTable, snap: Snapshot, e: Entry, override: Option<Formatter>,
                    io: nat -> Option<Error>, i: nat)
    requires i < |snap.transports|
    ensures EventsFor(DispatchTrace(rt, levels, snap, e, override, io), i)
         == Step(rt, levels, snap.transports[i], i, |snap.errorHooks|, Hooked(snap.beforeHooks, e), override, io(i))
  {
    var hooked := Hooked(snap.beforeHooks, e);
    var b := HookEvents(Before, snap.beforeHooks, e);
    var f := FanOut(rt, levels, snap.transports, |snap.errorHooks|, hooked, override, io);
    var a := HookEvents(After, snap.afterHooks, hooked);
    HookEventsOwnNothing(Before, snap.beforeHooks, e, i);
    HookEventsOwnNothing(After, snap.afterHooks, hooked, i);
    EventsForConcat(b + f, a, i);
    EventsForConcat(b, f, i);
    FanOutFor(rt, levels, snap.transports, |snap.errorHooks|, hooked, override, io, i);
  }

  /** Hook runs belong to no transport. */
  lemma HookEventsOwnNothing(phase: Phase, hooks: seq<Hook>, e: Entry, i: nat)
    ensures EventsFor(HookEvents(phase, hooks, e), i) == []
  {
    HookEventsAt(phase, hooks, e);
    EventsForNone(HookEvents(phase, hooks, e), i);
  }

  /** The level filter: a transport gets something from a dispatch only when the entry's
      level (after the before-hooks) is at least its MinLevel, and then it gets exactly
      one delivery unless the call produced nothing to write. */
  lemma LevelFilter(rt: Runtime, levels: LevelTable, snap: Snapshot, e: Entry, override: Option<Formatter>,
                    io: nat -> Option<Error>, i: nat)
    requires i < |snap.transports|
    ensures var trace := DispatchTrace(rt, levels, snap, e, override, io);
      var hooked := Hooked(snap.beforeHooks, e);
      var t := snap.transports[i];
      && (hooked.level < MinLevel(t) ==> EventsFor(trace, i) == [])
      && (forall d :: Delivered(i, d) in trace <==>
            hooked.level >= MinLevel(t) && Attempt(rt, levels, t.kind, hooked, override, io(i)).effect == Some(d))
  {
    var trace := DispatchTrace(rt, levels, snap, e, override, io);
    DispatchFor(rt, levels, snap, e, override, io, i);
    forall d
      ensures Delivered(i, d) in trace <==> Delivered(i, d) in EventsFor(trace, i)
    {
      EventsForMembers(trace, i, Delivered(i, d));
    }
  }

  /** Error hooks: when transport `i` is attempted and fails with `err`, the events
      belonging to it are its delivery (if any) followed by each error hook, in
      registration order, exactly once, with the entry, that transport and `err`;
      when it does not fail, no error hook runs for it. */
  lemma ErrorHooksPerFailure(rt: Runtime, levels: LevelTable, snap: Snapshot, e: Entry, override: Option<Formatter>,
                             io: nat -> Option<Error>, i: nat)
    requires i < |snap.transports|
    requires Hooked(snap.beforeHooks, e).level >= MinLevel(snap.transports[i])
    ensures var hooked := Hooked(snap.beforeHooks, e);
      var o := Attempt(rt, levels, snap.transports[i].kind, hooked, override, io(i));
      var mine := EventsFor(DispatchTrace(rt, levels, snap, e, override, io), i);
      var d := if o.effect.Some? then 1 else 0;
      && |mine| == d + (if o.err.Some? then |snap.errorHooks| else 0)
      && (o.effect.Some? ==> mine[0] == Delivered(i, o.effect.value))
      && (o.err.Some? ==>
            forall j :: 0 <= j < |snap.errorHooks| ==> mine[d + j] == ErrorHookRan(j, i, hooked, o.err.value))
  {
    DispatchFor(rt, levels, snap, e, override, io, i);
  }

  /** Failures do not spread: what transport `i` gets depends only on its own sink's
      result, not on whether any other transport failed. */
  lemma FailuresAreIsolated(rt: Runtime, levels: LevelTable, snap: Snapshot, e: Entry, override: Option<Formatter>,
                            io1: nat -> Option<Error>, io2: nat -> Option<Error>, i: nat)
    requires i < |snap.transports| && io1(i) == io2(i)
    ensures EventsFor(DispatchTrace(rt, levels, snap, e, override, io1), i)
         == EventsFor(DispatchTrace(rt, levels, snap, e, override, io2), i)
  {
    DispatchFor(rt, levels, snap, e, override, io1, i);
    DispatchFor(rt, levels, snap, e, override, io2, i);
  }

  /** The per-call formatter: a format error becomes the transport's error with nothing
      written; otherwise the four known kinds get the bytes on their raw sink, and any
      other kind gets `WriteLog(&Entry{Message: bytes})`. */
  lemma OverridePath(rt: Runtime, levels: LevelTable, k: TransportKind, e: Entry, f: Formatter, ioErr: Option<Error>)
    ensures var o := Attempt(rt, levels, k, e, Some(f), ioErr);
      match Formatted(rt, levels, f, e)
      case Err(err) => o == Outcome(None, Some(err))
      case Ok(b) =>
        if RawSink(k).Some? then o == Wrote(RawSink(k).value, b, ioErr)
        else o == WriteLog(rt, levels, k, BareEntry(b), ioErr)
  {
  }

  /** A syslog transport reached through the override re-formats: its own formatter runs
      on a bare entry (level DEBUG, zero time) whose message is the override's bytes. */
  lemma OverrideOnSyslog(rt: Runtime, levels: LevelTable, w: nat, level: Level, own: Formatter, e: Entry,
                         f: Formatter, ioErr: Option<Error>)
    requires Formatted(rt, levels, f, e).Ok?
    requires Formatted(rt, levels, own, BareEntry(Formatted(rt, levels, f, e).value)).Ok?
    ensures Attempt(rt, levels, Syslog(w, level, own), e, Some(f), ioErr)
         == Wrote(SyslogInfo(w), Formatted(rt, levels, own, BareEntry(Formatted(rt, levels, f, e).value)).value, ioErr)
  {
  }
}
