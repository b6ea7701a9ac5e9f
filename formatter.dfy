/** The Formatter interface and its two implementations (formatter.go). */
module Formatters {
  import opened Wrappers
  import opened Levels
  import opened Entries

  /** `time.RFC3339` and `time.RFC3339Nano`. */
  const RFC3339 := "2006-01-02T15:04:05Z07:00"
  const RFC3339Nano := "2006-01-02T15:04:05.999999999Z07:00"

  /** A `Formatter`: the two shipped ones, or any other implementation. */
  datatype Formatter =
    | TextFormatter(timestampFormat: string)
    | JsonFormatter
    | CustomFormatter(id: nat)

  /** The pieces of the Go runtime and standard library the formatters call and the
      model does not look inside: `Time.Format`, `%v`, `json.Marshal`, the order in
      which a `range` over a map visits its keys, and other Formatter implementations. */
  datatype Runtime = Runtime(
    formatTime: (Time, string) -> string,
    render: Value -> string,
    marshal: Fields -> Result<Bytes>,
    keyOrder: Fields -> seq<string>,
    customFormat: (nat, Entry) -> Result<Bytes>)

  /** `order` visits every key of `m` exactly once. */
  ghost predicate IsKeyOrder(order: seq<string>, m: Fields)
  {
    && (forall i, j :: 0 <= i < j < |order| ==> order[i] != order[j])
    && (forall k :: k in order <==> k in m)
  }

  /** The runtime's map iteration visits each key once, as Go's `range` does. */
  ghost predicate Enumerates(rt: Runtime)
  {
    forall m: Fields :: IsKeyOrder(rt.keyOrder(m), m)
  }

  // ---------------------------------------------------------------------------
  // TextFormatter

  /** The layout TextFormatter uses: its own, or RFC 3339 when it has none. */
  function EffectiveLayout(layout: string): (l: string)
    ensures layout == "" ==> l == RFC3339
    ensures layout != "" ==> l == layout
  {
    if layout == "" then RFC3339 else layout
  }

  /** `<ts> [LEVEL] message`: everything the text line holds before its fields. */
  function TextHead(rt: Runtime, levels: LevelTable, layout: string, e: Entry): Bytes
  {
    rt.formatTime(e.timestamp, EffectiveLayout(layout)) + " " + "[" + Name(levels, e.level) + "]" + " " + e.message
  }

  /** One field's contribution, `fmt.Sprintf("%s=%v ", k, v)`. */
  function Chunk(rt: Runtime, k: string, v: Value): Bytes
  {
    k + "=" + rt.render(v) + " "
  }

  /** The chunks of the keys in `order` that `m` holds, in that order. */
  function Chunks(rt: Runtime, order: seq<string>, m: Fields): Bytes
  {
    if order == [] then []
    else
      var k := order[|order| - 1];
      Chunks(rt, order[..|order| - 1], m) + (if k in m then Chunk(rt, k, m[k]) else [])
  }

  /** What TextFormatter.Format returns for `e` (it never fails). */
  function TextOutput(rt: Runtime, levels: LevelTable, layout: string, e: Entry): Bytes
  {
    TextHead(rt, levels, layout, e)
    + (if |e.fields| > 0 then " " + Chunks(rt, rt.keyOrder(e.fields), e.fields) else [])
    + "\n"
  }

  /** `TextFormatter.Format`: build the line in a buffer, one field at a time. */
  method FormatText(rt: Runtime, levels: LevelTable, layout: string, e: Entry) returns (b: Bytes)
    ensures b == TextOutput(rt, levels, layout, e)
  {
    var timestampFormat := layout;
    if timestampFormat == "" {
      timestampFormat := RFC3339;
    }
    b := rt.formatTime(e.timestamp, timestampFormat);
    b := b + " ";
    b := b + "[" + Name(levels, e.level) + "]";
    b := b + " ";
    b := b + e.message;
    if |e.fields| > 0 {
      b := b + " ";
      ghost var head := b;
      var order := rt.keyOrder(e.fields);
      var i := 0;
      while i < |order|
        invariant 0 <= i <= |order|
        invariant b == head + Chunks(rt, order[..i], e.fields)
      {
        var k := order[i];
        assert order[..i + 1][..i] == order[..i];
        if k in e.fields {
          b := b + k + "=" + rt.render(e.fields[k]) + " ";
        }
        i := i + 1;
      }
      assert order[..|order|] == order;
    }
    b := b + "\n";
  }

  /** The chunks of `order`, one per key, when every key in `order` is a field. */
  function ChunkList(rt: Runtime, order: seq<string>, m: Fields): (parts: seq<Bytes>)
    requires forall k :: k in order ==> k in m
    ensures |parts| == |order|
    ensures forall j :: 0 <= j < |order| ==> parts[j] == Chunk(rt, order[j], m[order[j]])
  {
    if order == [] then []
    else ChunkList(rt, order[..|order| - 1], m) + [Chunk(rt, order[|order| - 1], m[order[|order| - 1]])]
  }

  function Concat(parts: seq<Bytes>): Bytes
  {
    if parts == [] then [] else Concat(parts[..|parts| - 1]) + parts[|parts| - 1]
  }

  lemma {:induction false} ChunksAreChunkList(rt: Runtime, order: seq<string>, m: Fields)
    requires forall k :: k in order ==> k in m
    ensures Chunks(rt, order, m) == Concat(ChunkList(rt, order, m))
  {
    if order != [] {
      var n := |order| - 1;
      var prefix := ChunkList(rt, order[..n], m);
      var parts := ChunkList(rt, order, m);
      ChunksAreChunkList(rt, order[..n], m);
      assert parts == prefix + [Chunk(rt, order[n], m[order[n]])];
      assert parts[..n] == prefix;
    }
  }

  /** With no fields, the line is `<ts> [LEVEL] message\n`: nothing between message and newline. */
  lemma TextWithoutFields(rt: Runtime, levels: LevelTable, layout: string, e: Entry)
    requires e.fields == map[]
    ensures TextOutput(rt, levels, layout, e) ==
      rt.formatTime(e.timestamp, EffectiveLayout(layout)) + " [" + Name(levels, e.level) + "] " + e.message + "\n"
  {
  }

  /** With fields, one space follows the message, then one `k=v ` chunk per field (in the
      runtime's visiting order, each key exactly once), then the newline. */
  lemma TextWithFields(rt: Runtime, levels: LevelTable, layout: string, e: Entry)
    requires Enumerates(rt) && |e.fields| > 0
    ensures var order := rt.keyOrder(e.fields);
      && IsKeyOrder(order, e.fields)
      && |ChunkList(rt, order, e.fields)| == |e.fields|
      && TextOutput(rt, levels, layout, e) ==
           TextHead(rt, levels, layout, e) + " " + Concat(ChunkList(rt, order, e.fields)) + "\n"
  {
    var order := rt.keyOrder(e.fields);
    assert IsKeyOrder(order, e.fields);
    ChunksAreChunkList(rt, order, e.fields);
    DistinctKeysCount(order, e.fields);
  }

  lemma {:induction false} DistinctKeysCount(order: seq<string>, m: Fields)
    requires IsKeyOrder(order, m)
    ensures |order| == |m|
  {
    if order == [] {
      assert m.Keys == {};
    } else {
      var k := order[|order| - 1];
      var rest := order[..|order| - 1];
      var m' := map x | x in m && x != k :: m[x];
      assert IsKeyOrder(rest, m') by {
        forall x ensures x in rest <==> x in m' {
          if x in rest {
            var i :| 0 <= i < |rest| && rest[i] == x;
            assert order[i] == x && i < |order| - 1;
          }
        }
      }
      DistinctKeysCount(rest, m');
      assert m'.Keys == m.Keys - {k};
    }
  }

  // ---------------------------------------------------------------------------
  // JSONFormatter

  /** The three keys JSONFormatter writes before the fields. */
  function JsonBase(rt: Runtime, levels: LevelTable, e: Entry): Fields
  {
    map["timestamp" := Str(rt.formatTime(e.timestamp, RFC3339Nano)),
        "level" := Str(Name(levels, e.level)),
        "message" := Str(e.message)]
  }

  /** The object JSONFormatter marshals: the three keys, each field written over them
      as a whole value (no nested merge). */
  function JsonObject(rt: Runtime, levels: LevelTable, e: Entry): (data: Fields)
    ensures data.Keys == {"timestamp", "level", "message"} + e.fields.Keys
    ensures forall k :: k in e.fields ==> data[k] == e.fields[k]
    ensures "level" !in e.fields ==> data["level"] == Str(Name(levels, e.level))
    ensures "message" !in e.fields ==> data["message"] == Str(e.message)
    ensures "timestamp" !in e.fields ==> data["timestamp"] == Str(rt.formatTime(e.timestamp, RFC3339Nano))
  {
    JsonBase(rt, levels, e) + e.fields
  }

  /** What JSONFormatter.Format returns: the marshalled object and one newline, or the
      marshal error with no bytes. */
  function JsonOutput(rt: Runtime, levels: LevelTable, e: Entry): Result<Bytes>
  {
    match rt.marshal(JsonObject(rt, levels, e))
    case Ok(b) => Ok(b + "\n")
    case Err(err) => Err(err)
  }

  /** `JSONFormatter.Format`: fill the map, overwriting with each field, then marshal. */
  method FormatJson(rt: Runtime, levels: LevelTable, e: Entry) returns (r: Result<Bytes>)
    ensures r.Ok? <==> rt.marshal(JsonObject(rt, levels, e)).Ok?
    ensures r.Ok? ==> r.value == rt.marshal(JsonObject(rt, levels, e)).value + "\n"
    ensures r.Err? ==> r.error == rt.marshal(JsonObject(rt, levels, e)).error
  {
    var base := JsonBase(rt, levels, e);
    var data := base;
    var remaining := e.fields.Keys;
    while remaining != {}
      invariant remaining <= e.fields.Keys
      invariant data.Keys == base.Keys + (e.fields.Keys - remaining)
      invariant forall k :: k in e.fields.Keys - remaining ==> data[k] == e.fields[k]
      invariant forall k :: k in base && k !in e.fields.Keys - remaining ==> data[k] == base[k]
      decreases remaining
    {
      var k :| k in remaining;
      data := data[k := e.fields[k]];
      remaining := remaining - {k};
    }
    assert data == JsonObject(rt, levels, e);
    var marshalled := rt.marshal(data);
    if marshalled.Err? {
      return Err(marshalled.error);
    }
    r := Ok(marshalled.value + "\n");
  }

  // ---------------------------------------------------------------------------
  // The Formatter interface

  /** `f.Format(e)` for any formatter. */
  function Formatted(rt: Runtime, levels: LevelTable, f: Formatter, e: Entry): Result<Bytes>
  {
    match f
    case TextFormatter(layout) => Ok(TextOutput(rt, levels, layout, e))
    case JsonFormatter => JsonOutput(rt, levels, e)
    case CustomFormatter(id) => rt.customFormat(id, e)
  }

  /** Format through the interface, running the shipped formatters' own loops. */
  method Format(rt: Runtime, levels: LevelTable, f: Formatter, e: Entry) returns (r: Result<Bytes>)
    ensures r == Formatted(rt, levels, f, e)
  {
    match f
    case TextFormatter(layout) =>
      var b := FormatText(rt, levels, layout, e);
      r := Ok(b);
    case JsonFormatter =>
      r := FormatJson(rt, levels, e);
    case CustomFormatter(id) =>
      r := rt.customFormat(id, e);
  }

  /** Each output ends in exactly the one newline the formatter appends; only JSON can fail. */
  lemma OutputEndsWithNewline(rt: Runtime, levels: LevelTable, f: Formatter, e: Entry)
    requires f.TextFormatter? || f.JsonFormatter?
    requires f.JsonFormatter? ==> rt.marshal(JsonObject(rt, levels, e)).Ok?
    ensures Formatted(rt, levels, f, e).Ok?
    ensures var b := Formatted(rt, levels, f, e).value; |b| > 0 && b[|b| - 1] == '\n'
  {
  }
}
