/**
 * The `log/slog` handler of package logger that writes to a zap core: slog
 * levels mapped onto zap levels, records turned into entries whose fields are
 * the trace fields first and then the record's attributes, and derived
 * handlers that add fields or a group to the core.
 */
module SlogHandler {
  import opened Wrappers
  import opened GoContext
  import opened GoMaps

  /** slog levels, and the extra fatal level the package defines. */
  const LevelDebug: int := -4
  const LevelInfo: int := 0
  const LevelWarn: int := 4
  const LevelError: int := 8
  const LevelFatal: int := 9

  datatype ZapLevel = DebugLevel | InfoLevel | WarnLevel | ErrorLevel | FatalLevel

  /** zapcore's numeric levels. */
  function ZapLevelValue(z: ZapLevel): int
  {
    match z
    case DebugLevel => -1
    case InfoLevel => 0
    case WarnLevel => 1
    case ErrorLevel => 2
    case FatalLevel => 5
  }

  /** `convertSlogLevel`: each zap level covers the slog levels from its threshold up to the next one. */
  function ConvertSlogLevel(l: int): (z: ZapLevel)
    ensures z == FatalLevel <==> l >= LevelFatal
    ensures z == ErrorLevel <==> LevelError <= l < LevelFatal
    ensures z == WarnLevel <==> LevelWarn <= l < LevelError
    ensures z == InfoLevel <==> LevelInfo <= l < LevelWarn
    ensures z == DebugLevel <==> l < LevelInfo
  {
    if l >= LevelFatal then FatalLevel
    else if l >= LevelError then ErrorLevel
    else if l >= LevelWarn then WarnLevel
    else if l >= LevelInfo then InfoLevel
    else DebugLevel
  }

  /** A more severe slog level never maps to a less severe zap level. */
  lemma ConvertSlogLevelMonotone(a: int, b: int)
    requires a <= b
    ensures ZapLevelValue(ConvertSlogLevel(a)) <= ZapLevelValue(ConvertSlogLevel(b))
  {
  }

  datatype ZapField = StringField(key: string, value: string) | AttrField(key: string, value: string) | NamespaceField(name: string)

  /** A slog attribute: a key and its value, rendered as a string. */
  datatype Attr = Attr(key: string, value: string)

  function ConvertAttr(a: Attr): ZapField
  {
    AttrField(a.key, a.value)
  }

  function ConvertAttrs(attrs: seq<Attr>): (fs: seq<ZapField>)
    ensures |fs| == |attrs| && forall i :: 0 <= i < |attrs| ==> fs[i] == ConvertAttr(attrs[i])
  {
    seq(|attrs|, i requires 0 <= i < |attrs| => ConvertAttr(attrs[i]))
  }

  /** A zap core: the least level it writes, and the fields attached to it. */
  datatype Core = Core(minLevel: ZapLevel, context: seq<ZapField>)
  {
    predicate Enabled(l: ZapLevel)
    {
      ZapLevelValue(l) >= ZapLevelValue(minLevel)
    }
  }

  /** A trace extractor may return a nil map (`None`). */
  type TraceExtractor = Context -> Option<map<string, string>>

  datatype HandlerOptions = HandlerOptions(traceExtractor: Option<TraceExtractor>, loggerName: string)

  datatype Handler = Handler(core: Core, traceExtractor: Option<TraceExtractor>, name: string)

  /** `NewHandler`: nil options count as the zero options. */
  function NewHandler(core: Core, opts: Option<HandlerOptions>): (h: Handler)
    ensures h.core == core
    ensures opts.None? ==> h.traceExtractor.None? && h.name == ""
    ensures opts.Some? ==> h.traceExtractor == opts.value.traceExtractor && h.name == opts.value.loggerName
  {
    var o := if opts.Some? then opts.value else HandlerOptions(None, "");
    Handler(core, o.traceExtractor, o.loggerName)
  }

  /** `Enabled`: whether the core writes the converted level. */
  predicate Enabled(h: Handler, level: int): (r: bool)
    ensures h.core.minLevel == DebugLevel ==> r
    ensures h.core.minLevel == InfoLevel ==> (r <==> level >= LevelInfo)
    ensures h.core.minLevel == WarnLevel ==> (r <==> level >= LevelWarn)
    ensures h.core.minLevel == ErrorLevel ==> (r <==> level >= LevelError)
    ensures h.core.minLevel == FatalLevel ==> (r <==> level >= LevelFatal)
  {
    h.core.Enabled(ConvertSlogLevel(level))
  }

  datatype Record = Record(level: int, time: int, message: string, attrs: seq<Attr>)

  datatype Entry = Entry(level: ZapLevel, time: int, message: string, loggerName: string, fields: seq<ZapField>)

  /** The trace map a handler extracts from a context, if it yields any entries. */
  function ExtractedTrace(h: Handler, ctx: Context): Option<map<string, string>>
  {
    if h.traceExtractor.None? then None
    else match h.traceExtractor.value(ctx)
      case None => None
      case Some(m) => if |m| == 0 then None else Some(m)
  }

  function AsPairs(fields: seq<ZapField>): seq<(string, string)>
    requires forall i :: 0 <= i < |fields| ==> fields[i].StringField?
  {
    seq(|fields|, i requires 0 <= i < |fields| => (fields[i].key, fields[i].value))
  }

  /** The fields `traceFields` produces: one string field per extracted entry, in some order. */
  ghost predicate TraceFieldsOf(fields: seq<ZapField>, h: Handler, ctx: Context)
  {
    && (forall i :: 0 <= i < |fields| ==> fields[i].StringField?)
    && (ExtractedTrace(h, ctx).None? ==> fields == [])
    && (ExtractedTrace(h, ctx).Some? ==> Enumerates(AsPairs(fields), ExtractedTrace(h, ctx).value))
  }

  /** `traceFields`: nothing without an extractor or when it finds nothing. */
  method TraceFields(h: Handler, ctx: Context) returns (fields: seq<ZapField>)
    ensures TraceFieldsOf(fields, h, ctx)
  {
    if h.traceExtractor.None? {
      return [];
    }
    var traceFields := h.traceExtractor.value(ctx);
    if traceFields.None? || |traceFields.value| == 0 {
      return [];
    }
    var kv := Entries(traceFields.value);
    fields := seq(|kv|, i requires 0 <= i < |kv| => StringField(kv[i].0, kv[i].1));
    assert AsPairs(fields) == kv;
  }

  /** `Handle`: a record the core rejects is dropped; otherwise the trace fields come first, then the attributes. */
  method Handle(h: Handler, ctx: Context, record: Record) returns (written: Option<Entry>, err: Option<string>)
    ensures err.None?
    ensures written.None? <==> !Enabled(h, record.level)
    ensures written.Some? ==>
      var e := written.value;
      e.level == ConvertSlogLevel(record.level) && e.time == record.time && e.message == record.message
      && e.loggerName == h.name && |e.fields| >= |record.attrs|
      && TraceFieldsOf(e.fields[..|e.fields| - |record.attrs|], h, ctx)
      && e.fields[|e.fields| - |record.attrs|..] == ConvertAttrs(record.attrs)
  {
    err := None;
    var level := ConvertSlogLevel(record.level);
    if !h.core.Enabled(level) {
      return None, None;
    }
    var traceFields := TraceFields(h, ctx);
    var fields := traceFields;
    var i := 0;
    while i < |record.attrs|
      invariant 0 <= i <= |record.attrs|
      invariant fields == traceFields + ConvertAttrs(record.attrs[..i])
    {
      assert ConvertAttrs(record.attrs[..i + 1]) == ConvertAttrs(record.attrs[..i]) + [ConvertAttr(record.attrs[i])];
      fields := fields + [ConvertAttr(record.attrs[i])];
      i := i + 1;
    }
    assert record.attrs[..i] == record.attrs;
    assert fields[..|fields| - |record.attrs|] == traceFields;
    written := Some(Entry(level, record.time, record.message, h.name, fields));
  }

  /** `withFields`: a copy of the handler whose core carries the extra fields. */
  function WithFields(h: Handler, fields: seq<ZapField>): (r: Handler)
    ensures r.name == h.name && r.traceExtractor == h.traceExtractor && r.core.minLevel == h.core.minLevel
    ensures r.core.context == h.core.context + fields
  {
    h.(core := h.core.(context := h.core.context + fields))
  }

  /** `WithAttrs`: converts the attributes in order and adds them to a copy. */
  method WithAttrs(h: Handler, attrs: seq<Attr>) returns (r: Handler)
    ensures r == WithFields(h, ConvertAttrs(attrs))
  {
    var fields: seq<ZapField> := [];
    var i := 0;
    while i < |attrs|
      invariant 0 <= i <= |attrs|
      invariant fields == ConvertAttrs(attrs[..i])
    {
      assert ConvertAttrs(attrs[..i + 1]) == ConvertAttrs(attrs[..i]) + [ConvertAttr(attrs[i])];
      fields := fields + [ConvertAttr(attrs[i])];
      i := i + 1;
    }
    assert attrs[..i] == attrs;
    r := WithFields(h, fields);
  }

  /** `WithGroup`: a copy whose core opens a namespace named after the group. */
  function WithGroup(h: Handler, group: string): (r: Handler)
    ensures r == WithFields(h, [NamespaceField(group)])
    ensures r.core.context[|r.core.context| - 1] == NamespaceField(group)
  {
    WithFields(h, [NamespaceField(group)])
  }

  /** Deriving handlers never changes which records are written. */
  lemma WithFieldsKeepsEnabled(h: Handler, fields: seq<ZapField>, level: int)
    ensures Enabled(WithFields(h, fields), level) == Enabled(h, level)
  {
  }
}
