/**
 * The zap-backed `Logger` of package logger: options applied in order,
 * loggers derived by attaching fields (`WithFields`, `WithMap`, `WithCtx`),
 * the context fields `WithCtx` collects (the request ID under "req_id", then
 * the tracing fields, which win on a clash), and the message `Errorw` logs.
 * Writing log entries is outside the model.
 */
module Logger {
  import opened Wrappers
  import opened GoContext
  import opened GoMaps
  import opened Strings

  type RequestIdExtractor = Context -> string
  /** A tracing extractor may return a nil map (`None`). */
  type TracingExtractor = Context -> Option<map<string, string>>

  datatype LoggerOption =
    | WithReqIdExtractor(reqIdExtractor: Option<RequestIdExtractor>)
    | WithTracingExtractor(tracingExtractor: Option<TracingExtractor>)
    | WithLevel(level: string)
    | WithEncoding(encoding: string)
    | WithNop

  datatype LoggerOpts = LoggerOpts(
    reqIdExtractor: Option<RequestIdExtractor>,
    tracingExtractor: Option<TracingExtractor>,
    encoding: string,
    level: string,
    nopLogger: bool)

  const ZeroOpts := LoggerOpts(None, None, "", "", false)

  function ApplyOption(o: LoggerOpts, opt: LoggerOption): LoggerOpts
  {
    match opt
    case WithReqIdExtractor(e) => o.(reqIdExtractor := e)
    case WithTracingExtractor(e) => o.(tracingExtractor := e)
    case WithLevel(l) => o.(level := l)
    case WithEncoding(e) => o.(encoding := e)
    case WithNop => o.(nopLogger := true)
  }

  /** The options as `NewLogger` leaves them: each option applied in turn to the zero options. */
  function ApplyOptions(opts: seq<LoggerOption>): LoggerOpts
  {
    if |opts| == 0 then ZeroOpts else ApplyOption(ApplyOptions(opts[..|opts| - 1]), opts[|opts| - 1])
  }

  /** The zap logger underneath: the no-op one, or one created for a level and an encoding. */
  datatype Core = NopCore | ZapCore(level: string, encoding: string)

  class Logger {
    const opts: LoggerOpts
    const core: Core
    /** The fields attached to every entry, in the order they were attached. */
    const fields: seq<(string, string)>

    constructor (opts: LoggerOpts, core: Core, fields: seq<(string, string)>)
      ensures this.opts == opts && this.core == core && this.fields == fields
    {
      this.opts, this.core, this.fields := opts, core, fields;
    }

    /** `WithFields`: a new logger sharing the options and core, with the fields appended. */
    method WithFields(kv: seq<(string, string)>) returns (r: Logger)
      ensures fresh(r) && r.opts == opts && r.core == core && r.fields == fields + kv
    {
      r := new Logger(opts, core, fields + kv);
    }

    /** `WithMap`: the logger itself for an empty map, else one with the map's entries appended in some order. */
    method WithMap(m: map<string, string>) returns (r: Logger)
      ensures |m| == 0 ==> r == this
      ensures |m| > 0 ==> fresh(r) && r.opts == opts && r.core == core
                          && |r.fields| == |fields| + |m| && r.fields[..|fields|] == fields
                          && Enumerates(r.fields[|fields|..], m)
    {
      if |m| > 0 {
        var kv := Entries(m);
        r := WithFields(kv);
        assert r.fields[|fields|..] == kv;
      } else {
        r := this;
      }
    }

    /** `WithCtx`: the logger with the context fields attached, or itself when there are none. */
    method WithCtx(ctx: Context) returns (r: Logger)
      ensures CtxFields(opts, ctx).None? ==> r == this
      ensures CtxFields(opts, ctx).Some? ==>
                var m := CtxFields(opts, ctx).value;
                (|m| == 0 ==> r == this)
                && (|m| > 0 ==> fresh(r) && r.opts == opts && r.core == core && |r.fields| == |fields| + |m|
                                && r.fields[..|fields|] == fields
                                && Enumerates(r.fields[|fields|..], m))
    {
      var m := CollectCtxFields(opts, ctx);
      if m.Some? {
        r := WithMap(m.value);
      } else {
        r := this;
      }
    }
  }

  /** The map `WithCtx` builds, step by step as the source does. */
  method CollectCtxFields(opts: LoggerOpts, ctx: Context) returns (m: Option<map<string, string>>)
    ensures m == CtxFields(opts, ctx)
  {
    m := None;
    if opts.reqIdExtractor.Some? {
      var reqId := opts.reqIdExtractor.value(ctx);
      if reqId != "" {
        m := Some(map["req_id" := reqId]);
      }
    }
    if opts.tracingExtractor.Some? {
      var tracing := opts.tracingExtractor.value(ctx);
      if tracing.Some? {
        var base := if m.Some? then m.value else map[];
        var merged := AssignAll(base, tracing.value);
        m := Some(merged);
      }
    }
  }

  /** The fields `WithCtx` collects: "req_id" when the extractor finds one, then the tracing fields over it. */
  function CtxFields(opts: LoggerOpts, ctx: Context): Option<map<string, string>>
  {
    var req: Option<map<string, string>> :=
      if opts.reqIdExtractor.Some? && opts.reqIdExtractor.value(ctx) != ""
      then Some(map["req_id" := opts.reqIdExtractor.value(ctx)]) else None;
    if opts.tracingExtractor.Some? && opts.tracingExtractor.value(ctx).Some?
    then Some((if req.Some? then req.value else map[]) + opts.tracingExtractor.value(ctx).value)
    else req
  }

  /** The request ID is attached under "req_id" unless the tracing fields use that key themselves. */
  lemma CtxFieldsCarryRequestId(opts: LoggerOpts, ctx: Context)
    requires opts.reqIdExtractor.Some? && opts.reqIdExtractor.value(ctx) != ""
    requires opts.tracingExtractor.None? || opts.tracingExtractor.value(ctx).None?
             || "req_id" !in opts.tracingExtractor.value(ctx).value
    ensures CtxFields(opts, ctx).Some? && CtxFields(opts, ctx).value["req_id"] == opts.reqIdExtractor.value(ctx)
  {
  }

  /** Without extractors, or when they find nothing, `WithCtx` attaches nothing. */
  lemma CtxFieldsEmptyWithoutExtractors(opts: LoggerOpts, ctx: Context)
    requires opts.reqIdExtractor.None? || opts.reqIdExtractor.value(ctx) == ""
    requires opts.tracingExtractor.None? || opts.tracingExtractor.value(ctx).None?
    ensures CtxFields(opts, ctx).None?
  {
  }

  /** `NewLogger`: applies the options in order and picks the no-op core when asked to. */
  method NewLogger(options: seq<LoggerOption>) returns (l: Logger)
    ensures fresh(l) && l.opts == ApplyOptions(options) && l.fields == []
    ensures l.core == if l.opts.nopLogger then NopCore else ZapCore(l.opts.level, l.opts.encoding)
  {
    var lo := ZeroOpts;
    var i := 0;
    while i < |options|
      invariant 0 <= i <= |options|
      invariant lo == ApplyOptions(options[..i])
    {
      assert options[..i + 1][..i] == options[..i];
      lo := ApplyOption(lo, options[i]);
      i := i + 1;
    }
    assert options[..i] == options;
    var core := if lo.nopLogger then NopCore else ZapCore(lo.level, lo.encoding);
    l := new Logger(lo, core, []);
  }

  /** The logger discards everything exactly when some option asked for the no-op logger. */
  lemma {:induction false} NopIffWithNop(options: seq<LoggerOption>)
    ensures ApplyOptions(options).nopLogger <==> exists i :: 0 <= i < |options| && options[i].WithNop?
  {
    if |options| > 0 {
      var init := options[..|options| - 1];
      NopIffWithNop(init);
      if exists i :: 0 <= i < |init| && init[i].WithNop? {
        var i :| 0 <= i < |init| && init[i].WithNop?;
        assert options[i] == init[i];
      }
      if exists i :: 0 <= i < |options| && options[i].WithNop? {
        var i :| 0 <= i < |options| && options[i].WithNop?;
        if i < |init| {
          assert init[i] == options[i];
        }
      }
    }
  }

  /** The level in force is the one given by the last `WithLevel`, or empty without one. */
  lemma {:induction false} LastLevelWins(options: seq<LoggerOption>, k: nat)
    requires k < |options| && options[k].WithLevel?
    requires forall j :: k < j < |options| ==> !options[j].WithLevel?
    ensures ApplyOptions(options).level == options[k].level
  {
    if k < |options| - 1 {
      var init := options[..|options| - 1];
      assert forall j :: k < j < |init| ==> init[j] == options[j];
      LastLevelWins(init, k);
    }
  }

  /** One frame of a stack trace: the function and where in its file the call is. */
  datatype Frame = Frame(name: string, file: string, line: nat)

  /**
   * What `Errorw` is given: an error (its message and the stack it carries,
   * empty for an error without one), a string, or any other value together
   * with the text `fmt.Sprint` prints for it.
   */
  datatype LogValue =
    | ErrorValue(message: string, stack: seq<Frame>)
    | StringValue(s: string)
    | OtherValue(printed: string)

  /** A frame as `%+v` prints it: the function, then the file and line on a tab-indented line. */
  function FrameText(fr: Frame): (t: string)
    ensures |t| > 0 && t[0] == '\n'
  {
    "\n" + fr.name + "\n\t" + fr.file + ":" + NatToString(fr.line)
  }

  /** The frames in order, each starting on a new line. */
  function StackText(stack: seq<Frame>): (t: string)
    ensures |stack| == 0 <==> |t| == 0
    ensures |t| > 0 ==> t[0] == '\n'
  {
    if |stack| == 0 then "" else FrameText(stack[0]) + StackText(stack[1..])
  }

  /**
   * The message `Errorw` logs: an error in its `%+v` form (the message, then
   * the stack trace when it carries one), a string as is, anything else as
   * `fmt.Sprint` prints it.
   */
  function ErrorwMessage(v: LogValue): (msg: string)
    ensures v.StringValue? ==> msg == v.s
    ensures v.OtherValue? ==> msg == v.printed
    ensures v.ErrorValue? ==> v.message <= msg
    ensures v.ErrorValue? && |v.stack| == 0 ==> msg == v.message
    ensures v.ErrorValue? && |v.stack| > 0 ==> |msg| > |v.message| && msg[|v.message|] == '\n'
  {
    match v
    case ErrorValue(m, stack) => m + StackText(stack)
    case StringValue(s) => s
    case OtherValue(p) => p
  }

  /** The text before the first line break. */
  function FirstLine(s: string): (line: string)
    ensures line <= s && '\n' !in line
    ensures |line| < |s| ==> s[|line|] == '\n'
  {
    if |s| == 0 || s[0] == '\n' then "" else [s[0]] + FirstLine(s[1..])
  }

  /** A one-line text followed by a line break, or by nothing, is the first line. */
  lemma {:induction false} FirstLineOfLine(line: string, rest: string)
    requires '\n' !in line
    requires |rest| == 0 || rest[0] == '\n'
    ensures FirstLine(line + rest) == line
  {
    if |line| > 0 {
      assert (line + rest)[1..] == line[1..] + rest;
      FirstLineOfLine(line[1..], rest);
      assert line == [line[0]] + line[1..];
    } else {
      assert line + rest == rest;
    }
  }

  /** The first line `Errorw` logs for an error with a one-line message is that message, whatever stack it carries. */
  lemma ErrorwFirstLineIsMessage(message: string, stack: seq<Frame>)
    requires '\n' !in message
    ensures FirstLine(ErrorwMessage(ErrorValue(message, stack))) == message
  {
    FirstLineOfLine(message, StackText(stack));
  }
}
