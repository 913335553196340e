/**
  A Logger instance and what one of its calls writes: whether the call passes the level
  threshold, which console channel it goes to, and the arguments it writes there in
  the FLAT and STRUCT formats.
 */
module Logging {
  import opened Optional
  import opened JsValues
  import opened Levels
  import opened Timestamps
  import opened Config

  // ---------------------------------------------------------------- channels

  /** The console methods a write can go to. `console.log` is listed so that it can be ruled out. */
  datatype Channel = ConsoleLog | ConsoleDebug | ConsoleInfo | ConsoleWarn | ConsoleError

  /** Each message level writes to its own console method. */
  function ChannelOf(l: MessageLevel): (c: Channel)
    ensures c != ConsoleLog
  {
    match l
    case DEBUG => ConsoleDebug
    case INFO => ConsoleInfo
    case WARN => ConsoleWarn
    case ERROR => ConsoleError
  }

  /** The level a console method serves; `console.log` serves none. */
  function LevelOfChannel(c: Channel): Option<MessageLevel>
  {
    match c
    case ConsoleLog => None
    case ConsoleDebug => Some(DEBUG)
    case ConsoleInfo => Some(INFO)
    case ConsoleWarn => Some(WARN)
    case ConsoleError => Some(ERROR)
  }

  /** Routing is one-to-one: the channel identifies the level, and no level uses `console.log`. */
  lemma ChannelRoundTrip(l: MessageLevel, c: Channel)
    ensures LevelOfChannel(ChannelOf(l)) == Some(l)
    ensures LevelOfChannel(c).Some? ==> ChannelOf(LevelOfChannel(c).value) == c
    ensures LevelOfChannel(c).None? <==> c == ConsoleLog
  {
  }

  // ---------------------------------------------------------------- instances

  /** The options object a Logger can be constructed from. */
  datatype LoggerOptions = LoggerOptions(category: string, level: Option<LogLevel>, format: Option<LogFormat>)

  /** `new Logger("category")` or `new Logger({category, level?, format?})`. */
  datatype Construction = FromCategory(name: string) | FromOptions(options: LoggerOptions)

  /** A Logger instance: its category and the settings it overrides. */
  datatype Logger = Logger(category: string, levelOverride: Option<LogLevel>, formatOverride: Option<LogFormat>)

  /** Construction: a bare category overrides nothing; an options object overrides what it gives. */
  function NewLogger(c: Construction): (lg: Logger)
    ensures c.FromCategory? ==> lg.category == c.name && lg.levelOverride.None? && lg.formatOverride.None?
    ensures c.FromOptions? ==> lg.category == c.options.category
    ensures c.FromOptions? ==> lg.levelOverride == c.options.level && lg.formatOverride == c.options.format
  {
    match c
    case FromCategory(name) => Logger(name, None, None)
    case FromOptions(o) => Logger(o.category, o.level, o.format)
  }

  /** The threshold a call uses (also the instance's `level` property): the instance's own, else the global one. */
  function EffectiveLevel(g: GlobalConfig, lg: Logger): (l: LogLevel)
    ensures lg.levelOverride.Some? ==> l == lg.levelOverride.value
    ensures lg.levelOverride.None? ==> l == g.level
  {
    lg.levelOverride.GetOr(g.level)
  }

  /** The format a call uses: the instance's own, else the global one. */
  function EffectiveFormat(g: GlobalConfig, lg: Logger): (f: LogFormat)
    ensures lg.formatOverride.Some? ==> f == lg.formatOverride.value
    ensures lg.formatOverride.None? ==> f == g.format
  {
    lg.formatOverride.GetOr(g.format)
  }

  // ---------------------------------------------------------------- calls

  /**
    One call on an instance: `debug/info/warn/error(message, ...params)` is `Plain`,
    and `debugObject/infoObject/warnObject/errorObject(prefix, obj)` is `WithObject`.
   */
  datatype Request =
    | Plain(level: MessageLevel, message: JsValue, params: seq<JsValue>)
    | WithObject(level: MessageLevel, prefix: string, obj: JsValue)

  /** What the environment supplies to a call: the variables, the clock and the built-ins. */
  datatype Context = Context(env: Env, now: Timestamp, builtins: Builtins)

  /** One console write: the method called and the arguments it received. */
  datatype Emission = Emission(channel: Channel, args: seq<JsValue>)

  /**
    The message a call renders under format `f`. For the Object variant it is one string:
    the prefix with the serialised object appended directly. FLAT pretty-prints the object
    exactly when `formatObjects` is set; STRUCT always serialises it compactly, so that the
    record stays on one line.
   */
  function MessageOf(g: GlobalConfig, f: LogFormat, req: Request, b: Builtins): (m: JsValue)
    ensures req.Plain? ==> m == req.message
    ensures req.WithObject? ==>
      && m.Str? && |req.prefix| <= |m.s| && m.s[..|req.prefix|] == req.prefix
      && m.s[|req.prefix|..] == b.stringify(req.obj, g.formatObjects && f == FLAT)
    ensures req.WithObject? && f == STRUCT ==> m.s[|req.prefix|..] == b.stringify(req.obj, false)
  {
    match req
    case Plain(_, message, _) => message
    case WithObject(_, prefix, obj) => Str(prefix + b.stringify(obj, g.formatObjects && f == FLAT))
  }

  /** The further arguments a call passes along; the Object variant has none. */
  function ParamsOf(req: Request): seq<JsValue>
  {
    if req.Plain? then req.params else []
  }

  // ---------------------------------------------------------------- FLAT

  /** How many leading tokens (timestamp, label) the FLAT format writes before the category. */
  function HeaderLength(g: GlobalConfig): nat
  {
    (if g.logTimestamps then 1 else 0) + (if g.outputLevels then 1 else 0)
  }

  /**
    The FLAT arguments: the timestamp when `logTimestamps` is set, the level label when
    `outputLevels` is set, `"<category>:"`, the message, then every further argument as it was.
   */
  function RenderFlat(g: GlobalConfig, category: string, level: MessageLevel, now: Timestamp,
                      message: JsValue, params: seq<JsValue>): (tokens: seq<JsValue>)
    requires Valid(now)
    ensures |tokens| == HeaderLength(g) + 2 + |params|
    ensures g.logTimestamps ==> tokens[0] == Str(Iso19(now))
    ensures g.outputLevels ==> tokens[HeaderLength(g) - 1] == Str(Label(level))
    ensures tokens[HeaderLength(g)] == Str(category + ":")
    ensures tokens[HeaderLength(g) + 1] == message
    ensures tokens[HeaderLength(g) + 2..] == params
  {
    var stamp := if g.logTimestamps then [Str(Iso19(now))] else [];
    var levelTag := if g.outputLevels then [Str(Label(level))] else [];
    stamp + levelTag + [Str(category + ":"), message] + params
  }

  /** The pieces a FLAT write is made of. */
  datatype FlatParts = FlatParts(
    timestamp: Option<JsValue>,
    levelLabel: Option<JsValue>,
    category: string,
    message: JsValue,
    params: seq<JsValue>)

  /** Reading a FLAT write back into its pieces, under the configuration that wrote it. */
  function ReadFlat(g: GlobalConfig, tokens: seq<JsValue>): Option<FlatParts>
  {
    var h := HeaderLength(g);
    if |tokens| < h + 2 then None
    else
      var cat := tokens[h];
      if !cat.Str? || |cat.s| == 0 || cat.s[|cat.s| - 1] != ':' then None
      else Some(FlatParts(
        if g.logTimestamps then Some(tokens[0]) else None,
        if g.outputLevels then Some(tokens[h - 1]) else None,
        cat.s[..|cat.s| - 1],
        tokens[h + 1],
        tokens[h + 2..]))
  }

  /**
    A FLAT write reads back into exactly what produced it: the timestamp, which parses to
    the instant truncated to seconds; the label, which parses to the level; the category;
    the message; and the further arguments.
   */
  lemma FlatRoundTrip(g: GlobalConfig, category: string, level: MessageLevel, now: Timestamp,
                      message: JsValue, params: seq<JsValue>)
    requires Valid(now)
    ensures var parts := ReadFlat(g, RenderFlat(g, category, level, now, message, params));
      && parts.Some?
      && parts.value.category == category
      && parts.value.message == message
      && parts.value.params == params
      && (parts.value.timestamp.Some? <==> g.logTimestamps)
      && (g.logTimestamps ==> parts.value.timestamp.value.Str?
                              && ParseIso19(parts.value.timestamp.value.s) == Some(Truncated(now)))
      && (parts.value.levelLabel.Some? <==> g.outputLevels)
      && (g.outputLevels ==> parts.value.levelLabel.value.Str?
                             && ParseLevel(parts.value.levelLabel.value.s) == Some(level))
  {
    var tokens := RenderFlat(g, category, level, now, message, params);
    var cat := category + ":";
    assert cat[..|cat| - 1] == category;
    if g.logTimestamps {
      ParseIso19RoundTrip(now);
    }
    ParseName(level);
  }

  // ---------------------------------------------------------------- STRUCT

  /** The fields of a STRUCT record. */
  datatype Field =
    | TimestampField | LevelField | CategoryField | MessageField
    | RegionField | FunctionNameField | FunctionVersionField | StageField

  /** The JSON key each field is written under. */
  function FieldName(f: Field): string
  {
    match f
    case TimestampField => "timestamp"
    case LevelField => "level"
    case CategoryField => "category"
    case MessageField => "message"
    case RegionField => "aws_region"
    case FunctionNameField => "function_name"
    case FunctionVersionField => "function_version"
    case StageField => "stage"
  }

  /** Every field a record can hold. */
  const AllFields: set<Field> :=
    {TimestampField, LevelField, CategoryField, MessageField, RegionField, FunctionNameField, FunctionVersionField, StageField}

  /** The fields a record always holds. */
  const CoreFields: set<Field> := {TimestampField, LevelField, CategoryField, MessageField}

  /** A STRUCT record: every value it holds is a string. */
  type Record = map<Field, string>

  /** The platform context the environment provides, field by field. */
  function ContextValue(f: Field, env: Env): Option<string>
  {
    match f
    case RegionField => EnvField(env, RegionVar)
    case FunctionNameField => EnvField(env, FunctionNameVar)
    case FunctionVersionField => EnvField(env, FunctionVersionVar)
    case StageField => Stage(env)
    case _ => None
  }

  /**
    The STRUCT record: the timestamp, the level label, the category and the message text,
    plus the region, function name, function version and stage the environment provides;
    a context value the environment lacks is left out, as JSON serialisation drops it.
   */
  function StructRecord(level: MessageLevel, text: string, category: string, now: Timestamp, env: Env)
    : (rec: Record)
    requires Valid(now)
    ensures CoreFields <= rec.Keys <= AllFields
    ensures rec[LevelField] == Label(level)
    ensures rec[MessageField] == text
    ensures rec[CategoryField] == category
    ensures IsoShape(rec[TimestampField])
    ensures rec[TimestampField] == Iso19(now)
    ensures forall f :: f in AllFields - CoreFields ==> (f in rec <==> ContextValue(f, env).Some?)
    ensures forall f :: f in rec && f !in CoreFields ==> rec[f] == ContextValue(f, env).value
  {
    var context := map f | f in AllFields - CoreFields && ContextValue(f, env).Some? :: ContextValue(f, env).value;
    context[TimestampField := Iso19(now)][LevelField := Label(level)][CategoryField := category][MessageField := text]
  }

  /** A record as the JavaScript object that is serialised: each field under its JSON key. */
  function RecordObject(rec: Record): (v: JsValue)
    ensures v.Object? && v.fields.Keys == set f | f in rec :: FieldName(f)
    ensures forall f :: f in rec ==> v.fields[FieldName(f)] == Str(rec[f])
  {
    Object(PlainObject, map f | f in rec :: FieldName(f) := Str(rec[f]))
  }

  /** What a STRUCT record says about the call that wrote it. */
  datatype StructParts = StructParts(level: LogLevel, category: string, message: string)

  /** Reading the level, category and message back out of a record. */
  function ReadStruct(rec: Record): Option<StructParts>
  {
    if LevelField !in rec || CategoryField !in rec || MessageField !in rec then None
    else match ParseLevel(rec[LevelField])
      case None => None
      case Some(l) => Some(StructParts(l, rec[CategoryField], rec[MessageField]))
  }

  /** A STRUCT record reads back into the level, category and message text that wrote it. */
  lemma StructRoundTrip(level: MessageLevel, text: string, category: string, now: Timestamp, env: Env)
    requires Valid(now)
    ensures ReadStruct(StructRecord(level, text, category, now, env)) == Some(StructParts(level, category, text))
  {
    ParseName(level);
  }

  // ---------------------------------------------------------------- one call

  /**
    What one call writes: nothing when its level does not pass the instance's effective
    threshold; otherwise one write to its level's console method, carrying the FLAT tokens
    or the one serialised STRUCT record, as the effective format says.
   */
  function Emit(g: GlobalConfig, lg: Logger, req: Request, ctx: Context): (r: Option<Emission>)
    requires Valid(ctx.now)
    ensures r.Some? <==> Passes(req.level, EffectiveLevel(g, lg))
    ensures r.Some? ==> r.value.channel == ChannelOf(req.level) && r.value.channel != ConsoleLog
    ensures r.Some? && EffectiveFormat(g, lg) == FLAT ==>
      r.value.args == RenderFlat(g, lg.category, req.level, ctx.now, MessageOf(g, FLAT, req, ctx.builtins), ParamsOf(req))
    ensures r.Some? && EffectiveFormat(g, lg) == STRUCT ==>
      |r.value.args| == 1 && r.value.args[0].Str?
  {
    if !Passes(req.level, EffectiveLevel(g, lg)) then None
    else
      var b := ctx.builtins;
      var message := MessageOf(g, EffectiveFormat(g, lg), req, b);
      var args :=
        match EffectiveFormat(g, lg)
        case FLAT => RenderFlat(g, lg.category, req.level, ctx.now, message, ParamsOf(req))
        case STRUCT =>
          var rec := StructRecord(req.level, Text(b, message), lg.category, ctx.now, ctx.env);
          [Str(b.stringify(RecordObject(rec), false))];
      Some(Emission(ChannelOf(req.level), args))
  }

  /** A call is written iff its level is at least as severe as the threshold; NONE silences all. */
  lemma EmitIffSevereEnough(g: GlobalConfig, lg: Logger, req: Request, ctx: Context)
    requires Valid(ctx.now)
    ensures Emit(g, lg, req, ctx).Some? <==> Severity(req.level) >= Severity(EffectiveLevel(g, lg))
    ensures EffectiveLevel(g, lg) == NONE ==> Emit(g, lg, req, ctx).None?
  {
  }

  /**
    An instance's own level wins over the global one: with the global level at DEBUG, an
    instance at INFO or WARN still suppresses debug calls, and an instance without one follows
    the global level.
   */
  lemma InstanceLevelOverrides(g: GlobalConfig, lg: Logger, req: Request, ctx: Context)
    requires Valid(ctx.now)
    requires lg.levelOverride.Some?
    ensures Emit(g, lg, req, ctx).Some? <==> Passes(req.level, lg.levelOverride.value)
    ensures Emit(g, lg, req, ctx) == Emit(g.(level := lg.levelOverride.value), lg.(levelOverride := None), req, ctx)
  {
  }

  /** The FLAT write with labels and timestamps off: `"<category>:"`, the message, then the further arguments. */
  lemma FlatQuietTokens(g: GlobalConfig, lg: Logger, req: Request, ctx: Context)
    requires Valid(ctx.now)
    requires EffectiveFormat(g, lg) == FLAT && !g.outputLevels && !g.logTimestamps
    requires Passes(req.level, EffectiveLevel(g, lg))
    ensures Emit(g, lg, req, ctx) ==
      Some(Emission(ChannelOf(req.level), [Str(lg.category + ":"), MessageOf(g, FLAT, req, ctx.builtins)] + ParamsOf(req)))
  {
    var t := RenderFlat(g, lg.category, req.level, ctx.now, MessageOf(g, FLAT, req, ctx.builtins), ParamsOf(req));
    assert t[..2] == [t[0], t[1]];
    assert t == t[..2] + t[2..];
  }

  /**
    The FLAT write with labels and timestamps on: a 19-character timestamp, the level label,
    `"<category>:"`, the message, then the further arguments, four more tokens than arguments.
   */
  lemma FlatFullTokens(g: GlobalConfig, lg: Logger, req: Request, ctx: Context)
    requires Valid(ctx.now)
    requires EffectiveFormat(g, lg) == FLAT && g.outputLevels && g.logTimestamps
    requires Passes(req.level, EffectiveLevel(g, lg))
    ensures var args := Emit(g, lg, req, ctx).value.args;
      && args == [Str(Iso19(ctx.now)), Str(Label(req.level)), Str(lg.category + ":"), MessageOf(g, FLAT, req, ctx.builtins)]
                 + ParamsOf(req)
      && |args| == 4 + |ParamsOf(req)|
      && args[0].Str? && IsoShape(args[0].s)
  {
    var t := RenderFlat(g, lg.category, req.level, ctx.now, MessageOf(g, FLAT, req, ctx.builtins), ParamsOf(req));
    assert t[..4] == [t[0], t[1], t[2], t[3]];
    assert t == t[..4] + t[4..];
  }

  /**
    An Object call in FLAT writes its prefix and serialised object as ONE token, with no
    separator added, and nothing after it.
   */
  lemma ObjectCallIsOneToken(g: GlobalConfig, lg: Logger, level: MessageLevel, prefix: string,
                             obj: JsValue, ctx: Context)
    requires Valid(ctx.now)
    requires EffectiveFormat(g, lg) == FLAT && Passes(level, EffectiveLevel(g, lg))
    ensures var args := Emit(g, lg, WithObject(level, prefix, obj), ctx).value.args;
      && |args| == HeaderLength(g) + 2
      && args[HeaderLength(g) + 1] == Str(prefix + ctx.builtins.stringify(obj, g.formatObjects))
  {
  }

  /**
    A STRUCT write is one string: the compact serialisation of the record holding the level
    label, the category, the message as text (an Object call's prefix and serialised object
    included), the timestamp even when `logTimestamps` is off, and the platform context.
   */
  lemma StructIsOneRecord(g: GlobalConfig, lg: Logger, req: Request, ctx: Context)
    requires Valid(ctx.now)
    requires EffectiveFormat(g, lg) == STRUCT && Passes(req.level, EffectiveLevel(g, lg))
    ensures var rec := StructRecord(req.level, Text(ctx.builtins, MessageOf(g, STRUCT, req, ctx.builtins)), lg.category, ctx.now, ctx.env);
      && Emit(g, lg, req, ctx) == Some(Emission(ChannelOf(req.level), [Str(ctx.builtins.stringify(RecordObject(rec), false))]))
      && rec[LevelField] == Label(req.level)
      && rec[CategoryField] == lg.category
      && TimestampField in rec
  {
  }

  /**
    An Object call in STRUCT puts the prefix and the compact serialisation into the record's
    message, whatever `formatObjects` says.
   */
  lemma StructObjectIsCompact(g: GlobalConfig, lg: Logger, level: MessageLevel, prefix: string,
                              obj: JsValue, ctx: Context)
    requires Valid(ctx.now)
    requires EffectiveFormat(g, lg) == STRUCT && Passes(level, EffectiveLevel(g, lg))
    ensures var rec := StructRecord(level, prefix + ctx.builtins.stringify(obj, false), lg.category, ctx.now, ctx.env);
      Emit(g, lg, WithObject(level, prefix, obj), ctx)
        == Some(Emission(ChannelOf(level), [Str(ctx.builtins.stringify(RecordObject(rec), false))]))
  {
  }

  // ---------------------------------------------------------------- the console

  /** The console's record of writes, oldest first. */
  type Console = seq<Emission>

  /** How many writes went to channel `c`. */
  function CallsTo(console: Console, c: Channel): (n: nat)
    ensures n <= |console|
  {
    if console == [] then 0
    else CallsTo(console[..|console| - 1], c) + (if console[|console| - 1].channel == c then 1 else 0)
  }

  /** Performing a call: the console gains the call's write, if there is one. */
  function Perform(console: Console, g: GlobalConfig, lg: Logger, req: Request, ctx: Context): (after: Console)
    requires Valid(ctx.now)
    ensures !Passes(req.level, EffectiveLevel(g, lg)) ==> after == console
    ensures Passes(req.level, EffectiveLevel(g, lg)) ==>
      |after| == |console| + 1 && after[..|console|] == console && after[|console|].channel == ChannelOf(req.level)
    ensures Passes(req.level, EffectiveLevel(g, lg)) ==> after == console + [Emit(g, lg, req, ctx).value]
  {
    match Emit(g, lg, req, ctx)
    case None => console
    case Some(e) => console + [e]
  }

  /**
    A suppressed call writes to no channel; a passing call writes exactly once, to its own
    level's channel, and to no other, `console.log` included.
   */
  lemma PerformWritesOnce(console: Console, g: GlobalConfig, lg: Logger, req: Request, ctx: Context, c: Channel)
    requires Valid(ctx.now)
    ensures CallsTo(Perform(console, g, lg, req, ctx), c)
      == CallsTo(console, c) + (if Passes(req.level, EffectiveLevel(g, lg)) && c == ChannelOf(req.level) then 1 else 0)
    ensures CallsTo(Perform(console, g, lg, req, ctx), ConsoleLog) == CallsTo(console, ConsoleLog)
  {
    var after := Perform(console, g, lg, req, ctx);
    if Passes(req.level, EffectiveLevel(g, lg)) {
      assert after[..|after| - 1] == console;
    }
  }

  // ---------------------------------------------------------------- test scenarios

  /** The environment the test suite runs under. */
  const TestEnv: Env := map[
    "AWS_REGION" := "us-test-1",
    "AWS_LAMBDA_FUNCTION_NAME" := "unitTest",
    "AWS_LAMBDA_FUNCTION_VERSION" := "2",
    "AWS_LAMBDA_FUNCTION_MEMORY_SIZE" := "128",
    "ENVIRONMENT" := "",
    "STAGE" := "",
    "SERVERLESS_STAGE" := "test",
    "_X_AMZN_TRACE_ID" := ""]

  /** The configuration of the hosted-environment tests: DEBUG, no labels, no timestamps, FLAT. */
  function CloudWatchConfig(env: Env): (g: GlobalConfig)
    ensures g.level == DEBUG && !g.outputLevels && !g.logTimestamps && g.format == FLAT
    ensures g.formatObjects == DefaultConfig(env).formatObjects
  {
    Initialize(DefaultConfig(env), PartialConfig(Some(DEBUG), Some(false), Some(false), Some(FLAT), None))
  }

  /**
    Under the hosted test configuration, `debug("message")` writes `"LoggerTest:"`, `"message"`
    to `console.debug`, and nothing else.
   */
  lemma CloudWatchDebugScenario(env: Env, now: Timestamp, b: Builtins)
    requires Valid(now)
    ensures Emit(CloudWatchConfig(env), NewLogger(FromCategory("LoggerTest")), Plain(DEBUG, Str("message"), []), Context(env, now, b))
         == Some(Emission(ConsoleDebug, [Str("LoggerTest:"), Str("message")]))
  {
    var lg := NewLogger(FromCategory("LoggerTest"));
    FlatQuietTokens(CloudWatchConfig(env), lg, Plain(DEBUG, Str("message"), []), Context(env, now, b));
    assert lg.category + ":" == "LoggerTest:";
    assert [Str("LoggerTest:"), Str("message")] + [] == [Str("LoggerTest:"), Str("message")];
  }

  /**
    Under the hosted test configuration, `infoObject("Formatted ", obj)` writes two tokens to
    `console.info`: `"LoggerTest:"` and the prefix joined directly to the compact serialisation.
   */
  lemma CloudWatchObjectScenario(env: Env, now: Timestamp, b: Builtins, obj: JsValue)
    requires IsHosted(env) && Valid(now)
    ensures Emit(CloudWatchConfig(env), NewLogger(FromCategory("LoggerTest")), WithObject(INFO, "Formatted ", obj), Context(env, now, b))
         == Some(Emission(ConsoleInfo, [Str("LoggerTest:"), Str("Formatted " + b.stringify(obj, false))]))
  {
    var g := CloudWatchConfig(env);
    var lg := NewLogger(FromCategory("LoggerTest"));
    FlatQuietTokens(g, lg, WithObject(INFO, "Formatted ", obj), Context(env, now, b));
    assert lg.category + ":" == "LoggerTest:";
    var m := Str("Formatted " + b.stringify(obj, false));
    assert MessageOf(g, FLAT, WithObject(INFO, "Formatted ", obj), b) == m;
    assert [Str("LoggerTest:"), m] + [] == [Str("LoggerTest:"), m];
  }

  /**
    Assigning the global level after an instance was constructed takes effect for that
    instance: once `Logger.globalLogLevel = WARN`, `info("message")` writes nothing.
   */
  lemma GlobalLevelChangeScenario(console: Console, g: GlobalConfig, message: JsValue, ctx: Context)
    requires Valid(ctx.now)
    ensures Perform(console, Assign(g, SetGlobalLogLevel(WARN)), NewLogger(FromCategory("LoggerTest")),
                    Plain(INFO, message, []), ctx) == console
  {
  }

  /** The record of the STRUCT test holds every field when the environment provides each context value. */
  lemma StructScenarioKeys(env: Env, now: Timestamp)
    requires Valid(now)
    requires RegionVar in env && FunctionNameVar in env && FunctionVersionVar in env && Stage(env).Some?
    ensures StructRecord(INFO, "text", "LoggerTest", now, env).Keys == AllFields
  {
    var rec := StructRecord(INFO, "text", "LoggerTest", now, env);
    assert RegionField in rec && FunctionNameField in rec && FunctionVersionField in rec && StageField in rec;
  }

  /**
    The record of the STRUCT test holds all eight fields, with the test environment's
    region, function name and version, and stage.
   */
  lemma StructScenarioRecord(env: Env, now: Timestamp)
    requires Valid(now)
    requires EnvField(env, RegionVar) == Some("us-test-1")
    requires EnvField(env, FunctionNameVar) == Some("unitTest")
    requires EnvField(env, FunctionVersionVar) == Some("2")
    requires Stage(env) == Some("test")
    ensures var rec := StructRecord(INFO, "text", "LoggerTest", now, env);
      && rec.Keys == AllFields
      && rec[RegionField] == "us-test-1"
      && rec[FunctionNameField] == "unitTest"
      && rec[FunctionVersionField] == "2"
      && rec[StageField] == "test"
      && rec[LevelField] == "INFO"
      && rec[MessageField] == "text"
      && rec[CategoryField] == "LoggerTest"
  {
    StructScenarioKeys(env, now);
  }

  /**
    The STRUCT test: an instance with its own STRUCT format, under the hosted test
    configuration, writes to `console.info` one string, the compact serialisation of the
    record for level INFO, message "text" and category "LoggerTest".
   */
  lemma StructScenario(env: Env, now: Timestamp, b: Builtins)
    requires Valid(now)
    ensures var g := CloudWatchConfig(env);
            var lg := NewLogger(FromOptions(LoggerOptions("LoggerTest", None, Some(STRUCT))));
            var rec := StructRecord(INFO, "text", "LoggerTest", now, env);
      Emit(g, lg, Plain(INFO, Str("text"), []), Context(env, now, b))
        == Some(Emission(ConsoleInfo, [Str(b.stringify(RecordObject(rec), false))]))
  {
    var g := CloudWatchConfig(env);
    var lg := NewLogger(FromOptions(LoggerOptions("LoggerTest", None, Some(STRUCT))));
    StructIsOneRecord(g, lg, Plain(INFO, Str("text"), []), Context(env, now, b));
  }

  /**
    With `LOG_LEVEL` set to NONE in any case, a logger built from a bare category reports the
    level NONE, whose numeric value is 1.
   */
  lemma LogLevelNoneScenario(env: Env)
    requires Upper(EnvValue(env, LogLevelVar)) == "NONE"
    ensures EffectiveLevel(DefaultConfig(env), NewLogger(FromCategory(""))) == NONE
    ensures EnumValue(EffectiveLevel(DefaultConfig(env), NewLogger(FromCategory("")))) == 1
  {
    LogLevelNoneEnv(env);
  }

  /** A STRUCT record's timestamp reads back as the call's time, to the second. */
  lemma StructTimestampRoundTrip(level: MessageLevel, text: string, category: string, now: Timestamp, env: Env)
    requires Valid(now)
    ensures ParseIso19(StructRecord(level, text, category, now, env)[TimestampField]) == Some(Truncated(now))
  {
    ParseIso19RoundTrip(now);
  }

  /** The test environment meets both scenarios' assumptions. */
  lemma TestEnvMeetsScenarios()
    ensures IsHosted(TestEnv)
    ensures EnvField(TestEnv, RegionVar) == Some("us-test-1")
    ensures EnvField(TestEnv, FunctionNameVar) == Some("unitTest")
    ensures EnvField(TestEnv, FunctionVersionVar) == Some("2")
    ensures Stage(TestEnv) == Some("test")
  {
    StageSkipsEmpty(TestEnv);
  }
}
