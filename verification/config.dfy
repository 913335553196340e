/**
  The logger's process-wide configuration: the fields every instance reads, the defaults
  derived from the environment, `Logger.initialize` and the static field assignments.
 */
module Config {
  import opened Optional
  import opened Levels

  /** FLAT: positional console tokens. STRUCT: one JSON record per message. */
  datatype LogFormat = FLAT | STRUCT

  /** The global configuration shared by every Logger instance. */
  datatype GlobalConfig = GlobalConfig(
    level: LogLevel,
    outputLevels: bool,
    logTimestamps: bool,
    format: LogFormat,
    formatObjects: bool)

  /** The argument of `Logger.initialize`: any subset of the global fields. */
  datatype PartialConfig = PartialConfig(
    level: Option<LogLevel>,
    outputLevels: Option<bool>,
    logTimestamps: Option<bool>,
    format: Option<LogFormat>,
    formatObjects: Option<bool>)

  const NoChanges: PartialConfig := PartialConfig(None, None, None, None, None)

  /** `Logger.initialize(p)`: every field `p` gives replaces the global one; the others stay. */
  function Initialize(g: GlobalConfig, p: PartialConfig): (r: GlobalConfig)
    ensures p.level.Some? ==> r.level == p.level.value
    ensures p.level.None? ==> r.level == g.level
    ensures p.outputLevels.Some? ==> r.outputLevels == p.outputLevels.value
    ensures p.outputLevels.None? ==> r.outputLevels == g.outputLevels
    ensures p.logTimestamps.Some? ==> r.logTimestamps == p.logTimestamps.value
    ensures p.logTimestamps.None? ==> r.logTimestamps == g.logTimestamps
    ensures p.format.Some? ==> r.format == p.format.value
    ensures p.format.None? ==> r.format == g.format
    ensures p.formatObjects.Some? ==> r.formatObjects == p.formatObjects.value
    ensures p.formatObjects.None? ==> r.formatObjects == g.formatObjects
  {
    GlobalConfig(
      p.level.GetOr(g.level),
      p.outputLevels.GetOr(g.outputLevels),
      p.logTimestamps.GetOr(g.logTimestamps),
      p.format.GetOr(g.format),
      p.formatObjects.GetOr(g.formatObjects))
  }

  /** An empty `initialize({})` leaves every global field as it was. */
  lemma InitializeEmpty(g: GlobalConfig)
    ensures Initialize(g, NoChanges) == g
  {
  }

  /** Initialising twice with the same fields is the same as initialising once. */
  lemma InitializeIdempotent(g: GlobalConfig, p: PartialConfig)
    ensures Initialize(Initialize(g, p), p) == Initialize(g, p)
  {
  }

  /** The later of two partial configurations wins on every field it gives. */
  function Merge(p: PartialConfig, q: PartialConfig): PartialConfig
  {
    PartialConfig(
      if q.level.Some? then q.level else p.level,
      if q.outputLevels.Some? then q.outputLevels else p.outputLevels,
      if q.logTimestamps.Some? then q.logTimestamps else p.logTimestamps,
      if q.format.Some? then q.format else p.format,
      if q.formatObjects.Some? then q.formatObjects else p.formatObjects)
  }

  /** Two successive `initialize` calls compose into one with the merged fields. */
  lemma InitializeCompose(g: GlobalConfig, p: PartialConfig, q: PartialConfig)
    ensures Initialize(Initialize(g, p), q) == Initialize(g, Merge(p, q))
  {
  }

  /** An assignment to one of the static fields: `Logger.globalLogLevel = …` and its siblings. */
  datatype StaticAssignment =
    | SetGlobalLogLevel(level: LogLevel)
    | SetOutputLevels(outputLevels: bool)
    | SetLogTimestamps(logTimestamps: bool)
    | SetFormat(format: LogFormat)
    | SetFormatObjects(formatObjects: bool)

  /** The partial configuration that gives exactly the assigned field. */
  function Only(a: StaticAssignment): PartialConfig
  {
    match a
    case SetGlobalLogLevel(l) => NoChanges.(level := Some(l))
    case SetOutputLevels(x) => NoChanges.(outputLevels := Some(x))
    case SetLogTimestamps(x) => NoChanges.(logTimestamps := Some(x))
    case SetFormat(f) => NoChanges.(format := Some(f))
    case SetFormatObjects(x) => NoChanges.(formatObjects := Some(x))
  }

  /** A static field assignment takes effect at once and is `initialize` with that one field. */
  function Assign(g: GlobalConfig, a: StaticAssignment): (r: GlobalConfig)
    ensures r == Initialize(g, Only(a))
  {
    match a
    case SetGlobalLogLevel(l) => g.(level := l)
    case SetOutputLevels(x) => g.(outputLevels := x)
    case SetLogTimestamps(x) => g.(logTimestamps := x)
    case SetFormat(f) => g.(format := f)
    case SetFormatObjects(x) => g.(formatObjects := x)
  }

  // ---------------------------------------------------------------- environment

  /** The process environment, as names bound to values. */
  type Env = map<string, string>

  const FunctionNameVar := "AWS_LAMBDA_FUNCTION_NAME"
  const FunctionVersionVar := "AWS_LAMBDA_FUNCTION_VERSION"
  const RegionVar := "AWS_REGION"
  const LogLevelVar := "LOG_LEVEL"

  /** The stage variables in priority order. */
  const StageVars: seq<string> := ["ENVIRONMENT", "STAGE", "SERVERLESS_STAGE"]

  /** `process.env[name]`, an unset variable reading like an empty one. */
  function EnvValue(env: Env, name: string): string
  {
    if name in env then env[name] else ""
  }

  /** `process.env[name]` when it is set. */
  function EnvField(env: Env, name: string): (r: Option<string>)
    ensures r.Some? <==> name in env
    ensures r.Some? ==> r.value == EnvValue(env, name)
  {
    if name in env then Some(env[name]) else None
  }

  /** Running inside the hosted function platform: its function-name variable is non-empty. */
  predicate IsHosted(env: Env)
  {
    EnvValue(env, FunctionNameVar) != ""
  }

  /** The position of the first of `names` whose value is non-empty; `|names|` when there is none. */
  function FirstNonEmpty(env: Env, names: seq<string>): (k: nat)
    ensures k <= |names|
    ensures forall j :: 0 <= j < k ==> EnvValue(env, names[j]) == ""
    ensures k < |names| ==> EnvValue(env, names[k]) != ""
  {
    if |names| == 0 then 0
    else if EnvValue(env, names[0]) != "" then 0
    else 1 + FirstNonEmpty(env, names[1..])
  }

  /** The deployment stage: the first non-empty stage variable, unset when all are empty. */
  function Stage(env: Env): (r: Option<string>)
    ensures r.None? <==> forall j :: 0 <= j < |StageVars| ==> EnvValue(env, StageVars[j]) == ""
    ensures r.Some? ==> r.value != "" && exists j :: 0 <= j < |StageVars| && r.value == EnvValue(env, StageVars[j])
    ensures forall j :: 0 <= j < |StageVars| && EnvValue(env, StageVars[j]) != ""
                        && (forall i :: 0 <= i < j ==> EnvValue(env, StageVars[i]) == "")
                        ==> r == Some(EnvValue(env, StageVars[j]))
  {
    var k := FirstNonEmpty(env, StageVars);
    if k < |StageVars| then Some(EnvValue(env, StageVars[k])) else None
  }

  /** The stage skips empty variables: empty ENVIRONMENT and STAGE give way to SERVERLESS_STAGE. */
  lemma StageSkipsEmpty(env: Env)
    requires EnvValue(env, "ENVIRONMENT") == "" && EnvValue(env, "STAGE") == ""
    ensures Stage(env) == if EnvValue(env, "SERVERLESS_STAGE") == "" then None
                          else Some(EnvValue(env, "SERVERLESS_STAGE"))
  {
    var k := FirstNonEmpty(env, StageVars);
    assert StageVars[0] == "ENVIRONMENT" && StageVars[1] == "STAGE" && StageVars[2] == "SERVERLESS_STAGE";
    assert k != 0 && k != 1;
    if EnvValue(env, "SERVERLESS_STAGE") != "" {
      assert k == 2;
    }
  }

  /** A non-empty earlier stage variable takes priority over every later one. */
  lemma StagePriority(env: Env)
    requires EnvValue(env, "ENVIRONMENT") != ""
    ensures Stage(env) == Some(EnvValue(env, "ENVIRONMENT"))
  {
  }

  /** With ENVIRONMENT empty, a non-empty STAGE wins over SERVERLESS_STAGE. */
  lemma StageSecondPriority(env: Env)
    requires EnvValue(env, "ENVIRONMENT") == "" && EnvValue(env, "STAGE") != ""
    ensures Stage(env) == Some(EnvValue(env, "STAGE"))
  {
    assert StageVars[0] == "ENVIRONMENT" && StageVars[1] == "STAGE";
  }

  /**
    The configuration computed from the environment at start-up. An explicit LOG_LEVEL
    that parses wins; otherwise INFO when hosted and DEBUG locally. Hosted output drops
    labels and timestamps and uses STRUCT; local output keeps both and uses FLAT.
   */
  function DefaultConfig(env: Env): (g: GlobalConfig)
    ensures ParseLevel(EnvValue(env, LogLevelVar)).Some? ==> g.level == ParseLevel(EnvValue(env, LogLevelVar)).value
    ensures ParseLevel(EnvValue(env, LogLevelVar)).None? ==> g.level == (if IsHosted(env) then INFO else DEBUG)
    ensures IsHosted(env) ==> !g.outputLevels && !g.logTimestamps && g.format == STRUCT && !g.formatObjects
    ensures !IsHosted(env) ==> g.outputLevels && g.logTimestamps && g.format == FLAT && g.formatObjects
  {
    var hosted := IsHosted(env);
    var fallback := if hosted then INFO else DEBUG;
    GlobalConfig(
      ParseLevel(EnvValue(env, LogLevelVar)).GetOr(fallback),
      !hosted,
      !hosted,
      if hosted then STRUCT else FLAT,
      !hosted)
  }

  /** LOG_LEVEL=NONE (in any case) silences everything, whatever the platform. */
  lemma LogLevelNoneEnv(env: Env)
    requires Upper(EnvValue(env, LogLevelVar)) == "NONE"
    ensures DefaultConfig(env).level == NONE
    ensures EnumValue(DefaultConfig(env).level) == 1
  {
  }
}
