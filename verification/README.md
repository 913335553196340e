# Sailplane logger and lambda-utils response shaping, in Dafny

This project models two pieces of the Sailplane serverless toolkit and proves properties
of the model.

**`Logger` (package `logger`).** The behaviour modelled is the one its test suite pins down:
- construction from a category string or an options object;
- the global configuration set through `Logger.initialize` and the static fields, with
  its defaults taken from the environment;
- level filtering, with `NONE` as a threshold that suppresses everything;
- routing of each level to its own console method, and never to `console.log`;
- the FLAT rendering: optional timestamp, optional level label, `"<category>:"`, the
  message, then the extra arguments. The `*Object` variants join their prefix and the
  serialised object into one token.
- the STRUCT rendering: one JSON string holding a record with timestamp, level,
  category and message, plus the region, function name, function version and stage
  from the environment.

**`lambda-utils`.**
- `apiSuccess` and `apiFailure`.
- The `after` step of `resolvedPromiseIsSuccessMiddleware`. It wraps a value that is not
  already an API Gateway result into `{statusCode: 200, body}`.
- The `onError` step of `unhandledExceptionMiddleware`. It logs the error and, unless the
  response already carries a status of 400 or more, sets the status code and body from
  the error.

The model is functional:
- Global configuration, the environment, the clock and the console are explicit values.
- A console write is a returned `Emission(channel, args)`.
- The console is a sequence of writes.
- A middleware step returns an `Outcome` listing its log calls and its `next()` call.

JavaScript values are a datatype, with truthiness, `||`, property reads and writes, and
`<` on numbers written out. `JSON.stringify`, `String()`/`toString()` and number
conversion of strings and objects stay uninterpreted: they are fields of a `Builtins`
record that every operation takes as a parameter.

Modules, one per file:
- `Optional` (`optional.dfy`)
- `JsValues` (`js_values.dfy`)
- `Levels` (`levels.dfy`)
- `Timestamps` (`timestamps.dfy`)
- `Config` (`config.dfy`)
- `Logging` (`logging.dfy`)
- `LambdaUtils` (`lambda_utils.dfy`)

The logger's implementation files (`logger.ts`, `common.ts`) are not part of this model.
Its behaviour is taken from the assertions of `logger/lib/logger.test.ts`. Where the
logger's documented behaviour and those assertions disagree, the model follows the
assertions:
- an instance may override the format as well as the level (test line 140);
- `formatObjects` is a global setting (line 378);
- an `*Object` call joins prefix and serialised object with no separator (lines 205, 431);
- a STRUCT record carries a timestamp and the level even when `logTimestamps` and
  `outputLevels` are off (lines 57-62, 152-155).

Where no test speaks, the documented behaviour is kept: an `*Object` call in STRUCT
serialises its object compactly, whatever `formatObjects` says.

One test expects three tokens from `debugObject` (lines 116-118: the prefix as its own
token). That contradicts the seven other `*Object` assertions, at lines 205, 280, 355, 431,
514, 597 and 695. Only the `test.only` at line 138 runs in that suite. The model follows the
majority, and `Logging.ObjectCallIsOneToken` proves that an Object call writes one
message token.

## Model

| member | source | states |
|---|---|---|
| `JsValues.Or` | lambda-utils/lib/lambda-utils.ts:51-52 | JavaScript's logical or gives its left operand when that is truthy and its right one otherwise, and is truthy iff either operand is |
| `JsValues.Prop` | lambda-utils/lib/lambda-utils.ts:52 | reading a property of a primitive gives `undefined`; reading needs a value that is not `null`/`undefined` |
| `JsValues.SetProp` | lambda-utils/lib/lambda-utils.ts:54-55 | assigning a property changes that property only, keeps the object's kind, and adds the key |
| `JsValues.Text` | lambda-utils/lib/lambda-utils.ts:55 | a string's text is the string itself |
| `JsValues.ToNumber` | lambda-utils/lib/lambda-utils.ts:52 | number conversion: `undefined` is NaN, `null` is 0, booleans are 0/1, numbers are themselves |
| `Levels.PassesMatchesEnumValue` | logger/lib/logger.test.ts:42-51 | the threshold test on severity ranks agrees with the enumeration's numbers, where NONE is 1 and a smaller number is more severe |
| `Levels.NoneSuppressesAll` | logger/lib/logger.test.ts:208-218 | no message level passes the NONE threshold, ERROR included |
| `Levels.DebugPassesAll` | logger/lib/logger.test.ts:57-62 | every level passes DEBUG, and every level passes its own threshold |
| `Levels.PassesMonotone` | logger/lib/logger.test.ts:436-447 | a message passing a threshold passes every less severe one |
| `Levels.SuppressionTable` | logger/lib/logger.test.ts:436-447 | DEBUG is suppressed at INFO and WARN, INFO at WARN, WARN at ERROR, everything at NONE; every level passes at DEBUG |
| `Levels.Upper` | logger/lib/logger.test.ts:44 | ASCII upper-casing keeps the length and upper-cases each character |
| `Levels.UpperIdempotent` | logger/lib/logger.test.ts:44 | upper-casing twice is upper-casing once |
| `Levels.ParseLevel` | logger/lib/logger.test.ts:44-51 | a string parses to level `l` exactly when its upper-cased form is `l`'s name |
| `Levels.ParseName` | logger/lib/logger.test.ts:44-51 | every level's name parses back to that level |
| `Levels.ParseIgnoresCase` | logger/lib/logger.test.ts:44 | a string and its upper-cased form parse alike |
| `Levels.NoneParsesToOne` | logger/lib/logger.test.ts:44-51 | `LOG_LEVEL=NONE` gives NONE, whose numeric value is 1 |
| `Timestamps.Iso19` | logger/lib/logger.test.ts:392 | the rendered timestamp is 19 characters shaped `dddd-dd-ddTdd:dd:dd` |
| `Timestamps.ParseIso19` | logger/lib/logger.test.ts:392 | only a string of the timestamp shape with in-range fields parses |
| `Timestamps.ParseIso19RoundTrip` | logger/lib/logger.test.ts:392 | reading the rendered timestamp back gives the instant truncated to whole seconds |
| `Timestamps.ParseIso19Sound` | logger/lib/logger.test.ts:392 | whatever parses is exactly the rendering of what it parses to |
| `Config.Initialize` | logger/lib/logger.test.ts:57-62 | every field the argument gives replaces the global one; every other field is unchanged |
| `Config.InitializeEmpty` | logger/lib/logger.test.ts:57-62 | initialising with no fields changes nothing |
| `Config.InitializeIdempotent` | logger/lib/logger.test.ts:57-62 | initialising twice with the same fields equals initialising once |
| `Config.InitializeCompose` | logger/lib/logger.test.ts:57-62 | two successive initialisations equal one with the fields merged, later winning |
| `Config.Assign` | logger/lib/logger.test.ts:375-378 | assigning a static field equals `initialize` with that one field |
| `Config.EnvField` | logger/lib/logger.test.ts:3-12 | an environment value is present exactly when the variable is set |
| `Config.FirstNonEmpty` | logger/lib/logger.test.ts:8-10 | the position found has only empty variables before it and a non-empty one at it |
| `Config.Stage` | logger/lib/logger.test.ts:8-10 | the stage is unset iff all stage variables are empty; otherwise it is the value of the first non-empty one in the order ENVIRONMENT, STAGE, SERVERLESS_STAGE |
| `Config.StageSkipsEmpty` | logger/lib/logger.test.ts:8-10 | with ENVIRONMENT and STAGE empty, the stage is SERVERLESS_STAGE (or unset when it too is empty) |
| `Config.StagePriority` | logger/lib/logger.test.ts:8-10 | a non-empty ENVIRONMENT wins over the later stage variables |
| `Config.StageSecondPriority` | logger/lib/logger.test.ts:8-10 | with ENVIRONMENT empty, a non-empty STAGE wins over SERVERLESS_STAGE |
| `Config.DefaultConfig` | logger/lib/logger.test.ts:42-51 | a valid LOG_LEVEL sets the level, else INFO hosted and DEBUG locally; hosted output is STRUCT without labels or timestamps, local output the opposite |
| `Config.LogLevelNoneEnv` | logger/lib/logger.test.ts:42-51 | `LOG_LEVEL=NONE` in any case gives the NONE level, numeric value 1 |
| `Logging.LogLevelNoneScenario` | logger/lib/logger.test.ts:42-51 | with `LOG_LEVEL=NONE`, a logger built from a bare category reports level NONE, numeric value 1 |
| `Logging.ChannelOf` | logger/lib/logger.test.ts:74-75 | no level writes to `console.log` |
| `Logging.ChannelRoundTrip` | logger/lib/logger.test.ts:74-75 | routing is one-to-one between message levels and the four level channels |
| `Logging.NewLogger` | logger/lib/logger.test.ts:94-97 | a category string overrides nothing; an options object sets the category and the overrides it gives |
| `Logging.EffectiveLevel` | logger/lib/logger.test.ts:122-134 | an instance's own level wins over the global one |
| `Logging.EffectiveFormat` | logger/lib/logger.test.ts:140 | an instance's own format wins over the global one |
| `Logging.MessageOf` | logger/lib/logger.test.ts:202-205 | an Object call's message starts with the prefix and continues with the serialisation, pretty in FLAT exactly when `formatObjects` is set, and always compact in STRUCT |
| `Logging.RenderFlat` | logger/lib/logger.test.ts:406-414 | FLAT tokens: timestamp and label when enabled, `"<category>:"`, the message, then the arguments unchanged |
| `Logging.FlatRoundTrip` | logger/lib/logger.test.ts:390-395 | a FLAT write reads back into its timestamp, label, category, message and arguments |
| `Logging.StructRecord` | logger/lib/logger.test.ts:147-156 | the record always holds the call's time as a 19-character timestamp, the level label, the category and the message, and holds each context field exactly when the environment provides it |
| `Logging.RecordObject` | logger/lib/logger.test.ts:147-156 | the serialised object's keys are the JSON names of the record's fields, each holding that field's string |
| `Logging.StructRoundTrip` | logger/lib/logger.test.ts:152-154 | a record reads back into the level, category and message that wrote it |
| `Logging.StructTimestampRoundTrip` | logger/lib/logger.test.ts:155 | a record's timestamp parses back to the call's time truncated to the second |
| `Logging.Emit` | logger/lib/logger.test.ts:171-177 | a call writes iff it passes the threshold, on its own level's channel, with the FLAT tokens or one STRUCT string |
| `Logging.EmitIffSevereEnough` | logger/lib/logger.test.ts:255-266 | a call writes iff its level is at least as severe as the effective threshold; NONE silences all |
| `Logging.InstanceLevelOverrides` | logger/lib/logger.test.ts:92-105 | with an instance level, only that level decides, whatever the global level |
| `Logging.FlatQuietTokens` | logger/lib/logger.test.ts:84-89 | without labels and timestamps, FLAT writes `"<category>:"`, the message, then the arguments |
| `Logging.FlatFullTokens` | logger/lib/logger.test.ts:406-414 | with labels and timestamps, FLAT writes timestamp, label, category, message, arguments: four more tokens than arguments |
| `Logging.ObjectCallIsOneToken` | logger/lib/logger.test.ts:427-431 | an Object call writes the prefix joined to the serialisation as one message token and nothing after it |
| `Logging.StructIsOneRecord` | logger/lib/logger.test.ts:146-147 | a STRUCT write is one string, the compact serialisation of the call's record |
| `Logging.StructObjectIsCompact` | logger/lib/logger.test.ts:140-147 | an Object call in STRUCT puts the prefix and the compact serialisation into the record's message, whatever `formatObjects` says; this is the logger's documented rule, as the STRUCT test there logs a plain message |
| `Logging.Perform` | logger/lib/logger.test.ts:74-75 | a suppressed call leaves the console as it was; a passing call appends exactly the write the call renders, on its channel |
| `Logging.PerformWritesOnce` | logger/lib/logger.test.ts:541-542 | a call adds one write to its own channel when it passes, none otherwise, and never one to `console.log` |
| `Logging.GlobalLevelChangeScenario` | logger/lib/logger.test.ts:180-191 | after `Logger.globalLogLevel = WARN`, an instance constructed earlier writes nothing for `info("message")` |
| `Logging.CloudWatchConfig` | logger/lib/logger.test.ts:57-62 | the hosted test configuration is DEBUG, FLAT, without labels or timestamps |
| `Logging.CloudWatchDebugScenario` | logger/lib/logger.test.ts:66-77 | `debug("message")` writes `"LoggerTest:"`, `"message"` to `console.debug` |
| `Logging.CloudWatchObjectScenario` | logger/lib/logger.test.ts:193-206 | `infoObject("Formatted ", obj)` writes two tokens, the second the prefix joined to the compact serialisation |
| `Logging.StructScenarioKeys` | logger/lib/logger.test.ts:147-156 | with every context value provided, the record holds all eight fields |
| `Logging.StructScenarioRecord` | logger/lib/logger.test.ts:147-156 | the STRUCT test's record has the test environment's region, function, version, stage, and INFO, "text", "LoggerTest" |
| `Logging.StructScenario` | logger/lib/logger.test.ts:138-147 | an instance with its own STRUCT format writes the one serialised record to `console.info` |
| `Logging.TestEnvMeetsScenarios` | logger/lib/logger.test.ts:3-12 | the test environment is hosted, provides region, function name and version, and has stage "test" |
| `LambdaUtils.ApiSuccess` | lambda-utils/lib/lambda-utils.ts:121-126 | status 200; body empty for a falsy result, the compact JSON otherwise; the result is a proper API result |
| `LambdaUtils.ApiFailure` | lambda-utils/lib/lambda-utils.ts:139-147 | the status code as given, the message or an empty body, and one warning log of the response |
| `LambdaUtils.ApiFailureKeepsAnyStatus` | lambda-utils/lib/lambda-utils.ts:135-141 | the documented 400-599 range is not enforced: 200 passes through |
| `LambdaUtils.Replay` | lambda-utils/lib/lambda-utils.ts:15 | replaying a step's effects only appends writes, at most one per effect |
| `LambdaUtils.ReplayWrites` | lambda-utils/lib/lambda-utils.ts:15 | replaying effects adds to each channel exactly the passing log calls routed to it |
| `LambdaUtils.ReplaySingle` | lambda-utils/lib/lambda-utils.ts:145 | replaying one log call writes what that call writes |
| `LambdaUtils.ApiFailureWarnsOnce` | lambda-utils/lib/lambda-utils.ts:145 | `apiFailure` writes once to `console.warn` when warnings pass the global level, and nowhere else |
| `LambdaUtils.After` | lambda-utils/lib/lambda-utils.ts:71-79 | a proper result is kept; anything else becomes status 200 with an empty or JSON body; `next()` is called once, last |
| `LambdaUtils.AfterWrapsLikeApiSuccess` | lambda-utils/lib/lambda-utils.ts:72-76 | a value that is not a proper result is replaced by exactly `apiSuccess(value)` |
| `LambdaUtils.AfterIdempotent` | lambda-utils/lib/lambda-utils.ts:72-76 | applying the `after` step twice equals applying it once |
| `LambdaUtils.AfterFixedPoints` | lambda-utils/lib/lambda-utils.ts:71-72 | the step leaves a response unchanged iff it is a proper result |
| `LambdaUtils.AfterKeepsApiFailure` | lambda-utils/lib/lambda-utils.ts:139-143 | an `apiFailure` response passes unchanged iff its code is non-zero or its message non-empty |
| `LambdaUtils.ErrorStatus` | lambda-utils/lib/lambda-utils.ts:54 | the status chosen is always truthy: the error's own status code when truthy, else 500 |
| `LambdaUtils.ErrorResponse` | lambda-utils/lib/lambda-utils.ts:54-55 | status code and body are replaced from the error; every other field is kept |
| `LambdaUtils.OnError` | lambda-utils/lib/lambda-utils.ts:49-59 | logs the error first; a status of 400 or more is kept, otherwise status and body come from the error; logs the response and calls `next()` once, last; throws exactly on a truthy primitive response, or on a missing error while the status is below 400 |
| `LambdaUtils.ReturnEffectsLogTwice` | lambda-utils/lib/lambda-utils.ts:49-58 | a returning step writes once to `console.error` and once to `console.info`, each when its level passes |
| `LambdaUtils.OnErrorLogsTwice` | lambda-utils/lib/lambda-utils.ts:49-58 | the same, for any run of `onError` that returns |
| `LambdaUtils.OnErrorMissingResponseIsEmpty` | lambda-utils/lib/lambda-utils.ts:51 | a missing response is handled exactly as `{}` |
| `LambdaUtils.OnErrorWithoutResponse` | lambda-utils/lib/lambda-utils.ts:51-56 | with no response, the result holds just the error's status (or 500) and the error's text |
| `LambdaUtils.ErrorStatusNotForcedToError` | lambda-utils/lib/lambda-utils.ts:54 | an error with status 302 yields 302, so the result is not guaranteed to be an error status; no status yields 500 |
| `LambdaUtils.OnErrorKeepsErrorResponse` | lambda-utils/lib/lambda-utils.ts:52 | a response with status 400 or more is returned unchanged |
| `LambdaUtils.ErrorResponseIdempotent` | lambda-utils/lib/lambda-utils.ts:54-55 | rewriting a response twice for the same error equals rewriting it once |
| `LambdaUtils.OnErrorIdempotent` | lambda-utils/lib/lambda-utils.ts:51-56 | a second `onError` with the same error leaves the response as the first one left it |

## Left out

- LambdaUtils.OnError: the source calls `next()` on every path, but in strict mode two inputs throw a TypeError before `next()`. These are a truthy primitive response, and a `null`/`undefined` error when the status is below 400. The model returns `Threw` there, with no `next()` call. The "exactly once" property is proved only for runs that return.
- `wrapApiHandler`: it composes third-party middleware (CORS, header and event normalisers, JSON body parser) whose code is not part of this model.
- The handler-utils type declarations hold no logic.
- `JSON.stringify`, `String()`/`Error.prototype.toString` and number conversion of strings and objects are uninterpreted functions of `Builtins`. The JSON text itself, including pretty-printing and key order, is not modelled.
- Floating-point numbers: JavaScript numbers are integers here, and NaN appears only as a failed number conversion.
- Property order, prototypes, getters and arrays-as-objects are not modelled. An object is a map from keys to values.
- The console, the clock and `process.env` are parameters: a write is a returned value, the clock is a `Timestamp`, the environment is a map.
- Timestamps assume a four-digit year (0-9999) and UTC fields as the clock reports them.
- Timestamps.Iso19: the STRUCT record's timestamp uses the same 19-character form as the FLAT token. The tests only pin its prefix, and a STRUCT timestamp with milliseconds would also match them.
- Config.Stage: the priority ENVIRONMENT, then STAGE, then SERVERLESS_STAGE is inferred from the order the test environment lists them. The tests only show that an empty ENVIRONMENT and STAGE give way to SERVERLESS_STAGE; nothing visible ranks ENVIRONMENT against STAGE.
- Levels.EnumValue: only NONE = 1 is visible in the tests. The values 2-5 for ERROR down to DEBUG are inferred from NONE being the least numeric value.
- Config.DefaultConfig: the `formatObjects` default (on locally, off when hosted) is inferred. No test shows it.
- Levels.Upper: case folding is ASCII only.
- Logging.NewLogger: an options object always carries a category string. The documented construction without a category ("empty prefix") is not modelled, since no test shows whether its FLAT token is `":"` or absent; a category of `""` writes `":"`.
- STRUCT output of a call's extra arguments: no test shows where they go, so the record holds only the message text.
- Module caching, `jest.resetModules` and the Jest mocks belong to the test runner, not to the behaviour.
