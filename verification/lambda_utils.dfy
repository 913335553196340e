/**
  The response-shaping rules of the handler utilities: the success and failure response
  builders, the `after` step that wraps a handler's plain return value into a response,
  and the `onError` step that turns an unhandled exception into an error response.
 */
module LambdaUtils {
  import opened Optional
  import opened JsValues
  import opened Levels
  import Logging
  import Config
  import opened Timestamps

  /** What a step does besides shaping the response: a call on the module's logger, or `next()`. */
  datatype Effect = Log(request: Logging.Request) | CallNext

  /** How a step ends: it returns a value after its effects, or it throws a TypeError after them. */
  datatype Outcome = Returned(value: JsValue, effects: seq<Effect>) | Threw(effects: seq<Effect>)

  /** The logger the module writes through. */
  const UtilsLogger: Logging.Logger := Logging.NewLogger(Logging.FromCategory("lambda-utils"))

  /** A response object with the given status code and body. */
  function Response(statusCode: JsValue, body: JsValue): JsValue
  {
    Object(PlainObject, map["statusCode" := statusCode, "body" := body])
  }

  /** A response's status code, `undefined` when it has none. */
  function StatusCode(r: JsValue): JsValue
  {
    if r.Object? && "statusCode" in r.fields then r.fields["statusCode"] else Undefined
  }

  /** A response's body, `undefined` when it has none. */
  function Body(r: JsValue): JsValue
  {
    if r.Object? && "body" in r.fields then r.fields["body"] else Undefined
  }

  /**
    What the `after` step accepts as an already-formed response: a truthy object with a
    truthy status code or a truthy body.
   */
  predicate IsProxyResult(r: JsValue)
  {
    Truthy(r) && TypeofObject(r) && (Truthy(StatusCode(r)) || Truthy(Body(r)))
  }

  /** How many times the effects call `next()`. */
  function NextCalls(effects: seq<Effect>): nat
  {
    multiset(effects)[CallNext]
  }

  /** Carrying out a step's log calls, in order, through the module's logger; `next()` writes nothing. */
  function Replay(console: Logging.Console, g: Config.GlobalConfig, effects: seq<Effect>, ctx: Logging.Context): (after: Logging.Console)
    requires Valid(ctx.now)
    ensures |console| <= |after| <= |console| + |effects|
    ensures after[..|console|] == console
    decreases |effects|
  {
    if effects == [] then console
    else
      var written := match effects[0]
        case CallNext => console
        case Log(req) => Logging.Perform(console, g, UtilsLogger, req, ctx);
      Replay(written, g, effects[1..], ctx)
  }

  /** Whether an effect is a log call that passes the global level and goes to channel `c`. */
  function WritesOne(g: Config.GlobalConfig, e: Effect, c: Logging.Channel): nat
  {
    match e
    case CallNext => 0
    case Log(req) => if Passes(req.level, g.level) && Logging.ChannelOf(req.level) == c then 1 else 0
  }

  /** How many of the effects are log calls that pass the global level and go to channel `c`. */
  function WritesTo(g: Config.GlobalConfig, effects: seq<Effect>, c: Logging.Channel): nat
  {
    if effects == [] then 0 else WritesOne(g, effects[0], c) + WritesTo(g, effects[1..], c)
  }

  /** Replaying effects adds to each channel exactly the passing log calls routed to it. */
  lemma {:induction false} ReplayWrites(console: Logging.Console, g: Config.GlobalConfig, effects: seq<Effect>,
                                        ctx: Logging.Context, c: Logging.Channel)
    requires Valid(ctx.now)
    ensures Logging.CallsTo(Replay(console, g, effects, ctx), c) == Logging.CallsTo(console, c) + WritesTo(g, effects, c)
    decreases |effects|
  {
    if effects != [] {
      match effects[0]
      case CallNext =>
        ReplayWrites(console, g, effects[1..], ctx, c);
      case Log(req) =>
        Logging.PerformWritesOnce(console, g, UtilsLogger, req, ctx, c);
        ReplayWrites(Logging.Perform(console, g, UtilsLogger, req, ctx), g, effects[1..], ctx, c);
    }
  }

  /** Replaying a single log call writes what that call writes. */
  lemma ReplaySingle(g: Config.GlobalConfig, ctx: Logging.Context, req: Logging.Request, c: Logging.Channel)
    requires Valid(ctx.now)
    ensures Logging.CallsTo(Replay([], g, [Log(req)], ctx), c) == WritesOne(g, Log(req), c)
  {
    assert [Log(req)][1..] == [];
    ReplayWrites([], g, [Log(req)], ctx, c);
  }

  // ---------------------------------------------------------------- apiSuccess / apiFailure

  /**
    `apiSuccess(result)`: status 200, with an empty body for a falsy result and the
    result's compact JSON text otherwise.
   */
  function ApiSuccess(b: Builtins, result: JsValue): (r: JsValue)
    ensures r.Object? && r.fields.Keys == {"statusCode", "body"}
    ensures StatusCode(r) == Num(200)
    ensures !Truthy(result) ==> Body(r) == Str("")
    ensures Truthy(result) ==> Body(r) == Str(b.stringify(result, false))
    ensures IsProxyResult(r)
  {
    Response(Num(200), Str(if Truthy(result) then b.stringify(result, false) else ""))
  }

  /**
    `apiFailure(statusCode, message)`: the status code as given, with no range check, and
    the message as body, an omitted or empty message giving an empty body; the response
    is logged as a warning before it is returned.
   */
  function ApiFailure(statusCode: int, message: Option<string>): (o: Outcome)
    ensures o.Returned? && o.value.Object? && o.value.fields.Keys == {"statusCode", "body"}
    ensures StatusCode(o.value) == Num(statusCode)
    ensures message.None? ==> Body(o.value) == Str("")
    ensures message.Some? ==> Body(o.value) == Str(message.value)
    ensures o.effects == [Log(Logging.WithObject(WARN, "Response to API Gateway: ", o.value))]
  {
    var text := match message case Some(m) => Str(m) case None => Undefined;
    var response := Response(Num(statusCode), Or(text, Str("")));
    Returned(response, [Log(Logging.WithObject(WARN, "Response to API Gateway: ", response))])
  }

  /** The documented 400-599 range is not enforced: a success code passes straight through. */
  lemma ApiFailureKeepsAnyStatus(statusCode: int)
    ensures StatusCode(ApiFailure(statusCode, None).value) == Num(statusCode)
    ensures StatusCode(ApiFailure(200, Some("fine")).value) == Num(200)
  {
  }

  /**
    The response `apiFailure` logs reaches `console.warn` once when the global level lets
    warnings through, and no other channel.
   */
  lemma {:induction false} ApiFailureWarnsOnce(g: Config.GlobalConfig, ctx: Logging.Context, statusCode: int,
                                              message: Option<string>, c: Logging.Channel)
    requires Valid(ctx.now)
    ensures Logging.CallsTo(Replay([], g, ApiFailure(statusCode, message).effects, ctx), c)
      == if c == Logging.ConsoleWarn && Passes(WARN, g.level) then 1 else 0
  {
    var o := ApiFailure(statusCode, message);
    ReplaySingle(g, ctx, Logging.WithObject(WARN, "Response to API Gateway: ", o.value), c);
  }

  // ---------------------------------------------------------------- the `after` step

  /**
    The `after` step: a response that is already a proper result is left alone; any other
    value is replaced by a 200 response whose body is its JSON text (empty when it is falsy).
    Either way `next()` is called exactly once, as the last thing the step does.
   */
  function After(b: Builtins, response: JsValue): (o: Outcome)
    ensures o.Returned? && o.effects == [CallNext] && NextCalls(o.effects) == 1
    ensures IsProxyResult(response) ==> o.value == response
    ensures !IsProxyResult(response) ==> StatusCode(o.value) == Num(200)
    ensures !IsProxyResult(response) && !Truthy(response) ==> Body(o.value) == Str("")
    ensures !IsProxyResult(response) && Truthy(response) ==> Body(o.value) == Str(b.stringify(response, false))
    ensures IsProxyResult(o.value)
  {
    var r := response;
    if !Truthy(r) || !TypeofObject(r) || (!Truthy(Prop(r, "statusCode")) && !Truthy(Prop(r, "body"))) then
      Returned(Object(PlainObject, map[
                 "statusCode" := Num(200),
                 "body" := Str(if Truthy(r) then b.stringify(r, false) else "")]),
               [CallNext])
    else
      Returned(r, [CallNext])
  }

  /** The `after` step replaces a value that is not a proper result by exactly `apiSuccess(value)`. */
  lemma AfterWrapsLikeApiSuccess(b: Builtins, response: JsValue)
    ensures After(b, response).value == if IsProxyResult(response) then response else ApiSuccess(b, response)
  {
  }

  /** The `after` step is idempotent: its output is a proper result, which it leaves alone. */
  lemma AfterIdempotent(b: Builtins, response: JsValue)
    ensures After(b, After(b, response).value).value == After(b, response).value
  {
  }

  /** The `after` step leaves exactly the proper results unchanged. */
  lemma AfterFixedPoints(b: Builtins, response: JsValue)
    ensures After(b, response).value == response <==> IsProxyResult(response)
  {
    if After(b, response).value == response {
      assert IsProxyResult(After(b, response).value);
    }
  }

  /**
    An `apiFailure` response passes through the `after` step unchanged unless its status code
    is 0 and its message empty, when the step turns it into a 200 response.
   */
  lemma AfterKeepsApiFailure(b: Builtins, statusCode: int, message: Option<string>)
    ensures var r := ApiFailure(statusCode, message).value;
      After(b, r).value == r <==> statusCode != 0 || (message.Some? && message.value != "")
  {
    AfterFixedPoints(b, ApiFailure(statusCode, message).value);
  }

  // ---------------------------------------------------------------- the `onError` step

  /** `(response.statusCode || 0) < 400`: the response does not yet carry an error status. */
  predicate BelowErrorStatus(b: Builtins, response: JsValue)
    requires !Nullish(response)
  {
    LessThan(b, Or(Prop(response, "statusCode"), Num(0)), 400)
  }

  /** The status code the step gives a response: the error's own when truthy, 500 otherwise. */
  function ErrorStatus(error: JsValue): (code: JsValue)
    requires !Nullish(error)
    ensures Truthy(code)
    ensures Truthy(Prop(error, "statusCode")) ==> code == Prop(error, "statusCode")
    ensures !Truthy(Prop(error, "statusCode")) ==> code == Num(500)
  {
    Or(Prop(error, "statusCode"), Num(500))
  }

  /**
    The response rewritten for an error: the status code and body are replaced and every
    other field is kept.
   */
  function ErrorResponse(b: Builtins, response: JsValue, error: JsValue): (r: JsValue)
    requires response.Object? && !Nullish(error)
    ensures r.Object? && r.kind == response.kind
    ensures StatusCode(r) == ErrorStatus(error)
    ensures Body(r) == Str(Text(b, error))
    ensures r.fields.Keys == response.fields.Keys + {"statusCode", "body"}
    ensures forall k :: k in response.fields && k != "statusCode" && k != "body" ==> r.fields[k] == response.fields[k]
  {
    SetProp(SetProp(response, "statusCode", ErrorStatus(error)), "body", Str(Text(b, error)))
  }

  /** The two log calls and the `next()` call of a step that returns `response`. */
  function ReturnEffects(error: JsValue, response: JsValue): seq<Effect>
  {
    [ErrorLog(error), Log(Logging.WithObject(INFO, "Response to API Gateway: ", response)), CallNext]
  }

  /** The log call every run of the step starts with. */
  function ErrorLog(error: JsValue): Effect
  {
    Log(Logging.Plain(ERROR, Str("Unhandled exception:"), [error]))
  }

  /**
    The `onError` step. It logs the error, then treats a missing response as `{}`. A response
    whose status code is at least 400 is kept as it is; otherwise its status code becomes the
    error's own (when truthy) or 500, and its body the error's text. It logs the response and
    calls `next()`. Assigning a field on a primitive response, or reading the status code of a
    `null`/`undefined` error, throws a TypeError instead, and `next()` is then not called.
   */
  function OnError(b: Builtins, response: JsValue, error: JsValue): (o: Outcome)
    ensures |o.effects| >= 1 && o.effects[0] == ErrorLog(error)
    ensures o.Returned? ==> NextCalls(o.effects) == 1 && o.effects == ReturnEffects(error, o.value)
    ensures o.Threw? ==> o.effects == [ErrorLog(error)] && NextCalls(o.effects) == 0
    ensures var r := Or(response, EmptyObject);
      o.Threw? <==> BelowErrorStatus(b, r) && (!r.Object? || Nullish(error))
    ensures var r := Or(response, EmptyObject);
      o.Returned? && !BelowErrorStatus(b, r) ==> o.value == r
    ensures var r := Or(response, EmptyObject);
      o.Returned? && BelowErrorStatus(b, r) ==> o.value == ErrorResponse(b, r, error)
  {
    var r := Or(response, EmptyObject);
    if !BelowErrorStatus(b, r) then
      Returned(r, ReturnEffects(error, r))
    else if !r.Object? || Nullish(error) then
      Threw([ErrorLog(error)])
    else
      var updated := ErrorResponse(b, r, error);
      Returned(updated, ReturnEffects(error, updated))
  }

  /**
    Replaying a returning step's effects writes the error once to `console.error` and the
    response once to `console.info`, each when the global level lets it through.
   */
  lemma {:induction false} ReturnEffectsLogTwice(g: Config.GlobalConfig, ctx: Logging.Context,
                                                 error: JsValue, response: JsValue, c: Logging.Channel)
    requires Valid(ctx.now)
    ensures Logging.CallsTo(Replay([], g, ReturnEffects(error, response), ctx), c)
      == (if c == Logging.ConsoleError && Passes(ERROR, g.level) then 1 else 0)
       + (if c == Logging.ConsoleInfo && Passes(INFO, g.level) then 1 else 0)
  {
    var effects := ReturnEffects(error, response);
    var tail := [Log(Logging.WithObject(INFO, "Response to API Gateway: ", response)), CallNext];
    assert effects[1..] == tail && tail[1..] == [CallNext] && [CallNext][1..] == [];
    assert WritesTo(g, [CallNext], c) == 0;
    assert WritesTo(g, tail, c) == WritesOne(g, tail[0], c);
    ReplayWrites([], g, effects, ctx, c);
  }

  /**
    A run of the step that returns writes the error once to `console.error` and the response
    once to `console.info`, each when the global level lets it through, and nothing elsewhere.
   */
  lemma OnErrorLogsTwice(g: Config.GlobalConfig, ctx: Logging.Context, b: Builtins,
                         response: JsValue, error: JsValue, c: Logging.Channel)
    requires Valid(ctx.now)
    requires OnError(b, response, error).Returned?
    ensures Logging.CallsTo(Replay([], g, OnError(b, response, error).effects, ctx), c)
      == (if c == Logging.ConsoleError && Passes(ERROR, g.level) then 1 else 0)
       + (if c == Logging.ConsoleInfo && Passes(INFO, g.level) then 1 else 0)
  {
    ReturnEffectsLogTwice(g, ctx, error, OnError(b, response, error).value, c);
  }

  /** A missing (falsy) response is handled exactly as an empty object would be. */
  lemma OnErrorMissingResponseIsEmpty(b: Builtins, response: JsValue, error: JsValue)
    requires !Truthy(response)
    ensures OnError(b, response, error) == OnError(b, EmptyObject, error)
  {
  }

  /** A response that already carries a status of 400 or more keeps its status code and body. */
  lemma OnErrorKeepsErrorResponse(b: Builtins, code: int, body: JsValue, error: JsValue)
    requires code >= 400
    ensures OnError(b, Response(Num(code), body), error).Returned?
    ensures OnError(b, Response(Num(code), body), error).value == Response(Num(code), body)
  {
    assert Prop(Response(Num(code), body), "statusCode") == Num(code);
  }

  /**
    With no response yet, the step returns a response holding just the error's status code
    (or 500) and the error's text.
   */
  lemma OnErrorWithoutResponse(b: Builtins, response: JsValue, error: JsValue)
    requires !Truthy(response) && !Nullish(error)
    ensures OnError(b, response, error).Returned?
    ensures OnError(b, response, error).value == Response(ErrorStatus(error), Str(Text(b, error)))
  {
    assert Or(response, EmptyObject) == EmptyObject;
    assert Prop(EmptyObject, "statusCode") == Undefined;
    assert BelowErrorStatus(b, EmptyObject);
    var r := ErrorResponse(b, EmptyObject, error);
    assert r.fields.Keys == {"statusCode", "body"};
    assert r.fields == Response(ErrorStatus(error), Str(Text(b, error))).fields;
  }

  /**
    The step does not guarantee an error status: an error carrying status 302 gives status
    302, and an error without a status code gives 500.
   */
  lemma ErrorStatusNotForcedToError(text: string)
    ensures ErrorStatus(Object(ErrorObject, map["statusCode" := Num(302)])) == Num(302)
    ensures ErrorStatus(Object(ErrorObject, map["message" := Str(text)])) == Num(500)
  {
    assert Prop(Object(ErrorObject, map["statusCode" := Num(302)]), "statusCode") == Num(302);
    assert Prop(Object(ErrorObject, map["message" := Str(text)]), "statusCode") == Undefined;
  }

  /** Rewriting a response a second time for the same error changes nothing. */
  lemma ErrorResponseIdempotent(b: Builtins, response: JsValue, error: JsValue)
    requires response.Object? && !Nullish(error)
    ensures ErrorResponse(b, ErrorResponse(b, response, error), error) == ErrorResponse(b, response, error)
  {
    var once := ErrorResponse(b, response, error);
    var twice := ErrorResponse(b, once, error);
    assert twice.fields.Keys == once.fields.Keys;
    assert forall k :: k in once.fields ==> twice.fields[k] == once.fields[k] by {
      forall k | k in once.fields ensures twice.fields[k] == once.fields[k] {
        if k == "statusCode" {
          assert StatusCode(twice) == StatusCode(once);
        } else if k == "body" {
          assert Body(twice) == Body(once);
        }
      }
    }
    assert twice.fields == once.fields;
  }

  /** Applying the step a second time with the same error changes the response no further. */
  lemma OnErrorIdempotent(b: Builtins, response: JsValue, error: JsValue)
    requires OnError(b, response, error).Returned?
    ensures OnError(b, OnError(b, response, error).value, error).Returned?
    ensures OnError(b, OnError(b, response, error).value, error).value == OnError(b, response, error).value
  {
    var r := Or(response, EmptyObject);
    var once := OnError(b, response, error).value;
    assert Or(once, EmptyObject) == once;
    if BelowErrorStatus(b, r) {
      assert once == ErrorResponse(b, r, error);
      assert Prop(once, "statusCode") == ErrorStatus(error);
      if BelowErrorStatus(b, once) {
        ErrorResponseIdempotent(b, r, error);
      }
    }
  }
}
