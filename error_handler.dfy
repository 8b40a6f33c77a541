/** The central error handler's choice of status, message and stack for a
    thrown value. Logging and writing the response are left to the caller:
    the result is the status and the `{error: {message, stack?}}` body. */
module ErrorHandler {
  import opened Values
  import opened Errors
  import opened Env

  /** What reaches the handler: an HttpError, an error of the BaseError
      family, or any other thrown value (plain objects, other Error
      instances, primitives). */
  datatype Thrown =
    | ThrownHttp(http: HttpError)
    | ThrownApp(app: AppError)
    | ThrownValue(value: Raw)

  /** A message or stack in the reply: a JavaScript value, or the message or
      stack text Zod renders for a ZodError's issues. */
  datatype Text = Plain(value: Raw) | ZodMessage(messageIssues: seq<Issue>) | ZodStack(stackIssues: seq<Issue>)

  /** The status passed to `res.status` and the body's `error` object;
      `stack` is `None` when the key is absent. */
  datatype ErrorReply = ErrorReply(status: Raw, message: Text, stack: Option<Text>)

  /** Why the handler itself throws: `isDevelopment` failed, or the stack of
      `null`/`undefined` was read. */
  datatype HandlerFailure = EnvFailure(error: AppError) | NullishStack

  function OptionalText(s: Option<string>): Raw {
    if s.Some? then Str(s.value) else Undefined
  }

  const DEFAULT_STATUS: int := 500
  const DEFAULT_MESSAGE: string := "Internal Server Error"

  /** `typeof err === 'object' && err !== null && 'statusCode' in err ? err.statusCode : 500`. */
  function StatusOf(err: Thrown): (status: Raw)
    ensures err.ThrownHttp? ==> status == err.http.statusCode
    ensures err.ThrownApp? ==> status == Int(DEFAULT_STATUS)
    ensures err.ThrownValue? && err.value.Obj? && "statusCode" in err.value.fields ==> status == err.value.fields["statusCode"]
    ensures err.ThrownValue? && !(err.value.Obj? && "statusCode" in err.value.fields) ==> status == Int(DEFAULT_STATUS)
  {
    match err
    case ThrownHttp(h) => h.statusCode
    case ThrownApp(_) => Int(DEFAULT_STATUS)
    case ThrownValue(v) => if v.Obj? && "statusCode" in v.fields then v.fields["statusCode"] else Int(DEFAULT_STATUS)
  }

  /** `... 'message' in err ? err.message : 'Internal Server Error'`; every Error instance has a message. */
  function MessageOf(err: Thrown): (message: Text)
    ensures err.ThrownHttp? ==> message == Plain(Str(err.http.message))
    ensures err.ThrownApp? ==> message == Plain(Str(err.app.message))
    ensures err.ThrownValue? && err.value.Obj? ==>
              message == Plain(if "message" in err.value.fields then err.value.fields["message"] else Str(DEFAULT_MESSAGE))
    ensures err.ThrownValue? && !err.value.Obj? && !err.value.Err? ==> message == Plain(Str(DEFAULT_MESSAGE))
    ensures err.ThrownValue? && err.value.Err? && err.value.e.OtherError? ==> message == Plain(Str(err.value.e.message))
    ensures err.ThrownValue? && err.value.Err? && err.value.e.ZodError? ==> message == ZodMessage(err.value.e.issues)
  {
    match err
    case ThrownHttp(h) => Plain(Str(h.message))
    case ThrownApp(e) => Plain(Str(e.message))
    case ThrownValue(v) =>
      (match v
       case Obj(m) => Plain(if "message" in m then m["message"] else Str(DEFAULT_MESSAGE))
       case Err(ZodError(issues)) => ZodMessage(issues)
       case Err(OtherError(_, message, _)) => Plain(Str(message))
       case _ => Plain(Str(DEFAULT_MESSAGE)))
  }

  /** `err.stack`: fails for `null` and `undefined`; `undefined` for other
      values without one. */
  function StackOf(err: Thrown): (r: Option<Text>)
    ensures r.None? <==> err.ThrownValue? && (err.value.Undefined? || err.value.Null?)
    ensures err.ThrownHttp? ==> r == Some(Plain(OptionalText(err.http.stack)))
    ensures err.ThrownApp? ==> r == Some(Plain(OptionalText(err.app.stack)))
  {
    match err
    case ThrownHttp(h) => Some(Plain(OptionalText(h.stack)))
    case ThrownApp(e) => Some(Plain(OptionalText(e.stack)))
    case ThrownValue(v) =>
      (match v
       case Undefined => None
       case Null => None
       case Obj(m) => Some(Plain(Field(m, "stack")))
       case Err(ZodError(issues)) => Some(ZodStack(issues))
       case Err(OtherError(_, _, stack)) => Some(Plain(OptionalText(stack)))
       case _ => Some(Plain(Undefined)))
  }

  /** `errorHandler(err, req, res, next)`: the reply, with the stack only
      when the environment is development. */
  function HandleError(err: Thrown, env: Option<string>, envs: seq<string>, codes: map<string, string>,
                       trace: Option<string>): (r: Result<ErrorReply, HandlerFailure>)
    requires "VALIDATION_ERROR" in codes
    ensures IsDevelopment(env, envs, codes, trace).Failure? ==>
              r == Failure(EnvFailure(GetNodeEnv(env, envs, codes, trace).error))
    ensures IsDevelopment(env, envs, codes, trace) == Success(false) ==>
              r == Success(ErrorReply(StatusOf(err), MessageOf(err), None))
    ensures IsDevelopment(env, envs, codes, trace) == Success(true) ==>
              r == (if StackOf(err).Some? then Success(ErrorReply(StatusOf(err), MessageOf(err), StackOf(err)))
                    else Failure(NullishStack))
  {
    match IsDevelopment(env, envs, codes, trace)
    case Failure(e) => Failure(EnvFailure(e))
    case Success(dev) =>
      if !dev then Success(ErrorReply(StatusOf(err), MessageOf(err), None))
      else
        match StackOf(err)
        case Some(stack) => Success(ErrorReply(StatusOf(err), MessageOf(err), Some(stack)))
        case None => Failure(NullishStack)
  }

  /** An HttpError built without a status is answered with 500 and its
      message; outside development no stack is sent. */
  lemma DefaultHttpErrorReply(message: string, env: string, envs: seq<string>, codes: map<string, string>)
    requires "VALIDATION_ERROR" in codes && env in envs && env != DEVELOPMENT
    ensures HandleError(ThrownHttp(NewHttpError(message, None, None)), Some(env), envs, codes, None)
            == Success(ErrorReply(Int(500), Plain(Str(message)), None))
  {
  }

  /** In development the stack is added; an explicit status is passed through. */
  lemma DevelopmentReply(message: string, status: Number, stack: string, envs: seq<string>, codes: map<string, string>)
    requires "VALIDATION_ERROR" in codes && DEVELOPMENT in envs
    ensures HandleError(ThrownHttp(NewHttpError(message, Some(status), Some(stack))), Some(DEVELOPMENT), envs, codes, None)
            == Success(ErrorReply(status, Plain(Str(message)), Some(Plain(Str(stack)))))
  {
  }

  /** A config error is answered with 500 and its message. */
  lemma ConfigErrorReply(e: AppError, env: string, envs: seq<string>, codes: map<string, string>)
    requires "VALIDATION_ERROR" in codes && env in envs && env != DEVELOPMENT
    ensures HandleError(ThrownApp(e), Some(env), envs, codes, None) == Success(ErrorReply(Int(500), Plain(Str(e.message)), None))
  {
  }

  /** A thrown primitive gets 500 and the default message. */
  lemma PrimitiveReply(v: Raw, env: string, envs: seq<string>, codes: map<string, string>)
    requires "VALIDATION_ERROR" in codes && env in envs && env != DEVELOPMENT
    requires v.Bool? || v.Int? || v.NonInt? || v.Str? || v.Undefined? || v.Null?
    ensures HandleError(ThrownValue(v), Some(env), envs, codes, None)
            == Success(ErrorReply(Int(500), Plain(Str("Internal Server Error")), None))
  {
  }

  /** An unset or invalid environment makes the handler itself throw
      getNodeEnv's ValidationError. */
  lemma InvalidEnvThrows(err: Thrown, env: Option<string>, envs: seq<string>, codes: map<string, string>)
    requires "VALIDATION_ERROR" in codes && (env.None? || env.value !in envs)
    ensures HandleError(err, env, envs, codes, None).Failure?
    ensures HandleError(err, env, envs, codes, None).error.EnvFailure?
    ensures HandleError(err, env, envs, codes, None).error.error.message == "Invalid Node Env"
  {
  }

  /** In development, a thrown `undefined` or `null` makes reading its stack throw. */
  lemma NullishInDevelopment(envs: seq<string>, codes: map<string, string>)
    requires "VALIDATION_ERROR" in codes && DEVELOPMENT in envs
    ensures HandleError(ThrownValue(Undefined), Some(DEVELOPMENT), envs, codes, None) == Failure(NullishStack)
    ensures HandleError(ThrownValue(Null), Some(DEVELOPMENT), envs, codes, None) == Failure(NullishStack)
  {
  }
}
