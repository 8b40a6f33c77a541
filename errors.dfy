/** The application's error records: metadata validation, the base error and
    its serialisation, the configuration and validation errors that fix their
    code, and the HTTP error with its default status. Error codes are the
    abstract table `codes` (constant name to code), known to hold the keys
    CONFIG_ERROR and VALIDATION_ERROR where those errors are built. */
module Errors {
  import opened Values

  /** The keys the strict metadata object allows. */
  const METADATA_KEYS: set<string> := {"code", "cause", "context"}

  /** Validated metadata: a code, a cause (`Undefined` when absent) and an
      optional context record. */
  datatype Metadata = Metadata(code: string, cause: Raw, context: Option<map<string, Raw>>)

  /** A constructed error of the BaseError family: `name` is the concrete
      class's name, `stack` the runtime's trace. */
  datatype AppError = AppError(
    name: string,
    message: string,
    code: string,
    cause: Raw,
    context: Option<map<string, Raw>>,
    stack: Option<string>)

  /** The plain `Error` thrown for invalid metadata, with the ZodError as cause. */
  datatype MetadataError = MetadataError(message: string, cause: ErrorInstance)

  /** `z.enum(Object.values(ERROR_CODES))`. */
  predicate IsErrorCode(code: Raw, codes: map<string, string>) {
    code.Str? && code.s in codes.Values
  }

  /** `z.record(z.string(), z.unknown()).optional()`. */
  predicate IsContext(context: Raw) {
    context.Undefined? || context.Obj?
  }

  /** `ErrorMetadataSchema`: a strict object with an enumerated code, any cause
      and an optional record context. Each failed check reports one issue. */
  function ValidateMetadata(meta: map<string, Raw>, codes: map<string, string>): (r: Parsed<Metadata>)
    ensures r.Success? <==> IsErrorCode(Field(meta, "code"), codes) && IsContext(Field(meta, "context")) && meta.Keys <= METADATA_KEYS
    ensures r.Success? ==>
              && r.value.code == Field(meta, "code").s
              && r.value.cause == Field(meta, "cause")
              && (r.value.context.Some? <==> Field(meta, "context").Obj?)
              && (r.value.context.Some? ==> r.value.context.value == Field(meta, "context").fields)
    ensures r.Failure? ==> r.error != []
  {
    var codeIssues := if IsErrorCode(Field(meta, "code"), codes) then [] else [Issue(["code"], Rejected)];
    var contextIssues := if IsContext(Field(meta, "context")) then [] else [Issue(["context"], Rejected)];
    var strictIssues := if meta.Keys <= METADATA_KEYS then [] else Rejection();
    var issues := codeIssues + contextIssues + strictIssues;
    if issues == [] then
      var context := Field(meta, "context");
      Success(Metadata(Field(meta, "code").s, Field(meta, "cause"), if context.Obj? then Some(context.fields) else None))
    else
      Failure(issues)
  }

  /** What the template `${input.code || 'N/A'}` writes for a string or absent code. */
  function CodeText(code: Raw): string
    requires code.Str? || code.Undefined?
  {
    if code.Str? && code.s != "" then code.s else "N/A"
  }

  function MetadataErrorMessage(message: string, code: Raw): string
    requires code.Str? || code.Undefined?
  {
    "Invalid metadata provided for error \"" + message + "\" (Code: " + CodeText(code) + ")."
  }

  /** `new C(message, metadata)` for a class `C` of the BaseError family named
      `className`: the validated metadata is stored, or the constructor throws. */
  function NewBaseError(className: string, message: string, meta: map<string, Raw>,
                        codes: map<string, string>, trace: Option<string>): (r: Result<AppError, MetadataError>)
    requires Field(meta, "code").Str? || Field(meta, "code").Undefined?
    ensures r.Success? <==> ValidateMetadata(meta, codes).Success?
    ensures r.Success? ==>
              && r.value.name == className
              && r.value.message == message
              && r.value.code == ValidateMetadata(meta, codes).value.code
              && r.value.cause == ValidateMetadata(meta, codes).value.cause
              && r.value.context == ValidateMetadata(meta, codes).value.context
              && r.value.stack == trace
    ensures r.Failure? ==>
              && r.error.message == MetadataErrorMessage(message, Field(meta, "code"))
              && r.error.cause == ZodError(ValidateMetadata(meta, codes).error)
  {
    match ValidateMetadata(meta, codes)
    case Success(md) => Success(AppError(className, message, md.code, md.cause, md.context, trace))
    case Failure(issues) => Failure(MetadataError(MetadataErrorMessage(message, Field(meta, "code")), ZodError(issues)))
  }

  /** The metadata object a subclass passes up: `{code, cause, context}`. */
  function FixedCodeMetadata(code: string, cause: Raw, context: Option<map<string, Raw>>): map<string, Raw> {
    map["code" := Str(code), "cause" := cause, "context" := if context.Some? then Obj(context.value) else Undefined]
  }

  /** `new ConfigError(message, cause?, context?)`. */
  function ConfigError(message: string, cause: Raw, context: Option<map<string, Raw>>,
                       codes: map<string, string>, trace: Option<string>): (e: AppError)
    requires "CONFIG_ERROR" in codes
    ensures e.name == "ConfigError" && e.code == codes["CONFIG_ERROR"]
    ensures e.message == message && e.cause == cause && e.context == context && e.stack == trace
  {
    var meta := FixedCodeMetadata(codes["CONFIG_ERROR"], cause, context);
    assert Field(meta, "code") == Str(codes["CONFIG_ERROR"]);
    assert Field(meta, "context") == (if context.Some? then Obj(context.value) else Undefined);
    NewBaseError("ConfigError", message, meta, codes, trace).value
  }

  /** `new ValidationError(message, cause?, context?)`. */
  function ValidationError(message: string, cause: Raw, context: Option<map<string, Raw>>,
                           codes: map<string, string>, trace: Option<string>): (e: AppError)
    requires "VALIDATION_ERROR" in codes
    ensures e.name == "ValidationError" && e.code == codes["VALIDATION_ERROR"]
    ensures e.message == message && e.cause == cause && e.context == context && e.stack == trace
  {
    var meta := FixedCodeMetadata(codes["VALIDATION_ERROR"], cause, context);
    assert Field(meta, "code") == Str(codes["VALIDATION_ERROR"]);
    assert Field(meta, "context") == (if context.Some? then Obj(context.value) else Undefined);
    NewBaseError("ValidationError", message, meta, codes, trace).value
  }

  /** The `cause` entry of `toJSON`: an Error cause summarised by name, message
      and stack (for a ZodError, "ZodError", Zod's rendering of its issues and
      its stack), any other cause as is. */
  datatype NormalizedCause =
    | CauseValue(value: Raw)
    | CauseSummary(name: string, message: string, stack: Option<string>)
    | ZodErrorSummary(issues: seq<Issue>)

  /** The plain object `toJSON` returns, with its six keys. */
  datatype ErrorJson = ErrorJson(
    name: string,
    message: string,
    code: string,
    cause: NormalizedCause,
    context: Option<map<string, Raw>>,
    stack: Option<string>)

  function NormalizeCause(cause: Raw): (c: NormalizedCause)
    ensures c.CauseValue? <==> !cause.Err?
    ensures c.CauseValue? ==> c.value == cause
  {
    match cause
    case Err(ZodError(issues)) => ZodErrorSummary(issues)
    case Err(OtherError(name, message, stack)) => CauseSummary(name, message, stack)
    case _ => CauseValue(cause)
  }

  /** `toJSON()`: reads the error, changes nothing. */
  function ToJson(e: AppError): (j: ErrorJson)
    ensures j.name == e.name && j.message == e.message && j.code == e.code
    ensures j.context == e.context && j.stack == e.stack
    ensures j.cause == NormalizeCause(e.cause)
  {
    ErrorJson(e.name, e.message, e.code, NormalizeCause(e.cause), e.context, e.stack)
  }

  /** An `HttpError`: name "HttpError", a message, and a status code. */
  datatype HttpError = HttpError(name: string, message: string, statusCode: Number, stack: Option<string>)

  const DEFAULT_HTTP_STATUS: Number := Int(500)

  /** `new HttpError(message, statusCode = 500)`. */
  function NewHttpError(message: string, statusCode: Option<Number>, trace: Option<string>): (e: HttpError)
    ensures e.name == "HttpError" && e.message == message && e.stack == trace
    ensures statusCode.None? ==> e.statusCode == Int(500)
    ensures statusCode.Some? ==> e.statusCode == statusCode.value
  {
    HttpError("HttpError", message, if statusCode.Some? then statusCode.value else DEFAULT_HTTP_STATUS, trace)
  }

  // Metadata.

  /** A well-formed metadata object round-trips: what is stored is what was given. */
  lemma MetadataRoundTrip(md: Metadata, codes: map<string, string>)
    requires md.code in codes.Values
    ensures ValidateMetadata(FixedCodeMetadata(md.code, md.cause, md.context), codes) == Success(md)
  {
    var meta := FixedCodeMetadata(md.code, md.cause, md.context);
    assert meta.Keys == METADATA_KEYS;
    assert Field(meta, "code") == Str(md.code);
    assert Field(meta, "cause") == md.cause;
    assert Field(meta, "context") == if md.context.Some? then Obj(md.context.value) else Undefined;
  }

  /** The strict schema refuses any extra key, and a code outside the table. */
  lemma MetadataRejections(meta: map<string, Raw>, codes: map<string, string>, k: string)
    requires k in meta && k !in METADATA_KEYS
    ensures ValidateMetadata(meta, codes).Failure?
    ensures ValidateMetadata(map["code" := Str("")], map[]).Failure?
    ensures ValidateMetadata(map[], codes).Failure?
  {
    assert Field(map[], "code") == Undefined;
  }

  /** A context that is not a record (a string, a number, an array) is refused. */
  lemma ContextMustBeRecord(code: string, context: Raw, codes: map<string, string>)
    requires code in codes.Values && !context.Undefined? && !context.Obj?
    ensures ValidateMetadata(map["code" := Str(code), "context" := context], codes).Failure?
  {
    assert Field(map["code" := Str(code), "context" := context], "context") == context;
  }

  // Base error.

  /** Invalid metadata throws a message naming the error and its code. */
  lemma BaseErrorFailureMessage(className: string, codes: map<string, string>)
    requires "NOT_A_CODE" !in codes.Values
    ensures NewBaseError(className, "boom", map["code" := Str("NOT_A_CODE")], codes, None)
            == Failure(MetadataError("Invalid metadata provided for error \"boom\" (Code: NOT_A_CODE).",
                                     ZodError([Issue(["code"], Rejected)])))
  {
    var meta := map["code" := Str("NOT_A_CODE")];
    assert ValidateMetadata(meta, codes) == Failure([Issue(["code"], Rejected)]) by {
      assert meta.Keys <= METADATA_KEYS;
      assert !IsErrorCode(Field(meta, "code"), codes);
      assert IsContext(Field(meta, "context"));
      assert [Issue(["code"], Rejected)] + [] + [] == [Issue(["code"], Rejected)];
    }
    assert MetadataErrorMessage("boom", Field(meta, "code"))
           == "Invalid metadata provided for error \"boom\" (Code: NOT_A_CODE)." by {
      assert CodeText(Field(meta, "code")) == "NOT_A_CODE";
    }
  }

  /** An empty code is written as N/A. */
  lemma BaseErrorEmptyCodeMessage(className: string, codes: map<string, string>)
    requires "" !in codes.Values
    ensures NewBaseError(className, "boom", map["code" := Str("")], codes, None).Failure?
    ensures NewBaseError(className, "boom", map["code" := Str("")], codes, None).error.message
            == "Invalid metadata provided for error \"boom\" (Code: N/A)."
  {
    var empty := map["code" := Str("")];
    assert Field(empty, "code") == Str("");
    assert MetadataErrorMessage("boom", Str("")) == "Invalid metadata provided for error \"boom\" (Code: N/A).";
  }

  // Fixed-code subclasses.

  /** A config error passes metadata validation because its code is in the table. */
  lemma ConfigErrorMetadataValid(cause: Raw, context: Option<map<string, Raw>>, codes: map<string, string>)
    requires "CONFIG_ERROR" in codes
    ensures ValidateMetadata(FixedCodeMetadata(codes["CONFIG_ERROR"], cause, context), codes) ==
            Success(Metadata(codes["CONFIG_ERROR"], cause, context))
  {
    MetadataRoundTrip(Metadata(codes["CONFIG_ERROR"], cause, context), codes);
  }

  lemma ValidationErrorMetadataValid(cause: Raw, context: Option<map<string, Raw>>, codes: map<string, string>)
    requires "VALIDATION_ERROR" in codes
    ensures ValidateMetadata(FixedCodeMetadata(codes["VALIDATION_ERROR"], cause, context), codes) ==
            Success(Metadata(codes["VALIDATION_ERROR"], cause, context))
  {
    MetadataRoundTrip(Metadata(codes["VALIDATION_ERROR"], cause, context), codes);
  }

  /** A config error's JSON carries CONFIG_ERROR and its summarised cause. */
  lemma ConfigErrorJson(message: string, issues: seq<Issue>, codes: map<string, string>, trace: Option<string>)
    requires "CONFIG_ERROR" in codes
    ensures ToJson(ConfigError(message, Err(ZodError(issues)), None, codes, trace)) ==
            ErrorJson("ConfigError", message, codes["CONFIG_ERROR"], ZodErrorSummary(issues), None, trace)
  {
  }

  // Serialisation.

  /** An Error cause is replaced by its name, message and stack; other causes stay. */
  lemma ToJsonCause(e: AppError)
    ensures e.cause.Err? && e.cause.e.OtherError? ==>
              ToJson(e).cause == CauseSummary(e.cause.e.name, e.cause.e.message, e.cause.e.stack)
    ensures !e.cause.Err? ==> ToJson(e).cause == CauseValue(e.cause)
    ensures e.cause.Undefined? ==> ToJson(e).cause == CauseValue(Undefined)
  {
  }

  // HTTP error.

  lemma HttpErrorDefaults(message: string, status: Number)
    ensures NewHttpError(message, None, None).statusCode == Int(500)
    ensures NewHttpError(message, Some(status), None).statusCode == status
    ensures NewHttpError("Not Found", Some(Int(404)), None) == HttpError("HttpError", "Not Found", Int(404), None)
    ensures NewHttpError(message, Some(Int(-7)), None).statusCode == Int(-7)
  {
  }
}
