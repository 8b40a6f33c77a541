/** Environment resolution: the NODE_ENV enum, `getNodeEnv` and
    `isDevelopment`. NODE_ENV_VALUES is the abstract list `envs` (in its
    declaration order); the environment value is an explicit parameter
    (`None` when unset). */
module Env {
  import opened Values
  import opened Errors

  const DEVELOPMENT: string := "development"

  /** `NodeEnvSchema`: `z.enum([...NODE_ENVS])`, not optional. */
  function NodeEnvSchema(raw: Raw, envs: seq<string>): (r: Parsed<string>)
    ensures r.Success? <==> raw.Str? && raw.s in envs
    ensures r.Success? ==> r.value == raw.s
    ensures r.Failure? ==> r.error != []
  {
    if raw.Str? && raw.s in envs then Success(raw.s) else Failure(Rejection())
  }

  /** `NodeEnvEnum`: each enum value keyed by itself. */
  function NodeEnvEnum(envs: seq<string>): (e: map<string, string>)
    ensures e.Keys == set i | 0 <= i < |envs| :: envs[i]
    ensures forall k :: k in e ==> e[k] == k
  {
    map k | k in envs :: k
  }

  /** The raw environment value as JavaScript sees it. */
  function EnvValue(env: Option<string>): Raw {
    if env.Some? then Str(env.value) else Undefined
  }

  /** The context of getNodeEnv's error: what was provided and what was expected. */
  function NodeEnvContext(env: Option<string>, envs: seq<string>): map<string, Raw> {
    map["provided" := EnvValue(env), "expected" := Str(Join(envs, "|"))]
  }

  /** `getNodeEnv()`: the environment value when it is an enum value, otherwise
      a ValidationError "Invalid Node Env". */
  function GetNodeEnv(env: Option<string>, envs: seq<string>, codes: map<string, string>,
                      trace: Option<string>): (r: Result<string, AppError>)
    requires "VALIDATION_ERROR" in codes
    ensures r.Success? <==> env.Some? && env.value in envs
    ensures r.Success? ==> r.value == env.value
    ensures r.Failure? ==>
              && r.error.name == "ValidationError"
              && r.error.message == "Invalid Node Env"
              && r.error.code == codes["VALIDATION_ERROR"]
              && r.error.context == Some(NodeEnvContext(env, envs))
              && r.error.cause.Err? && r.error.cause.e.ZodError?
  {
    match NodeEnvSchema(EnvValue(env), envs)
    case Success(v) => Success(v)
    case Failure(issues) =>
      Failure(ValidationError("Invalid Node Env", Err(ZodError(issues)), Some(NodeEnvContext(env, envs)), codes, trace))
  }

  /** `isDevelopment()`: whether the resolved environment is "development";
      getNodeEnv's error propagates. */
  function IsDevelopment(env: Option<string>, envs: seq<string>, codes: map<string, string>,
                         trace: Option<string>): (r: Result<bool, AppError>)
    requires "VALIDATION_ERROR" in codes
    ensures r.Failure? <==> GetNodeEnv(env, envs, codes, trace).Failure?
    ensures r.Failure? ==> r.error == GetNodeEnv(env, envs, codes, trace).error
  {
    match GetNodeEnv(env, envs, codes, trace)
    case Success(v) => Success(v == DEVELOPMENT)
    case Failure(e) => Failure(e)
  }

  /** The enum accepts exactly the listed values and returns them unchanged;
      an unset value is refused. */
  lemma NodeEnvAccepts(s: string, envs: seq<string>)
    ensures NodeEnvSchema(Str(s), envs) == (if s in envs then Success(s) else Failure(Rejection()))
    ensures NodeEnvSchema(Undefined, envs).Failure?
  {
  }

  /** Every listed value maps to itself in the enum object. */
  lemma NodeEnvEnumIdentity(envs: seq<string>, i: nat)
    requires i < |envs|
    ensures envs[i] in NodeEnvEnum(envs) && NodeEnvEnum(envs)[envs[i]] == envs[i]
  {
  }

  /** The error for an unset value records `provided: undefined` and the values joined with '|'. */
  lemma UnsetEnvError(codes: map<string, string>)
    requires "VALIDATION_ERROR" in codes
    ensures GetNodeEnv(None, ["development", "production", "test"], codes, None).Failure?
    ensures GetNodeEnv(None, ["development", "production", "test"], codes, None).error.context
            == Some(map["provided" := Undefined, "expected" := Str("development|production|test")])
  {
    var envs := ["development", "production", "test"];
    assert Join(envs, "|") == "development|production|test" by {
      assert envs[1..] == ["production", "test"];
      assert ["production", "test"][1..] == ["test"];
    }
    assert NodeEnvContext(None, envs) == map["provided" := Undefined, "expected" := Str("development|production|test")];
  }

  /** An unrecognised value is refused and reported as provided. */
  lemma UnknownEnvError(s: string, envs: seq<string>, codes: map<string, string>)
    requires "VALIDATION_ERROR" in codes && s !in envs
    ensures GetNodeEnv(Some(s), envs, codes, None).Failure?
    ensures Field(GetNodeEnv(Some(s), envs, codes, None).error.context.value, "provided") == Str(s)
  {
  }

  /** isDevelopment is true iff the environment value is "development" (and
      that is a listed value); false for every other listed value; an error
      otherwise. */
  lemma IsDevelopmentCases(env: Option<string>, envs: seq<string>, codes: map<string, string>)
    requires "VALIDATION_ERROR" in codes
    ensures IsDevelopment(env, envs, codes, None) == Success(true) <==> env == Some(DEVELOPMENT) && DEVELOPMENT in envs
    ensures env.Some? && env.value in envs && env.value != DEVELOPMENT ==> IsDevelopment(env, envs, codes, None) == Success(false)
    ensures env.None? ==> IsDevelopment(env, envs, codes, None).Failure?
  {
  }
}
