/** The configuration object: the composite schema over the nine field
    schemas, and `setupConfig`, which returns the resolved record or throws a
    ConfigError. The nodex and wnodex trees declare the same composite and the
    same `setupConfig`; both are modelled here once. */
module Config {
  import opened Values
  import opened Ports
  import opened Toggles
  import opened Cors
  import RateLimits
  import Sessions
  import opened Errors

  /** The resolved configuration: every field present and defaulted. */
  datatype Config = Config(
    port: int,
    helmet: Toggle,
    cors: Toggle,
    compression: bool,
    rateLimit: RateLimits.RateLimitSetting,
    cookieParser: CookieParserSetting,
    hpp: HppSetting,
    session: Sessions.SessionSetting,
    passport: Raw)

  const CONFIG_KEYS: set<string> :=
    {"port", "helmet", "cors", "compression", "rateLimit", "cookieParser", "hpp", "session", "passport"}

  /** The body of `z.object({...})`: each key parsed by its own schema, unknown
      keys dropped, the issues of every failing key collected in key order. */
  function ConfigObject(m: map<string, Raw>, moduleEnv: Option<string>): (r: Parsed<Config>)
    ensures r.Failure? ==> r.error != []
  {
    var port := PortSchema(Field(m, "port"));
    var helmet := HelmetOptionsSchema(Field(m, "helmet"));
    var cors := CorsOptionsSchema(Field(m, "cors"));
    var compression := CompressionOptionsSchema(Field(m, "compression"));
    var rateLimit := RateLimits.RateLimitOptionsSchema(Field(m, "rateLimit"));
    var cookieParser := CookieParserOptionsSchema(Field(m, "cookieParser"));
    var hpp := HppOptionsSchema(Field(m, "hpp"));
    var session := Sessions.SessionOptionsSchema(Field(m, "session"), moduleEnv);
    var passport := PassportSchema(Field(m, "passport"));
    if port.Success? && compression.Success? && rateLimit.Success? && cookieParser.Success?
       && hpp.Success? && session.Success?
    then
      Success(Config(port.value, helmet.value, cors.value, compression.value, rateLimit.value,
                     cookieParser.value, hpp.value, session.value, passport.value))
    else
      Failure(IssuesOf("port", port) + IssuesOf("helmet", helmet) + IssuesOf("cors", cors)
              + IssuesOf("compression", compression) + IssuesOf("rateLimit", rateLimit)
              + IssuesOf("cookieParser", cookieParser) + IssuesOf("hpp", hpp)
              + IssuesOf("session", session) + IssuesOf("passport", passport))
  }

  /** `NodexConfigSchema` / `WnodexConfigSchema`: a non-object is refused. */
  function ConfigSchema(raw: Raw, moduleEnv: Option<string>): (r: Parsed<Config>)
    ensures !raw.Obj? ==> r == Failure(Rejection())
    ensures r.Failure? ==> r.error != []
  {
    match raw
    case Obj(m) => ConfigObject(m, moduleEnv)
    case _ => Failure(Rejection())
  }

  const CONFIG_ERROR_MESSAGE: string := "Invalid Nodex Configuration"

  /** `setupConfig(config)`: the composite's output, or a ConfigError whose
      cause is the ZodError and whose context is absent. */
  function SetupConfig(raw: Raw, moduleEnv: Option<string>, codes: map<string, string>,
                       trace: Option<string>): (r: Result<Config, AppError>)
    requires "CONFIG_ERROR" in codes
    ensures r.Success? <==> ConfigSchema(raw, moduleEnv).Success?
    ensures r.Success? ==> r.value == ConfigSchema(raw, moduleEnv).value
    ensures r.Failure? ==>
              && r.error.name == "ConfigError"
              && r.error.message == CONFIG_ERROR_MESSAGE
              && r.error.code == codes["CONFIG_ERROR"]
              && r.error.cause == Err(ZodError(ConfigSchema(raw, moduleEnv).error))
              && r.error.context.None?
  {
    match ConfigSchema(raw, moduleEnv)
    case Success(c) => Success(c)
    case Failure(issues) => Failure(ConfigError(CONFIG_ERROR_MESSAGE, Err(ZodError(issues)), None, codes, trace))
  }

  /** The record with field `k` taken from `d` and every other field from `c`. */
  function WithField(c: Config, k: string, d: Config): Config {
    match k
    case "port" => c.(port := d.port)
    case "helmet" => c.(helmet := d.helmet)
    case "cors" => c.(cors := d.cors)
    case "compression" => c.(compression := d.compression)
    case "rateLimit" => c.(rateLimit := d.rateLimit)
    case "cookieParser" => c.(cookieParser := d.cookieParser)
    case "hpp" => c.(hpp := d.hpp)
    case "session" => c.(session := d.session)
    case "passport" => c.(passport := d.passport)
    case _ => c
  }

  /** The resolved record as a JavaScript object. */
  function ConfigToRaw(c: Config): Raw {
    Obj(map[
      "port" := Int(c.port),
      "helmet" := ToggleToRaw(c.helmet),
      "cors" := ToggleToRaw(c.cors),
      "compression" := Bool(c.compression),
      "rateLimit" := RateLimits.SettingToRaw(c.rateLimit),
      "cookieParser" := CookieParserToRaw(c.cookieParser),
      "hpp" := HppToRaw(c.hpp),
      "session" := Sessions.SettingToRaw(c.session),
      "passport" := c.passport])
  }

  /** The record `{}` resolves to. */
  function DefaultConfig(moduleEnv: Option<string>): Config {
    Config(DEFAULT_PORT, Flag(false), Options(DEFAULT_CORS_OPTIONS), true,
           RateLimits.RateLimitWith(RateLimits.DEFAULT_RATE_LIMIT_OPTIONS),
           CookieParserFlag(true), HppFlag(true), Sessions.SessionDisabled, Bool(false))
  }

  // The composite.

  /** An object is accepted iff every field schema accepts its field, and then
      each output field is that schema's output. */
  lemma ConfigFields(m: map<string, Raw>, moduleEnv: Option<string>)
    ensures ConfigSchema(Obj(m), moduleEnv).Success? <==>
              && PortSchema(Field(m, "port")).Success?
              && HelmetOptionsSchema(Field(m, "helmet")).Success?
              && CorsOptionsSchema(Field(m, "cors")).Success?
              && CompressionOptionsSchema(Field(m, "compression")).Success?
              && RateLimits.RateLimitOptionsSchema(Field(m, "rateLimit")).Success?
              && CookieParserOptionsSchema(Field(m, "cookieParser")).Success?
              && HppOptionsSchema(Field(m, "hpp")).Success?
              && Sessions.SessionOptionsSchema(Field(m, "session"), moduleEnv).Success?
              && PassportSchema(Field(m, "passport")).Success?
    ensures ConfigSchema(Obj(m), moduleEnv).Success? ==>
              var c := ConfigSchema(Obj(m), moduleEnv).value;
              && c.port == PortSchema(Field(m, "port")).value
              && c.helmet == HelmetOptionsSchema(Field(m, "helmet")).value
              && c.cors == CorsOptionsSchema(Field(m, "cors")).value
              && c.compression == CompressionOptionsSchema(Field(m, "compression")).value
              && c.rateLimit == RateLimits.RateLimitOptionsSchema(Field(m, "rateLimit")).value
              && c.cookieParser == CookieParserOptionsSchema(Field(m, "cookieParser")).value
              && c.hpp == HppOptionsSchema(Field(m, "hpp")).value
              && c.session == Sessions.SessionOptionsSchema(Field(m, "session"), moduleEnv).value
              && c.passport == PassportSchema(Field(m, "passport")).value
  {
  }

  lemma IssuesOfUnderKey<T>(key: string, r: Parsed<T>)
    ensures forall x :: x in IssuesOf(key, r) ==> x.path != [] && x.path[0] == key
  {
    forall x | x in IssuesOf(key, r)
      ensures x.path != [] && x.path[0] == key
    {
      var i :| 0 <= i < |IssuesOf(key, r)| && IssuesOf(key, r)[i] == x;
    }
  }

  /** Every issue of a refused object lies under one of the nine keys. */
  lemma {:induction false} ConfigIssuesUnderKeys(m: map<string, Raw>, moduleEnv: Option<string>)
    requires ConfigSchema(Obj(m), moduleEnv).Failure?
    ensures forall x :: x in ConfigSchema(Obj(m), moduleEnv).error ==> x.path != [] && x.path[0] in CONFIG_KEYS
  {
    IssuesOfUnderKey("port", PortSchema(Field(m, "port")));
    IssuesOfUnderKey("helmet", HelmetOptionsSchema(Field(m, "helmet")));
    IssuesOfUnderKey("cors", CorsOptionsSchema(Field(m, "cors")));
    IssuesOfUnderKey("compression", CompressionOptionsSchema(Field(m, "compression")));
    IssuesOfUnderKey("rateLimit", RateLimits.RateLimitOptionsSchema(Field(m, "rateLimit")));
    IssuesOfUnderKey("cookieParser", CookieParserOptionsSchema(Field(m, "cookieParser")));
    IssuesOfUnderKey("hpp", HppOptionsSchema(Field(m, "hpp")));
    IssuesOfUnderKey("session", Sessions.SessionOptionsSchema(Field(m, "session"), moduleEnv));
    IssuesOfUnderKey("passport", PassportSchema(Field(m, "passport")));
  }

  /** A reserved port alone is reported once, under "port", with the reserved message. */
  lemma ReservedPortConfig(moduleEnv: Option<string>)
    ensures ConfigSchema(Obj(map["port" := Int(3306)]), moduleEnv)
            == Failure([Issue(["port"], Refinement(RESERVED_PORT_MESSAGE))])
  {
    var m := map["port" := Int(3306)];
    assert Field(m, "port") == Int(3306);
    ReservedPortRejected(3306);
    var iss := IssuesUnder("port", [Issue([], Refinement(RESERVED_PORT_MESSAGE))]);
    assert ["port"] + [] == ["port"];
    assert iss == [Issue(["port"], Refinement(RESERVED_PORT_MESSAGE))];
    assert Field(m, "helmet") == Field(m, "cors") == Field(m, "compression") == Field(m, "rateLimit") == Undefined;
    assert Field(m, "cookieParser") == Field(m, "hpp") == Field(m, "session") == Field(m, "passport") == Undefined;
    assert ConfigObject(m, moduleEnv).error == IssuesOf("port", PortSchema(Field(m, "port")));
  }

  /** `{}` resolves to the all-defaults record. */
  lemma EmptyConfigDefaults(moduleEnv: Option<string>)
    ensures ConfigSchema(Obj(map[]), moduleEnv) == Success(DefaultConfig(moduleEnv))
    ensures DefaultConfig(moduleEnv).port == 4000
    ensures DefaultConfig(moduleEnv).rateLimit == RateLimits.RateLimitWith(RateLimits.RateLimitOptions(900000, 100, RateLimits.DEFAULT_RATE_LIMIT_MESSAGE))
  {
  }

  /** Keys other than the nine are dropped. */
  lemma UnknownKeysStripped(m: map<string, Raw>, k: string, v: Raw, moduleEnv: Option<string>)
    requires k !in CONFIG_KEYS
    ensures ConfigSchema(Obj(m[k := v]), moduleEnv) == ConfigSchema(Obj(m), moduleEnv)
  {
    forall j | j in CONFIG_KEYS
      ensures Field(m[k := v], j) == Field(m, j)
    {
    }
  }

  /** Two records that agree on every field but `k` differ only in `k`. */
  lemma AgreeBut(c1: Config, c2: Config, k: string)
    requires k != "port" ==> c1.port == c2.port
    requires k != "helmet" ==> c1.helmet == c2.helmet
    requires k != "cors" ==> c1.cors == c2.cors
    requires k != "compression" ==> c1.compression == c2.compression
    requires k != "rateLimit" ==> c1.rateLimit == c2.rateLimit
    requires k != "cookieParser" ==> c1.cookieParser == c2.cookieParser
    requires k != "hpp" ==> c1.hpp == c2.hpp
    requires k != "session" ==> c1.session == c2.session
    requires k != "passport" ==> c1.passport == c2.passport
    ensures c2 == WithField(c1, k, c2)
  {
  }

  /** No cross-field constraint: two inputs that agree on every key but `k`
      resolve to records that agree on every field but `k`. */
  lemma OneFieldIndependence(m1: map<string, Raw>, m2: map<string, Raw>, k: string, moduleEnv: Option<string>)
    requires forall j :: j in CONFIG_KEYS && j != k ==> Field(m1, j) == Field(m2, j)
    requires ConfigSchema(Obj(m1), moduleEnv).Success? && ConfigSchema(Obj(m2), moduleEnv).Success?
    ensures ConfigSchema(Obj(m2), moduleEnv).value
            == WithField(ConfigSchema(Obj(m1), moduleEnv).value, k, ConfigSchema(Obj(m2), moduleEnv).value)
  {
    ConfigFields(m1, moduleEnv);
    ConfigFields(m2, moduleEnv);
    assert k != "port" ==> Field(m1, "port") == Field(m2, "port");
    assert k != "helmet" ==> Field(m1, "helmet") == Field(m2, "helmet");
    assert k != "cors" ==> Field(m1, "cors") == Field(m2, "cors");
    assert k != "compression" ==> Field(m1, "compression") == Field(m2, "compression");
    assert k != "rateLimit" ==> Field(m1, "rateLimit") == Field(m2, "rateLimit");
    assert k != "cookieParser" ==> Field(m1, "cookieParser") == Field(m2, "cookieParser");
    assert k != "hpp" ==> Field(m1, "hpp") == Field(m2, "hpp");
    assert k != "session" ==> Field(m1, "session") == Field(m2, "session");
    assert k != "passport" ==> Field(m1, "passport") == Field(m2, "passport");
    AgreeBut(ConfigSchema(Obj(m1), moduleEnv).value, ConfigSchema(Obj(m2), moduleEnv).value, k);
  }

  /** The composite is rejected iff at least one field is; a non-object is
      rejected. */
  lemma ConfigRejected(raw: Raw, moduleEnv: Option<string>)
    ensures !raw.Obj? ==> ConfigSchema(raw, moduleEnv).Failure?
    ensures raw.Obj? ==>
              (ConfigSchema(raw, moduleEnv).Failure? <==>
                 || PortSchema(Field(raw.fields, "port")).Failure?
                 || CompressionOptionsSchema(Field(raw.fields, "compression")).Failure?
                 || RateLimits.RateLimitOptionsSchema(Field(raw.fields, "rateLimit")).Failure?
                 || CookieParserOptionsSchema(Field(raw.fields, "cookieParser")).Failure?
                 || HppOptionsSchema(Field(raw.fields, "hpp")).Failure?
                 || Sessions.SessionOptionsSchema(Field(raw.fields, "session"), moduleEnv).Failure?)
  {
  }

  /** The nine fields of the JavaScript form of a resolved record. */
  lemma ConfigToRawFields(c: Config)
    ensures ConfigToRaw(c).Obj?
    ensures Field(ConfigToRaw(c).fields, "port") == Int(c.port)
    ensures Field(ConfigToRaw(c).fields, "helmet") == ToggleToRaw(c.helmet)
    ensures Field(ConfigToRaw(c).fields, "cors") == ToggleToRaw(c.cors)
    ensures Field(ConfigToRaw(c).fields, "compression") == Bool(c.compression)
    ensures Field(ConfigToRaw(c).fields, "rateLimit") == RateLimits.SettingToRaw(c.rateLimit)
    ensures Field(ConfigToRaw(c).fields, "cookieParser") == CookieParserToRaw(c.cookieParser)
    ensures Field(ConfigToRaw(c).fields, "hpp") == HppToRaw(c.hpp)
    ensures Field(ConfigToRaw(c).fields, "session") == Sessions.SettingToRaw(c.session)
    ensures Field(ConfigToRaw(c).fields, "passport") == c.passport
  {
  }

  /** An object whose every field resolves to the matching field of `c` resolves to `c`. */
  lemma ConfigObjectOf(m: map<string, Raw>, moduleEnv: Option<string>, c: Config)
    requires PortSchema(Field(m, "port")) == Success(c.port)
    requires HelmetOptionsSchema(Field(m, "helmet")) == Success(c.helmet)
    requires CorsOptionsSchema(Field(m, "cors")) == Success(c.cors)
    requires CompressionOptionsSchema(Field(m, "compression")) == Success(c.compression)
    requires RateLimits.RateLimitOptionsSchema(Field(m, "rateLimit")) == Success(c.rateLimit)
    requires CookieParserOptionsSchema(Field(m, "cookieParser")) == Success(c.cookieParser)
    requires HppOptionsSchema(Field(m, "hpp")) == Success(c.hpp)
    requires Sessions.SessionOptionsSchema(Field(m, "session"), moduleEnv) == Success(c.session)
    requires PassportSchema(Field(m, "passport")) == Success(c.passport)
    ensures ConfigObject(m, moduleEnv) == Success(c)
  {
  }

  /** A resolved record whose port is in range re-validates to itself. */
  lemma {:induction false} ConfigIdempotent(raw: Raw, moduleEnv: Option<string>)
    requires ConfigSchema(raw, moduleEnv).Success? && InRange(ConfigSchema(raw, moduleEnv).value.port)
    ensures ConfigSchema(ConfigToRaw(ConfigSchema(raw, moduleEnv).value), moduleEnv) == ConfigSchema(raw, moduleEnv)
  {
    var m0 := raw.fields;
    var c := ConfigSchema(raw, moduleEnv).value;
    ConfigFields(m0, moduleEnv);
    ConfigToRawFields(c);
    var m := ConfigToRaw(c).fields;
    PortIdempotentInRange(Field(m0, "port"));
    HelmetIdempotent(Field(m0, "helmet"));
    CorsIdempotent(Field(m0, "cors"));
    CompressionIdempotent(Field(m0, "compression"));
    RateLimits.RateLimitIdempotent(Field(m0, "rateLimit"));
    CookieParserIdempotent(Field(m0, "cookieParser"));
    HppIdempotent(Field(m0, "hpp"));
    Sessions.SessionIdempotent(Field(m0, "session"), moduleEnv);
    PassportIdempotent(Field(m0, "passport"));
    ConfigObjectOf(m, moduleEnv, c);
  }

  /** The string port "99999" passes the composite, the rest defaulted. */
  lemma StringPort99999Config(moduleEnv: Option<string>)
    ensures ConfigSchema(Obj(map["port" := Str("99999")]), moduleEnv) == Success(DefaultConfig(moduleEnv).(port := 99999))
  {
    var m := map["port" := Str("99999")];
    assert Field(m, "port") == Str("99999");
    assert Field(m, "helmet") == Field(m, "cors") == Field(m, "compression") == Field(m, "rateLimit") == Undefined;
    assert Field(m, "cookieParser") == Field(m, "hpp") == Field(m, "session") == Field(m, "passport") == Undefined;
    StringPort99999();
    ConfigObjectOf(m, moduleEnv, DefaultConfig(moduleEnv).(port := 99999));
  }

  /** A record whose port is outside [MIN_PORT, MAX_PORT] is refused as input. */
  lemma OutOfRangeRecordRefused(c: Config, moduleEnv: Option<string>)
    requires !InRange(c.port)
    ensures ConfigSchema(ConfigToRaw(c), moduleEnv).Failure?
  {
    ConfigToRawFields(c);
    assert PortSchema(Field(ConfigToRaw(c).fields, "port")).Failure?;
  }

  /** Without the range condition the composite is not idempotent: a string
      port "99999" resolves, and the resolved record is then refused. */
  lemma ConfigNotIdempotent(moduleEnv: Option<string>)
    ensures ConfigSchema(Obj(map["port" := Str("99999")]), moduleEnv).Success?
    ensures ConfigSchema(ConfigToRaw(ConfigSchema(Obj(map["port" := Str("99999")]), moduleEnv).value), moduleEnv).Failure?
  {
    StringPort99999Config(moduleEnv);
    OutOfRangeRecordRefused(DefaultConfig(moduleEnv).(port := 99999), moduleEnv);
  }

  // setupConfig.

  /** `{}` sets up the all-defaults record. */
  lemma SetupConfigDefaults(moduleEnv: Option<string>, codes: map<string, string>)
    requires "CONFIG_ERROR" in codes
    ensures SetupConfig(Obj(map[]), moduleEnv, codes, None) == Success(DefaultConfig(moduleEnv))
  {
    EmptyConfigDefaults(moduleEnv);
  }

  /** A non-object input throws the ConfigError with the single rejection as
      cause; its JSON carries code CONFIG_ERROR and the summarised ZodError. */
  lemma SetupConfigNonObject(raw: Raw, moduleEnv: Option<string>, codes: map<string, string>)
    requires "CONFIG_ERROR" in codes && !raw.Obj?
    ensures SetupConfig(raw, moduleEnv, codes, None)
            == Failure(AppError("ConfigError", "Invalid Nodex Configuration", codes["CONFIG_ERROR"],
                                Err(ZodError(Rejection())), None, None))
    ensures ToJson(SetupConfig(raw, moduleEnv, codes, None).error).cause == ZodErrorSummary(Rejection())
  {
  }

  /** A reserved port makes setupConfig throw, with the port issue as cause. */
  lemma SetupConfigReservedPort(moduleEnv: Option<string>, codes: map<string, string>)
    requires "CONFIG_ERROR" in codes
    ensures SetupConfig(Obj(map["port" := Int(3306)]), moduleEnv, codes, None).Failure?
    ensures SetupConfig(Obj(map["port" := Int(3306)]), moduleEnv, codes, None).error.cause
            == Err(ZodError([Issue(["port"], Refinement(RESERVED_PORT_MESSAGE))]))
  {
    ReservedPortConfig(moduleEnv);
  }
}
