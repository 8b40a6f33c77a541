/** Middleware wiring: the Express application as an object holding its
    middleware stack and its settings, the `configure*` steps that each read
    one resolved field and append at most a fixed set of middlewares, and
    `setupMiddlewares`, which runs them in a fixed order. Each middleware is
    a tag carrying the options it was built from (`None`: library defaults). */
module Wiring {
  import opened Values
  import opened Toggles
  import RateLimits
  import Sessions
  import opened Config
  import opened Errors

  datatype Middleware =
    | HelmetMw(helmetOptions: Option<Raw>)
    | CorsMw(corsOptions: Option<Raw>)
    | JsonParser
    | UrlEncodedParser(extended: bool)
    | CookieParserMw(secret: Option<Secret>, parseOptions: Option<Raw>)
    | CompressionMw
    | RateLimitMw(rateLimitOptions: Option<RateLimits.RateLimitOptions>)
    | HppMw(whitelist: Option<seq<string>>)
    | SessionMw(sessionOptions: Sessions.SessionOptions)
    | PassportInitialize(initializeHandle: Raw)
    | PassportSession(sessionHandle: Raw)
    | ErrorHandlerMw

  /** An Express application: `use` appends to the stack, `set` updates a setting. */
  class App {
    var middlewares: seq<Middleware>
    var settings: map<string, Raw>

    constructor ()
      ensures middlewares == [] && settings == map[]
    {
      middlewares := [];
      settings := map[];
    }

    method Use(mw: Middleware)
      modifies this
      ensures middlewares == old(middlewares) + [mw]
      ensures settings == old(settings)
    {
      middlewares := middlewares + [mw];
    }

    method Set(key: string, value: Raw)
      modifies this
      ensures settings == old(settings)[key := value]
      ensures middlewares == old(middlewares)
    {
      settings := settings[key := value];
    }
  }

  // What each step appends, as a function of the one field it reads.

  function Count(b: bool): nat {
    if b then 1 else 0
  }

  /** helmet: nothing for `false`, library defaults for `true`, else a copy of the options. */
  function HelmetLayers(t: Toggle): (r: seq<Middleware>)
    ensures r == [] <==> t == Flag(false)
    ensures |r| == Count(t != Flag(false))
    ensures t == Flag(true) ==> r == [HelmetMw(None)]
    ensures t.Options? ==> r == [HelmetMw(Some(t.value))]
  {
    match t
    case Flag(b) => if b then [HelmetMw(None)] else []
    case Options(v) => [HelmetMw(Some(v))]
  }

  /** cors: the same dispatch as helmet. */
  function CorsLayers(t: Toggle): (r: seq<Middleware>)
    ensures r == [] <==> t == Flag(false)
    ensures |r| == Count(t != Flag(false))
    ensures t == Flag(true) ==> r == [CorsMw(None)]
    ensures t.Options? ==> r == [CorsMw(Some(t.value))]
  {
    match t
    case Flag(b) => if b then [CorsMw(None)] else []
    case Options(v) => [CorsMw(Some(v))]
  }

  function CookieParserLayers(c: CookieParserSetting): (r: seq<Middleware>)
    ensures r == [] <==> c == CookieParserFlag(false)
    ensures |r| == Count(c != CookieParserFlag(false))
    ensures c == CookieParserFlag(true) ==> r == [CookieParserMw(None, None)]
    ensures c.CookieParserWith? ==> r == [CookieParserMw(Some(c.secret), c.parseOptions)]
  {
    match c
    case CookieParserFlag(b) => if b then [CookieParserMw(None, None)] else []
    case CookieParserWith(secret, opts) => [CookieParserMw(Some(secret), opts)]
  }

  function CompressionLayers(enabled: bool): (r: seq<Middleware>)
    ensures r == [] <==> !enabled
    ensures |r| == Count(enabled)
    ensures forall i :: 0 <= i < |r| ==> r[i] == CompressionMw
  {
    if enabled then [CompressionMw] else []
  }

  function RateLimitLayers(s: RateLimits.RateLimitSetting): (r: seq<Middleware>)
    ensures r == [] <==> s == RateLimits.RateLimitFlag(false)
    ensures |r| == Count(s != RateLimits.RateLimitFlag(false))
    ensures s == RateLimits.RateLimitFlag(true) ==> r == [RateLimitMw(None)]
    ensures s.RateLimitWith? ==> r == [RateLimitMw(Some(s.options))]
  {
    match s
    case RateLimitFlag(b) => if b then [RateLimitMw(None)] else []
    case RateLimitWith(o) => [RateLimitMw(Some(o))]
  }

  function HppLayers(h: HppSetting): (r: seq<Middleware>)
    ensures r == [] <==> h == HppFlag(false)
    ensures |r| == Count(h != HppFlag(false))
    ensures h == HppFlag(true) ==> r == [HppMw(None)]
    ensures h.HppWhitelist? ==> r == [HppMw(Some(h.whitelist))]
  {
    match h
    case HppFlag(b) => if b then [HppMw(None)] else []
    case HppWhitelist(ws) => [HppMw(Some(ws))]
  }

  function SessionLayers(s: Sessions.SessionSetting): (r: seq<Middleware>)
    ensures r == [] <==> s.SessionDisabled?
    ensures |r| == Count(s.SessionEnabled?)
    ensures s.SessionEnabled? ==> r == [SessionMw(s.options)]
  {
    match s
    case SessionDisabled => []
    case SessionEnabled(o) => [SessionMw(o)]
  }

  /** `!passport || typeof passport === 'boolean'` skips the step. */
  predicate PassportEnabled(passport: Raw) {
    Truthy(passport) && !passport.Bool?
  }

  function PassportLayers(passport: Raw): (r: seq<Middleware>)
    ensures PassportEnabled(passport) ==> r == [PassportInitialize(passport), PassportSession(passport)]
    ensures !PassportEnabled(passport) ==> r == []
  {
    if PassportEnabled(passport) then [PassportInitialize(passport), PassportSession(passport)] else []
  }

  function PassportSettings(settings: map<string, Raw>, passport: Raw): (r: map<string, Raw>)
    ensures PassportEnabled(passport) ==> r == settings["passport" := passport]
    ensures !PassportEnabled(passport) ==> r == settings
  {
    if PassportEnabled(passport) then settings["passport" := passport] else settings
  }

  /** The whole stack `setupMiddlewares` appends for a resolved record. */
  function Pipeline(c: Config): seq<Middleware> {
    HelmetLayers(c.helmet) + CorsLayers(c.cors) + [JsonParser, UrlEncodedParser(true)]
    + CookieParserLayers(c.cookieParser) + CompressionLayers(c.compression)
    + RateLimitLayers(c.rateLimit) + HppLayers(c.hpp) + SessionLayers(c.session)
    + PassportLayers(c.passport) + [ErrorHandlerMw]
  }

  // The steps.

  /** `configureHelmet(app, config)`; `returned` is whether the app (rather than undefined) is returned. */
  method ConfigureHelmet(app: App, config: Config) returns (returned: bool)
    modifies app
    ensures app.middlewares == old(app.middlewares) + HelmetLayers(config.helmet)
    ensures app.settings == old(app.settings)
    ensures returned <==> config.helmet != Flag(false)
  {
    match config.helmet
    case Flag(b) =>
      if !b { return false; }
      app.Use(HelmetMw(None));
      return true;
    case Options(v) =>
      app.Use(HelmetMw(Some(v)));
      return true;
  }

  /** `configureCors(app, config)`. */
  method ConfigureCors(app: App, config: Config) returns (returned: bool)
    modifies app
    ensures app.middlewares == old(app.middlewares) + CorsLayers(config.cors)
    ensures app.settings == old(app.settings)
    ensures returned <==> config.cors != Flag(false)
  {
    match config.cors
    case Flag(b) =>
      if !b { return false; }
      app.Use(CorsMw(None));
      return true;
    case Options(v) =>
      app.Use(CorsMw(Some(v)));
      return true;
  }

  /** `configureCookieParser(app, config)`. */
  method ConfigureCookieParser(app: App, config: Config) returns (returned: bool)
    modifies app
    ensures app.middlewares == old(app.middlewares) + CookieParserLayers(config.cookieParser)
    ensures app.settings == old(app.settings)
    ensures returned <==> config.cookieParser != CookieParserFlag(false)
  {
    match config.cookieParser
    case CookieParserFlag(b) =>
      if !b { return false; }
      app.Use(CookieParserMw(None, None));
      return true;
    case CookieParserWith(secret, opts) =>
      app.Use(CookieParserMw(Some(secret), opts));
      return true;
  }

  /** `configureCompression(app, config)`. */
  method ConfigureCompression(app: App, config: Config) returns (returned: bool)
    modifies app
    ensures app.middlewares == old(app.middlewares) + CompressionLayers(config.compression)
    ensures app.settings == old(app.settings)
    ensures returned == config.compression
  {
    if !config.compression {
      return false;
    }
    app.Use(CompressionMw);
    return true;
  }

  /** `configureRateLimit(app, config)`. */
  method ConfigureRateLimit(app: App, config: Config) returns (returned: bool)
    modifies app
    ensures app.middlewares == old(app.middlewares) + RateLimitLayers(config.rateLimit)
    ensures app.settings == old(app.settings)
    ensures returned <==> config.rateLimit != RateLimits.RateLimitFlag(false)
  {
    match config.rateLimit
    case RateLimitFlag(b) =>
      if !b { return false; }
      app.Use(RateLimitMw(None));
      return true;
    case RateLimitWith(o) =>
      app.Use(RateLimitMw(Some(o)));
      return true;
  }

  /** `configureHpp(app, config)`: the whitelist is a copy of the resolved array. */
  method ConfigureHpp(app: App, config: Config) returns (returned: bool)
    modifies app
    ensures app.middlewares == old(app.middlewares) + HppLayers(config.hpp)
    ensures app.settings == old(app.settings)
    ensures returned <==> config.hpp != HppFlag(false)
  {
    match config.hpp
    case HppFlag(b) =>
      if !b { return false; }
      app.Use(HppMw(None));
      return true;
    case HppWhitelist(ws) =>
      app.Use(HppMw(Some(ws)));
      return true;
  }

  /** `configureSession(app, config)`. */
  method ConfigureSession(app: App, config: Config) returns (returned: bool)
    modifies app
    ensures app.middlewares == old(app.middlewares) + SessionLayers(config.session)
    ensures app.settings == old(app.settings)
    ensures returned <==> config.session.SessionEnabled?
  {
    match config.session
    case SessionDisabled =>
      return false;
    case SessionEnabled(o) =>
      app.Use(SessionMw(o));
      return true;
  }

  /** `configurePassport(app, config)`: records the handle as the 'passport'
      setting, appends initialize then session, and returns the handle. */
  method ConfigurePassport(app: App, config: Config) returns (handle: Option<Raw>)
    modifies app
    ensures app.middlewares == old(app.middlewares) + PassportLayers(config.passport)
    ensures app.settings == PassportSettings(old(app.settings), config.passport)
    ensures handle == if PassportEnabled(config.passport) then Some(config.passport) else None
  {
    var passport := config.passport;
    if !Truthy(passport) || passport.Bool? {
      return None;
    }
    app.Set("passport", passport);
    app.Use(PassportInitialize(passport));
    app.Use(PassportSession(passport));
    return Some(passport);
  }

  /** `setupMiddlewares(app, config)`. */
  method SetupMiddlewares(app: App, config: Config)
    modifies app
    ensures app.middlewares == old(app.middlewares) + Pipeline(config)
    ensures app.settings == PassportSettings(old(app.settings), config.passport)
  {
    ghost var before := app.middlewares;
    var _ := ConfigureHelmet(app, config);
    ghost var done := HelmetLayers(config.helmet);
    assert app.middlewares == before + done;
    var _ := ConfigureCors(app, config);
    Appended(before, done, CorsLayers(config.cors));
    done := done + CorsLayers(config.cors);
    assert app.middlewares == before + done;
    app.Use(JsonParser);
    Appended(before, done, [JsonParser]);
    done := done + [JsonParser];
    assert app.middlewares == before + done;
    app.Use(UrlEncodedParser(true));
    Appended(before, done, [UrlEncodedParser(true)]);
    done := done + [UrlEncodedParser(true)];
    assert app.middlewares == before + done;
    var _ := ConfigureCookieParser(app, config);
    Appended(before, done, CookieParserLayers(config.cookieParser));
    done := done + CookieParserLayers(config.cookieParser);
    assert app.middlewares == before + done;
    var _ := ConfigureCompression(app, config);
    Appended(before, done, CompressionLayers(config.compression));
    done := done + CompressionLayers(config.compression);
    assert app.middlewares == before + done;
    var _ := ConfigureRateLimit(app, config);
    Appended(before, done, RateLimitLayers(config.rateLimit));
    done := done + RateLimitLayers(config.rateLimit);
    assert app.middlewares == before + done;
    var _ := ConfigureHpp(app, config);
    Appended(before, done, HppLayers(config.hpp));
    done := done + HppLayers(config.hpp);
    assert app.middlewares == before + done;
    var _ := ConfigureSession(app, config);
    Appended(before, done, SessionLayers(config.session));
    done := done + SessionLayers(config.session);
    assert app.middlewares == before + done;
    var _ := ConfigurePassport(app, config);
    Appended(before, done, PassportLayers(config.passport));
    done := done + PassportLayers(config.passport);
    assert app.middlewares == before + done;
    app.Use(ErrorHandlerMw);
    Appended(before, done, [ErrorHandlerMw]);
    done := done + [ErrorHandlerMw];
    assert app.middlewares == before + done;
    assert done == Pipeline(config) by {
      PipelineSteps(config);
    }
  }

  /** The stack built one step at a time, each body parser on its own. */
  lemma PipelineSteps(c: Config)
    ensures Pipeline(c) ==
            HelmetLayers(c.helmet) + CorsLayers(c.cors) + [JsonParser] + [UrlEncodedParser(true)]
            + CookieParserLayers(c.cookieParser) + CompressionLayers(c.compression)
            + RateLimitLayers(c.rateLimit) + HppLayers(c.hpp) + SessionLayers(c.session)
            + PassportLayers(c.passport) + [ErrorHandlerMw]
  {
    var a := HelmetLayers(c.helmet) + CorsLayers(c.cors);
    assert a + [JsonParser] + [UrlEncodedParser(true)] == a + [JsonParser, UrlEncodedParser(true)];
  }

  lemma Appended(before: seq<Middleware>, done: seq<Middleware>, more: seq<Middleware>)
    ensures before + done + more == before + (done + more)
  {
  }

  /** The construction steps of the server object: a fresh application, the
      logger setting, `setupConfig`, then `setupMiddlewares`. An invalid
      configuration throws before any middleware is attached. */
  method NewServer(raw: Raw, logger: Raw, moduleEnv: Option<string>, codes: map<string, string>,
                   trace: Option<string>) returns (r: Result<App, AppError>)
    requires "CONFIG_ERROR" in codes
    ensures r.Failure? <==> SetupConfig(raw, moduleEnv, codes, trace).Failure?
    ensures r.Failure? ==> r.error == SetupConfig(raw, moduleEnv, codes, trace).error
    ensures r.Success? ==>
              && fresh(r.value)
              && r.value.middlewares == Pipeline(ConfigSchema(raw, moduleEnv).value)
              && r.value.settings == PassportSettings(map["logger" := logger], ConfigSchema(raw, moduleEnv).value.passport)
  {
    var app := new App();
    app.Set("logger", logger);
    var config := SetupConfig(raw, moduleEnv, codes, trace);
    if config.Failure? {
      return Failure(config.error);
    }
    SetupMiddlewares(app, config.value);
    return Success(app);
  }

  // The stack.

  /** The position of each middleware kind in the fixed order. */
  function Rank(mw: Middleware): nat {
    match mw
    case HelmetMw(_) => 0
    case CorsMw(_) => 1
    case JsonParser => 2
    case UrlEncodedParser(_) => 3
    case CookieParserMw(_, _) => 4
    case CompressionMw => 5
    case RateLimitMw(_) => 6
    case HppMw(_) => 7
    case SessionMw(_) => 8
    case PassportInitialize(_) => 9
    case PassportSession(_) => 10
    case ErrorHandlerMw => 11
  }

  predicate Ranked(s: seq<Middleware>) {
    forall i, j :: 0 <= i < j < |s| ==> Rank(s[i]) < Rank(s[j])
  }

  /** Every middleware in `s` has rank in [lo, hi). */
  predicate RanksWithin(s: seq<Middleware>, lo: nat, hi: nat) {
    forall i :: 0 <= i < |s| ==> lo <= Rank(s[i]) < hi
  }

  lemma RankedConcat(a: seq<Middleware>, b: seq<Middleware>, lo: nat, mid: nat, hi: nat)
    requires lo <= mid <= hi
    requires Ranked(a) && Ranked(b) && RanksWithin(a, lo, mid) && RanksWithin(b, mid, hi)
    ensures Ranked(a + b) && RanksWithin(a + b, lo, hi)
  {
    forall i | 0 <= i < |a + b|
      ensures lo <= Rank((a + b)[i]) < hi
    {
      if i >= |a| {
        assert (a + b)[i] == b[i - |a|];
      } else {
        assert (a + b)[i] == a[i];
      }
    }
    forall i, j | 0 <= i < j < |a + b|
      ensures Rank((a + b)[i]) < Rank((a + b)[j])
    {
      if j < |a| {
      } else if i >= |a| {
        assert (a + b)[i] == b[i - |a|] && (a + b)[j] == b[j - |a|];
      } else {
        assert (a + b)[i] == a[i] && (a + b)[j] == b[j - |a|];
      }
    }
  }

  /** A step's contribution: at most one middleware, of rank `r`. */
  lemma Single(s: seq<Middleware>, r: nat)
    requires |s| <= 1 && (|s| == 1 ==> Rank(s[0]) == r)
    ensures Ranked(s) && RanksWithin(s, r, r + 1)
  {
  }

  /** The stack follows the fixed order helmet, cors, json, urlencoded,
      cookie-parser, compression, rate-limit, hpp, session, passport
      initialize, passport session, error handler; so each kind appears at
      most once. */
  lemma {:induction false} PipelineOrdered(c: Config)
    ensures Ranked(Pipeline(c))
  {
    var s7 := MiddleLayers(c);
    MiddleOrdered(c);
    var s8 := s7 + PassportLayers(c.passport);
    assert Ranked(s8) && RanksWithin(s8, 0, 11) by {
      assert Ranked(PassportLayers(c.passport)) && RanksWithin(PassportLayers(c.passport), 9, 11);
      RankedConcat(s7, PassportLayers(c.passport), 0, 9, 11);
    }
    RankedConcat(s8, [ErrorHandlerMw], 0, 11, 12);
  }

  /** The stack up to and including session. */
  function MiddleLayers(c: Config): seq<Middleware> {
    FrontLayers(c) + RateLimitLayers(c.rateLimit) + HppLayers(c.hpp) + SessionLayers(c.session)
  }

  lemma {:induction false} MiddleOrdered(c: Config)
    ensures Ranked(MiddleLayers(c)) && RanksWithin(MiddleLayers(c), 0, 9)
  {
    var s4 := FrontLayers(c);
    FrontOrdered(c);
    var s5 := s4 + RateLimitLayers(c.rateLimit);
    assert Ranked(s5) && RanksWithin(s5, 0, 7) by {
      Single(RateLimitLayers(c.rateLimit), 6);
      RankedConcat(s4, RateLimitLayers(c.rateLimit), 0, 6, 7);
    }
    var s6 := s5 + HppLayers(c.hpp);
    assert Ranked(s6) && RanksWithin(s6, 0, 8) by {
      Single(HppLayers(c.hpp), 7);
      RankedConcat(s5, HppLayers(c.hpp), 0, 7, 8);
    }
    var s7 := s6 + SessionLayers(c.session);
    assert Ranked(s7) && RanksWithin(s7, 0, 9) by {
      Single(SessionLayers(c.session), 8);
      RankedConcat(s6, SessionLayers(c.session), 0, 8, 9);
    }
  }

  /** The stack up to and including compression. */
  function FrontLayers(c: Config): seq<Middleware> {
    HelmetLayers(c.helmet) + CorsLayers(c.cors) + [JsonParser, UrlEncodedParser(true)]
    + CookieParserLayers(c.cookieParser) + CompressionLayers(c.compression)
  }

  lemma {:induction false} FrontOrdered(c: Config)
    ensures Ranked(FrontLayers(c)) && RanksWithin(FrontLayers(c), 0, 6)
  {
    var s1 := HelmetLayers(c.helmet) + CorsLayers(c.cors);
    assert Ranked(s1) && RanksWithin(s1, 0, 2) by {
      Single(HelmetLayers(c.helmet), 0);
      Single(CorsLayers(c.cors), 1);
      RankedConcat(HelmetLayers(c.helmet), CorsLayers(c.cors), 0, 1, 2);
    }
    var s2 := s1 + [JsonParser, UrlEncodedParser(true)];
    assert Ranked(s2) && RanksWithin(s2, 0, 4) by {
      RankedConcat(s1, [JsonParser, UrlEncodedParser(true)], 0, 2, 4);
    }
    var s3 := s2 + CookieParserLayers(c.cookieParser);
    assert Ranked(s3) && RanksWithin(s3, 0, 5) by {
      Single(CookieParserLayers(c.cookieParser), 4);
      RankedConcat(s2, CookieParserLayers(c.cookieParser), 0, 4, 5);
    }
    var s4 := s3 + CompressionLayers(c.compression);
    assert Ranked(s4) && RanksWithin(s4, 0, 6) by {
      Single(CompressionLayers(c.compression), 5);
      RankedConcat(s3, CompressionLayers(c.compression), 0, 5, 6);
    }
  }

  /** The error handler is last; json and urlencoded (extended) are always there. */
  lemma PipelineFixedParts(c: Config)
    ensures |Pipeline(c)| >= 3
    ensures Pipeline(c)[|Pipeline(c)| - 1] == ErrorHandlerMw
    ensures JsonParser in Pipeline(c) && UrlEncodedParser(true) in Pipeline(c)
  {
    var pre := HelmetLayers(c.helmet) + CorsLayers(c.cors);
    assert Pipeline(c)[|pre|] == JsonParser;
    assert Pipeline(c)[|pre| + 1] == UrlEncodedParser(true);
  }

  /** Three fixed middlewares, one per enabled feature other than passport, two for passport. */
  lemma PipelineLength(c: Config)
    ensures |Pipeline(c)| ==
            3 + Count(c.helmet != Flag(false)) + Count(c.cors != Flag(false))
            + Count(c.cookieParser != CookieParserFlag(false)) + Count(c.compression)
            + Count(c.rateLimit != RateLimits.RateLimitFlag(false)) + Count(c.hpp != HppFlag(false))
            + Count(c.session.SessionEnabled?) + 2 * Count(PassportEnabled(c.passport))
  {
  }

  /** The stack for `{}`. */
  lemma DefaultPipeline(moduleEnv: Option<string>)
    ensures Pipeline(DefaultConfig(moduleEnv)) ==
            [CorsMw(Some(Cors.DEFAULT_CORS_OPTIONS)), JsonParser, UrlEncodedParser(true), CookieParserMw(None, None),
             CompressionMw, RateLimitMw(Some(RateLimits.DEFAULT_RATE_LIMIT_OPTIONS)), HppMw(None), ErrorHandlerMw]
  {
  }

  /** `rateLimit: true` uses the library's defaults, which is not what an
      absent rateLimit (the schema's default object) produces. */
  lemma RateLimitTrueIsNotDefault()
    ensures RateLimitLayers(RateLimits.RateLimitOptionsSchema(Bool(true)).value) == [RateLimitMw(None)]
    ensures RateLimitLayers(RateLimits.RateLimitOptionsSchema(Undefined).value)
            == [RateLimitMw(Some(RateLimits.DEFAULT_RATE_LIMIT_OPTIONS))]
  {
  }

  /** Passport is skipped for undefined, false, true and the other falsy values. */
  lemma PassportSkipped(p: Raw)
    requires p.Undefined? || p.Null? || p.Bool? || p == Int(0) || p == Str("")
    ensures PassportLayers(p) == [] && PassportSettings(map[], p) == map[]
  {
  }
}
