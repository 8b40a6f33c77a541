/** Sessions: the session default constants (one of them read from the
    environment when the module is loaded) and `SessionCookieSchema`,
    `SessionOptionsSchema` (literal `false`, or an object with a required
    secret and a defaulted nested cookie; `false` when absent). */
module Sessions {
  import opened Values

  const DEFAULT_SESSION_COOKIE_MAX_AGE: nat := 1000 * 60 * 60 * 24
  const DEFAULT_SESSION_COOKIE_HTTP_ONLY: bool := true
  const DEFAULT_SESSION_RESAVE: bool := false
  const DEFAULT_SESSION_SAVE_UNINITIALIZED: bool := false

  /** `DEFAULT_SESSION_COOKIE_SECURE`, computed once from the value `moduleEnv`
      that NODE_ENV had when the constants module was evaluated. */
  function DefaultSessionCookieSecure(moduleEnv: Option<string>): bool {
    moduleEnv == Some("production")
  }

  datatype SessionCookie = SessionCookie(secure: bool, maxAge: Number, httpOnly: bool)

  datatype SessionOptions = SessionOptions(secret: string, resave: bool, saveUninitialized: bool, cookie: SessionCookie)

  /** The resolved `session` field: literal `false`, or the options. */
  datatype SessionSetting = SessionDisabled | SessionEnabled(options: SessionOptions)

  /** The cookie used when the whole `cookie` key is absent. */
  function DefaultSessionCookie(moduleEnv: Option<string>): SessionCookie {
    SessionCookie(DefaultSessionCookieSecure(moduleEnv), Int(DEFAULT_SESSION_COOKIE_MAX_AGE), DEFAULT_SESSION_COOKIE_HTTP_ONLY)
  }

  /** `SessionCookieSchema`: an object whose secure, maxAge and httpOnly are
      each defaulted when missing (other keys dropped); the default cookie
      when absent. */
  function SessionCookieSchema(raw: Raw, moduleEnv: Option<string>): (r: Parsed<SessionCookie>)
    ensures r.Failure? ==> r.error != []
  {
    match raw
    case Undefined => Success(DefaultSessionCookie(moduleEnv))
    case Obj(m) =>
      var secure := OptionalBool(Field(m, "secure"), DefaultSessionCookieSecure(moduleEnv));
      var maxAge := OptionalNumber(Field(m, "maxAge"), Int(DEFAULT_SESSION_COOKIE_MAX_AGE));
      var httpOnly := OptionalBool(Field(m, "httpOnly"), DEFAULT_SESSION_COOKIE_HTTP_ONLY);
      if secure.Some? && maxAge.Some? && httpOnly.Some? then
        Success(SessionCookie(secure.value, maxAge.value, httpOnly.value))
      else
        Failure(Rejection())
    case _ => Failure(Rejection())
  }

  /** The object arm of the session union (other keys dropped). */
  function SessionObject(m: map<string, Raw>, moduleEnv: Option<string>): Option<SessionOptions> {
    var resave := OptionalBool(Field(m, "resave"), DEFAULT_SESSION_RESAVE);
    var saveUninitialized := OptionalBool(Field(m, "saveUninitialized"), DEFAULT_SESSION_SAVE_UNINITIALIZED);
    var cookie := SessionCookieSchema(Field(m, "cookie"), moduleEnv);
    if Field(m, "secret").Str? && resave.Some? && saveUninitialized.Some? && cookie.Success? then
      Some(SessionOptions(Field(m, "secret").s, resave.value, saveUninitialized.value, cookie.value))
    else
      None
  }

  /** `SessionOptionsSchema`: `z.union([z.literal(false), z.object(...)])`,
      defaulting to `false`. */
  function SessionOptionsSchema(raw: Raw, moduleEnv: Option<string>): (r: Parsed<SessionSetting>)
    ensures r.Failure? ==> r.error != []
  {
    match raw
    case Undefined => Success(SessionDisabled)
    case Bool(b) => if !b then Success(SessionDisabled) else Failure(Rejection())
    case Obj(m) =>
      (match SessionObject(m, moduleEnv)
       case Some(o) => Success(SessionEnabled(o))
       case None => Failure(Rejection()))
    case _ => Failure(Rejection())
  }

  function CookieToRaw(c: SessionCookie): Raw {
    Obj(map["secure" := Bool(c.secure), "maxAge" := c.maxAge, "httpOnly" := Bool(c.httpOnly)])
  }

  function OptionsToRaw(o: SessionOptions): Raw {
    Obj(map["secret" := Str(o.secret), "resave" := Bool(o.resave),
            "saveUninitialized" := Bool(o.saveUninitialized), "cookie" := CookieToRaw(o.cookie)])
  }

  /** The resolved setting as a JavaScript value. */
  function SettingToRaw(v: SessionSetting): Raw {
    match v
    case SessionDisabled => Bool(false)
    case SessionEnabled(o) => OptionsToRaw(o)
  }

  lemma DefaultConstants(moduleEnv: Option<string>)
    ensures DEFAULT_SESSION_COOKIE_MAX_AGE == 86400000
    ensures DEFAULT_SESSION_COOKIE_HTTP_ONLY
    ensures !DEFAULT_SESSION_RESAVE && !DEFAULT_SESSION_SAVE_UNINITIALIZED
    ensures DefaultSessionCookieSecure(Some("production"))
    ensures !DefaultSessionCookieSecure(None) && !DefaultSessionCookieSecure(Some("development"))
    ensures DefaultSessionCookie(moduleEnv) == SessionCookie(moduleEnv == Some("production"), Int(86400000), true)
  {
  }

  /** An absent session resolves to `false`; literal `false` is accepted;
      `true` is refused, being neither `false` nor an object. */
  lemma SessionBooleans(moduleEnv: Option<string>)
    ensures SessionOptionsSchema(Undefined, moduleEnv) == Success(SessionDisabled)
    ensures SessionOptionsSchema(Bool(false), moduleEnv) == Success(SessionDisabled)
    ensures SessionOptionsSchema(Bool(true), moduleEnv).Failure?
  {
  }

  /** An object without a string secret is refused. */
  lemma SecretRequired(m: map<string, Raw>, moduleEnv: Option<string>)
    requires !Field(m, "secret").Str?
    ensures SessionOptionsSchema(Obj(m), moduleEnv).Failure?
  {
  }

  /** The object arm accepts exactly the objects with a string secret, a
      boolean or missing resave and saveUninitialized, and a valid cookie. */
  lemma SessionObjectArm(m: map<string, Raw>, moduleEnv: Option<string>)
    ensures SessionOptionsSchema(Obj(m), moduleEnv).Success? <==>
              Field(m, "secret").Str?
              && (Field(m, "resave").Undefined? || Field(m, "resave").Bool?)
              && (Field(m, "saveUninitialized").Undefined? || Field(m, "saveUninitialized").Bool?)
              && SessionCookieSchema(Field(m, "cookie"), moduleEnv).Success?
    ensures SessionOptionsSchema(Obj(m), moduleEnv).Success? ==>
              SessionOptionsSchema(Obj(m), moduleEnv).value.SessionEnabled?
              && SessionOptionsSchema(Obj(m), moduleEnv).value.options.secret == Field(m, "secret").s
              && SessionOptionsSchema(Obj(m), moduleEnv).value.options.cookie
                 == SessionCookieSchema(Field(m, "cookie"), moduleEnv).value
  {
  }

  /** In an accepted session object, each of resave and saveUninitialized is
      kept when given and defaults to false when missing, independently of
      the other. */
  lemma SessionFlags(m: map<string, Raw>, moduleEnv: Option<string>)
    requires SessionOptionsSchema(Obj(m), moduleEnv).Success?
    ensures SessionOptionsSchema(Obj(m), moduleEnv).value.SessionEnabled?
    ensures var o := SessionOptionsSchema(Obj(m), moduleEnv).value.options;
            && (Field(m, "resave").Undefined? ==> o.resave == DEFAULT_SESSION_RESAVE)
            && (Field(m, "resave").Bool? ==> o.resave == Field(m, "resave").b)
            && (Field(m, "saveUninitialized").Undefined? ==> o.saveUninitialized == DEFAULT_SESSION_SAVE_UNINITIALIZED)
            && (Field(m, "saveUninitialized").Bool? ==> o.saveUninitialized == Field(m, "saveUninitialized").b)
  {
  }

  /** A present resave or saveUninitialized that is not a boolean, or a cookie
      the cookie schema refuses, makes the whole session refused. */
  lemma BadSessionFieldsRejected(m: map<string, Raw>, moduleEnv: Option<string>)
    requires (!Field(m, "resave").Undefined? && !Field(m, "resave").Bool?)
             || (!Field(m, "saveUninitialized").Undefined? && !Field(m, "saveUninitialized").Bool?)
             || SessionCookieSchema(Field(m, "cookie"), moduleEnv).Failure?
    ensures SessionOptionsSchema(Obj(m), moduleEnv).Failure?
  {
  }

  /** An absent cookie resolves to the default cookie. */
  lemma AbsentCookieDefaults(moduleEnv: Option<string>)
    ensures SessionCookieSchema(Undefined, moduleEnv)
            == Success(SessionCookie(DefaultSessionCookieSecure(moduleEnv), Int(86400000), true))
  {
  }

  /** A partial cookie keeps what is given and defaults the rest; maxAge may
      be any number, integer or not. */
  lemma PartialCookie(moduleEnv: Option<string>, t: nat)
    ensures SessionCookieSchema(Obj(map["maxAge" := Int(60000)]), moduleEnv)
            == Success(SessionCookie(DefaultSessionCookieSecure(moduleEnv), Int(60000), true))
    ensures SessionCookieSchema(Obj(map["maxAge" := NonInt(t)]), moduleEnv)
            == Success(SessionCookie(DefaultSessionCookieSecure(moduleEnv), NonInt(t), true))
    ensures SessionCookieSchema(Obj(map["maxAge" := Str("60000")]), moduleEnv).Failure?
  {
  }

  /** The session used by the playground: one-minute cookie, the rest defaulted. */
  lemma PlaygroundSession(moduleEnv: Option<string>)
    ensures SessionOptionsSchema(
              Obj(map["secret" := Str("your-session-secret"), "resave" := Bool(false),
                      "saveUninitialized" := Bool(true), "cookie" := Obj(map["maxAge" := Int(60000)])]),
              moduleEnv)
            == Success(SessionEnabled(SessionOptions("your-session-secret", false, true,
                 SessionCookie(DefaultSessionCookieSecure(moduleEnv), Int(60000), true))))
  {
    var m := map["secret" := Str("your-session-secret"), "resave" := Bool(false),
                 "saveUninitialized" := Bool(true), "cookie" := Obj(map["maxAge" := Int(60000)])];
    assert Field(m, "secret") == Str("your-session-secret");
    assert Field(m, "resave") == Bool(false);
    assert Field(m, "saveUninitialized") == Bool(true);
    assert Field(m, "cookie") == Obj(map["maxAge" := Int(60000)]);
  }

  /** The cookie schema accepts a cookie object iff each present sub-field
      has its type, keeps every given sub-field and defaults every missing one. */
  lemma CookieObject(m: map<string, Raw>, moduleEnv: Option<string>)
    ensures SessionCookieSchema(Obj(m), moduleEnv).Success? <==>
              (Field(m, "secure").Undefined? || Field(m, "secure").Bool?)
              && (Field(m, "maxAge").Undefined? || Field(m, "maxAge").Int? || Field(m, "maxAge").NonInt?)
              && (Field(m, "httpOnly").Undefined? || Field(m, "httpOnly").Bool?)
    ensures SessionCookieSchema(Obj(m), moduleEnv).Success? ==>
              var c := SessionCookieSchema(Obj(m), moduleEnv).value;
              && (Field(m, "secure").Bool? ==> c.secure == Field(m, "secure").b)
              && (!Field(m, "maxAge").Undefined? ==> c.maxAge == Field(m, "maxAge"))
              && (Field(m, "httpOnly").Bool? ==> c.httpOnly == Field(m, "httpOnly").b)
    ensures SessionCookieSchema(Obj(m), moduleEnv).Success? ==>
              var c := SessionCookieSchema(Obj(m), moduleEnv).value;
              && (Field(m, "secure").Undefined? ==> c.secure == DefaultSessionCookieSecure(moduleEnv))
              && (Field(m, "maxAge").Undefined? ==> c.maxAge == Int(DEFAULT_SESSION_COOKIE_MAX_AGE))
              && (Field(m, "httpOnly").Undefined? ==> c.httpOnly == DEFAULT_SESSION_COOKIE_HTTP_ONLY)
  {
  }

  /** A resolved cookie, written back as an object, parses to itself. */
  lemma CookieRoundTrip(c: SessionCookie, moduleEnv: Option<string>)
    ensures SessionCookieSchema(CookieToRaw(c), moduleEnv) == Success(c)
  {
    var cm := CookieToRaw(c).fields;
    assert Field(cm, "secure") == Bool(c.secure);
    assert Field(cm, "maxAge") == c.maxAge;
    assert Field(cm, "httpOnly") == Bool(c.httpOnly);
  }

  /** Resolved options, written back as an object, parse to themselves. */
  lemma OptionsRoundTrip(o: SessionOptions, moduleEnv: Option<string>)
    ensures SessionOptionsSchema(OptionsToRaw(o), moduleEnv) == Success(SessionEnabled(o))
  {
    var m := OptionsToRaw(o).fields;
    CookieRoundTrip(o.cookie, moduleEnv);
    assert Field(m, "secret") == Str(o.secret);
    assert Field(m, "resave") == Bool(o.resave);
    assert Field(m, "saveUninitialized") == Bool(o.saveUninitialized);
    assert Field(m, "cookie") == CookieToRaw(o.cookie);
  }

  /** Every resolved session re-validates to itself. */
  lemma {:induction false} SessionIdempotent(raw: Raw, moduleEnv: Option<string>)
    requires SessionOptionsSchema(raw, moduleEnv).Success?
    ensures SessionOptionsSchema(SettingToRaw(SessionOptionsSchema(raw, moduleEnv).value), moduleEnv)
            == SessionOptionsSchema(raw, moduleEnv)
  {
    var v := SessionOptionsSchema(raw, moduleEnv).value;
    if v.SessionEnabled? {
      OptionsRoundTrip(v.options, moduleEnv);
    }
  }
}
