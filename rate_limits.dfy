/** Rate limiting: the default window, maximum and message, and
    `RateLimitOptionsSchema` (a boolean, or a partial object whose missing
    sub-fields take the defaults; the full default object when absent). */
module RateLimits {
  import opened Values

  const DEFAULT_RATE_LIMIT_WINDOW_MS: nat := 15 * 60 * 1000
  const DEFAULT_RATE_LIMIT_MAX: nat := 100
  const DEFAULT_RATE_LIMIT_MESSAGE: string := "Too many requests, please try again later."

  /** The resolved `{windowMs, max, message}` object. */
  datatype RateLimitOptions = RateLimitOptions(windowMs: nat, max: nat, message: string)

  const DEFAULT_RATE_LIMIT_OPTIONS: RateLimitOptions :=
    RateLimitOptions(DEFAULT_RATE_LIMIT_WINDOW_MS, DEFAULT_RATE_LIMIT_MAX, DEFAULT_RATE_LIMIT_MESSAGE)

  /** The resolved `rateLimit` field: a boolean, or the options object. */
  datatype RateLimitSetting = RateLimitFlag(enabled: bool) | RateLimitWith(options: RateLimitOptions)

  /** The object arm: each sub-field is checked and defaulted on its own;
      other keys are dropped. */
  function RateLimitObject(m: map<string, Raw>): Option<RateLimitOptions> {
    var windowMs := OptionalPositiveInt(Field(m, "windowMs"), DEFAULT_RATE_LIMIT_WINDOW_MS);
    var max := OptionalPositiveInt(Field(m, "max"), DEFAULT_RATE_LIMIT_MAX);
    var message := OptionalString(Field(m, "message"), DEFAULT_RATE_LIMIT_MESSAGE);
    if windowMs.Some? && max.Some? && message.Some? then
      Some(RateLimitOptions(windowMs.value, max.value, message.value))
    else
      None
  }

  /** `RateLimitOptionsSchema`: `z.union([z.boolean(), z.object(...)])`,
      defaulting to a copy of DEFAULT_RATE_LIMIT_OPTIONS. */
  function RateLimitOptionsSchema(raw: Raw): (r: Parsed<RateLimitSetting>)
    ensures r.Success? ==> (r.value.RateLimitWith? ==> r.value.options.windowMs > 0 && r.value.options.max > 0)
    ensures r.Failure? ==> r.error != []
  {
    match raw
    case Undefined => Success(RateLimitWith(DEFAULT_RATE_LIMIT_OPTIONS))
    case Bool(b) => Success(RateLimitFlag(b))
    case Obj(m) =>
      (match RateLimitObject(m)
       case Some(o) => Success(RateLimitWith(o))
       case None => Failure(Rejection()))
    case _ => Failure(Rejection())
  }

  /** The options object as a JavaScript object. */
  function OptionsToRaw(o: RateLimitOptions): Raw {
    Obj(map["windowMs" := Int(o.windowMs), "max" := Int(o.max), "message" := Str(o.message)])
  }

  lemma DefaultConstants()
    ensures DEFAULT_RATE_LIMIT_WINDOW_MS == 900000
    ensures DEFAULT_RATE_LIMIT_MAX == 100
    ensures DEFAULT_RATE_LIMIT_MESSAGE == "Too many requests, please try again later."
  {
  }

  /** The default object satisfies the object arm of the schema. */
  lemma DefaultOptionsPassObjectArm()
    ensures RateLimitObject(OptionsToRaw(DEFAULT_RATE_LIMIT_OPTIONS).fields) == Some(DEFAULT_RATE_LIMIT_OPTIONS)
    ensures RateLimitOptionsSchema(OptionsToRaw(DEFAULT_RATE_LIMIT_OPTIONS)) == Success(RateLimitWith(DEFAULT_RATE_LIMIT_OPTIONS))
  {
  }

  /** An absent field resolves to the default object, not to a boolean. */
  lemma AbsentIsDefaultObject()
    ensures RateLimitOptionsSchema(Undefined) == Success(RateLimitWith(RateLimitOptions(900000, 100, DEFAULT_RATE_LIMIT_MESSAGE)))
  {
  }

  lemma BooleanPassesThrough(b: bool)
    ensures RateLimitOptionsSchema(Bool(b)) == Success(RateLimitFlag(b))
  {
  }

  /** Only the missing sub-fields are filled in. */
  lemma PartialObjectDefaults()
    ensures RateLimitOptionsSchema(Obj(map["max" := Int(50)]))
            == Success(RateLimitWith(RateLimitOptions(900000, 50, DEFAULT_RATE_LIMIT_MESSAGE)))
  {
  }

  /** The object arm accepts exactly the objects whose present sub-fields have
      the right type (positive integers, a string), keeps each given value and
      fills in the default for each missing one. */
  lemma ObjectArm(m: map<string, Raw>)
    ensures RateLimitOptionsSchema(Obj(m)).Success? <==>
              (Field(m, "windowMs").Undefined? || (Field(m, "windowMs").Int? && Field(m, "windowMs").i > 0))
              && (Field(m, "max").Undefined? || (Field(m, "max").Int? && Field(m, "max").i > 0))
              && (Field(m, "message").Undefined? || Field(m, "message").Str?)
    ensures RateLimitOptionsSchema(Obj(m)).Success? ==>
              var o := RateLimitOptionsSchema(Obj(m)).value.options;
              && (Field(m, "windowMs").Int? ==> o.windowMs == Field(m, "windowMs").i)
              && (Field(m, "max").Int? ==> o.max == Field(m, "max").i)
              && (Field(m, "message").Str? ==> o.message == Field(m, "message").s)
    ensures RateLimitOptionsSchema(Obj(m)).Success? ==>
              var o := RateLimitOptionsSchema(Obj(m)).value.options;
              && (Field(m, "windowMs").Undefined? ==> o.windowMs == DEFAULT_RATE_LIMIT_WINDOW_MS)
              && (Field(m, "max").Undefined? ==> o.max == DEFAULT_RATE_LIMIT_MAX)
              && (Field(m, "message").Undefined? ==> o.message == DEFAULT_RATE_LIMIT_MESSAGE)
  {
  }

  /** Zero, negatives and fractions are refused for windowMs and max; a
      non-string message is refused. */
  lemma BadSubFieldsRejected(n: int, t: nat)
    requires n <= 0
    ensures RateLimitOptionsSchema(Obj(map["windowMs" := Int(n)])).Failure?
    ensures RateLimitOptionsSchema(Obj(map["max" := Int(n)])).Failure?
    ensures RateLimitOptionsSchema(Obj(map["windowMs" := NonInt(t)])).Failure?
    ensures RateLimitOptionsSchema(Obj(map["max" := NonInt(t)])).Failure?
    ensures RateLimitOptionsSchema(Obj(map["message" := Int(n)])).Failure?
  {
  }

  /** A fully specified valid object comes back unchanged. */
  lemma FullObjectUnchanged(o: RateLimitOptions)
    requires o.windowMs > 0 && o.max > 0
    ensures RateLimitOptionsSchema(OptionsToRaw(o)) == Success(RateLimitWith(o))
  {
    var m := OptionsToRaw(o).fields;
    assert Field(m, "windowMs") == Int(o.windowMs);
    assert Field(m, "max") == Int(o.max);
    assert Field(m, "message") == Str(o.message);
  }

  /** Keys other than windowMs, max and message are dropped. */
  lemma UnknownKeysIgnored(m: map<string, Raw>, k: string, v: Raw)
    requires k != "windowMs" && k != "max" && k != "message"
    ensures RateLimitOptionsSchema(Obj(m[k := v])) == RateLimitOptionsSchema(Obj(m))
  {
    assert Field(m[k := v], "windowMs") == Field(m, "windowMs");
    assert Field(m[k := v], "max") == Field(m, "max");
    assert Field(m[k := v], "message") == Field(m, "message");
  }

  /** Every output re-validates to itself. */
  lemma {:induction false} RateLimitIdempotent(raw: Raw)
    requires RateLimitOptionsSchema(raw).Success?
    ensures RateLimitOptionsSchema(SettingToRaw(RateLimitOptionsSchema(raw).value)) == RateLimitOptionsSchema(raw)
  {
    var v := RateLimitOptionsSchema(raw).value;
    if v.RateLimitWith? {
      var m := OptionsToRaw(v.options).fields;
      assert Field(m, "windowMs") == Int(v.options.windowMs);
      assert Field(m, "max") == Int(v.options.max);
      assert Field(m, "message") == Str(v.options.message);
    }
  }

  /** The resolved setting as a JavaScript value. */
  function SettingToRaw(v: RateLimitSetting): Raw {
    match v
    case RateLimitFlag(b) => Bool(b)
    case RateLimitWith(o) => OptionsToRaw(o)
  }

  /** Any value that is neither undefined, a boolean nor an object is refused. */
  lemma OtherValuesRejected(raw: Raw)
    requires !raw.Undefined? && !raw.Bool? && !raw.Obj?
    ensures RateLimitOptionsSchema(raw).Failure?
  {
  }
}
