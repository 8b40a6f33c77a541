/** The small union schemas: helmet, compression, cookie-parser, hpp and
    passport, each with its default. */
module Toggles {
  import opened Values

  /** A boolean-or-options field (helmet, cors): a boolean, or an options
      value passed through uninterpreted. */
  datatype Toggle = Flag(on: bool) | Options(value: Raw)

  /** `z.union([z.boolean(), z.custom<...>()])` with default `d`: the custom arm
      has no check, so every defined value is accepted. */
  function BooleanOrCustom(raw: Raw, d: Toggle): Toggle {
    match raw
    case Undefined => d
    case Bool(b) => Flag(b)
    case _ => Options(raw)
  }

  /** `HelmetOptionsSchema`, default `false`. */
  function HelmetOptionsSchema(raw: Raw): (r: Parsed<Toggle>)
    ensures r.Success?
    ensures raw.Undefined? ==> r.value == Flag(false)
    ensures raw.Bool? ==> r.value == Flag(raw.b)
    ensures !raw.Undefined? && !raw.Bool? ==> r.value == Options(raw)
  {
    Success(BooleanOrCustom(raw, Flag(false)))
  }

  /** `CompressionOptionsSchema`: a boolean, default `true`. */
  function CompressionOptionsSchema(raw: Raw): (r: Parsed<bool>)
    ensures r.Failure? ==> r.error != []
  {
    match raw
    case Undefined => Success(true)
    case Bool(b) => Success(b)
    case _ => Failure(Rejection())
  }

  /** A cookie-parser secret: one string or a list of strings. */
  datatype Secret = OneSecret(secret: string) | SecretList(secrets: seq<string>)

  /** The resolved `cookieParser` field. */
  datatype CookieParserSetting =
    | CookieParserFlag(enabled: bool)
    | CookieParserWith(secret: Secret, parseOptions: Option<Raw>)

  /** `z.union([z.string(), z.array(z.string())])`. */
  function SecretSchema(raw: Raw): Option<Secret> {
    match raw
    case Str(s) => Some(OneSecret(s))
    case Arr(items) =>
      (match StringsOf(items)
       case Some(ss) => Some(SecretList(ss))
       case None => None)
    case _ => None
  }

  /** `CookieParserOptionsSchema`: a boolean or `{secret, options?}`, default
      `true`; `options` is forwarded uninspected. */
  function CookieParserOptionsSchema(raw: Raw): (r: Parsed<CookieParserSetting>)
    ensures r.Failure? ==> r.error != []
  {
    match raw
    case Undefined => Success(CookieParserFlag(true))
    case Bool(b) => Success(CookieParserFlag(b))
    case Obj(m) =>
      (match SecretSchema(Field(m, "secret"))
       case Some(secret) =>
         Success(CookieParserWith(secret, if Field(m, "options").Undefined? then None else Some(Field(m, "options"))))
       case None => Failure(Rejection()))
    case _ => Failure(Rejection())
  }

  /** The resolved `hpp` field: a boolean, or the whitelist of parameters allowed to repeat. */
  datatype HppSetting = HppFlag(enabled: bool) | HppWhitelist(whitelist: seq<string>)

  /** `HppOptionsSchema`: a boolean or an array of strings, default `true`. */
  function HppOptionsSchema(raw: Raw): (r: Parsed<HppSetting>)
    ensures r.Failure? ==> r.error != []
  {
    match raw
    case Undefined => Success(HppFlag(true))
    case Bool(b) => Success(HppFlag(b))
    case Arr(items) =>
      (match StringsOf(items)
       case Some(ss) => Success(HppWhitelist(ss))
       case None => Failure(Rejection()))
    case _ => Failure(Rejection())
  }

  /** `PassportSchema`: `z.union([z.literal(false), z.custom<...>()])`, default
      `false`. The custom arm has no check; the resolved value is the passport
      handle (or `false`). */
  function PassportSchema(raw: Raw): (r: Parsed<Raw>)
    ensures r.Success?
    ensures raw.Undefined? ==> r.value == Bool(false)
    ensures !raw.Undefined? ==> r.value == raw
  {
    if raw.Undefined? then Success(Bool(false)) else Success(raw)
  }

  function ToggleToRaw(t: Toggle): Raw {
    match t
    case Flag(b) => Bool(b)
    case Options(v) => v
  }

  function CookieParserToRaw(c: CookieParserSetting): Raw {
    match c
    case CookieParserFlag(b) => Bool(b)
    case CookieParserWith(secret, opts) =>
      var s := match secret case OneSecret(x) => Str(x) case SecretList(xs) => StrArray(xs);
      if opts.Some? then Obj(map["secret" := s, "options" := opts.value]) else Obj(map["secret" := s])
  }

  function HppToRaw(h: HppSetting): Raw {
    match h
    case HppFlag(b) => Bool(b)
    case HppWhitelist(ws) => StrArray(ws)
  }

  // Helmet.

  /** No defined helmet value is refused; an options value is kept as is. */
  lemma HelmetNeverRejects(raw: Raw)
    ensures HelmetOptionsSchema(raw).Success?
    ensures HelmetOptionsSchema(Undefined) == Success(Flag(false))
    ensures !raw.Undefined? ==> ToggleToRaw(HelmetOptionsSchema(raw).value) == raw
  {
  }

  /** A resolved helmet setting re-validates to itself. */
  lemma HelmetIdempotent(raw: Raw)
    ensures HelmetOptionsSchema(ToggleToRaw(HelmetOptionsSchema(raw).value)) == HelmetOptionsSchema(raw)
  {
  }

  // Compression.

  lemma CompressionCases(raw: Raw)
    ensures CompressionOptionsSchema(Undefined) == Success(true)
    ensures CompressionOptionsSchema(Bool(true)) == Success(true)
    ensures CompressionOptionsSchema(Bool(false)) == Success(false)
    ensures CompressionOptionsSchema(raw).Success? <==> raw.Undefined? || raw.Bool?
  {
  }

  /** The output re-validates to itself. */
  lemma CompressionIdempotent(raw: Raw)
    requires CompressionOptionsSchema(raw).Success?
    ensures CompressionOptionsSchema(Bool(CompressionOptionsSchema(raw).value)) == CompressionOptionsSchema(raw)
  {
  }

  // Cookie parser.

  lemma CookieParserBooleans(b: bool)
    ensures CookieParserOptionsSchema(Undefined) == Success(CookieParserFlag(true))
    ensures CookieParserOptionsSchema(Bool(b)) == Success(CookieParserFlag(b))
  {
  }

  /** Any value that is neither undefined, a boolean nor an object is refused:
      a bare secret string, a number, null or an array. */
  lemma CookieParserOthersRefused(raw: Raw)
    requires !raw.Undefined? && !raw.Bool? && !raw.Obj?
    ensures CookieParserOptionsSchema(raw).Failure?
  {
  }

  /** The object arm is accepted iff `secret` is a string or an array of
      strings; empty strings and empty arrays are allowed; `options`,
      when present, is forwarded unchanged. */
  lemma CookieParserObject(m: map<string, Raw>)
    ensures CookieParserOptionsSchema(Obj(m)).Success? <==>
              Field(m, "secret").Str?
              || (Field(m, "secret").Arr? && forall i :: 0 <= i < |Field(m, "secret").items| ==> Field(m, "secret").items[i].Str?)
    ensures CookieParserOptionsSchema(Obj(m)).Success? ==>
              var c := CookieParserOptionsSchema(Obj(m)).value;
              && (Field(m, "secret").Str? ==> c.secret == OneSecret(Field(m, "secret").s))
              && (c.parseOptions.Some? <==> !Field(m, "options").Undefined?)
              && (c.parseOptions.Some? ==> c.parseOptions.value == Field(m, "options"))
  {
  }

  lemma CookieParserEmptySecrets()
    ensures CookieParserOptionsSchema(Obj(map["secret" := Str("")])) == Success(CookieParserWith(OneSecret(""), None))
    ensures CookieParserOptionsSchema(Obj(map["secret" := Arr([])])) == Success(CookieParserWith(SecretList([]), None))
    ensures CookieParserOptionsSchema(Obj(map[])).Failure?
    ensures CookieParserOptionsSchema(Obj(map["secret" := Arr([Str("a"), Int(1)])])).Failure?
  {
    assert StringsOf([Str("a"), Int(1)]) == None by {
      assert !([Str("a"), Int(1)][1].Str?);
    }
  }

  /** A list secret keeps its strings in order. */
  lemma {:induction false} CookieParserSecretList(ss: seq<string>, opts: Raw)
    requires !opts.Undefined?
    ensures CookieParserOptionsSchema(Obj(map["secret" := StrArray(ss), "options" := opts]))
            == Success(CookieParserWith(SecretList(ss), Some(opts)))
  {
    var m := map["secret" := StrArray(ss), "options" := opts];
    assert Field(m, "secret") == StrArray(ss);
    assert Field(m, "options") == opts;
    StringsOfStrArray(ss);
  }

  /** Every resolved cookie-parser setting re-validates to itself. */
  lemma {:induction false} CookieParserIdempotent(raw: Raw)
    requires CookieParserOptionsSchema(raw).Success?
    ensures CookieParserOptionsSchema(CookieParserToRaw(CookieParserOptionsSchema(raw).value)) == CookieParserOptionsSchema(raw)
  {
    var v := CookieParserOptionsSchema(raw).value;
    if v.CookieParserWith? {
      var m := CookieParserToRaw(v).fields;
      match v.secret
      case OneSecret(x) =>
        assert Field(m, "secret") == Str(x);
      case SecretList(xs) =>
        assert Field(m, "secret") == StrArray(xs);
        StringsOfStrArray(xs);
      if v.parseOptions.Some? {
        assert Field(m, "options") == v.parseOptions.value;
      } else {
        assert Field(m, "options") == Undefined;
      }
    }
  }

  // Hpp.

  lemma HppBooleans(b: bool)
    ensures HppOptionsSchema(Undefined) == Success(HppFlag(true))
    ensures HppOptionsSchema(Bool(b)) == Success(HppFlag(b))
    ensures HppOptionsSchema(Arr([])) == Success(HppWhitelist([]))
  {
  }

  /** A string array is kept in order, duplicates included. */
  lemma {:induction false} HppWhitelistKept(ss: seq<string>)
    ensures HppOptionsSchema(StrArray(ss)) == Success(HppWhitelist(ss))
  {
    StringsOfStrArray(ss);
  }

  /** An array holding a non-string, and every value that is neither a
      boolean nor an array, is refused. */
  lemma HppRejections(raw: Raw)
    ensures raw.Arr? && (exists i :: 0 <= i < |raw.items| && !raw.items[i].Str?) ==> HppOptionsSchema(raw).Failure?
    ensures !raw.Undefined? && !raw.Bool? && !raw.Arr? ==> HppOptionsSchema(raw).Failure?
  {
  }

  /** Every resolved hpp setting re-validates to itself. */
  lemma {:induction false} HppIdempotent(raw: Raw)
    requires HppOptionsSchema(raw).Success?
    ensures HppOptionsSchema(HppToRaw(HppOptionsSchema(raw).value)) == HppOptionsSchema(raw)
  {
    var v := HppOptionsSchema(raw).value;
    if v.HppWhitelist? {
      HppWhitelistKept(v.whitelist);
    }
  }

  // Passport.

  /** Nothing is refused: absent becomes `false`, everything else (including
      `true`, which the wiring later ignores) is kept. */
  lemma PassportCases(raw: Raw)
    ensures PassportSchema(Undefined) == Success(Bool(false))
    ensures PassportSchema(Bool(false)) == Success(Bool(false))
    ensures PassportSchema(Bool(true)) == Success(Bool(true))
    ensures PassportSchema(raw).Success?
  {
  }

  lemma PassportIdempotent(raw: Raw)
    ensures PassportSchema(PassportSchema(raw).value) == PassportSchema(raw)
  {
  }
}
