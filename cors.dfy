/** CORS: the default origin, methods, headers, credentials and status, and
    `CorsOptionsSchema` (a boolean or uninterpreted options; the default
    options object when absent). */
module Cors {
  import opened Values
  import opened Toggles
  import Ports

  const DEFAULT_CORS_ORIGINS: seq<string> := ["http://localhost:" + NatToDecimal(Ports.DEFAULT_PORT)]
  const DEFAULT_CORS_METHODS: seq<string> := ["GET", "POST", "PUT", "DELETE", "OPTIONS"]
  const DEFAULT_CORS_ALLOWED_HEADERS: seq<string> := ["Content-Type", "Authorization", "Origin", "X-Requested-With"]
  const DEFAULT_CORS_CREDENTIALS: bool := true
  const DEFAULT_CORS_OPTIONS_SUCCESS_STATUS: int := 204
  const DEFAULT_CORS_ENABLED: bool := true

  /** `DEFAULT_CORS_OPTIONS` as a JavaScript object; `methods` is a copy of
      DEFAULT_CORS_METHODS (equal in content). */
  const DEFAULT_CORS_OPTIONS: Raw := Obj(map[
    "enabled" := Bool(DEFAULT_CORS_ENABLED),
    "origin" := StrArray(DEFAULT_CORS_ORIGINS),
    "methods" := StrArray(DEFAULT_CORS_METHODS),
    "allowedHeaders" := StrArray(DEFAULT_CORS_ALLOWED_HEADERS),
    "credentials" := Bool(DEFAULT_CORS_CREDENTIALS),
    "optionsSuccessStatus" := Int(DEFAULT_CORS_OPTIONS_SUCCESS_STATUS)
  ])

  /** `CorsOptionsSchema`, default DEFAULT_CORS_OPTIONS. */
  function CorsOptionsSchema(raw: Raw): (r: Parsed<Toggle>)
    ensures r.Success?
    ensures raw.Undefined? ==> r.value == Options(DEFAULT_CORS_OPTIONS)
    ensures raw.Bool? ==> r.value == Flag(raw.b)
    ensures !raw.Undefined? && !raw.Bool? ==> r.value == Options(raw)
  {
    Success(BooleanOrCustom(raw, Options(DEFAULT_CORS_OPTIONS)))
  }

  /** The single default origin is http://localhost: followed by the default port. */
  lemma DefaultOrigin()
    ensures DEFAULT_CORS_ORIGINS == ["http://localhost:4000"]
  {
    assert NatToDecimal(4) == "4";
    assert NatToDecimal(40) == NatToDecimal(4) + "0" == "40";
    assert NatToDecimal(400) == NatToDecimal(40) + "0" == "400";
    assert NatToDecimal(4000) == NatToDecimal(400) + "0" == "4000";
    assert "http://localhost:" + "4000" == "http://localhost:4000";
  }

  /** The default options object has exactly six keys and the documented values. */
  lemma DefaultOptionsShape()
    ensures DEFAULT_CORS_OPTIONS.Obj?
    ensures DEFAULT_CORS_OPTIONS.fields.Keys == {"enabled", "origin", "methods", "allowedHeaders", "credentials", "optionsSuccessStatus"}
    ensures DEFAULT_CORS_OPTIONS.fields["enabled"] == Bool(true)
    ensures DEFAULT_CORS_OPTIONS.fields["credentials"] == Bool(true)
    ensures DEFAULT_CORS_OPTIONS.fields["optionsSuccessStatus"] == Int(204)
    ensures DEFAULT_CORS_OPTIONS.fields["methods"] == StrArray(["GET", "POST", "PUT", "DELETE", "OPTIONS"])
    ensures DEFAULT_CORS_OPTIONS.fields["allowedHeaders"] == StrArray(["Content-Type", "Authorization", "Origin", "X-Requested-With"])
    ensures DEFAULT_CORS_OPTIONS.fields["origin"] == StrArray(["http://localhost:4000"])
  {
    DefaultOrigin();
  }

  /** No defined cors value is refused; an absent one is the default object, not `true`. */
  lemma CorsCases(raw: Raw)
    ensures CorsOptionsSchema(raw).Success?
    ensures CorsOptionsSchema(Undefined) == Success(Options(DEFAULT_CORS_OPTIONS))
    ensures CorsOptionsSchema(Undefined) != Success(Flag(true))
    ensures !raw.Undefined? ==> ToggleToRaw(CorsOptionsSchema(raw).value) == raw
  {
  }

  /** The default object itself passes the custom arm unchanged. */
  lemma DefaultOptionsPass()
    ensures CorsOptionsSchema(DEFAULT_CORS_OPTIONS) == Success(Options(DEFAULT_CORS_OPTIONS))
  {
  }

  /** A resolved cors setting re-validates to itself. */
  lemma CorsIdempotent(raw: Raw)
    ensures CorsOptionsSchema(ToggleToRaw(CorsOptionsSchema(raw).value)) == CorsOptionsSchema(raw)
  {
  }
}
