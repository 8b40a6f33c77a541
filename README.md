# wnodex configuration core, modelled in Dafny

wnodex (and its earlier tree, nodex) wraps an Express server. A user hands the
server one configuration object. Nine Zod field schemas normalise it: port,
helmet, cors, compression, rateLimit, cookieParser, hpp, session and passport.
Each schema fills in a default when its field is absent, or refuses the value.
`setupConfig` turns a refusal into a `ConfigError`. `setupMiddlewares` then
appends Express middlewares in a fixed order, one step per field. The error
records (`BaseError` with strict metadata, `ConfigError`, `ValidationError`,
`HttpError`), the `NODE_ENV` resolution (`getNodeEnv`, `isDevelopment`) and the
central `errorHandler` complete the core.

The model is split into these modules:

- `Values`: untyped JavaScript values (`Raw`), Zod's outcome (`Parsed<T>`) with
  abstract issues, and the string and digit helpers the schemas share.
- `Ports`, `RateLimits`, `Sessions`, `Toggles` (helmet, compression,
  cookie-parser, hpp, passport) and `Cors`: the field schemas and their
  constants, as functions.
- `Config`: the composite object schema and `setupConfig`.
- `Errors`: metadata validation, the base error, `toJSON`, the two fixed-code
  subclasses and `HttpError`, as functions that return records.
- `Env`: the NODE_ENV enum, `getNodeEnv` and `isDevelopment`.
- `Wiring`: the Express application as a class `App`, whose middleware stack
  (`seq`) and settings (`map`) its methods update. It also holds one method per
  `configure*` step, `setupMiddlewares`, and the server construction.
- `ErrorHandler`: the status, message and optional stack the handler answers
  with, or the failures that make the handler itself throw.

Each `configure*` method and `setupMiddlewares` is proved against a function
that gives the layers appended. Ordering, length and the default stack are then
proved about those functions. Every field schema is given a partner lemma: it
re-validates its own output (or, for the port, fails to, and that is shown).

Some things the runtime provides are parameters of the model:

- `codes: map<string, string>` is the `ERROR_CODES` table. Its contents are not
  part of this model; calls require only the keys `CONFIG_ERROR` and
  `VALIDATION_ERROR` that the source reads.
- `envs: seq<string>` is the list of `NODE_ENV_VALUES`, in declaration order.
- `env: Option<string>` is `process.env.NODE_ENV` at the call (`None` when
  unset).
- `moduleEnv: Option<string>` is the value `NODE_ENV` had when the session
  constants module was evaluated. That module fixes the cookie's `secure`
  default once, from this value.
- `trace: Option<string>` is the stack trace the runtime would attach.
- `logger: Raw` is the pino logger handle.

The nodex and wnodex trees hold textually identical copies of the composite
schema, `setupConfig`, `configureHelmet`, `configureSession` and
`configurePassport`; they differ only in import paths and type names. One
member models both copies. Its row cites the copy whose lines it follows.

Where the code and its prose documentation disagree, the model follows the code:

- A string port is only pattern-checked (`^\d{4,5}$`), never range-checked, so
  `"99999"`, `"1000"` and `"0000"` are accepted. The integer 99999 is refused,
  so normalising is not idempotent for such ports. `Ports.PortNotIdempotent`
  and `Config.ConfigNotIdempotent` show this.
- `setupConfig` is documented as throwing a `ValidationError`, but it throws a
  `ConfigError` (code `CONFIG_ERROR`).
- `session: { }` without a `secret` fails as a whole union, so the issue is
  reported at `session` itself, not at `session.secret`.

## Model

| member | source | states |
|---|---|---|
| `Ports.RefineReserved` | packages/wnodex/src/schemas/port.ts:16-18 | the refinement passes exactly the ports whose `RESERVED_PORTS` entry is falsy, returns the port unchanged, and otherwise reports one issue with the reserved-port message |
| `Ports.PortSchema` | packages/wnodex/src/schemas/port.ts:10-20 | every accepted port is a non-negative number that is not reserved; every refusal carries at least one issue |
| `Ports.ReservedLabelsNonEmpty` | nodex/consts/port.ts:1-19 | every reserved port has a non-empty label |
| `Ports.ReservedIsKeyMembership` | packages/wnodex/src/schemas/port.ts:16 | the truthiness test `!RESERVED_PORTS[port]` is exactly key non-membership |
| `Ports.ReservedKeys` | nodex/consts/port.ts:1-19 | the reserved table's keys are exactly the fourteen ports 3306, 5432, 6379, 27017, 27018, 9200, 5601, 5173, 8888, 6006, 5000, 8265, 8787, 11434 |
| `Ports.ReservedPortsInRange` | nodex/consts/port.ts:1-22 | every reserved port lies in [MIN_PORT, MAX_PORT] |
| `Ports.DefaultPortPasses` | nodex/consts/port.ts:20-22 | 4000 is in range and not reserved, passes the integer arm, and is what an absent port resolves to |
| `Ports.AllowedPortsAcceptable` | nodex/consts/port.ts:23 | 4000, 8000 and 8080 are in range, not reserved, and accepted unchanged |
| `Ports.NumericPort` | packages/wnodex/src/schemas/port.ts:13-16 | an integer port is accepted iff it is in [1024, 65535] and not a reserved key, and it comes back unchanged |
| `Ports.StringPort` | packages/wnodex/src/schemas/port.ts:12-16 | a string port is accepted iff it is 4-5 ASCII digits whose value is not a reserved key; the output is that value |
| `Ports.DecimalStringPort` | packages/wnodex/src/schemas/port.ts:12-15 | the decimal string of any non-reserved number from 1000 to 99999 is accepted as that number |
| `Ports.ReservedPortRejected` | packages/wnodex/src/schemas/port.ts:16-17 | every reserved integer port is refused with the single reserved-port issue |
| `Ports.ReservedStringPortRejected` | packages/wnodex/src/schemas/port.ts:15-17 | "3306" and "05432" are refused with the reserved-port issue |
| `Ports.StringPort8080` | packages/wnodex/src/schemas/port.ts:15 | "8080" is read as the number 8080 |
| `Ports.StringPort99999` | packages/wnodex/src/schemas/port.ts:12 | "99999" is accepted as 99999, with no range check on strings |
| `Ports.StringPortsBelowRange` | packages/wnodex/src/schemas/port.ts:12 | "1000" and "0000" are accepted as 1000 and 0 |
| `Ports.PortNotIdempotent` | packages/wnodex/src/schemas/port.ts:12-16 | "99999" resolves to 99999, which the schema then refuses as a number |
| `Ports.PortIdempotentInRange` | packages/wnodex/src/schemas/port.ts:13-16 | an accepted port that lies in range re-validates to itself |
| `Ports.PortRejections` | packages/wnodex/src/schemas/port.ts:11-14 | every value that is neither absent, a string nor an integer is refused, as are "80", "123456", "80a0", 80 and 65536 |
| `RateLimits.RateLimitOptionsSchema` | packages/wnodex/src/schemas/rate-limit.ts:10-30 | a resolved options object has a positive window and maximum; a refusal carries at least one issue |
| `RateLimits.DefaultConstants` | nodex/consts/rate-limit.ts:1-4 | the default window is 900000 ms, the default max 100, and the message is the exact default text |
| `RateLimits.DefaultOptionsPassObjectArm` | nodex/consts/rate-limit.ts:5-9 | the default object satisfies the object arm and resolves to itself |
| `RateLimits.AbsentIsDefaultObject` | packages/wnodex/src/schemas/rate-limit.ts:29-30 | an absent rateLimit resolves to the object {900000, 100, default message}, not to a boolean |
| `RateLimits.BooleanPassesThrough` | packages/wnodex/src/schemas/rate-limit.ts:12 | a boolean comes back as the same flag |
| `RateLimits.PartialObjectDefaults` | packages/wnodex/src/schemas/rate-limit.ts:13-26 | {max: 50} resolves to {900000, 50, default message} |
| `RateLimits.ObjectArm` | packages/wnodex/src/schemas/rate-limit.ts:13-27 | an object is accepted iff each present sub-field has its type (positive integer, positive integer, string); each given sub-field is kept and each missing one takes its default (900000, 100, the default message) |
| `RateLimits.BadSubFieldsRejected` | packages/wnodex/src/schemas/rate-limit.ts:14-26 | zero, negative and non-integer windowMs or max are refused, and so is a non-string message |
| `RateLimits.FullObjectUnchanged` | packages/wnodex/src/schemas/rate-limit.ts:13-27 | a fully specified valid object comes back unchanged |
| `RateLimits.UnknownKeysIgnored` | packages/wnodex/src/schemas/rate-limit.ts:13 | keys other than windowMs, max and message do not affect the result |
| `RateLimits.RateLimitIdempotent` | packages/wnodex/src/schemas/rate-limit.ts:10-30 | every resolved setting re-validates to itself |
| `RateLimits.OtherValuesRejected` | packages/wnodex/src/schemas/rate-limit.ts:11-28 | every value that is neither absent, a boolean nor an object is refused |
| `Sessions.SessionCookieSchema` | nodex/schemas/session.ts:11-22 | a refused cookie carries at least one issue |
| `Sessions.SessionOptionsSchema` | nodex/schemas/session.ts:24-38 | a refused session carries at least one issue |
| `Sessions.DefaultConstants` | packages/wnodex/src/consts/session.ts:1-6 | maxAge is 86400000, httpOnly true, resave and saveUninitialized false; the default `secure` is true for a load-time NODE_ENV of "production" and false when it was unset or "development"; the default cookie is built from them |
| `Sessions.SessionBooleans` | nodex/schemas/session.ts:25-38 | an absent session and literal false resolve to disabled; `true` is refused |
| `Sessions.SecretRequired` | nodex/schemas/session.ts:28 | an object without a string secret is refused |
| `Sessions.SessionObjectArm` | nodex/schemas/session.ts:27-35 | a session object is accepted iff the secret is a string, resave and saveUninitialized are booleans or missing, and the cookie schema accepts the cookie; the result keeps the secret and the resolved cookie |
| `Sessions.SessionFlags` | nodex/schemas/session.ts:29-33 | in an accepted session, each of resave and saveUninitialized is kept when given and defaults to false when missing, independently of the other |
| `Sessions.BadSessionFieldsRejected` | nodex/schemas/session.ts:29-34 | a present non-boolean resave or saveUninitialized, or a cookie the cookie schema refuses, makes the session refused |
| `Sessions.AbsentCookieDefaults` | nodex/schemas/session.ts:17-22 | an absent cookie resolves to {default secure, 86400000, true} |
| `Sessions.PartialCookie` | nodex/schemas/session.ts:12-16 | {maxAge: 60000} keeps 60000 and takes the other defaults; a non-integer maxAge is kept; a string maxAge is refused |
| `Sessions.PlaygroundSession` | nodex/schemas/session.ts:24-38 | the playground's session options resolve to the expected record, with a one-minute cookie and the rest defaulted |
| `Sessions.CookieObject` | nodex/schemas/session.ts:12-16 | a cookie object is accepted iff each present sub-field has its type; every given sub-field is kept, and a missing secure, maxAge or httpOnly takes the load-time secure default, 86400000 or true |
| `Sessions.CookieRoundTrip` | nodex/schemas/session.ts:11-22 | a resolved cookie, written back as an object, parses to itself |
| `Sessions.OptionsRoundTrip` | nodex/schemas/session.ts:27-35 | resolved options, written back as an object, parse to themselves |
| `Sessions.SessionIdempotent` | nodex/schemas/session.ts:24-38 | every resolved session re-validates to itself |
| `Toggles.HelmetOptionsSchema` | nodex/schemas/helmet.ts:5-8 | never refuses; absent gives false, a boolean stays that flag, and any other value is kept as options |
| `Toggles.CompressionOptionsSchema` | nodex/schemas/compression.ts:3 | a refusal carries at least one issue |
| `Toggles.CookieParserOptionsSchema` | packages/wnodex/src/schemas/cookie-parser.ts:5-14 | a refusal carries at least one issue |
| `Toggles.HppOptionsSchema` | packages/wnodex/src/schemas/hpp.ts:3-6 | a refusal carries at least one issue |
| `Toggles.PassportSchema` | nodex/schemas/passport.ts:5-8 | never refuses; absent gives false, anything else (including true) is returned unchanged |
| `Toggles.HelmetNeverRejects` | nodex/schemas/helmet.ts:6 | no helmet value is refused, absent is false, and a defined value passes through as is |
| `Toggles.HelmetIdempotent` | nodex/schemas/helmet.ts:5-8 | a resolved helmet setting re-validates to itself |
| `Toggles.CompressionCases` | nodex/schemas/compression.ts:3 | absent gives true, true and false stay, and a value is accepted iff it is absent or a boolean |
| `Toggles.CompressionIdempotent` | nodex/schemas/compression.ts:3 | the output re-validates to itself |
| `Toggles.CookieParserBooleans` | packages/wnodex/src/schemas/cookie-parser.ts:7-14 | absent gives true; a boolean stays that flag |
| `Toggles.CookieParserOthersRefused` | packages/wnodex/src/schemas/cookie-parser.ts:5-12 | a value that is neither absent, a boolean nor an object (a bare secret string, a number, null, an array) is refused |
| `Toggles.CookieParserObject` | packages/wnodex/src/schemas/cookie-parser.ts:8-11 | the object arm is accepted iff the secret is a string or an array of strings; a string secret is kept; `options` is forwarded iff present, unchanged |
| `Toggles.CookieParserEmptySecrets` | packages/wnodex/src/schemas/cookie-parser.ts:9 | an empty string or empty array secret is accepted; a missing secret or a non-string element is refused |
| `Toggles.CookieParserSecretList` | packages/wnodex/src/schemas/cookie-parser.ts:9-10 | a list secret keeps its strings in order, beside the forwarded options |
| `Toggles.CookieParserIdempotent` | packages/wnodex/src/schemas/cookie-parser.ts:5-14 | every resolved cookie-parser setting re-validates to itself |
| `Toggles.HppBooleans` | packages/wnodex/src/schemas/hpp.ts:4-6 | absent gives true, a boolean stays that flag, and the empty array is an empty whitelist |
| `Toggles.HppWhitelistKept` | packages/wnodex/src/schemas/hpp.ts:4 | a string array becomes a whitelist with the same strings in the same order, duplicates kept |
| `Toggles.HppRejections` | packages/wnodex/src/schemas/hpp.ts:4 | an array with a non-string element is refused, as is every value that is neither a boolean nor an array |
| `Toggles.HppIdempotent` | packages/wnodex/src/schemas/hpp.ts:3-6 | every resolved hpp setting re-validates to itself |
| `Toggles.PassportCases` | nodex/schemas/passport.ts:6-8 | absent and false give false, true stays true, and nothing is refused |
| `Toggles.PassportIdempotent` | nodex/schemas/passport.ts:5-8 | a resolved passport value re-validates to itself |
| `Cors.CorsOptionsSchema` | nodex/schemas/cors.ts:7-10 | never refuses; absent gives the default options object, a boolean stays that flag, any other value is kept as options |
| `Cors.DefaultOrigin` | nodex/consts/cors.ts:3 | the single default origin is "http://localhost:4000", built from DEFAULT_PORT |
| `Cors.DefaultOptionsShape` | nodex/consts/cors.ts:4-27 | the default object has exactly the six keys, with enabled true, credentials true, status 204, and the methods, headers and origin lists in order |
| `Cors.CorsCases` | nodex/schemas/cors.ts:8-10 | no value is refused; absent is the default object and not `true`; a defined value passes through |
| `Cors.DefaultOptionsPass` | nodex/schemas/cors.ts:7-10 | the default object itself passes the custom arm unchanged |
| `Cors.CorsIdempotent` | nodex/schemas/cors.ts:7-10 | a resolved cors setting re-validates to itself |
| `Config.ConfigObject` | nodex/schemas/nodex-config.ts:13-23 | a refused object carries at least one issue |
| `Config.ConfigSchema` | nodex/schemas/nodex-config.ts:13-23 | a non-object is refused with a single issue; every refusal carries an issue |
| `Config.SetupConfig` | nodex/helpers/setup-config.ts:17-25 | returns exactly the composite's output when it accepts; otherwise a ConfigError named "ConfigError", with message "Invalid Nodex Configuration", code CONFIG_ERROR, the ZodError as cause and no context |
| `Config.ConfigFields` | nodex/schemas/nodex-config.ts:13-23 | an object is accepted iff each of the nine field schemas accepts its field, and each output field is that schema's output |
| `Config.ConfigIssuesUnderKeys` | nodex/schemas/nodex-config.ts:14-22 | every issue of a refused configuration lies under one of the nine keys |
| `Config.ReservedPortConfig` | nodex/schemas/nodex-config.ts:14 | {port: 3306} is refused with exactly one issue, under "port", carrying the reserved-port message |
| `Config.EmptyConfigDefaults` | nodex/schemas/nodex-config.ts:13-23 | `{}` resolves to port 4000, helmet false, cors default, compression true, the default rate-limit object, cookieParser true, hpp true, session off, passport false |
| `Config.UnknownKeysStripped` | nodex/schemas/nodex-config.ts:13 | keys other than the nine do not affect the result |
| `Config.OneFieldIndependence` | nodex/schemas/nodex-config.ts:14-22 | two inputs that agree on every key but one resolve to records that agree on every field but that one |
| `Config.ConfigRejected` | nodex/schemas/nodex-config.ts:13-23 | a non-object is refused; an object is refused iff at least one field schema refuses its field |
| `Config.ConfigIdempotent` | nodex/schemas/nodex-config.ts:13-23 | a resolved record whose port is in range re-validates to itself |
| `Config.StringPort99999Config` | nodex/schemas/nodex-config.ts:14 | {port: "99999"} is accepted, with port 99999 and the rest defaulted |
| `Config.OutOfRangeRecordRefused` | nodex/schemas/nodex-config.ts:14 | a record whose port lies outside [1024, 65535] is refused as input |
| `Config.ConfigNotIdempotent` | nodex/schemas/nodex-config.ts:13-23 | {port: "99999"} resolves, and its resolved record is then refused |
| `Config.SetupConfigDefaults` | nodex/helpers/setup-config.ts:17-25 | `setupConfig({})` returns the all-defaults record |
| `Config.SetupConfigNonObject` | packages/wnodex/src/helpers/setup-config.ts:17-25 | a non-object configuration makes `setupConfig` fail with a ConfigError whose cause is a ZodError |
| `Config.SetupConfigReservedPort` | nodex/helpers/setup-config.ts:20-21 | a reserved port makes `setupConfig` fail with code CONFIG_ERROR and the port issue in its cause |
| `Errors.ValidateMetadata` | nodex/schemas/error-metadata.ts:5-11 | accepts iff the code is an ERROR_CODES value, the context is absent or a record, and there are no keys besides code, cause and context; accepted metadata keeps the given code, cause and context |
| `Errors.NewBaseError` | nodex/errors/base-error.ts:43-82 | succeeds iff the metadata is valid, and then has the class name, the message, the validated code, cause and context, and the runtime stack; otherwise fails with the "Invalid metadata provided for error ..." message and the ZodError as cause |
| `Errors.ConfigError` | nodex/errors/config-error.ts:20-30 | named "ConfigError" with code CONFIG_ERROR; message, cause and context are forwarded unchanged |
| `Errors.ValidationError` | packages/wnodex/src/errors/validation-error.ts:19-29 | named "ValidationError" with code VALIDATION_ERROR; message, cause and context are forwarded unchanged |
| `Errors.NormalizeCause` | nodex/errors/base-error.ts:93-100 | a cause is kept as is exactly when it is not an Error instance |
| `Errors.ToJson` | nodex/errors/base-error.ts:92-110 | the six keys carry the error's name, message, code, normalised cause, context and stack |
| `Errors.NewHttpError` | nodex/errors/http-error.ts:16-20 | named "HttpError", keeps the message, uses status 500 when omitted and any given status unchanged |
| `Errors.MetadataRoundTrip` | nodex/schemas/error-metadata.ts:5-11 | well-formed metadata validates to exactly what was given |
| `Errors.MetadataRejections` | nodex/schemas/error-metadata.ts:7-11 | an extra key, a code outside the table and a missing code are refused |
| `Errors.ContextMustBeRecord` | nodex/schemas/error-metadata.ts:9 | a present context that is not a record is refused |
| `Errors.BaseErrorFailureMessage` | nodex/errors/base-error.ts:75-78 | an unknown code fails with the message naming the error and its code, and the code issue in the ZodError cause |
| `Errors.BaseErrorEmptyCodeMessage` | nodex/errors/base-error.ts:76 | an empty code is written as N/A in the failure message |
| `Errors.ConfigErrorMetadataValid` | nodex/errors/config-error.ts:25-29 | the metadata a ConfigError passes up always validates, to its own code, cause and context |
| `Errors.ValidationErrorMetadataValid` | packages/wnodex/src/errors/validation-error.ts:24-28 | the metadata a ValidationError passes up always validates, to its own code, cause and context |
| `Errors.ConfigErrorJson` | nodex/errors/base-error.ts:102-109 | a ConfigError's JSON carries its name, message, CONFIG_ERROR, the summarised ZodError cause, no context and its stack |
| `Errors.ToJsonCause` | nodex/errors/base-error.ts:93-100 | an Error cause becomes its name, message and stack; any other cause is unchanged |
| `Errors.HttpErrorDefaults` | nodex/errors/http-error.ts:16-19 | the status defaults to 500; a given status (404, or even -7) is stored without a range check |
| `Env.NodeEnvSchema` | nodex/schemas/node-env.ts:7 | accepts exactly the strings in NODE_ENV_VALUES, returning them unchanged |
| `Env.NodeEnvEnum` | nodex/schemas/node-env.ts:9 | the enum object's keys are the listed values, each mapped to itself |
| `Env.GetNodeEnv` | nodex/helpers/get-node-env.ts:15-27 | returns the value iff it is set and listed; otherwise a ValidationError "Invalid Node Env" with code VALIDATION_ERROR, context {provided, expected} and the ZodError as cause |
| `Env.IsDevelopment` | packages/wnodex/src/helpers/is-development.ts:11-15 | fails exactly when getNodeEnv fails, with its error |
| `Env.NodeEnvAccepts` | nodex/schemas/node-env.ts:7 | a string is accepted iff listed; an unset value is refused |
| `Env.NodeEnvEnumIdentity` | nodex/schemas/node-env.ts:9 | every listed value maps to itself |
| `Env.UnsetEnvError` | nodex/helpers/get-node-env.ts:20-23 | for an unset value the context is provided undefined and expected the three listed values joined with a vertical bar |
| `Env.UnknownEnvError` | nodex/helpers/get-node-env.ts:19-21 | an unlisted value fails, and the context records it as provided |
| `Env.IsDevelopmentCases` | packages/wnodex/src/helpers/is-development.ts:12-14 | true iff the value is "development" (and listed), false for every other listed value, and an error when unset |
| `Wiring.App.constructor` | nodex/nodex.ts:35 | a fresh application has no middlewares and none of the settings this code writes (Express's own default settings are not modelled) |
| `Wiring.App.Use` | nodex/helpers/setup-middlewares.ts:33 | `use` appends one middleware and leaves the settings alone |
| `Wiring.App.Set` | nodex/middlewares/passport.ts:25 | `set` updates one setting and leaves the stack alone |
| `Wiring.HelmetLayers` | nodex/middlewares/helmet.ts:21-27 | nothing iff false; one helmet with library defaults for true; one helmet built from the options otherwise |
| `Wiring.CorsLayers` | nodex/middlewares/cors.ts:27-33 | nothing iff false; one cors with library defaults for true; one cors built from the options otherwise |
| `Wiring.CookieParserLayers` | nodex/middlewares/cookie-parser.ts.ts:28-35 | nothing iff false; cookieParser() without a secret for true; cookieParser(secret, options) otherwise |
| `Wiring.CompressionLayers` | nodex/middlewares/compression.ts:27-31 | one compression middleware, taking no options, iff enabled |
| `Wiring.RateLimitLayers` | nodex/middlewares/rate-limit.ts:31-37 | nothing iff false; rateLimit() with library defaults for true; rateLimit built from the options object otherwise |
| `Wiring.HppLayers` | nodex/middlewares/hpp.ts:24-30 | nothing iff false; hpp() without a whitelist for true; hpp with the whitelist in order otherwise |
| `Wiring.SessionLayers` | nodex/middlewares/session.ts:21-23 | nothing iff disabled; one session from the resolved options otherwise |
| `Wiring.PassportLayers` | nodex/middlewares/passport.ts:23-27 | initialize then session for a truthy non-boolean handle, nothing otherwise |
| `Wiring.PassportSettings` | nodex/middlewares/passport.ts:23-25 | the 'passport' setting becomes the handle exactly when passport is enabled |
| `Wiring.ConfigureHelmet` | nodex/middlewares/helmet.ts:18-28 | appends exactly the helmet layers of `config.helmet`, keeps the settings, and returns the app iff helmet is not false |
| `Wiring.ConfigureCors` | nodex/middlewares/cors.ts:24-34 | appends exactly the cors layers of `config.cors`, keeps the settings, and returns the app iff cors is not false |
| `Wiring.ConfigureCookieParser` | nodex/middlewares/cookie-parser.ts.ts:22-36 | appends exactly the cookie-parser layers of `config.cookieParser`, keeps the settings, and returns the app iff it is not false |
| `Wiring.ConfigureCompression` | nodex/middlewares/compression.ts:21-32 | appends compression iff `config.compression`, keeps the settings, and returns the app iff enabled |
| `Wiring.ConfigureRateLimit` | nodex/middlewares/rate-limit.ts:25-38 | appends exactly the rate-limit layers of `config.rateLimit`, keeps the settings, and returns the app iff it is not false |
| `Wiring.ConfigureHpp` | nodex/middlewares/hpp.ts:21-31 | appends exactly the hpp layers of `config.hpp`, keeps the settings, and returns the app iff it is not false |
| `Wiring.ConfigureSession` | nodex/middlewares/session.ts:18-24 | appends exactly the session layer of `config.session`, keeps the settings, and returns the app iff the session is enabled |
| `Wiring.ConfigurePassport` | nodex/middlewares/passport.ts:17-30 | appends initialize then session and sets 'passport' for a truthy non-boolean handle, and returns that handle; otherwise changes nothing and returns undefined |
| `Wiring.SetupMiddlewares` | nodex/helpers/setup-middlewares.ts:22-56 | the stack grows by exactly the fixed-order pipeline of the resolved record; the only setting changed is passport's |
| `Wiring.NewServer` | nodex/nodex.ts:34-46 | an invalid configuration fails with setupConfig's ConfigError before any middleware is attached; otherwise a fresh app holds exactly the pipeline, and of the settings this code writes exactly the logger (plus passport) ones |
| `Wiring.PipelineOrdered` | nodex/helpers/setup-middlewares.ts:26-55 | the stack follows helmet, cors, json, urlencoded, cookie-parser, compression, rate-limit, hpp, session, passport initialize, passport session, error handler, each kind at most once |
| `Wiring.MiddleOrdered` | nodex/helpers/setup-middlewares.ts:26-49 | the stack up to session is in order with ranks below passport's |
| `Wiring.FrontOrdered` | nodex/helpers/setup-middlewares.ts:26-40 | the stack up to compression is in order with ranks below rate-limit's |
| `Wiring.PipelineFixedParts` | nodex/helpers/setup-middlewares.ts:33-55 | json and urlencoded (extended) are always present and the error handler is always last |
| `Wiring.PipelineLength` | nodex/helpers/setup-middlewares.ts:27-55 | the stack has 3 fixed middlewares, plus one per enabled feature other than passport, plus two for passport |
| `Wiring.DefaultPipeline` | nodex/helpers/setup-middlewares.ts:26-55 | for `{}` the stack is cors(defaults object), json, urlencoded, cookieParser(), compression(), rateLimit(default object), hpp(), error handler |
| `Wiring.RateLimitTrueIsNotDefault` | nodex/middlewares/rate-limit.ts:34-36 | `rateLimit: true` gives the library defaults, while an absent rateLimit gives the schema's default object |
| `Wiring.PassportSkipped` | nodex/middlewares/passport.ts:21-23 | undefined, null, false, true and other falsy values add no middleware and no setting |
| `ErrorHandler.StatusOf` | nodex/middlewares/error-handler.ts:34-37 | an HttpError's status code, an object's `statusCode` when it has that key, else 500 |
| `ErrorHandler.MessageOf` | nodex/middlewares/error-handler.ts:40-43 | an HttpError's or application error's message, a plain Error's message, the message a ZodError renders from its issues, an object's `message` when it has that key, else "Internal Server Error" |
| `ErrorHandler.StackOf` | nodex/middlewares/error-handler.ts:51 | reading `err.stack` fails exactly for undefined and null; errors give their own stack |
| `ErrorHandler.HandleError` | nodex/middlewares/error-handler.ts:24-55 | throws getNodeEnv's error when the environment is invalid; outside development answers status and message without a stack; in development adds the stack, or throws for a nullish value |
| `ErrorHandler.DefaultHttpErrorReply` | nodex/middlewares/error-handler.ts:34-46 | an HttpError built without a status is answered with 500, its message, and no stack outside development |
| `ErrorHandler.DevelopmentReply` | nodex/middlewares/error-handler.ts:46-53 | in development the reply carries the explicit status, the message and the stack |
| `ErrorHandler.ConfigErrorReply` | nodex/middlewares/error-handler.ts:34-43 | a ConfigError is answered with 500 and its own message |
| `ErrorHandler.PrimitiveReply` | nodex/middlewares/error-handler.ts:34-43 | a thrown primitive is answered with 500 and "Internal Server Error" |
| `ErrorHandler.InvalidEnvThrows` | nodex/middlewares/error-handler.ts:50 | an unset or unlisted environment makes the handler throw "Invalid Node Env" |
| `ErrorHandler.NullishInDevelopment` | nodex/middlewares/error-handler.ts:51 | in development a thrown undefined or null makes reading its stack throw |
| `Values.StringsOf` | packages/wnodex/src/schemas/hpp.ts:4 | `z.array(z.string())` accepts iff every item is a string, and returns those strings in order |
| `Values.Join` | nodex/helpers/get-node-env.ts:22 | joining no parts gives "", and one part gives that part |
| `Values.DecimalRoundTrip` | packages/wnodex/src/schemas/port.ts:15 | `Number(...)` read back from the decimal rendering of n is n |

## Left out

- The server's `start` and `shutdown`, the pino logger module, and `console.error` in the error handler: socket I/O, promises and logging. `NewServer` models only the constructor's steps.
- Writing the response: the handler's result is the status and body it would send. The model does not capture that `res.status` is called before the `isDevelopment` check can throw.
- Floating-point numbers, NaN and Infinity: numbers are integers or a tagged non-integer.
- `Issue` records only the path and whether a refinement message was attached. Zod's issue codes, texts and rendered messages are abstract (`ZodMessage`, `ZodStack`). The nested issue path inside a failed union (for example inside a cookie object) is collapsed to one issue at the field.
- `{ ...options }` copies: the middleware tag records the options value itself, not a distinct object. For an object this equals the copy's contents. For a non-object helmet or cors option it does not: spreading `null` or an Error gives `{}`, and spreading a string or an array gives an object keyed by index.
- Middleware libraries: helmet, cors, express.json/urlencoded, cookie-parser, compression, express-rate-limit, hpp, express-session and passport are tags carrying their options.
- Calling `passport.initialize()` on a truthy value that is not a passport instance (a TypeError in the source) is not modelled. Every truthy non-boolean value counts as a handle.
- Non-plain values (class instances, functions, library handles) are `Opaque`, with no readable properties. The field schemas refuse `Opaque` and `Err` values wherever they expect an object. Zod's object check is only "of type object, not null, not an array", so in the source a class instance or Error instance passes `z.object` and its properties are read (`rateLimit: new Foo()` resolves to the defaults; an Error's `message` would be read as a rate-limit message). The error handler likewise sees no `statusCode`, `message` or `stack` on an `Opaque` value.
- `Config.ConfigSchema`, `RateLimits.RateLimitOptionsSchema`, `Sessions.SessionOptionsSchema`, `Sessions.SessionCookieSchema` and `Toggles.CookieParserOptionsSchema`: refuse a class or Error instance where the source reads its properties as an object's, as the line above says.
- `Errors.NewBaseError`: requires the metadata `code` to be a string or absent, the only cases the `${input.code || 'N/A'}` text is stated for; other code values are not modelled.
- `Ports.PortSchema`: its own contract states only the shape of accepted and refused results; acceptance is stated by `Ports.NumericPort` and `Ports.StringPort`.
- `RateLimits.RateLimitOptionsSchema`: its own contract states only positivity and non-empty issues; acceptance, kept sub-fields and defaulted sub-fields are stated by `RateLimits.ObjectArm`, `RateLimits.AbsentIsDefaultObject`, `RateLimits.BooleanPassesThrough` and `RateLimits.OtherValuesRejected`.
- `Sessions.SessionCookieSchema`: its own contract states only that a refusal carries an issue; its behaviour is stated by `Sessions.CookieObject`, `Sessions.AbsentCookieDefaults` and `Sessions.CookieRoundTrip`.
- `Sessions.SessionOptionsSchema`: its own contract states only that a refusal carries an issue; its behaviour is stated by `Sessions.SessionBooleans`, `Sessions.SecretRequired`, `Sessions.SessionObjectArm`, `Sessions.SessionFlags` and `Sessions.BadSessionFieldsRejected`.
- `Toggles.CompressionOptionsSchema`: its own contract states only that a refusal carries an issue; its behaviour is stated by `Toggles.CompressionCases`.
- `Toggles.CookieParserOptionsSchema`: its own contract states only that a refusal carries an issue; its behaviour is stated by `Toggles.CookieParserBooleans`, `Toggles.CookieParserObject` and `Toggles.CookieParserOthersRefused`.
- `Toggles.HppOptionsSchema`: its own contract states only that a refusal carries an issue; its behaviour is stated by `Toggles.HppBooleans`, `Toggles.HppWhitelistKept` and `Toggles.HppRejections`.
- `Config.ConfigObject`: its own contract states only that a refusal carries an issue; its behaviour is stated by `Config.ConfigFields` and `Config.ConfigRejected`.
- `Values.Join`: its contract states only the empty and one-part cases; longer lists are covered through its definition and `Env.UnsetEnvError`.
- `Ports.ReservedKeys`: states the key set of `RESERVED_PORTS` as a set equality rather than as a count of fourteen.
- `ERROR_CODES` and `NODE_ENV_VALUES` are parameters, and their contents are not part of this model.
- Configuration objects are values. That `setupMiddlewares`, `getNodeEnv`, `isDevelopment` and `toJSON` read without modifying anything follows from modelling them as functions on values, or as methods whose `modifies` clause names only the app.
- The playground application, the index re-export files and the spelling configuration are not part of this model.
