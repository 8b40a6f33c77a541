/** Values the configuration layer receives and produces: a model of untyped
    JavaScript values, Zod's success/failure outcome, and the small string and
    sequence helpers the field schemas share. */
module Values {

  datatype Option<+T> = None | Some(value: T)

  datatype Result<+T, +E> = Success(value: T) | Failure(error: E)

  /** Why Zod reported an issue: a built-in check (type, format, range, union,
      strictness; which one, and Zod's text for it, are not modelled) or a
      refinement carrying its own message. */
  datatype Reason = Rejected | Refinement(message: string)

  /** One Zod issue: the path of keys leading to the offending value. */
  datatype Issue = Issue(path: seq<string>, reason: Reason)

  /** The outcome of `safeParse`: the parsed output or a non-empty issue list. */
  type Parsed<T> = Result<T, seq<Issue>>

  /** An `Error` instance: the `ZodError` a failed `safeParse` carries, or any
      other error described by its name, message and stack. */
  datatype ErrorInstance =
    | ZodError(issues: seq<Issue>)
    | OtherError(name: string, message: string, stack: Option<string>)

  /** An untyped JavaScript value. Numbers are integers or a non-integer
      finite number identified by a tag; `Opaque` is a value no typed Zod
      check accepts (a function, a library instance such as a passport
      handle); `Err` is an `Error` instance. */
  datatype Raw =
    | Undefined
    | Null
    | Bool(b: bool)
    | Int(i: int)
    | NonInt(tag: nat)
    | Str(s: string)
    | Arr(items: seq<Raw>)
    | Obj(fields: map<string, Raw>)
    | Opaque(id: nat)
    | Err(e: ErrorInstance)

  /** The values `z.number()` accepts. */
  type Number = r: Raw | r.Int? || r.NonInt? witness Int(0)

  /** JavaScript truthiness. */
  predicate Truthy(r: Raw) {
    match r
    case Undefined => false
    case Null => false
    case Bool(b) => b
    case Int(i) => i != 0
    case Str(s) => s != ""
    case _ => true
  }

  /** The value of key `k` of an object: a missing key reads as `undefined`. */
  function Field(m: map<string, Raw>, k: string): Raw {
    if k in m then m[k] else Undefined
  }

  /** The single issue a failed built-in check or union reports at the value itself. */
  function Rejection(): seq<Issue> {
    [Issue([], Rejected)]
  }

  /** Issues of a nested value, re-rooted under key `key`. */
  function IssuesUnder(key: string, issues: seq<Issue>): (r: seq<Issue>)
    ensures |r| == |issues|
    ensures forall i :: 0 <= i < |r| ==> r[i].path == [key] + issues[i].path && r[i].reason == issues[i].reason
  {
    seq(|issues|, i requires 0 <= i < |issues| => Issue([key] + issues[i].path, issues[i].reason))
  }

  /** The issues a field contributes to its parent object: none when it parsed. */
  function IssuesOf<T>(key: string, r: Parsed<T>): seq<Issue> {
    if r.Success? then [] else IssuesUnder(key, r.error)
  }

  /** `z.array(z.string())`: the strings of an array whose items are all strings. */
  function StringsOf(items: seq<Raw>): (r: Option<seq<string>>)
    ensures r.Some? <==> forall i :: 0 <= i < |items| ==> items[i].Str?
    ensures r.Some? ==> |r.value| == |items| && forall i :: 0 <= i < |items| ==> r.value[i] == items[i].s
  {
    if items == [] then Some([])
    else if !items[0].Str? then None
    else
      match StringsOf(items[1..])
      case None => None
      case Some(rest) => Some([items[0].s] + rest)
  }

  // Zod's optional-with-default leaves: `undefined` takes the default,
  // a value of the right type is kept, anything else is refused.

  /** `z.boolean().optional().default(d)`. */
  function OptionalBool(raw: Raw, d: bool): Option<bool> {
    match raw
    case Undefined => Some(d)
    case Bool(b) => Some(b)
    case _ => None
  }

  /** `z.string().optional().default(d)`. */
  function OptionalString(raw: Raw, d: string): Option<string> {
    match raw
    case Undefined => Some(d)
    case Str(s) => Some(s)
    case _ => None
  }

  /** `z.number().int().positive().optional().default(d)`. */
  function OptionalPositiveInt(raw: Raw, d: nat): Option<nat> {
    match raw
    case Undefined => Some(d)
    case Int(i) => if i > 0 then Some(i) else None
    case _ => None
  }

  /** `z.number().optional().default(d)`: any number, integer or not. */
  function OptionalNumber(raw: Raw, d: Number): Option<Number> {
    match raw
    case Undefined => Some(d)
    case Int(_) => Some(raw)
    case NonInt(_) => Some(raw)
    case _ => None
  }

  /** A string array as a JavaScript array value. */
  function StrArray(ss: seq<string>): (r: Raw)
    ensures r.Arr? && |r.items| == |ss|
    ensures forall i :: 0 <= i < |ss| ==> r.items[i] == Str(ss[i])
  {
    Arr(seq(|ss|, i requires 0 <= i < |ss| => Str(ss[i])))
  }

  lemma StringsOfStrArray(ss: seq<string>)
    ensures StringsOf(StrArray(ss).items) == Some(ss)
  {
    var r := StringsOf(StrArray(ss).items);
    assert r.Some?;
    assert |r.value| == |ss|;
    assert forall i :: 0 <= i < |ss| ==> r.value[i] == ss[i];
    assert r.value == ss;
  }

  /** `parts` joined with `sep`, like `Array.prototype.join`. */
  function Join(parts: seq<string>, sep: string): (r: string)
    ensures parts == [] ==> r == ""
    ensures |parts| == 1 ==> r == parts[0]
  {
    if parts == [] then ""
    else if |parts| == 1 then parts[0]
    else parts[0] + sep + Join(parts[1..], sep)
  }

  // Decimal digits, as the port regex `\d` (ASCII only) and `Number(...)` read them.

  predicate IsDigit(c: char) {
    '0' <= c <= '9'
  }

  predicate AllDigits(s: string) {
    forall i :: 0 <= i < |s| ==> IsDigit(s[i])
  }

  function DigitChar(d: nat): (c: char)
    requires d < 10
    ensures IsDigit(c)
  {
    ('0' as int + d) as char
  }

  function DigitValue(c: char): (d: nat)
    requires IsDigit(c)
    ensures d < 10
  {
    c as int - '0' as int
  }

  /** The number a string of decimal digits denotes (leading zeros allowed). */
  function DigitsValue(s: string): nat
    requires AllDigits(s)
    decreases |s|
  {
    if s == [] then 0 else DigitsValue(s[..|s| - 1]) * 10 + DigitValue(s[|s| - 1])
  }

  /** The decimal rendering of `n`, as a template literal `${n}` writes it. */
  function NatToDecimal(n: nat): (s: string)
    ensures |s| >= 1 && AllDigits(s)
  {
    if n < 10 then [DigitChar(n)] else NatToDecimal(n / 10) + [DigitChar(n % 10)]
  }

  function Pow10(k: nat): (p: nat)
    ensures p >= 1
  {
    if k == 0 then 1 else 10 * Pow10(k - 1)
  }

  /** Reading back a decimal rendering gives the number it renders. */
  lemma {:induction false} DecimalRoundTrip(n: nat)
    ensures DigitsValue(NatToDecimal(n)) == n
  {
    var s := NatToDecimal(n);
    if n < 10 {
      assert s[..|s| - 1] == [];
    } else {
      assert s[..|s| - 1] == NatToDecimal(n / 10);
      DecimalRoundTrip(n / 10);
    }
  }

  /** A number at least 10^k has more than k digits. */
  lemma {:induction false} DecimalLengthAtLeast(n: nat, k: nat)
    requires n >= Pow10(k)
    ensures |NatToDecimal(n)| >= k + 1
  {
    if k > 0 {
      assert n >= 10;
      assert n / 10 >= Pow10(k - 1);
      DecimalLengthAtLeast(n / 10, k - 1);
    }
  }

  /** A number below 10^k has at most k digits. */
  lemma {:induction false} DecimalLengthBelow(n: nat, k: nat)
    requires k >= 1 && n < Pow10(k)
    ensures |NatToDecimal(n)| <= k
  {
    if n >= 10 {
      assert k >= 2;
      assert n / 10 < Pow10(k - 1);
      DecimalLengthBelow(n / 10, k - 1);
    }
  }
}
