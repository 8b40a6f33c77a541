/** The listen port: the reserved-port table, the range and default constants,
    and `PortSchema` (a 4-5 digit string or an in-range integer, turned
    into a number, refused when reserved, 4000 when absent). */
module Ports {
  import opened Values

  /** Well-known ports of other services, with the service's name. */
  const RESERVED_PORTS: map<int, string> := map[
    3306 := "MySQL",
    5432 := "PostgreSQL",
    6379 := "Redis",
    27017 := "MongoDB",
    27018 := "MongoDB shard/replica",
    9200 := "Elasticsearch",
    5601 := "Kibana",
    5173 := "Vite default port",
    8888 := "Jupyter Notebook",
    6006 := "TensorBoard",
    5000 := "MLflow (also common for Flask)",
    8265 := "Ray Dashboard",
    8787 := "Dask Dashboard",
    11434 := "Ollama API"
  ]

  const DEFAULT_PORT: int := 4000
  const MIN_PORT: int := 1024
  const MAX_PORT: int := 65535
  /** Declared beside the others; no schema consults it. */
  const ALLOWED_PORTS: set<int> := {DEFAULT_PORT, 8000, 8080}

  const RESERVED_PORT_MESSAGE: string := "The selected port is reserved for another application"

  /** The refinement's test `RESERVED_PORTS[port]` is truthy: a key with a non-empty label. */
  predicate IsReserved(port: int) {
    port in RESERVED_PORTS && RESERVED_PORTS[port] != ""
  }

  predicate InRange(port: int) {
    MIN_PORT <= port <= MAX_PORT
  }

  /** The regex `^\d{4,5}$`. */
  predicate PortPattern(s: string) {
    4 <= |s| <= 5 && AllDigits(s)
  }

  /** The reserved-port refinement applied to the transformed number. */
  function RefineReserved(port: int): (r: Parsed<int>)
    ensures r.Success? <==> !IsReserved(port)
    ensures r.Success? ==> r.value == port
    ensures r.Failure? ==> r.error == [Issue([], Refinement(RESERVED_PORT_MESSAGE))]
  {
    if IsReserved(port) then Failure([Issue([], Refinement(RESERVED_PORT_MESSAGE))]) else Success(port)
  }

  /** `PortSchema`: the string arm `^\d{4,5}$` or the integer arm in
      [MIN_PORT, MAX_PORT]; a string is turned into its number; then the
      reserved refinement; `undefined` becomes DEFAULT_PORT. */
  function PortSchema(raw: Raw): (r: Parsed<int>)
    ensures r.Success? ==> r.value >= 0 && !IsReserved(r.value)
    ensures r.Failure? ==> r.error != []
  {
    match raw
    case Undefined => Success(DEFAULT_PORT)
    case Str(s) => if PortPattern(s) then RefineReserved(DigitsValue(s)) else Failure(Rejection())
    case Int(i) => if InRange(i) then RefineReserved(i) else Failure(Rejection())
    case _ => Failure(Rejection())
  }

  // The constant table.

  lemma ReservedLabelsNonEmpty()
    ensures forall p :: p in RESERVED_PORTS ==> RESERVED_PORTS[p] != ""
  {
  }

  /** Because every label is non-empty, the truthiness test is key membership. */
  lemma ReservedIsKeyMembership(port: int)
    ensures IsReserved(port) <==> port in RESERVED_PORTS
  {
    ReservedLabelsNonEmpty();
  }

  /** Exactly fourteen distinct keys. */
  lemma ReservedKeys()
    ensures RESERVED_PORTS.Keys == {3306, 5432, 6379, 27017, 27018, 9200, 5601, 5173, 8888, 6006, 5000, 8265, 8787, 11434}
  {
  }

  lemma ReservedPortsInRange()
    ensures forall p :: p in RESERVED_PORTS ==> InRange(p)
  {
  }

  /** The default is in range and not reserved, so it passes the integer arm. */
  lemma DefaultPortPasses()
    ensures InRange(DEFAULT_PORT) && !IsReserved(DEFAULT_PORT)
    ensures PortSchema(Int(DEFAULT_PORT)) == Success(DEFAULT_PORT)
    ensures PortSchema(Undefined) == Success(DEFAULT_PORT)
  {
  }

  lemma AllowedPortsAcceptable()
    ensures forall p :: p in ALLOWED_PORTS ==> InRange(p) && !IsReserved(p)
    ensures forall p :: p in ALLOWED_PORTS ==> PortSchema(Int(p)) == Success(p)
  {
  }

  // The schema.

  /** An integer port is accepted iff it is in range and not a reserved key; it comes back unchanged. */
  lemma NumericPort(i: int)
    ensures PortSchema(Int(i)).Success? <==> InRange(i) && i !in RESERVED_PORTS
    ensures PortSchema(Int(i)).Success? ==> PortSchema(Int(i)).value == i
  {
    ReservedIsKeyMembership(i);
  }

  /** A string port is accepted iff it is 4-5 ASCII digits whose number is
      not a reserved key; the output is that number. No range check. */
  lemma StringPort(s: string)
    ensures PortSchema(Str(s)).Success? <==> PortPattern(s) && DigitsValue(s) !in RESERVED_PORTS
    ensures PortSchema(Str(s)).Success? ==> PortSchema(Str(s)).value == DigitsValue(s)
  {
    if PortPattern(s) {
      ReservedIsKeyMembership(DigitsValue(s));
    }
  }

  /** Every number with 4 or 5 decimal digits that is not reserved is accepted
      in its decimal string form, and comes back as that number. */
  lemma {:induction false} DecimalStringPort(n: nat)
    requires 1000 <= n <= 99999 && n !in RESERVED_PORTS
    ensures PortSchema(Str(NatToDecimal(n))) == Success(n)
  {
    assert Pow10(3) == 1000 && Pow10(5) == 100000;
    DecimalLengthAtLeast(n, 3);
    DecimalLengthBelow(n, 5);
    DecimalRoundTrip(n);
    StringPort(NatToDecimal(n));
  }

  /** A reserved port is refused in either form, with the reserved message. */
  lemma ReservedPortRejected(p: int)
    requires p in RESERVED_PORTS
    ensures PortSchema(Int(p)) == Failure([Issue([], Refinement(RESERVED_PORT_MESSAGE))])
  {
    ReservedPortsInRange();
    ReservedIsKeyMembership(p);
  }

  lemma DigitsValue4(s: string)
    requires |s| == 4 && AllDigits(s)
    ensures DigitsValue(s) == DigitValue(s[0]) * 1000 + DigitValue(s[1]) * 100 + DigitValue(s[2]) * 10 + DigitValue(s[3])
  {
    assert s[..3][..2] == s[..2] && s[..2][..1] == s[..1] && s[..1][..0] == [];
    assert DigitsValue(s[..1]) == DigitValue(s[0]);
    assert DigitsValue(s[..2]) == DigitValue(s[0]) * 10 + DigitValue(s[1]);
    assert DigitsValue(s[..3]) == DigitValue(s[0]) * 100 + DigitValue(s[1]) * 10 + DigitValue(s[2]);
  }

  lemma DigitsValue5(s: string)
    requires |s| == 5 && AllDigits(s)
    ensures DigitsValue(s) == DigitValue(s[0]) * 10000 + DigitValue(s[1]) * 1000 + DigitValue(s[2]) * 100
                              + DigitValue(s[3]) * 10 + DigitValue(s[4])
  {
    DigitsValue4(s[..4]);
    assert DigitsValue(s) == DigitsValue(s[..4]) * 10 + DigitValue(s[4]);
  }

  lemma ReservedStringPortRejected()
    ensures PortSchema(Str("3306")) == Failure([Issue([], Refinement(RESERVED_PORT_MESSAGE))])
    ensures PortSchema(Str("05432")) == Failure([Issue([], Refinement(RESERVED_PORT_MESSAGE))])
  {
    DigitsValue4("3306");
    DigitsValue5("05432");
  }

  /** Strings are read as numbers: "8080" is 8080. */
  lemma StringPort8080()
    ensures PortSchema(Str("8080")) == Success(8080)
  {
    DigitsValue4("8080");
  }

  /** Digit strings are not range-checked: "99999", "1000" and "0000" pass. */
  lemma StringPort99999()
    ensures PortSchema(Str("99999")) == Success(99999)
  {
    DigitsValue5("99999");
  }

  lemma StringPortsBelowRange()
    ensures PortSchema(Str("1000")) == Success(1000)
    ensures PortSchema(Str("0000")) == Success(0)
  {
    DigitsValue4("1000");
    DigitsValue4("0000");
  }

  /** Normalisation is not idempotent: "99999" resolves to 99999, which the
      schema then refuses as a number. */
  lemma PortNotIdempotent()
    ensures PortSchema(Str("99999")) == Success(99999)
    ensures PortSchema(Int(99999)).Failure?
  {
    StringPort99999();
  }

  /** An in-range output re-validates to itself. */
  lemma PortIdempotentInRange(raw: Raw)
    requires PortSchema(raw).Success? && InRange(PortSchema(raw).value)
    ensures PortSchema(Int(PortSchema(raw).value)) == PortSchema(raw)
  {
  }

  /** Everything that is neither a 4-5 digit string nor an integer is refused;
      so are integers out of range and strings that do not match. */
  lemma PortRejections(raw: Raw)
    requires !raw.Undefined? && !raw.Str? && !raw.Int?
    ensures PortSchema(raw).Failure?
    ensures PortSchema(Str("80")).Failure? && PortSchema(Str("123456")).Failure? && PortSchema(Str("80a0")).Failure?
    ensures PortSchema(Int(80)).Failure? && PortSchema(Int(65536)).Failure?
  {
    assert !IsDigit("80a0"[2]);
  }
}
