/**
 * The dynamic parameters of one request (internal/config/config.go): eight
 * fields with fixed defaults, each overridden from its own query key. String
 * fields take any non-empty value verbatim; integer fields take a value only
 * when Go's `strconv.Atoi` accepts it, and otherwise silently keep the
 * default.
 */
module Config {
  import opened Wrappers

  datatype DynamicConfig = DynamicConfig(
    server: string,
    serverPort: int,
    wsPath: string,
    dnsServer: string,
    dohServer: string,
    tunAddress: string,
    mixedPort: int,
    tunMTU: int)

  function DefaultDynamicConfig(): DynamicConfig {
    DynamicConfig(
      server := "vless.example.com",
      serverPort := 443,
      wsPath := "/websocket",
      dnsServer := "8.8.8.8",
      dohServer := "https://223.5.5.5/dns-query",
      tunAddress := "172.19.0.1/28",
      mixedPort := 2080,
      tunMTU := 9000)
  }

  /** Go's `url.Values`: every key maps to the list of its values. */
  type Query = map<string, seq<string>>

  /** `url.Values.Get`: the first value of the key, or "" when there is none. */
  function QueryGet(q: Query, key: string): (v: string)
    ensures key !in q ==> v == ""
  {
    if key in q && |q[key]| > 0 then q[key][0] else ""
  }

  // ---------------------------------------------------------------------
  // Decimal integers: strconv.Atoi and its inverse, strconv.Itoa
  // ---------------------------------------------------------------------

  /** Go's `int` is 64 bits wide on the platforms the service targets. */
  const MinInt: int := -0x8000_0000_0000_0000
  const MaxInt: int := 0x7fff_ffff_ffff_ffff

  predicate InIntRange(n: int) {
    MinInt <= n <= MaxInt
  }

  predicate IsDigit(c: char) {
    '0' <= c <= '9'
  }

  predicate AllDigits(s: string) {
    forall i :: 0 <= i < |s| ==> IsDigit(s[i])
  }

  function DigitValue(c: char): nat
    requires IsDigit(c)
  {
    c as int - '0' as int
  }

  function DigitChar(d: nat): (c: char)
    requires d < 10
    ensures IsDigit(c) && DigitValue(c) == d
  {
    ('0' as int + d) as char
  }

  /** The value of a string of decimal digits, most significant first. */
  function DigitsValue(s: string): nat
    requires AllDigits(s)
    decreases |s|
  {
    if s == [] then 0
    else DigitsValue(s[..|s| - 1]) * 10 + DigitValue(s[|s| - 1])
  }

  function Pow10(k: nat): (p: nat)
    ensures p >= 1
  {
    if k == 0 then 1 else 10 * Pow10(k - 1)
  }

  /** A string of `k` digits is worth less than 10^k. */
  lemma {:induction false} DigitsValueBound(s: string)
    requires AllDigits(s)
    ensures DigitsValue(s) < Pow10(|s|)
    decreases |s|
  {
    if s != [] {
      DigitsValueBound(s[..|s| - 1]);
    }
  }

  /** The shape `strconv.Atoi` accepts: an optional sign, then at least one ASCII digit. */
  predicate Numeral(s: string) {
    var digits := if |s| > 0 && (s[0] == '+' || s[0] == '-') then s[1..] else s;
    digits != [] && AllDigits(digits)
  }

  /**
   * `strconv.Atoi`: an optional `+` or `-`, then one or more ASCII digits,
   * whose value fits a 64-bit int. Anything else is an error. Every numeral
   * of at most 18 characters is in range, so it always parses.
   */
  function Atoi(s: string): (r: Option<int>)
    ensures r.Some? ==> Numeral(s) && InIntRange(r.value)
    ensures Numeral(s) && |s| <= 18 ==> r.Some?
    ensures r.Some? && r.value < 0 ==> s[0] == '-'
  {
    var signed := |s| > 0 && (s[0] == '+' || s[0] == '-');
    var digits := if signed then s[1..] else s;
    if digits == [] || !AllDigits(digits) then None
    else
      var magnitude: int := DigitsValue(digits);
      ShortDigitsInRange(digits);
      var n := if signed && s[0] == '-' then -magnitude else magnitude;
      if InIntRange(n) then Some(n) else None
  }

  /** At most 18 digits stay below 10^18, inside the 64-bit range. */
  lemma ShortDigitsInRange(digits: string)
    requires AllDigits(digits)
    ensures |digits| <= 18 ==> DigitsValue(digits) < 1_000_000_000_000_000_000
  {
    if |digits| <= 18 {
      DigitsValueBound(digits);
      Pow10Monotone(|digits|, 18);
      assert Pow10(6) == 1_000_000;
      Pow10Add(6, 6);
      Pow10Add(12, 6);
    }
  }

  lemma {:induction false} Pow10Add(a: nat, b: nat)
    ensures Pow10(a + b) == Pow10(a) * Pow10(b)
    decreases a
  {
    if a > 0 {
      Pow10Add(a - 1, b);
    }
  }

  lemma {:induction false} Pow10Monotone(i: nat, k: nat)
    requires i <= k
    ensures Pow10(i) <= Pow10(k)
    decreases k - i
  {
    if i < k {
      Pow10Monotone(i + 1, k);
    }
  }

  /** The shortest digit string of a natural number (no leading zeros). */
  function NatDigits(n: nat): (s: string)
    ensures AllDigits(s) && s != []
    decreases n
  {
    if n < 10 then [DigitChar(n)] else NatDigits(n / 10) + [DigitChar(n % 10)]
  }

  /** `strconv.Itoa` / the `%d` verb: a minus sign for negatives, then digits. */
  function FormatInt(n: int): string {
    if n < 0 then "-" + NatDigits(-n) else NatDigits(n)
  }

  lemma {:induction false} NatDigitsValue(n: nat)
    ensures DigitsValue(NatDigits(n)) == n
    decreases n
  {
    var s := NatDigits(n);
    if n >= 10 {
      NatDigitsValue(n / 10);
      assert s[..|s| - 1] == NatDigits(n / 10);
    }
  }

  /** Atoi reads back every int that Itoa writes. */
  lemma AtoiFormatInt(n: int)
    requires InIntRange(n)
    ensures Atoi(FormatInt(n)) == Some(n)
  {
    var s := FormatInt(n);
    if n < 0 {
      NatDigitsValue(-n);
      assert s[1..] == NatDigits(-n);
    } else {
      NatDigitsValue(n);
    }
  }

  // Every way of writing an int that Atoi accepts: a sign the value allows,
  // any number of leading zeros, then the value's own digits.

  datatype Sign = NoSign | Plus | Minus

  function SignText(sign: Sign): string {
    match sign
    case NoSign => ""
    case Plus => "+"
    case Minus => "-"
  }

  /** No sign or `+` only before a non-negative value, `-` only before a non-positive one. */
  predicate SignFits(sign: Sign, n: int) {
    match sign
    case NoSign => n >= 0
    case Plus => n >= 0
    case Minus => n <= 0
  }

  function Magnitude(n: int): nat {
    if n < 0 then -n else n
  }

  function Zeros(k: nat): (z: string)
    ensures |z| == k && forall i :: 0 <= i < k ==> z[i] == '0'
  {
    seq(k, i => '0')
  }

  /** `n` written with the given sign and `zeros` leading zeros. */
  function Spelling(sign: Sign, zeros: nat, n: int): string {
    SignText(sign) + (Zeros(zeros) + NatDigits(Magnitude(n)))
  }

  /**
   * Atoi accepts a string with value `n` exactly when `n` is a 64-bit int
   * and the string is one of its spellings.
   */
  lemma AtoiExactly(s: string, n: int)
    ensures Atoi(s) == Some(n) <==>
            InIntRange(n) && exists sign: Sign, zeros: nat :: SignFits(sign, n) && s == Spelling(sign, zeros, n)
  {
    if Atoi(s) == Some(n) {
      AtoiSpelled(s, n);
    }
    if InIntRange(n) && exists sign: Sign, zeros: nat :: SignFits(sign, n) && s == Spelling(sign, zeros, n) {
      var sign: Sign, zeros: nat :| SignFits(sign, n) && s == Spelling(sign, zeros, n);
      AtoiSpelling(sign, zeros, n);
    }
  }

  /** Every spelling of a 64-bit int parses back to it. */
  lemma AtoiSpelling(sign: Sign, zeros: nat, n: int)
    requires InIntRange(n) && SignFits(sign, n)
    ensures Atoi(Spelling(sign, zeros, n)) == Some(n)
  {
    var digits := Zeros(zeros) + NatDigits(Magnitude(n));
    LeadingZeros(zeros, NatDigits(Magnitude(n)));
    NatDigitsValue(Magnitude(n));
    AtoiSigned(sign, digits);
  }

  /** Leading zeros change neither the digit shape nor the value. */
  lemma LeadingZeros(zeros: nat, d: string)
    requires AllDigits(d)
    ensures AllDigits(Zeros(zeros) + d) && DigitsValue(Zeros(zeros) + d) == DigitsValue(d)
  {
    ZerosValue(zeros);
    DigitsAppend(Zeros(zeros), d);
  }

  /** Atoi on a sign followed by digits. */
  lemma AtoiSigned(sign: Sign, digits: string)
    requires AllDigits(digits) && digits != []
    ensures var v := if sign == Minus then -(DigitsValue(digits) as int) else DigitsValue(digits);
            Atoi(SignText(sign) + digits) == if InIntRange(v) then Some(v) else None
  {
    var s := SignText(sign) + digits;
    assert IsDigit(digits[0]);
    if sign == NoSign {
      assert s == digits;
    } else {
      assert s[1..] == digits;
    }
  }

  /** Whatever Atoi accepts is a spelling of its result. */
  lemma AtoiSpelled(s: string, n: int)
    requires Atoi(s) == Some(n)
    ensures exists sign: Sign, zeros: nat :: SignFits(sign, n) && s == Spelling(sign, zeros, n)
  {
    var signed := |s| > 0 && (s[0] == '+' || s[0] == '-');
    var digits := if signed then s[1..] else s;
    var sign := if !signed then NoSign else if s[0] == '+' then Plus else Minus;
    assert s == SignText(sign) + digits;
    assert AllDigits(digits) && digits != [];
    assert SignFits(sign, n) && DigitsValue(digits) == Magnitude(n);
    SignedDigits(sign, digits, n);
  }

  /** A sign and digits worth `n` spell `n`. */
  lemma SignedDigits(sign: Sign, digits: string, n: int)
    requires AllDigits(digits) && digits != [] && DigitsValue(digits) == Magnitude(n)
    ensures |NatDigits(Magnitude(n))| <= |digits|
    ensures SignText(sign) + digits == Spelling(sign, |digits| - |NatDigits(Magnitude(n))|, n)
  {
    DigitsCanonical(digits);
    var zeros := |digits| - |NatDigits(Magnitude(n))|;
  }

  /** Appending digits shifts the value of the front by their count. */
  lemma {:induction false} DigitsAppend(a: string, b: string)
    requires AllDigits(a) && AllDigits(b)
    ensures AllDigits(a + b)
    ensures DigitsValue(a + b) == DigitsValue(a) * Pow10(|b|) + DigitsValue(b)
    decreases |b|
  {
    AllDigitsAppend(a, b);
    if b == [] {
      assert a + b == a;
    } else {
      var front := b[..|b| - 1];
      var last := DigitValue(b[|b| - 1]);
      DigitsAppend(a, front);
      assert (a + b)[..|a + b| - 1] == a + front;
      assert DigitsValue(a + b) == DigitsValue(a + front) * 10 + last;
      ShiftStep(DigitsValue(a), Pow10(|front|), DigitsValue(front), last);
    }
  }

  lemma AllDigitsAppend(a: string, b: string)
    requires AllDigits(a) && AllDigits(b)
    ensures AllDigits(a + b)
  {
    assert forall i :: 0 <= i < |a + b| ==> (a + b)[i] == if i < |a| then a[i] else b[i - |a|];
  }

  /** One more digit: (x * p + y) * 10 + d == x * (10 * p) + (y * 10 + d). */
  lemma ShiftStep(x: int, p: int, y: int, d: int)
    ensures (x * p + y) * 10 + d == x * (10 * p) + (y * 10 + d)
  {
  }

  /** Leading zeros are worth nothing. */
  lemma {:induction false} ZerosValue(k: nat)
    ensures AllDigits(Zeros(k)) && DigitsValue(Zeros(k)) == 0
  {
    if k > 0 {
      ZerosValue(k - 1);
      assert Zeros(k)[..k - 1] == Zeros(k - 1);
    }
  }

  /** Digits worth nothing are all zeros. */
  lemma {:induction false} ZeroValueIsZeros(d: string)
    requires AllDigits(d) && DigitsValue(d) == 0
    ensures d == Zeros(|d|)
    decreases |d|
  {
    if d != [] {
      ZeroValueIsZeros(d[..|d| - 1]);
      assert d == d[..|d| - 1] + [d[|d| - 1]];
    }
  }

  /** A non-empty digit string is its value's digits after some zeros. */
  lemma {:induction false} DigitsCanonical(d: string)
    requires AllDigits(d) && d != []
    ensures |NatDigits(DigitsValue(d))| <= |d|
    ensures d == Zeros(|d| - |NatDigits(DigitsValue(d))|) + NatDigits(DigitsValue(d))
    decreases |d|
  {
    var front := d[..|d| - 1];
    var c := d[|d| - 1];
    assert d == front + [c];
    assert DigitChar(DigitValue(c)) == c;
    if DigitsValue(front) == 0 {
      ZeroValueIsZeros(front);
    } else {
      DigitsCanonical(front);
      var m := DigitsValue(front);
      assert DigitsValue(d) / 10 == m && DigitsValue(d) % 10 == DigitValue(c);
    }
  }

  // ---------------------------------------------------------------------
  // ParseDynamicConfig
  // ---------------------------------------------------------------------

  /**
   * The value an integer field ends up with: the parse if it succeeds, else
   * the old value (`if p, err := strconv.Atoi(s); err == nil { field = p }`).
   */
  function IntOr(s: string, fallback: int): int {
    match Atoi(s)
    case Some(n) => n
    case None => fallback
  }

  /** The value a string field ends up with: the query value if non-empty, else the old value. */
  function TextOr(s: string, fallback: string): string {
    if s != "" then s else fallback
  }

  // One function per `if` block of ParseDynamicConfig: each may change its
  // own field only. The integer blocks drop Go's outer `!= ""` test, which
  // changes nothing: Atoi rejects the empty string.

  function WithServer(c: DynamicConfig, v: string): DynamicConfig
  {
    c.(server := TextOr(v, c.server))
  }

  function WithServerPort(c: DynamicConfig, v: string): DynamicConfig
  {
    c.(serverPort := IntOr(v, c.serverPort))
  }

  function WithWsPath(c: DynamicConfig, v: string): DynamicConfig
  {
    c.(wsPath := TextOr(v, c.wsPath))
  }

  function WithDnsServer(c: DynamicConfig, v: string): DynamicConfig
  {
    c.(dnsServer := TextOr(v, c.dnsServer))
  }

  function WithDohServer(c: DynamicConfig, v: string): DynamicConfig
  {
    c.(dohServer := TextOr(v, c.dohServer))
  }

  function WithTunAddress(c: DynamicConfig, v: string): DynamicConfig
  {
    c.(tunAddress := TextOr(v, c.tunAddress))
  }

  function WithMixedPort(c: DynamicConfig, v: string): DynamicConfig
  {
    c.(mixedPort := IntOr(v, c.mixedPort))
  }

  function WithTunMTU(c: DynamicConfig, v: string): DynamicConfig
  {
    c.(tunMTU := IntOr(v, c.tunMTU))
  }

  /**
   * Start from the defaults and let each recognised key override its own
   * field, in the order the Go code does. Each field ends up as its key's
   * value (strings: when non-empty; integers: when Atoi accepts it) or else
   * as its default, whatever the other keys say.
   */
  function ParseDynamicConfig(q: Query): (c: DynamicConfig)
    ensures c.server == TextOr(QueryGet(q, "server"), "vless.example.com")
    ensures c.serverPort == IntOr(QueryGet(q, "port"), 443)
    ensures c.wsPath == TextOr(QueryGet(q, "ws-path"), "/websocket")
    ensures c.dnsServer == TextOr(QueryGet(q, "dns-server"), "8.8.8.8")
    ensures c.dohServer == TextOr(QueryGet(q, "doh-server"), "https://223.5.5.5/dns-query")
    ensures c.tunAddress == TextOr(QueryGet(q, "tun-address"), "172.19.0.1/28")
    ensures c.mixedPort == IntOr(QueryGet(q, "mixed-port"), 2080)
    ensures c.tunMTU == IntOr(QueryGet(q, "tun-mtu"), 9000)
  {
    var c0 := DefaultDynamicConfig();
    var c1 := WithServer(c0, QueryGet(q, "server"));
    var c2 := WithServerPort(c1, QueryGet(q, "port"));
    var c3 := WithWsPath(c2, QueryGet(q, "ws-path"));
    var c4 := WithDnsServer(c3, QueryGet(q, "dns-server"));
    var c5 := WithDohServer(c4, QueryGet(q, "doh-server"));
    var c6 := WithTunAddress(c5, QueryGet(q, "tun-address"));
    var c7 := WithMixedPort(c6, QueryGet(q, "mixed-port"));
    WithTunMTU(c7, QueryGet(q, "tun-mtu"))
  }

  /** The query keys ParseDynamicConfig recognises. */
  const ParamKeys: set<string> :=
    {"server", "port", "ws-path", "dns-server", "doh-server", "tun-address", "mixed-port", "tun-mtu"}

  /** A query that gives no recognised key a non-empty value yields exactly the documented defaults. */
  lemma ParseWithoutParamsIsDefault(q: Query)
    requires forall k :: k in ParamKeys ==> QueryGet(q, k) == ""
    ensures ParseDynamicConfig(q) == DynamicConfig(
      "vless.example.com", 443, "/websocket", "8.8.8.8",
      "https://223.5.5.5/dns-query", "172.19.0.1/28", 2080, 9000)
  {
    assert QueryGet(q, "server") == "" && QueryGet(q, "port") == "";
    assert QueryGet(q, "ws-path") == "" && QueryGet(q, "dns-server") == "";
    assert QueryGet(q, "doh-server") == "" && QueryGet(q, "tun-address") == "";
    assert QueryGet(q, "mixed-port") == "" && QueryGet(q, "tun-mtu") == "";
  }

  /** A field of the parsed configuration, selected by the query key that feeds it. */
  datatype FieldValue = Text(t: string) | Number(n: int)

  function Field(c: DynamicConfig, key: string): FieldValue
    requires key in ParamKeys
  {
    match key
    case "server" => Text(c.server)
    case "port" => Number(c.serverPort)
    case "ws-path" => Text(c.wsPath)
    case "dns-server" => Text(c.dnsServer)
    case "doh-server" => Text(c.dohServer)
    case "tun-address" => Text(c.tunAddress)
    case "mixed-port" => Number(c.mixedPort)
    case _ => Number(c.tunMTU)
  }

  /** Each field depends on its own query key only: two queries that agree on it agree on the field. */
  lemma FieldDependsOnlyOnItsKey(q1: Query, q2: Query, key: string)
    requires key in ParamKeys
    requires QueryGet(q1, key) == QueryGet(q2, key)
    ensures Field(ParseDynamicConfig(q1), key) == Field(ParseDynamicConfig(q2), key)
  {
    ParsedField(q1, key);
    ParsedField(q2, key);
  }

  /** A query value overriding a default field: text when non-empty, a number when it parses. */
  function Override(v: string, default: FieldValue): FieldValue {
    match default
    case Text(t) => Text(TextOr(v, t))
    case Number(n) => Number(IntOr(v, n))
  }

  /** Field by field, the parsed configuration is the default overridden by that field's own query value. */
  lemma ParsedField(q: Query, key: string)
    requires key in ParamKeys
    ensures Field(ParseDynamicConfig(q), key) == Override(QueryGet(q, key), Field(DefaultDynamicConfig(), key))
  {
    var c := ParseDynamicConfig(q);
    match key
    case "server" =>
    case "port" =>
    case "ws-path" =>
    case "dns-server" =>
    case "doh-server" =>
    case "tun-address" =>
    case "mixed-port" =>
    case _ =>
  }

  /** A malformed integer is ignored without error: its field keeps its default. */
  lemma MalformedIntegersKeepDefaults(q: Query)
    ensures Atoi(QueryGet(q, "port")).None? ==> ParseDynamicConfig(q).serverPort == 443
    ensures Atoi(QueryGet(q, "mixed-port")).None? ==> ParseDynamicConfig(q).mixedPort == 2080
    ensures Atoi(QueryGet(q, "tun-mtu")).None? ==> ParseDynamicConfig(q).tunMTU == 9000
  {
  }

  /** The query a client would send to ask for configuration `c`, one value per key. */
  function EncodeQuery(c: DynamicConfig): Query {
    map[
      "server" := [c.server],
      "port" := [FormatInt(c.serverPort)],
      "ws-path" := [c.wsPath],
      "dns-server" := [c.dnsServer],
      "doh-server" := [c.dohServer],
      "tun-address" := [c.tunAddress],
      "mixed-port" := [FormatInt(c.mixedPort)],
      "tun-mtu" := [FormatInt(c.tunMTU)]]
  }

  /** Each key of the encoded query carries its own field. */
  lemma EncodeQueryGet(c: DynamicConfig)
    ensures QueryGet(EncodeQuery(c), "server") == c.server
    ensures QueryGet(EncodeQuery(c), "port") == FormatInt(c.serverPort)
    ensures QueryGet(EncodeQuery(c), "ws-path") == c.wsPath
    ensures QueryGet(EncodeQuery(c), "dns-server") == c.dnsServer
    ensures QueryGet(EncodeQuery(c), "doh-server") == c.dohServer
    ensures QueryGet(EncodeQuery(c), "tun-address") == c.tunAddress
    ensures QueryGet(EncodeQuery(c), "mixed-port") == FormatInt(c.mixedPort)
    ensures QueryGet(EncodeQuery(c), "tun-mtu") == FormatInt(c.tunMTU)
  {
  }

  /**
   * Every configuration a request can express (non-empty strings, ints
   * within range) is recovered exactly from its query.
   */
  lemma ParseEncodeRoundTrip(c: DynamicConfig)
    requires c.server != "" && c.wsPath != "" && c.dnsServer != ""
    requires c.dohServer != "" && c.tunAddress != ""
    requires InIntRange(c.serverPort) && InIntRange(c.mixedPort) && InIntRange(c.tunMTU)
    ensures ParseDynamicConfig(EncodeQuery(c)) == c
  {
    EncodeQueryGet(c);
    AtoiFormatInt(c.serverPort);
    AtoiFormatInt(c.mixedPort);
    AtoiFormatInt(c.tunMTU);
  }
}
