/** config/config.go: the service configuration read from the environment, with a
    default for every setting that is missing, empty or does not parse. The process
    environment is a map parameter. */
module Configuration {
  import opened Base

  type Env = map<string, string>

  const JobsTTLDefault := 3600
  const JWTExpirySecondsDefault := 3600

  const Int64Min: int := -0x8000_0000_0000_0000
  const Int64Max: int := 0x7fff_ffff_ffff_ffff

  datatype LDAPConfig = LDAPConfig(bindUser: string, bindPass: string, fqdn: string, baseDN: string, port: int)
  /** The Kubernetes client itself is not modelled. */
  datatype KubeConfig = KubeConfig(namespace: string, jobsTTL: int)
  datatype JWTConfig = JWTConfig(key: string, expirySeconds: int)
  datatype DBConfig = DBConfig(name: string, host: string, user: string, password: string, ssl: string, port: int)

  datatype Config = Config(
    environment: string,
    rootSecret: string,
    apiSecret: string,
    ldap: LDAPConfig,
    kube: KubeConfig,
    jwt: JWTConfig,
    db: DBConfig,
    debugMode: bool)

  /** `getEnv` (config/config.go:94-100): the variable when it is set to a non-empty value,
      otherwise the default. */
  function GetEnv(env: Env, key: string, defaultVal: string): (r: string)
    ensures key in env && env[key] != "" ==> r == env[key]
    ensures key !in env || env[key] == "" ==> r == defaultVal
    ensures r == "" ==> defaultVal == ""
  {
    if key in env && env[key] != "" then env[key] else defaultVal
  }

  // ---------------------------------------------------------------------
  // strconv.Atoi and its inverse strconv.Itoa
  // ---------------------------------------------------------------------

  predicate IsDigit(c: char) {
    '0' <= c <= '9'
  }

  predicate AllDigits(s: string) {
    forall i :: 0 <= i < |s| ==> IsDigit(s[i])
  }

  /** The value of a string of decimal digits, most significant first. */
  function DigitsValue(s: string): (n: nat)
    requires AllDigits(s)
  {
    if s == [] then 0
    else DigitsValue(s[..|s| - 1]) * 10 + (s[|s| - 1] - '0') as int
  }

  /** `strconv.Atoi` on a 64-bit platform: an optional sign, then at least one decimal digit, and
      a value that fits in 64 bits. None is the syntax or range error. */
  function Atoi(s: string): (r: Option<int>)
    ensures s == [] ==> r.None?
    ensures r.Some? ==> Int64Min <= r.value <= Int64Max
    ensures AllDigits(s) && s != [] && DigitsValue(s) <= Int64Max ==> r == Some(DigitsValue(s))
  {
    var signed := |s| > 0 && (s[0] == '-' || s[0] == '+');
    var digits := if signed then s[1..] else s;
    if digits == [] || !AllDigits(digits) then None
    else
      var value: int := if s[0] == '-' then -(DigitsValue(digits) as int) else DigitsValue(digits);
      if Int64Min <= value <= Int64Max then Some(value) else None
  }

  /** The decimal digits of a natural number, without leading zeros. */
  function Digits(n: nat): (s: string)
    ensures s != [] && AllDigits(s)
    ensures s[0] == '0' ==> n == 0
  {
    if n < 10 then ['0' + n as char]
    else Digits(n / 10) + ['0' + (n % 10) as char]
  }

  /** `strconv.Itoa`. */
  function Itoa(n: int): (s: string)
    ensures s != []
    ensures n >= 0 <==> s[0] != '-'
  {
    if n < 0 then "-" + Digits(-n) else Digits(n)
  }

  lemma {:induction false} DigitsRoundTrip(n: nat)
    ensures DigitsValue(Digits(n)) == n
  {
    if n >= 10 {
      DigitsRoundTrip(n / 10);
      var s := Digits(n);
      assert s[..|s| - 1] == Digits(n / 10);
    }
  }

  /** Every 64-bit integer printed in decimal parses back to itself. */
  lemma AtoiItoa(n: int)
    requires Int64Min <= n <= Int64Max
    ensures Atoi(Itoa(n)) == Some(n)
  {
    if n < 0 {
      DigitsRoundTrip(-n);
      assert Itoa(n)[1..] == Digits(-n);
    } else {
      DigitsRoundTrip(n);
    }
  }

  /** `getEnvAsInt` (config/config.go:103-110). */
  function GetEnvAsInt(env: Env, name: string, defaultVal: int): (r: int)
    ensures name !in env || env[name] == "" ==> r == defaultVal
    ensures name in env && Atoi(env[name]).None? ==> r == defaultVal
    ensures name in env && Atoi(env[name]).Some? ==> r == Atoi(env[name]).value
  {
    match Atoi(GetEnv(env, name, ""))
    case Some(value) => value
    case None => defaultVal
  }

  /** A setting written with `strconv.Itoa` is read back as written. */
  lemma GetEnvAsIntItoa(env: Env, name: string, n: int, defaultVal: int)
    requires Int64Min <= n <= Int64Max
    ensures GetEnvAsInt(env[name := Itoa(n)], name, defaultVal) == n
  {
    AtoiItoa(n);
  }

  /** `getEnvAsBool` (config/config.go:113-120). */
  function GetEnvAsBool(env: Env, name: string, defaultVal: bool): (r: bool)
    ensures name !in env || ParseBool(env[name]).None? ==> r == defaultVal
    ensures name in env && ParseBool(env[name]).Some? ==> r == ParseBool(env[name]).value
  {
    match ParseBool(GetEnv(env, name, ""))
    case Some(value) => value
    case None => defaultVal
  }

  /** A setting written with `strconv.FormatBool` is read back as written. */
  lemma GetEnvAsBoolFormat(env: Env, name: string, b: bool, defaultVal: bool)
    ensures GetEnvAsBool(env[name := FormatBool(b)], name, defaultVal) == b
  {
    ParseFormatBool(b);
  }

  /** `NewConfig` (config/config.go:55-91). */
  function NewConfig(env: Env): (c: Config)
    ensures c.kube.namespace != "" && c.rootSecret != "" && c.environment != ""
    ensures c.db.ssl != "" && c.apiSecret != ""
    ensures "JOBS_TTL" !in env ==> c.kube.jobsTTL == JobsTTLDefault
    ensures "JWT_EXPIRY_SECONDS" !in env ==> c.jwt.expirySeconds == JWTExpirySecondsDefault
  {
    Config(
      GetEnv(env, "ENV", "development"),
      GetEnv(env, "ROOT_SECRET", "kriten-root"),
      GetEnv(env, "API_SECRET_KEY", "api-secret"),
      LDAPConfig(
        GetEnv(env, "LDAP_BIND_USER", ""),
        GetEnv(env, "LDAP_BIND_PASS", ""),
        GetEnv(env, "LDAP_FQDN", ""),
        GetEnv(env, "LDAP_BASE_DN", ""),
        GetEnvAsInt(env, "LDAP_PORT", -1)),
      KubeConfig(GetEnv(env, "NAMESPACE", "kriten"), GetEnvAsInt(env, "JOBS_TTL", JobsTTLDefault)),
      JWTConfig(GetEnv(env, "JWT_KEY", ""), GetEnvAsInt(env, "JWT_EXPIRY_SECONDS", JWTExpirySecondsDefault)),
      DBConfig(
        GetEnv(env, "DB_NAME", ""),
        GetEnv(env, "DB_HOST", ""),
        GetEnv(env, "DB_USER", ""),
        GetEnv(env, "DB_PASSWORD", ""),
        GetEnv(env, "DB_SSL", "disabled"),
        GetEnvAsInt(env, "DB_PORT", -1)),
      GetEnvAsBool(env, "DEBUG_MODE", true))
  }

  /** With nothing set, every setting has its default. */
  lemma DefaultConfig()
    ensures NewConfig(map[]) == Config(
      "development", "kriten-root", "api-secret",
      LDAPConfig("", "", "", "", -1),
      KubeConfig("kriten", 3600),
      JWTConfig("", 3600),
      DBConfig("", "", "", "", "disabled", -1),
      true)
  {
  }

  /** A set, well-formed setting always wins over its default. */
  lemma ConfigReadsEnv(env: Env, namespace: string, ttl: int, debug: bool)
    requires namespace != "" && Int64Min <= ttl <= Int64Max
    ensures var c := NewConfig(env["NAMESPACE" := namespace]["JOBS_TTL" := Itoa(ttl)]["DEBUG_MODE" := FormatBool(debug)]);
      c.kube == KubeConfig(namespace, ttl) && c.debugMode == debug
  {
    AtoiItoa(ttl);
    ParseFormatBool(debug);
  }
}
