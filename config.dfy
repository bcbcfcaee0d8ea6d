/**
 * The service configuration (internal/config/config.go): every setting is
 * read from the process environment with a default, and the result is
 * validated before the service starts.  The environment is an input map; a
 * variable that is unset reads as the empty string, as `os.Getenv` does.
 */
module Config {
  import opened Wrappers
  import opened Text

  type Env = map<string, string>

  /** `os.Getenv`: the value of `key`, or "" when it is unset. */
  function Getenv(env: Env, key: string): string
  {
    if key in env then env[key] else ""
  }

  /** A `time.Duration`: a count of nanoseconds. */
  type Duration = int

  const Second: Duration := 1_000_000_000

  datatype ServerConfig = ServerConfig(port: int, ginMode: string)

  datatype MetadataDBConfig = MetadataDBConfig(
    host: string,
    port: int,
    username: string,
    password: string,
    database: string,
    params: string)

  datatype SecurityConfig = SecurityConfig(encryptionKey: string, jwtSecret: string)

  datatype LoggingConfig = LoggingConfig(level: string, format: string)

  datatype ApiConfig = ApiConfig(version: string, timeout: Duration)

  datatype Config = Config(
    server: ServerConfig,
    metadataDB: MetadataDBConfig,
    security: SecurityConfig,
    logging: LoggingConfig,
    api: ApiConfig)

  // ---------------------------------------------------------------------
  // Reading the environment

  /** `getStringEnv`: the variable's value unless it is empty or unset, else the default. */
  function GetStringEnv(env: Env, key: string, defaultValue: string): (r: string)
    ensures Getenv(env, key) != "" ==> r == Getenv(env, key)
    ensures Getenv(env, key) == "" ==> r == defaultValue
  {
    var value := Getenv(env, key);
    if value != "" then value else defaultValue
  }

  /**
   * `getIntEnv`: the variable's value when `strconv.Atoi` accepts it, else
   * the default (also when it is empty or unset).
   */
  function GetIntEnv(env: Env, key: string, defaultValue: int): (r: int)
    ensures Atoi(Getenv(env, key)).Some? ==> r == Atoi(Getenv(env, key)).value
    ensures Atoi(Getenv(env, key)).None? ==> r == defaultValue
  {
    var value := Getenv(env, key);
    if value != "" then
      match Atoi(value)
      case Some(n) => n
      case None => defaultValue
    else defaultValue
  }

  /**
   * `getDurationEnv`: the variable's value when the duration parser accepts
   * it, else the default.  `time.ParseDuration` is not part of this model: it
   * is the parameter `parseDuration`.
   */
  function GetDurationEnv(env: Env, key: string, defaultValue: Duration, parseDuration: string -> Option<Duration>)
    : (r: Duration)
    ensures Getenv(env, key) != "" && parseDuration(Getenv(env, key)).Some? ==> r == parseDuration(Getenv(env, key)).value
    ensures Getenv(env, key) == "" || parseDuration(Getenv(env, key)).None? ==> r == defaultValue
  {
    var value := Getenv(env, key);
    if value != "" then
      match parseDuration(value)
      case Some(d) => d
      case None => defaultValue
    else defaultValue
  }

  /** A string setting never reads as empty when its default is not empty. */
  lemma StringEnvNeverEmpty(env: Env, key: string, defaultValue: string)
    requires defaultValue != ""
    ensures GetStringEnv(env, key, defaultValue) != ""
  {
  }

  /** An integer setting written as Go's `%d` of an `int64` is read back as that integer. */
  lemma IntEnvRoundTrip(env: Env, key: string, n: int, defaultValue: int)
    requires MinInt64 <= n <= MaxInt64
    requires key in env && env[key] == DecimalString(n)
    ensures GetIntEnv(env, key, defaultValue) == n
  {
    AtoiOfDecimalString(n);
  }

  /**
   * An integer setting with a character that is neither a digit nor a
   * leading sign is not a numeral, and falls back to the default.
   */
  lemma IntEnvRejectsNonNumerals(env: Env, key: string, defaultValue: int)
    requires key in env
    requires exists i :: 0 <= i < |env[key]| && !IsDigit(env[key][i]) && !(i == 0 && env[key][i] in "+-")
    ensures GetIntEnv(env, key, defaultValue) == defaultValue
  {
    var v := env[key];
    var i :| 0 <= i < |v| && !IsDigit(v[i]) && !(i == 0 && v[i] in "+-");
    if v[0] == '-' || v[0] == '+' {
      assert v[1..][i - 1] == v[i];
    }
  }

  // ---------------------------------------------------------------------
  // Loading and validation

  const DefaultParams: string := "parseTime=true&charset=utf8mb4&loc=UTC"

  /** The configuration `Load` builds from `env`, before validation. */
  function FromEnv(env: Env, parseDuration: string -> Option<Duration>): Config
  {
    Config(
      ServerConfig(GetIntEnv(env, "PORT", 8080), GetStringEnv(env, "GIN_MODE", "release")),
      MetadataDBConfig(
        GetStringEnv(env, "METADATA_DB_HOST", "localhost"),
        GetIntEnv(env, "METADATA_DB_PORT", 3306),
        GetStringEnv(env, "METADATA_DB_USER", "metauser"),
        GetStringEnv(env, "METADATA_DB_PASSWORD", "metapass"),
        GetStringEnv(env, "METADATA_DB_NAME", "classifier_meta"),
        GetStringEnv(env, "METADATA_DB_PARAMS", DefaultParams)),
      SecurityConfig(GetStringEnv(env, "ENCRYPTION_KEY", ""), GetStringEnv(env, "JWT_SECRET", "")),
      LoggingConfig(GetStringEnv(env, "LOG_LEVEL", "info"), GetStringEnv(env, "LOG_FORMAT", "json")),
      ApiConfig(GetStringEnv(env, "API_VERSION", "v1"), GetDurationEnv(env, "API_TIMEOUT", 30 * Second, parseDuration)))
  }

  /** The length of an AES-256 key in bytes. */
  const KeyLength: nat := 32

  /**
   * `validate`: the first requirement that `c` does not meet, as its error
   * message, or `None` when it meets them all.
   */
  function Validate(c: Config): (r: Option<string>)
    ensures r.None? <==>
              && ByteLength(c.security.encryptionKey) == KeyLength
              && c.security.jwtSecret != ""
              && c.metadataDB.host != ""
              && c.metadataDB.username != ""
              && c.metadataDB.password != ""
              && c.metadataDB.database != ""
    ensures c.security.encryptionKey == "" ==> r == Some("ENCRYPTION_KEY is required")
    ensures c.security.encryptionKey != "" && ByteLength(c.security.encryptionKey) != KeyLength ==>
              r == Some("ENCRYPTION_KEY must be exactly 32 characters")
  {
    if c.security.encryptionKey == "" then Some("ENCRYPTION_KEY is required")
    else if ByteLength(c.security.encryptionKey) != KeyLength then Some("ENCRYPTION_KEY must be exactly 32 characters")
    else if c.security.jwtSecret == "" then Some("JWT_SECRET is required")
    else if c.metadataDB.host == "" then Some("METADATA_DB_HOST is required")
    else if c.metadataDB.username == "" then Some("METADATA_DB_USER is required")
    else if c.metadataDB.password == "" then Some("METADATA_DB_PASSWORD is required")
    else if c.metadataDB.database == "" then Some("METADATA_DB_NAME is required")
    else None
  }

  /** One requirement of the configuration: whether it holds, and the message when it does not. */
  datatype Requirement = Requirement(holds: bool, message: string)

  /** The requirements `validate` checks, in the order it checks them. */
  function Requirements(c: Config): seq<Requirement>
  {
    [ Requirement(c.security.encryptionKey != "", "ENCRYPTION_KEY is required"),
      Requirement(ByteLength(c.security.encryptionKey) == KeyLength, "ENCRYPTION_KEY must be exactly 32 characters"),
      Requirement(c.security.jwtSecret != "", "JWT_SECRET is required"),
      Requirement(c.metadataDB.host != "", "METADATA_DB_HOST is required"),
      Requirement(c.metadataDB.username != "", "METADATA_DB_USER is required"),
      Requirement(c.metadataDB.password != "", "METADATA_DB_PASSWORD is required"),
      Requirement(c.metadataDB.database != "", "METADATA_DB_NAME is required") ]
  }

  /** The message of the first requirement of `rs` that does not hold. */
  function FirstUnmet(rs: seq<Requirement>): (r: Option<string>)
    ensures r.None? <==> forall i :: 0 <= i < |rs| ==> rs[i].holds
  {
    if rs == [] then None
    else if !rs[0].holds then Some(rs[0].message)
    else FirstUnmet(rs[1..])
  }

  /** The message `FirstUnmet` reports is that of an unmet requirement all of whose predecessors hold. */
  lemma {:induction false} FirstUnmetIsFirst(rs: seq<Requirement>)
    requires FirstUnmet(rs).Some?
    ensures exists i :: 0 <= i < |rs| && !rs[i].holds && FirstUnmet(rs).value == rs[i].message
                        && forall j :: 0 <= j < i ==> rs[j].holds
  {
    if rs[0].holds {
      FirstUnmetIsFirst(rs[1..]);
      var i :| 0 <= i < |rs[1..]| && !rs[1..][i].holds && FirstUnmet(rs[1..]).value == rs[1..][i].message
               && forall j :: 0 <= j < i ==> rs[1..][j].holds;
      assert !rs[i + 1].holds && forall j :: 0 <= j < i + 1 ==> rs[j].holds;
    } else {
      assert !rs[0].holds;
    }
  }

  lemma FirstUnmetFrom(rs: seq<Requirement>, k: nat)
    requires k < |rs|
    ensures FirstUnmet(rs[k..]) == if !rs[k].holds then Some(rs[k].message) else FirstUnmet(rs[k + 1..])
  {
    assert rs[k..][1..] == rs[k + 1..];
  }

  /** `validate` reports the first requirement, in its fixed order, that the configuration fails. */
  lemma ValidateReportsFirstUnmet(c: Config)
    ensures Validate(c) == FirstUnmet(Requirements(c))
  {
    var rs := Requirements(c);
    assert rs[0..] == rs && rs[7..] == [];
    FirstUnmetFrom(rs, 6);
    FirstUnmetFrom(rs, 5);
    FirstUnmetFrom(rs, 4);
    FirstUnmetFrom(rs, 3);
    FirstUnmetFrom(rs, 2);
    FirstUnmetFrom(rs, 1);
    FirstUnmetFrom(rs, 0);
  }

  /** The error prefix `Load` puts before the validation message. */
  const LoadErrorPrefix: string := "configuration validation failed: "

  /** `Load`: the configuration read from `env`, or the wrapped validation error. */
  function Load(env: Env, parseDuration: string -> Option<Duration>): (r: Result<Config, string>)
    ensures r.Success? <==> Validate(FromEnv(env, parseDuration)).None?
    ensures r.Success? ==> r.value == FromEnv(env, parseDuration)
    ensures r.Failure? ==> r.error == LoadErrorPrefix + Validate(FromEnv(env, parseDuration)).value
  {
    var cfg := FromEnv(env, parseDuration);
    match Validate(cfg)
    case Some(e) => Failure(LoadErrorPrefix + e)
    case None => Success(cfg)
  }

  /**
   * Every database setting has a non-empty default, so `Load` depends only
   * on the two secrets: it succeeds exactly when the encryption key is 32
   * bytes long and the JWT secret is set, and its error is always about one
   * of those two.
   */
  lemma LoadNeedsOnlySecrets(env: Env, parseDuration: string -> Option<Duration>)
    ensures Load(env, parseDuration).Success? <==>
              ByteLength(Getenv(env, "ENCRYPTION_KEY")) == KeyLength && Getenv(env, "JWT_SECRET") != ""
    ensures Load(env, parseDuration).Failure? ==>
              Load(env, parseDuration).error in
                { LoadErrorPrefix + "ENCRYPTION_KEY is required",
                  LoadErrorPrefix + "ENCRYPTION_KEY must be exactly 32 characters",
                  LoadErrorPrefix + "JWT_SECRET is required" }
  {
    var c := FromEnv(env, parseDuration);
    StringEnvNeverEmpty(env, "METADATA_DB_HOST", "localhost");
    StringEnvNeverEmpty(env, "METADATA_DB_USER", "metauser");
    StringEnvNeverEmpty(env, "METADATA_DB_PASSWORD", "metapass");
    StringEnvNeverEmpty(env, "METADATA_DB_NAME", "classifier_meta");
  }
}
