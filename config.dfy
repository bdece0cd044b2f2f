/**
 * Configuration read from the process environment (given here as a map, after the .env file
 * has been merged in), with a documented default for every key.
 */
module Config {
  import opened Wrappers
  import opened Strings

  /** One time.Duration unit is a nanosecond. */
  const Hour: int := 3_600_000_000_000

  datatype Config = Config(
    dbHost: string,
    dbPort: string,
    dbUser: string,
    dbPassword: string,
    dbName: string,
    dbSSLMode: string,
    serverPort: string,
    jwtSecret: string,
    jwtExpiry: int,
    appEnv: string,
    kafkaBrokers: string,
    kafkaTopic: string)

  /** os.LookupEnv with a fallback: a key that is set wins even when its value is empty. */
  function GetEnv(env: map<string, string>, key: string, defaultValue: string): (v: string)
    ensures key in env ==> v == env[key]
    ensures key !in env ==> v == defaultValue
  {
    if key in env then env[key] else defaultValue
  }

  /** `v` is what the environment gives `key`: its value when set, even empty, else `defaultValue`. */
  predicate FromEnv(env: map<string, string>, key: string, defaultValue: string, v: string)
  {
    (key in env ==> v == env[key]) && (key !in env ==> v == defaultValue)
  }

  /**
   * LoadConfig. `parseDuration` stands for time.ParseDuration (None when it reports an error);
   * a JWT_EXPIRY it cannot parse falls back to 24 hours. KafkaTopic is never assigned.
   */
  function LoadConfig(env: map<string, string>, parseDuration: string -> Option<int>): (c: Config)
    ensures FromEnv(env, "DB_HOST", "localhost", c.dbHost)
    ensures FromEnv(env, "DB_PORT", "5432", c.dbPort)
    ensures FromEnv(env, "DB_USER", "postgres", c.dbUser)
    ensures FromEnv(env, "DB_PASSWORD", "postgres", c.dbPassword)
    ensures FromEnv(env, "DB_NAME", "student_portal", c.dbName)
    ensures FromEnv(env, "DB_SSLMODE", "disable", c.dbSSLMode)
    ensures FromEnv(env, "SERVER_PORT", "8080", c.serverPort)
    ensures FromEnv(env, "JWT_SECRET", "super-secret-key", c.jwtSecret)
    ensures FromEnv(env, "APP_ENV", "development", c.appEnv)
    ensures FromEnv(env, "KAFKA_BROKER", "localhost:9092", c.kafkaBrokers)
    ensures c.kafkaTopic == ""
    ensures var raw := if "JWT_EXPIRY" in env then env["JWT_EXPIRY"] else "24h";
      c.jwtExpiry == (if parseDuration(raw).Some? then parseDuration(raw).value else 24 * Hour)
  {
    var jwtExpiryStr := GetEnv(env, "JWT_EXPIRY", "24h");
    var expiryDuration := match parseDuration(jwtExpiryStr)
      case Some(d) => d
      case None => 24 * Hour;
    Config(
      GetEnv(env, "DB_HOST", "localhost"),
      GetEnv(env, "DB_PORT", "5432"),
      GetEnv(env, "DB_USER", "postgres"),
      GetEnv(env, "DB_PASSWORD", "postgres"),
      GetEnv(env, "DB_NAME", "student_portal"),
      GetEnv(env, "DB_SSLMODE", "disable"),
      GetEnv(env, "SERVER_PORT", "8080"),
      GetEnv(env, "JWT_SECRET", "super-secret-key"),
      expiryDuration,
      GetEnv(env, "APP_ENV", "development"),
      GetEnv(env, "KAFKA_BROKER", "localhost:9092"),
      "")
  }

  /** With nothing set, the token lifetime is 24 hours whatever the duration parser makes of "24h". */
  lemma DefaultExpiry(parseDuration: string -> Option<int>)
    requires parseDuration("24h").Some? ==> parseDuration("24h").value == 24 * Hour
    ensures LoadConfig(map[], parseDuration).jwtExpiry == 24 * Hour
  {
  }

  /** The PostgreSQL connection URL. */
  function DatabaseURL(c: Config): string
  {
    "postgresql://" + c.dbUser + ":" + c.dbPassword + "@" + c.dbHost + ":" + c.dbPort + "/" + c.dbName
      + "?sslmode=" + c.dbSSLMode
  }

  /** URL components, as a connection library would read them back. */
  datatype UrlParts = UrlParts(user: string, password: string, host: string, port: string, name: string, sslMode: string)

  const Scheme := "postgresql://"
  const SslParam := "sslmode="

  /**
   * Reading a connection URL back into its parts: the user ends at the first ':', the password
   * at the next '@', the host at the next ':', the port at the next '/', the name at the next '?'.
   */
  function ParseDatabaseURL(url: string): Option<UrlParts>
  {
    if |url| < |Scheme| || url[..|Scheme|] != Scheme then None
    else
      match SplitFirst(url[|Scheme|..], ':')
      case None => None
      case Some((user, r1)) =>
        match SplitFirst(r1, '@')
        case None => None
        case Some((password, r2)) =>
          match SplitFirst(r2, ':')
          case None => None
          case Some((host, r3)) =>
            match SplitFirst(r3, '/')
            case None => None
            case Some((port, r4)) =>
              match SplitFirst(r4, '?')
              case None => None
              case Some((name, r5)) =>
                if |r5| < |SslParam| || r5[..|SslParam|] != SslParam then None
                else Some(UrlParts(user, password, host, port, name, r5[|SslParam|..]))
  }

  /** A component is unambiguous in the URL when it does not contain the separator that ends it. */
  predicate Unambiguous(c: Config)
  {
    ':' !in c.dbUser && '@' !in c.dbPassword && ':' !in c.dbHost && '/' !in c.dbPort && '?' !in c.dbName
  }

  /**
   * Round trip: when no component contains the separator that ends it, the URL determines
   * every component. A password containing '@' (say) would be split in the wrong place.
   */
  lemma {:induction false} DatabaseURLRoundTrip(c: Config)
    requires Unambiguous(c)
    ensures ParseDatabaseURL(DatabaseURL(c))
      == Some(UrlParts(c.dbUser, c.dbPassword, c.dbHost, c.dbPort, c.dbName, c.dbSSLMode))
  {
    var r5 := SslParam + c.dbSSLMode;
    var r4 := c.dbName + ['?'] + r5;
    var r3 := c.dbPort + ['/'] + r4;
    var r2 := c.dbHost + [':'] + r3;
    var r1 := c.dbPassword + ['@'] + r2;
    var r0 := c.dbUser + [':'] + r1;
    var url := DatabaseURL(c);
    calc {
      url;
      Scheme + c.dbUser + ":" + c.dbPassword + "@" + c.dbHost + ":" + c.dbPort + "/" + c.dbName + "?" + r5;
      Scheme + c.dbUser + ":" + c.dbPassword + "@" + c.dbHost + ":" + c.dbPort + "/" + r4;
      Scheme + c.dbUser + ":" + c.dbPassword + "@" + c.dbHost + ":" + r3;
      Scheme + c.dbUser + ":" + c.dbPassword + "@" + r2;
      Scheme + c.dbUser + ":" + r1;
      Scheme + r0;
    }
    assert url[..|Scheme|] == Scheme;
    assert url[|Scheme|..] == r0;
    SplitFirstJoin(c.dbUser, ':', r1);
    SplitFirstJoin(c.dbPassword, '@', r2);
    SplitFirstJoin(c.dbHost, ':', r3);
    SplitFirstJoin(c.dbPort, '/', r4);
    SplitFirstJoin(c.dbName, '?', r5);
    assert r5[..|SslParam|] == SslParam;
    assert r5[|SslParam|..] == c.dbSSLMode;
  }

  /** The URL built from the defaults names user and password postgres, localhost:5432, student_portal, sslmode=disable. */
  lemma DefaultDatabaseURL(parseDuration: string -> Option<int>)
    ensures ParseDatabaseURL(DatabaseURL(LoadConfig(map[], parseDuration)))
      == Some(UrlParts("postgres", "postgres", "localhost", "5432", "student_portal", "disable"))
  {
    var c := LoadConfig(map[], parseDuration);
    assert Unambiguous(c);
    DatabaseURLRoundTrip(c);
  }
}
