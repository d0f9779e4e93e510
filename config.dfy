/**
 * The configuration loader of the API (package `config`).
 *
 * The process environment is an input snapshot: a map from variable names to
 * values, in which a name that is absent reads as the empty string, as
 * `os.Getenv` does. The `.env` file the loader reads first only adds to that
 * environment, so its effect is already part of the snapshot.
 */
module Config {
  import Conninfo

  datatype Result<+T, +E> = Success(value: T) | Failure(error: E)

  /** A snapshot of the process environment. */
  type Env = map<string, string>

  datatype ServerConfig = ServerConfig(port: string, env: string)

  datatype DatabaseConfig = DatabaseConfig(
    host: string,
    port: string,
    user: string,
    password: string,
    dbName: string,
    sslMode: string)

  datatype JWTConfig = JWTConfig(secret: string, expirationTime: string)

  datatype Config = Config(server: ServerConfig, database: DatabaseConfig, jwt: JWTConfig)

  /** The error `Load` reports when no JWT secret is set. */
  const SecretMissing := "JWT_SECRET não definido no arquivo .env"

  /** The variables `Load` reads, each with the default it falls back to. */
  const Defaults: map<string, string> := map[
    "PORT" := "8080",
    "ENV" := "development",
    "DB_HOST" := "localhost",
    "DB_PORT" := "5432",
    "DB_USER" := "postgres",
    "DB_PASSWORD" := "postgres",
    "DB_NAME" := "smarttodo_db",
    "DB_SSLMODE" := "disable",
    "JWT_SECRET" := "",
    "JWT_EXPIRATION" := "24h"]

  /** The variables that make up the database settings. */
  const DatabaseVars: set<string> :=
    {"DB_HOST", "DB_PORT", "DB_USER", "DB_PASSWORD", "DB_NAME", "DB_SSLMODE"}

  /** The field of a configuration that the variable `name` fills. */
  function Field(c: Config, name: string): string
  {
    if name == "PORT" then c.server.port
    else if name == "ENV" then c.server.env
    else if name == "DB_HOST" then c.database.host
    else if name == "DB_PORT" then c.database.port
    else if name == "DB_USER" then c.database.user
    else if name == "DB_PASSWORD" then c.database.password
    else if name == "DB_NAME" then c.database.dbName
    else if name == "DB_SSLMODE" then c.database.sslMode
    else if name == "JWT_SECRET" then c.jwt.secret
    else if name == "JWT_EXPIRATION" then c.jwt.expirationTime
    else ""
  }

  /** `os.Getenv`: the value of a variable, or "" when it is not set. */
  function OsGetenv(env: Env, key: string): string
  {
    if key in env then env[key] else ""
  }

  /**
   * `v` is what a lookup of `key` with default `d` should give in `env`.
   * This is `GetEnv`'s rule as a predicate, so that `LoadedFrom` can state the
   * table without calling `GetEnv`; `GetEnv`'s other two ensures carry its
   * contract.
   */
  predicate Resolves(env: Env, key: string, d: string, v: string)
  {
    if key in env && env[key] != "" then v == env[key] else v == d
  }

  /** Every one of the ten fields of `c` is resolved from `env` with its default. */
  predicate LoadedFrom(env: Env, c: Config)
  {
    forall name :: name in Defaults ==> Resolves(env, name, Defaults[name], Field(c, name))
  }

  /**
   * `getEnv`: the value of `key` when it is set to something non-empty,
   * otherwise `defaultValue`.
   */
  function GetEnv(env: Env, key: string, defaultValue: string): (v: string)
    ensures Resolves(env, key, defaultValue, v)
    ensures v == defaultValue <==> OsGetenv(env, key) == "" || OsGetenv(env, key) == defaultValue
    ensures v == "" <==> defaultValue == "" && (key !in env || env[key] == "")
  {
    var value := OsGetenv(env, key);
    if value == "" then defaultValue else value
  }

  /**
   * `Load`: builds the configuration from the environment. It fails, with
   * `SecretMissing`, exactly when JWT_SECRET is unset or empty; otherwise
   * every field is the variable's non-empty value or its default.
   */
  function Load(env: Env): (r: Result<Config, string>)
    ensures r.Failure? <==> OsGetenv(env, "JWT_SECRET") == ""
    ensures r.Failure? ==> r.error == SecretMissing
    ensures r.Success? ==> LoadedFrom(env, r.value)
    ensures r.Success? ==> "JWT_SECRET" in env && r.value.jwt.secret == env["JWT_SECRET"]
    ensures r.Success? ==> r.value.jwt.secret != ""
  {
    var config := Config(
      ServerConfig(
        GetEnv(env, "PORT", "8080"),
        GetEnv(env, "ENV", "development")),
      DatabaseConfig(
        GetEnv(env, "DB_HOST", "localhost"),
        GetEnv(env, "DB_PORT", "5432"),
        GetEnv(env, "DB_USER", "postgres"),
        GetEnv(env, "DB_PASSWORD", "postgres"),
        GetEnv(env, "DB_NAME", "smarttodo_db"),
        GetEnv(env, "DB_SSLMODE", "disable")),
      JWTConfig(
        GetEnv(env, "JWT_SECRET", ""),
        GetEnv(env, "JWT_EXPIRATION", "24h")));
    if config.jwt.secret == "" then Failure(SecretMissing) else Success(config)
  }

  /** The six database settings as keyword/value pairs, in connection-string order. */
  function DsnPairs(db: DatabaseConfig): seq<Conninfo.Pair>
  {
    [("host", db.host), ("port", db.port), ("user", db.user),
     ("password", db.password), ("dbname", db.dbName), ("sslmode", db.sslMode)]
  }

  /**
   * `GetDSN`: the connection string of the database settings: the six
   * settings in fixed order, in the keyword/value format, values verbatim.
   */
  function GetDSN(db: DatabaseConfig): (dsn: string)
    ensures dsn == Conninfo.Join(DsnPairs(db))
  {
    DsnIsJoin(db);
    DsnText(db)
  }

  /**
   * The text `GetDSN` formats, field by field. It is `GetDSN`'s body under a
   * name of its own, so that `DsnIsJoin` can relate it to `Conninfo.Join`.
   */
  function DsnText(db: DatabaseConfig): string
  {
    "host=" + db.host + " port=" + db.port + " user=" + db.user
      + " password=" + db.password + " dbname=" + db.dbName + " sslmode=" + db.sslMode
  }

  /** Appending ` key=value` to a prefix is appending a separator and a setting. */
  lemma AppendSetting(prefix: string, p: Conninfo.Pair)
    ensures prefix + (" " + p.0 + "=") + p.1 == prefix + " " + Conninfo.Setting(p)
  {
  }

  lemma DsnIsJoin(db: DatabaseConfig)
    ensures DsnText(db) == Conninfo.Join(DsnPairs(db))
  {
    var ps := DsnPairs(db);
    Conninfo.JoinIsJoinLeft(ps);
    var d1 := "host=" + db.host;
    assert d1 == Conninfo.JoinLeft(ps[..1]);
    AppendSetting(d1, ps[1]);
    var d2 := d1 + " port=" + db.port;
    assert d2 == Conninfo.JoinLeft(ps[..2]) by { assert ps[..2][..1] == ps[..1]; }
    AppendSetting(d2, ps[2]);
    var d3 := d2 + " user=" + db.user;
    assert d3 == Conninfo.JoinLeft(ps[..3]) by { assert ps[..3][..2] == ps[..2]; }
    AppendSetting(d3, ps[3]);
    var d4 := d3 + " password=" + db.password;
    assert d4 == Conninfo.JoinLeft(ps[..4]) by { assert ps[..4][..3] == ps[..3]; }
    AppendSetting(d4, ps[4]);
    var d5 := d4 + " dbname=" + db.dbName;
    assert d5 == Conninfo.JoinLeft(ps[..5]) by { assert ps[..5][..4] == ps[..4]; }
    AppendSetting(d5, ps[5]);
    var d6 := d5 + " sslmode=" + db.sslMode;
    assert d6 == Conninfo.JoinLeft(ps) by { assert ps[..6] == ps; assert ps[..6][..5] == ps[..5]; }
  }

  /**
   * Setting a variable to a non-empty value makes the lookup return it;
   * setting it to "" or removing it makes the lookup return the default;
   * neither changes the lookup of any other variable.
   */
  lemma GetEnvUpdate(env: Env, key: string, x: string, other: string, d: string)
    requires other != key
    ensures GetEnv(env[key := x], key, d) == if x == "" then d else x
    ensures GetEnv(env - {key}, key, d) == d
    ensures GetEnv(env[key := x], other, d) == GetEnv(env, other, d)
    ensures GetEnv(env - {key}, other, d) == GetEnv(env, other, d)
  {
  }

  /** The table-driven specification, field by field. */
  lemma LoadedFromFields(env: Env, c: Config)
    requires LoadedFrom(env, c)
    ensures Resolves(env, "PORT", "8080", c.server.port)
    ensures Resolves(env, "ENV", "development", c.server.env)
    ensures Resolves(env, "DB_HOST", "localhost", c.database.host)
    ensures Resolves(env, "DB_PORT", "5432", c.database.port)
    ensures Resolves(env, "DB_USER", "postgres", c.database.user)
    ensures Resolves(env, "DB_PASSWORD", "postgres", c.database.password)
    ensures Resolves(env, "DB_NAME", "smarttodo_db", c.database.dbName)
    ensures Resolves(env, "DB_SSLMODE", "disable", c.database.sslMode)
    ensures Resolves(env, "JWT_SECRET", "", c.jwt.secret)
    ensures Resolves(env, "JWT_EXPIRATION", "24h", c.jwt.expirationTime)
  {
    assert Resolves(env, "PORT", Defaults["PORT"], Field(c, "PORT"));
    assert Resolves(env, "ENV", Defaults["ENV"], Field(c, "ENV"));
    assert Resolves(env, "DB_HOST", Defaults["DB_HOST"], Field(c, "DB_HOST"));
    assert Resolves(env, "DB_PORT", Defaults["DB_PORT"], Field(c, "DB_PORT"));
    assert Resolves(env, "DB_USER", Defaults["DB_USER"], Field(c, "DB_USER"));
    assert Resolves(env, "DB_PASSWORD", Defaults["DB_PASSWORD"], Field(c, "DB_PASSWORD"));
    assert Resolves(env, "DB_NAME", Defaults["DB_NAME"], Field(c, "DB_NAME"));
    assert Resolves(env, "DB_SSLMODE", Defaults["DB_SSLMODE"], Field(c, "DB_SSLMODE"));
    assert Resolves(env, "JWT_SECRET", Defaults["JWT_SECRET"], Field(c, "JWT_SECRET"));
    assert Resolves(env, "JWT_EXPIRATION", Defaults["JWT_EXPIRATION"], Field(c, "JWT_EXPIRATION"));
  }

  /** A variable that reads the same in two environments resolves to the same value. */
  lemma SameResolution(e1: Env, e2: Env, name: string, d: string, v1: string, v2: string)
    requires Resolves(e1, name, d, v1) && Resolves(e2, name, d, v2)
    requires OsGetenv(e1, name) == OsGetenv(e2, name)
    ensures v1 == v2
  {
  }

  /**
   * Configurations resolved from two environments that agree on the ten
   * variables are equal; in particular, one environment determines the
   * configuration completely.
   */
  lemma LoadedFromUnique(e1: Env, e2: Env, c1: Config, c2: Config)
    requires LoadedFrom(e1, c1) && LoadedFrom(e2, c2)
    requires forall name :: name in Defaults ==> OsGetenv(e1, name) == OsGetenv(e2, name)
    ensures c1 == c2
  {
    LoadedFromFields(e1, c1);
    LoadedFromFields(e2, c2);
    SameResolution(e1, e2, "PORT", "8080", c1.server.port, c2.server.port);
    SameResolution(e1, e2, "ENV", "development", c1.server.env, c2.server.env);
    SameResolution(e1, e2, "DB_HOST", "localhost", c1.database.host, c2.database.host);
    SameResolution(e1, e2, "DB_PORT", "5432", c1.database.port, c2.database.port);
    SameResolution(e1, e2, "DB_USER", "postgres", c1.database.user, c2.database.user);
    SameResolution(e1, e2, "DB_PASSWORD", "postgres", c1.database.password, c2.database.password);
    SameResolution(e1, e2, "DB_NAME", "smarttodo_db", c1.database.dbName, c2.database.dbName);
    SameResolution(e1, e2, "DB_SSLMODE", "disable", c1.database.sslMode, c2.database.sslMode);
    SameResolution(e1, e2, "JWT_SECRET", "", c1.jwt.secret, c2.jwt.secret);
    SameResolution(e1, e2, "JWT_EXPIRATION", "24h", c1.jwt.expirationTime, c2.jwt.expirationTime);
  }

  /**
   * `Load` reads nothing but its ten variables: two environments that agree
   * on them give the same result, whatever else they hold.
   */
  lemma LoadReadsOnlyItsVariables(e1: Env, e2: Env)
    requires forall name :: name in Defaults ==> OsGetenv(e1, name) == OsGetenv(e2, name)
    ensures Load(e1) == Load(e2)
  {
    assert OsGetenv(e1, "JWT_SECRET") == OsGetenv(e2, "JWT_SECRET");
    var r1, r2 := Load(e1), Load(e2);
    if r1.Success? {
      LoadedFromUnique(e1, e2, r1.value, r2.value);
    }
  }

  /** Every field of a loaded configuration is non-empty. */
  lemma LoadedFieldsNonEmpty(env: Env, c: Config)
    requires Load(env) == Success(c)
    ensures c.server.port != "" && c.server.env != ""
    ensures c.database.host != "" && c.database.port != "" && c.database.user != ""
    ensures c.database.password != "" && c.database.dbName != "" && c.database.sslMode != ""
    ensures c.jwt.secret != "" && c.jwt.expirationTime != ""
  {
    LoadedFromFields(env, c);
  }

  /**
   * With only a JWT secret set, `Load` gives the documented defaults for
   * every other field.
   */
  lemma LoadDefaults(secret: string)
    requires secret != ""
    ensures Load(map["JWT_SECRET" := secret]) == Success(Config(
      ServerConfig("8080", "development"),
      DatabaseConfig("localhost", "5432", "postgres", "postgres", "smarttodo_db", "disable"),
      JWTConfig(secret, "24h")))
  {
  }

  /**
   * The connection string of a loaded configuration depends only on the six
   * database variables: the server and JWT variables do not change it.
   */
  lemma LoadedDsnReadsOnlyDatabaseVars(e1: Env, e2: Env, c1: Config, c2: Config)
    requires Load(e1) == Success(c1) && Load(e2) == Success(c2)
    requires forall name :: name in DatabaseVars ==> OsGetenv(e1, name) == OsGetenv(e2, name)
    ensures GetDSN(c1.database) == GetDSN(c2.database)
  {
    LoadedFromFields(e1, c1);
    LoadedFromFields(e2, c2);
    var d1, d2 := c1.database, c2.database;
    assert "DB_HOST" in DatabaseVars && "DB_PORT" in DatabaseVars && "DB_USER" in DatabaseVars;
    assert "DB_PASSWORD" in DatabaseVars && "DB_NAME" in DatabaseVars && "DB_SSLMODE" in DatabaseVars;
    SameResolution(e1, e2, "DB_HOST", "localhost", d1.host, d2.host);
    SameResolution(e1, e2, "DB_PORT", "5432", d1.port, d2.port);
    SameResolution(e1, e2, "DB_USER", "postgres", d1.user, d2.user);
    SameResolution(e1, e2, "DB_PASSWORD", "postgres", d1.password, d2.password);
    SameResolution(e1, e2, "DB_NAME", "smarttodo_db", d1.dbName, d2.dbName);
    SameResolution(e1, e2, "DB_SSLMODE", "disable", d1.sslMode, d2.sslMode);
    assert d1 == d2;
  }
}
