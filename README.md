# SmartTodo+ API configuration loader, in Dafny

This project models the configuration loader of the SmartTodo+ API
(package `config`), together with the status mapping of its health endpoint.

- The process environment is a snapshot, `Config.Env = map<string, string>`.
  A variable that is absent reads as the empty string, as `os.Getenv` does
  (`Config.OsGetenv`).
- `Config.GetEnv` is `getEnv`: it returns the variable's value when that
  value is non-empty, and the default otherwise.
- `Config.Load` is `Load`. It builds the three-part `Config` (server,
  database, JWT) from ten fixed variables and their defaults. It returns
  `Failure(SecretMissing)` exactly when `JWT_SECRET` is unset or empty. Go's
  `(nil, err)` / `(cfg, nil)` pair becomes `Result<Config, string>`.
- `Config.GetDSN` is `DatabaseConfig.GetDSN`. It writes the six database
  settings as a PostgreSQL keyword/value connection string, in fixed order,
  with values inserted verbatim.

Partners used to state what these operations mean:

- `Config.Defaults` is the table of the ten variable names and their
  defaults. `Config.LoadedFrom` says that every field of a configuration is
  resolved from the environment by that table. It is stated on map
  membership, independently of `GetEnv`.
- Module `Conninfo` is the keyword/value format on its own. `Join` writes it.
  `Parse` is a simple reference reader: split at spaces, then split each word
  at its first `=`. The two are proved inverse on non-empty plain lists of
  settings (`ParseJoin`) and on everything `Parse` accepts (`JoinParse`);
  `Parse` rejects the empty string that `Join` writes for no settings.
  `Parse` is not the driver's parser; the differences are listed under
  "Left out".
- Module `Dsn` reads a connection string back into database settings
  (`ReadDSN`, built on `Parse`). It proves that this undoes `GetDSN` when no
  setting holds a space. Because values are not quoted, it also proves that
  two different configurations can otherwise share one string.

## Model

| member | source | states |
|---|---|---|
| Config.GetEnv | internal/config/config.go:72-78 | The result is the variable's value, verbatim, when it is set and non-empty, and the default otherwise. It equals the default exactly when the variable is unset, empty or equal to the default. It is empty only when the default is empty and the variable is unset or empty, so a non-empty default never yields "". |
| Config.GetEnvUpdate | internal/config/config.go:72-78 | Setting a variable to a non-empty value makes the lookup return that value. Setting it to "" or removing it makes the lookup return the default. Neither changes the lookup of any other variable. |
| Config.Load | internal/config/config.go:37-69 | Fails exactly when JWT_SECRET resolves to "" (unset or empty, since its default is ""), and then with the fixed error message. On success, every one of the ten fields is resolved from its variable and default as listed in the `Defaults` table. The secret is the environment's own non-empty JWT_SECRET value. |
| Config.LoadedFromUnique | internal/config/config.go:44-61 | The table-driven specification determines the configuration: two configurations resolved from environments that agree on the ten variables are equal. |
| Config.LoadReadsOnlyItsVariables | internal/config/config.go:44-67 | Two environments that agree on the ten variables give the same result from `Load`, success or failure, whatever else they hold. |
| Config.LoadedFieldsNonEmpty | internal/config/config.go:44-67 | Every field of a successfully loaded configuration is non-empty: nine because their defaults are non-empty, the secret because of the check. |
| Config.LoadDefaults | internal/config/config.go:44-61 | With only JWT_SECRET set, `Load` returns port "8080", env "development", host "localhost", port "5432", user and password "postgres", database "smarttodo_db", sslmode "disable" and expiration "24h". |
| Config.GetDSN | internal/config/config.go:81-86 | The connection string is the keyword/value join of host, port, user, password, dbname and sslmode, in that order, separated by single spaces, with the values unquoted. |
| Config.LoadedDsnReadsOnlyDatabaseVars | internal/config/config.go:49-56 | For two successful loads whose six DB_ variables agree, the connection strings are equal, whatever the server and JWT variables are. |
| Conninfo.ParseJoin | internal/config/config.go:82-84 | Reading back a keyword/value string gives the same settings, for a non-empty list of settings in which no keyword holds a space or "=" and no value holds a space. |
| Conninfo.JoinParse | internal/config/config.go:82-84 | Every string the reader accepts is exactly the string `Join` writes for the settings it read. |
| Dsn.ReadDSN | internal/config/config.go:81-86 | Any string the reader turns into database settings is exactly the string `GetDSN` writes for them. |
| Dsn.ReadGetDSN | internal/config/config.go:81-86 | Database settings with no space in any field are read back unchanged from their connection string by the reference reader. |
| Dsn.GetDSNInjective | internal/config/config.go:81-86 | Two different space-free database settings never give the same connection string. |
| Dsn.ShiftIntoPassword | internal/config/config.go:82-84 | Moving the text " password=" + x from the end of the user name to the start of the password leaves the connection string unchanged. |
| Dsn.GetDSNAmbiguous | internal/config/config.go:82-84 | Because values are inserted verbatim, two different database settings can share one connection string. |
| Dsn.LoadedDsnRoundTrip | internal/config/config.go:49-56 | When none of the six DB_ variables holds a space, the reference reader reads the connection string of a loaded configuration back as exactly its database settings. |
| Health.HealthCheck | cmd/api/main.go:62-78 | The status is 200 exactly when the database ping succeeded, and 503 otherwise. The body is exactly `{"status":"healthy","database":"connected"}` after a successful ping and `{"status":"unhealthy","database":"connected"}` after a failed one, so the "database" field reads "connected" on both paths. |
| Health.HealthBodyInjective | cmd/api/main.go:77 | Two bodies built from the format are equal only when their status words are equal: the text around the status is fixed. |
| Health.HealthBodiesDiffer | cmd/api/main.go:67-77 | Both outcomes use the same body format, with status word "healthy" or "unhealthy", and the two bodies differ; only the status word tells them apart. |

## Left out

- Reading the `.env` file (`godotenv.Load`) and the log line when it cannot be loaded (internal/config/config.go:39-41). These are I/O. The file only adds variables to the environment, so its effect is taken to be part of the input map. godotenv leaves variables that are already set unchanged; that merge is not modelled.
- Conninfo.Parse: a reference reader for stating what `GetDSN` writes, not a model of the driver's parser. The driver reads three kinds of input differently. (1) It skips blanks after `=`, so an empty value takes the next setting as its value; the format writes an empty value as `''`. `Load` never produces an empty database field (`Config.LoadedFieldsNonEmpty`), but `GetDSN` alone can. (2) It splits at any whitespace, so a tab or newline inside a value also splits it, although such a value is space-free. (3) A backslash is an escape, and a leading `'` starts a quoted value. So the round trips of `Dsn.ReadGetDSN` and `Dsn.LoadedDsnRoundTrip` hold for the reference reader; a value with a tab, newline, backslash or leading quote would not reach the driver as written.
- cmd/api/main.go apart from the health status mapping: router, middleware order, CORS options, server timeouts, listener goroutine, signal wait and the `GET /` handler. These are HTTP wiring and concurrency; the root handler always returns one fixed response.
- The database ping behind `GET /health` (cmd/api/main.go:64-65) is I/O; its outcome is the `pingOk` input of `Health.HealthCheck`. Writing the response (headers, `Write`) is not modelled.
- The error from `db.DB()` is discarded at cmd/api/main.go:64. If that call failed, `Ping` on the missing handle would panic, and the recovery middleware would answer 500. `Health.HealthCheck` has no such outcome; it assumes the handle exists.
- internal/infrastructure/database/postgres.go: opening the connection, pool setters (10 idle, 100 open, one hour lifetime), ping and close are foreign calls into GORM and `database/sql`, and `NowFunc` reads the clock.
