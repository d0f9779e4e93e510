/**
 * What the connection string built by `GetDSN` says about the database
 * settings it was built from.
 *
 * `ReadDSN` recovers the six settings from a connection string. It is the
 * inverse of `GetDSN` as long as no setting holds a space (ReadGetDSN), so
 * on such settings two different configurations never share a connection
 * string (GetDSNInjective). Because `GetDSN` writes values verbatim, without
 * quoting, a value holding a space breaks this: two different
 * configurations can give the same string (GetDSNAmbiguous).
 */
module Dsn {
  import Conninfo
  import opened Config

  /** No field of the database settings holds a space. */
  predicate SpaceFree(db: DatabaseConfig)
  {
    ' ' !in db.host && ' ' !in db.port && ' ' !in db.user
      && ' ' !in db.password && ' ' !in db.dbName && ' ' !in db.sslMode
  }

  /**
   * Reads a connection string back into database settings: exactly six
   * settings, with the keywords `GetDSN` writes, in its order. Whatever it
   * accepts is exactly the string `GetDSN` writes for the result.
   */
  function ReadDSN(s: string): (r: Conninfo.Option<DatabaseConfig>)
    ensures r.Some? ==> GetDSN(r.value) == s
  {
    match Conninfo.Parse(s)
    case None => Conninfo.None
    case Some(ps) =>
      if |ps| == 6 && ps[0].0 == "host" && ps[1].0 == "port" && ps[2].0 == "user"
        && ps[3].0 == "password" && ps[4].0 == "dbname" && ps[5].0 == "sslmode"
      then
        var db := DatabaseConfig(ps[0].1, ps[1].1, ps[2].1, ps[3].1, ps[4].1, ps[5].1);
        Conninfo.JoinParse(s);
        DsnPairsOfRead(ps);
        Conninfo.Some(db)
      else Conninfo.None
  }

  lemma DsnPairsOfRead(ps: seq<Conninfo.Pair>)
    requires |ps| == 6 && ps[0].0 == "host" && ps[1].0 == "port" && ps[2].0 == "user"
    requires ps[3].0 == "password" && ps[4].0 == "dbname" && ps[5].0 == "sslmode"
    ensures DsnPairs(DatabaseConfig(ps[0].1, ps[1].1, ps[2].1, ps[3].1, ps[4].1, ps[5].1)) == ps
  {
    var qs := DsnPairs(DatabaseConfig(ps[0].1, ps[1].1, ps[2].1, ps[3].1, ps[4].1, ps[5].1));
    assert |qs| == 6;
    assert forall i :: 0 <= i < 6 ==> qs[i] == ps[i];
  }

  /** Settings without spaces are read back from their connection string unchanged. */
  lemma ReadGetDSN(db: DatabaseConfig)
    requires SpaceFree(db)
    ensures ReadDSN(GetDSN(db)) == Conninfo.Some(db)
  {
    var ps := DsnPairs(db);
    assert Conninfo.Plain(ps) by {
      forall i | 0 <= i < |ps| ensures ' ' !in ps[i].0 && '=' !in ps[i].0 && ' ' !in ps[i].1 {
      }
    }
    Conninfo.ParseJoin(ps);
  }

  /** Different settings without spaces give different connection strings. */
  lemma GetDSNInjective(db1: DatabaseConfig, db2: DatabaseConfig)
    requires SpaceFree(db1) && SpaceFree(db2)
    requires GetDSN(db1) == GetDSN(db2)
    ensures db1 == db2
  {
    ReadGetDSN(db1);
    ReadGetDSN(db2);
  }

  /**
   * Moving the text " password=" + x from the end of the user name to the
   * start of the password leaves the connection string unchanged.
   */
  lemma ShiftIntoPassword(db: DatabaseConfig, u: string, x: string, y: string)
    ensures GetDSN(db.(user := u + " password=" + x, password := y))
         == GetDSN(db.(user := u, password := x + " password=" + y))
  {
    var sep := " password=";
    var pre := "host=" + db.host + " port=" + db.port + " user=";
    var d1 := db.(user := u + sep + x, password := y);
    var d2 := db.(user := u, password := x + sep + y);
    assert DsnText(d1) == pre + (u + sep + x) + sep + y + " dbname=" + db.dbName + " sslmode=" + db.sslMode;
    assert DsnText(d2) == pre + u + sep + (x + sep + y) + " dbname=" + db.dbName + " sslmode=" + db.sslMode;
    assert pre + (u + sep + x) + sep + y == pre + u + sep + (x + sep + y);
  }

  /**
   * With a space inside the user name or the password, two different
   * configurations give the same connection string.
   */
  lemma GetDSNAmbiguous()
    ensures exists db1: DatabaseConfig, db2: DatabaseConfig ::
      db1 != db2 && GetDSN(db1) == GetDSN(db2)
  {
    var db := DatabaseConfig("localhost", "5432", "postgres", "postgres", "smarttodo_db", "disable");
    var db1 := db.(user := "app" + " password=" + "x", password := "y");
    var db2 := db.(user := "app", password := "x" + " password=" + "y");
    ShiftIntoPassword(db, "app", "x", "y");
    assert db1.user != db2.user by { assert |db1.user| != |db2.user|; }
  }

  /**
   * When none of the six database variables holds a space, the connection
   * string of a loaded configuration reads back as exactly its database
   * settings.
   */
  lemma LoadedDsnRoundTrip(env: Env, c: Config)
    requires Load(env) == Success(c)
    requires forall name :: name in DatabaseVars ==> ' ' !in OsGetenv(env, name)
    ensures ReadDSN(GetDSN(c.database)) == Conninfo.Some(c.database)
  {
    LoadedFromFields(env, c);
    var db := c.database;
    assert ' ' !in db.host by { ResolvedSpaceFree(env, "DB_HOST", "localhost", db.host); }
    assert ' ' !in db.port by { ResolvedSpaceFree(env, "DB_PORT", "5432", db.port); }
    assert ' ' !in db.user by { ResolvedSpaceFree(env, "DB_USER", "postgres", db.user); }
    assert ' ' !in db.password by { ResolvedSpaceFree(env, "DB_PASSWORD", "postgres", db.password); }
    assert ' ' !in db.dbName by { ResolvedSpaceFree(env, "DB_NAME", "smarttodo_db", db.dbName); }
    assert ' ' !in db.sslMode by { ResolvedSpaceFree(env, "DB_SSLMODE", "disable", db.sslMode); }
    ReadGetDSN(db);
  }

  lemma ResolvedSpaceFree(env: Env, name: string, d: string, v: string)
    requires Resolves(env, name, d, v)
    requires ' ' !in OsGetenv(env, name) && ' ' !in d
    ensures ' ' !in v
  {
  }
}
