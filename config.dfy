/**
 * The sql-migrate command's configuration: choosing an environment from the
 * parsed configuration file, checking and defaulting it, forwarding its
 * table settings to the migration package, and the checks made before
 * connecting. Reading and parsing the file is not modelled: the parsed
 * file is a map from environment names to entries (`None` for an entry
 * that is present but empty). Environment-variable expansion is a
 * parameter.
 */
module SqlMigrateConfig {
  import opened Wrappers
  import opened Settings

  datatype TlsConfig = TlsConfig(ca: string, cert: string, key: string)

  datatype Environment = Environment(
    dialect: string,
    dataSource: string,
    dir: string,
    tableName: string,
    schemaName: string,
    ignoreUnknown: bool,
    tls: TlsConfig)

  const DefaultDir := "migrations"

  /** The environment `name` of the parsed file, checked: it must exist and name a dialect and a data source. */
  function EnvironmentOf(config: map<string, Option<Environment>>, name: string, expand: string -> string)
    : Result<Environment, string>
  {
    if name !in config || config[name].None? then Err("No environment: " + name)
    else
      var env := config[name].value;
      if env.dialect == "" then Err("No dialect specified")
      else if env.dataSource == "" then Err("No data source specified")
      else
        Ok(env.(dataSource := expand(env.dataSource),
                tls := TlsConfig(expand(env.tls.ca), expand(env.tls.cert), expand(env.tls.key)),
                dir := if env.dir == "" then DefaultDir else env.dir))
  }

  /**
   * The checks come in order: a missing environment is reported before its
   * fields are looked at, a missing dialect before a missing data source.
   */
  lemma EnvironmentErrors(config: map<string, Option<Environment>>, name: string, expand: string -> string)
    ensures (name !in config || config[name].None?) ==>
      EnvironmentOf(config, name, expand) == Err("No environment: " + name)
    ensures name in config && config[name].Some? && config[name].value.dialect == "" ==>
      EnvironmentOf(config, name, expand) == Err("No dialect specified")
    ensures name in config && config[name].Some? && config[name].value.dialect != "" &&
            config[name].value.dataSource == "" ==>
      EnvironmentOf(config, name, expand) == Err("No data source specified")
    ensures EnvironmentOf(config, name, expand).Ok? <==>
      name in config && config[name].Some? && config[name].value.dialect != "" && config[name].value.dataSource != ""
  {
  }

  /**
   * A checked environment keeps its dialect, table, schema and flag, gets
   * its data source and certificate paths expanded, and has a migration
   * directory: its own, or the default when it names none.
   */
  lemma EnvironmentDefaults(config: map<string, Option<Environment>>, name: string, expand: string -> string)
    requires EnvironmentOf(config, name, expand).Ok?
    ensures var env := config[name].value;
      var r := EnvironmentOf(config, name, expand).value;
      r.dialect == env.dialect && r.tableName == env.tableName && r.schemaName == env.schemaName &&
      r.ignoreUnknown == env.ignoreUnknown && r.dataSource == expand(env.dataSource) &&
      r.tls == TlsConfig(expand(env.tls.ca), expand(env.tls.cert), expand(env.tls.key)) &&
      r.dir != "" && (env.dir != "" ==> r.dir == env.dir) && (env.dir == "" ==> r.dir == DefaultDir)
  {
  }

  /** The migration settings after a checked environment is forwarded: table and schema only when set, the flag always. */
  function Forwarded(ms: MigrationSet, env: Environment): MigrationSet {
    ms.(tableName := if env.tableName != "" then env.tableName else ms.tableName,
        schemaName := if env.schemaName != "" then env.schemaName else ms.schemaName,
        ignoreUnknown := env.ignoreUnknown)
  }

  /**
   * The table in use is the environment's when it names one and stays as it
   * was otherwise; likewise the schema; the flag is always taken; nothing
   * else changes.
   */
  lemma ForwardedMeans(ms: MigrationSet, env: Environment)
    ensures env.tableName != "" ==> TableName(Forwarded(ms, env)) == env.tableName
    ensures env.tableName == "" ==> TableName(Forwarded(ms, env)) == TableName(ms)
    ensures env.schemaName != "" ==> Forwarded(ms, env).schemaName == env.schemaName
    ensures env.schemaName == "" ==> Forwarded(ms, env).schemaName == ms.schemaName
    ensures Forwarded(ms, env).ignoreUnknown == env.ignoreUnknown
    ensures Forwarded(ms, env).disableCreateTable == ms.disableCreateTable && Forwarded(ms, env).lazyLoad == ms.lazyLoad
  {
  }

  /** Reads the environment `name`, checks and defaults it, and forwards its settings to the package. */
  method GetEnvironment(pkg: Package, config: map<string, Option<Environment>>, name: string, expand: string -> string)
    returns (r: Result<Environment, string>)
    modifies pkg
    ensures r == EnvironmentOf(config, name, expand)
    ensures r.Ok? ==> pkg.migSet == Forwarded(old(pkg.migSet), r.value)
    ensures r.Err? ==> pkg.migSet == old(pkg.migSet)
  {
    if name !in config || config[name].None? {
      return Err("No environment: " + name);
    }
    var env := config[name].value;
    if env.dialect == "" {
      return Err("No dialect specified");
    }
    if env.dataSource == "" {
      return Err("No data source specified");
    }
    env := env.(dataSource := expand(env.dataSource));
    env := env.(tls := env.tls.(ca := expand(env.tls.ca)));
    env := env.(tls := env.tls.(cert := expand(env.tls.cert)));
    env := env.(tls := env.tls.(key := expand(env.tls.key)));
    if env.dir == "" {
      env := env.(dir := DefaultDir);
    }
    if env.tableName != "" {
      pkg.SetTable(env.tableName);
    }
    if env.schemaName != "" {
      pkg.SetSchema(env.schemaName);
    }
    pkg.SetIgnoreUnknown(env.ignoreUnknown);
    return Ok(env);
  }

  /** `sub` occurs somewhere in `s`. */
  predicate Contains(s: string, sub: string) {
    exists i | 0 <= i <= |s| - |sub| :: OccursAt(s, sub, i)
  }

  predicate OccursAt(s: string, sub: string, i: int) {
    0 <= i <= |s| - |sub| && s[i..i + |sub|] == sub
  }

  lemma ContainsWithin(a: string, sub: string, b: string)
    ensures Contains(a + sub + b, sub)
  {
    assert (a + sub + b)[|a|..|a| + |sub|] == sub;
    assert OccursAt(a + sub + b, sub, |a|);
  }

  /** Custom TLS is asked for just when the data source mentions "tls=custom". */
  predicate IsTlsCustomEnabled(env: Environment) {
    Contains(env.dataSource, "tls=custom")
  }

  lemma TlsCustomExamples()
    ensures IsTlsCustomEnabled(Environment("mysql", "user@tcp(db)/app?tls=custom", "", "", "", false, TlsConfig("", "", "")))
    ensures !IsTlsCustomEnabled(Environment("mysql", "app?tls=true", "", "", "", false, TlsConfig("", "", "")))
  {
    ContainsWithin("user@tcp(db)/app?", "tls=custom", "");
    assert "user@tcp(db)/app?" + "tls=custom" + "" == "user@tcp(db)/app?tls=custom";
    var s := "app?tls=true";
    forall i | 0 <= i <= |s| - 10 ensures !OccursAt(s, "tls=custom", i) {
      assert s[i + 4] != 'c';
    }
  }

  /** The dialects built in; init files of optional builds register more. */
  const BuiltinDialects: set<string> := {"sqlite3", "postgres", "mysql"}

  /**
   * The checks made before a connection is handed out: for mysql with custom
   * TLS a CA file must be set and registered, the database must open, and
   * the dialect must be one compiled in (`dialects`). The result is the
   * dialect name. Registering the CA and opening the database are oracles.
   */
  function GetConnection(env: Environment, dialects: set<string>, registerTls: string -> Option<string>,
                         open: (string, string) -> Option<string>): Result<string, string>
  {
    if env.dialect == "mysql" && IsTlsCustomEnabled(env) && env.tls.ca == "" then Err("file CA is not set")
    else if env.dialect == "mysql" && IsTlsCustomEnabled(env) && registerTls(env.tls.ca).Some? then
      Err("cannot register TLS config: " + registerTls(env.tls.ca).value)
    else if open(env.dialect, env.dataSource).Some? then
      Err("Cannot connect to database: " + open(env.dialect, env.dataSource).value)
    else if env.dialect !in dialects then Err("Unsupported dialect: " + env.dialect)
    else Ok(env.dialect)
  }

  /** A connection is only handed out for a dialect that is compiled in. */
  lemma ConnectionDialect(env: Environment, extra: set<string>, registerTls: string -> Option<string>,
                          open: (string, string) -> Option<string>)
    ensures var r := GetConnection(env, BuiltinDialects + extra, registerTls, open);
      r.Ok? ==> r.value == env.dialect && env.dialect in BuiltinDialects + extra
    ensures !(env.dialect == "mysql" && IsTlsCustomEnabled(env)) && open(env.dialect, env.dataSource).None? ==>
      (GetConnection(env, BuiltinDialects + extra, registerTls, open).Ok? <==> env.dialect in BuiltinDialects + extra)
    ensures env.dialect !in BuiltinDialects + extra && open(env.dialect, env.dataSource).None? ==>
      GetConnection(env, BuiltinDialects + extra, registerTls, open) == Err("Unsupported dialect: " + env.dialect)
  {
  }

  /** mysql with custom TLS whose CA file does not register is refused before anything is opened. */
  lemma ConnectionTlsRegistration(env: Environment, dialects: set<string>, registerTls: string -> Option<string>,
                                  open: (string, string) -> Option<string>)
    requires env.dialect == "mysql" && IsTlsCustomEnabled(env) && env.tls.ca != ""
    requires registerTls(env.tls.ca).Some?
    ensures GetConnection(env, dialects, registerTls, open) ==
      Err("cannot register TLS config: " + registerTls(env.tls.ca).value)
  {
  }

  /** Once the TLS checks pass, a database that does not open is reported with its error, whatever the dialect. */
  lemma ConnectionOpenFails(env: Environment, dialects: set<string>, registerTls: string -> Option<string>,
                            open: (string, string) -> Option<string>)
    requires !(env.dialect == "mysql" && IsTlsCustomEnabled(env)) ||
      (env.tls.ca != "" && registerTls(env.tls.ca).None?)
    requires open(env.dialect, env.dataSource).Some?
    ensures GetConnection(env, dialects, registerTls, open) ==
      Err("Cannot connect to database: " + open(env.dialect, env.dataSource).value)
  {
  }

  /** mysql with custom TLS and no CA file is refused before anything is opened. */
  lemma ConnectionNeedsCa(env: Environment, dialects: set<string>, registerTls: string -> Option<string>,
                          open: (string, string) -> Option<string>)
    requires env.dialect == "mysql" && IsTlsCustomEnabled(env) && env.tls.ca == ""
    ensures GetConnection(env, dialects, registerTls, open) == Err("file CA is not set")
  {
  }
}

/**
 * The gorp-migrate command's configuration: the same environment checks
 * over a smaller record, and the dialect lookup made before connecting.
 */
module GorpMigrateConfig {
  import opened Wrappers

  datatype Environment = Environment(dialect: string, dataSource: string, dir: string)

  const DefaultDir := "migrations"

  /** The environment `name` of the parsed file, checked and with a migration directory. */
  function EnvironmentOf(config: map<string, Option<Environment>>, name: string): Result<Environment, string> {
    if name !in config || config[name].None? then Err("No environment: " + name)
    else
      var env := config[name].value;
      if env.dialect == "" then Err("No dialect specified")
      else if env.dataSource == "" then Err("No data source specified")
      else Ok(if env.dir == "" then env.(dir := DefaultDir) else env)
  }

  /** Checks in order (environment, dialect, data source); a checked environment differs from its entry only in a defaulted directory. */
  lemma EnvironmentChecks(config: map<string, Option<Environment>>, name: string)
    ensures (name !in config || config[name].None?) ==> EnvironmentOf(config, name) == Err("No environment: " + name)
    ensures name in config && config[name].Some? && config[name].value.dialect == "" ==>
      EnvironmentOf(config, name) == Err("No dialect specified")
    ensures name in config && config[name].Some? && config[name].value.dialect != "" &&
            config[name].value.dataSource == "" ==>
      EnvironmentOf(config, name) == Err("No data source specified")
    ensures EnvironmentOf(config, name).Ok? ==>
      var env := config[name].value;
      EnvironmentOf(config, name).value == env.(dir := if env.dir == "" then DefaultDir else env.dir)
  {
  }

  /** Reads the environment `name` and checks and defaults it. */
  method GetEnvironment(config: map<string, Option<Environment>>, name: string) returns (r: Result<Environment, string>)
    ensures r == EnvironmentOf(config, name)
  {
    if name !in config || config[name].None? {
      return Err("No environment: " + name);
    }
    var env := config[name].value;
    if env.dialect == "" {
      return Err("No dialect specified");
    }
    if env.dataSource == "" {
      return Err("No data source specified");
    }
    if env.dir == "" {
      env := env.(dir := DefaultDir);
    }
    return Ok(env);
  }

  const BuiltinDialects: set<string> := {"sqlite3", "postgres", "mysql"}

  /** Opening the database (an oracle), then looking the dialect up; the result is the dialect name. */
  function GetConnection(env: Environment, dialects: set<string>, open: (string, string) -> Option<string>)
    : Result<string, string>
  {
    if open(env.dialect, env.dataSource).Some? then
      Err("Cannot connect to database: " + open(env.dialect, env.dataSource).value)
    else if env.dialect !in dialects then Err("Unsupported dialect: " + env.dialect)
    else Ok(env.dialect)
  }

  /** Once the database opens, the connection succeeds exactly for a dialect in the map. */
  lemma ConnectionDialect(env: Environment, extra: set<string>, open: (string, string) -> Option<string>)
    requires open(env.dialect, env.dataSource).None?
    ensures GetConnection(env, BuiltinDialects + extra, open).Ok? <==> env.dialect in BuiltinDialects + extra
    ensures env.dialect !in BuiltinDialects + extra ==>
      GetConnection(env, BuiltinDialects + extra, open) == Err("Unsupported dialect: " + env.dialect)
  {
  }
}
