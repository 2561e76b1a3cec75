/**
 * LoadConfig and getEnv: the server's settings, read from the process
 * environment with a default for every variable that is not set.
 */
module Configuration {
  import opened Wrappers
  import Numeric

  /** The process environment after the optional .env file is loaded: variable name to value. */
  type Environment = map<string, string>

  datatype Config = Config(
    port: string,
    env: string,
    dbHost: string,
    dbPort: string,
    dbUser: string,
    dbPass: string,
    dbName: string,
    jwtSecret: string,
    jwtExpHrs: int)

  /** getEnv: a variable that is set wins, even when it is set to ""; otherwise the fallback. */
  function GetEnv(environ: Environment, key: string, fallback: string): (v: string)
    ensures key in environ ==> v == environ[key]
    ensures key !in environ ==> v == fallback
  {
    if key in environ then environ[key] else fallback
  }

  /** The token lifetime setting: JWT_EXP_HOURS read as an int when it is one, 24 otherwise. */
  function ExpHoursFrom(environ: Environment): (hours: int)
    ensures Numeric.MinInt64 <= hours <= Numeric.MaxInt64
    // Any setting but the fallback is exactly what JWT_EXP_HOURS says.
    ensures hours != 24 ==> "JWT_EXP_HOURS" in environ && Numeric.Atoi(environ["JWT_EXP_HOURS"]) == Some(hours)
  {
    Numeric.AtoiFormatInt(24);
    assert Numeric.FormatInt(24) == "24";
    match Numeric.Atoi(GetEnv(environ, "JWT_EXP_HOURS", "24"))
    case Some(n) => n
    case None => 24
  }

  /** The configuration LoadConfig builds from an environment. */
  function ConfigFrom(environ: Environment): (c: Config)
    ensures "PORT" in environ ==> c.port == environ["PORT"]
    ensures "PORT" !in environ ==> c.port == "8080"
    ensures "ENV" in environ ==> c.env == environ["ENV"]
    ensures "ENV" !in environ ==> c.env == "development"
    ensures "DB_HOST" in environ ==> c.dbHost == environ["DB_HOST"]
    ensures "DB_HOST" !in environ ==> c.dbHost == "localhost"
    ensures "DB_PORT" in environ ==> c.dbPort == environ["DB_PORT"]
    ensures "DB_PORT" !in environ ==> c.dbPort == "5432"
    ensures "DB_USER" in environ ==> c.dbUser == environ["DB_USER"]
    ensures "DB_USER" !in environ ==> c.dbUser == "postgres"
    ensures "DB_PASS" in environ ==> c.dbPass == environ["DB_PASS"]
    ensures "DB_PASS" !in environ ==> c.dbPass == ""
    ensures "DB_NAME" in environ ==> c.dbName == environ["DB_NAME"]
    ensures "DB_NAME" !in environ ==> c.dbName == "GoProject2"
    ensures "JWT_SECRET" in environ ==> c.jwtSecret == environ["JWT_SECRET"]
    ensures "JWT_SECRET" !in environ ==> c.jwtSecret == "change-this"
    ensures c.jwtExpHrs == ExpHoursFrom(environ)
  {
    Config(
      port := GetEnv(environ, "PORT", "8080"),
      env := GetEnv(environ, "ENV", "development"),
      dbHost := GetEnv(environ, "DB_HOST", "localhost"),
      dbPort := GetEnv(environ, "DB_PORT", "5432"),
      dbUser := GetEnv(environ, "DB_USER", "postgres"),
      dbPass := GetEnv(environ, "DB_PASS", ""),
      dbName := GetEnv(environ, "DB_NAME", "GoProject2"),
      jwtSecret := GetEnv(environ, "JWT_SECRET", "change-this"),
      jwtExpHrs := ExpHoursFrom(environ))
  }

  const Variables: set<string> :=
    {"PORT", "ENV", "DB_HOST", "DB_PORT", "DB_USER", "DB_PASS", "DB_NAME", "JWT_SECRET", "JWT_EXP_HOURS"}

  /** With none of its variables set, the server runs on its built-in defaults. */
  lemma DefaultsWhenUnset(environ: Environment)
    requires forall key :: key in Variables ==> key !in environ
    ensures ConfigFrom(environ)
      == Config("8080", "development", "localhost", "5432", "postgres", "", "GoProject2", "change-this", 24)
  {
  }

  /** JWT_EXP_HOURS is taken as written whenever Atoi accepts it: 0 and negative values included. */
  lemma ExpHoursParsed(environ: Environment, n: int)
    requires "JWT_EXP_HOURS" in environ && Numeric.Atoi(environ["JWT_EXP_HOURS"]) == Some(n)
    ensures ConfigFrom(environ).jwtExpHrs == n
  {
  }

  /** Every int64 written in decimal is a setting LoadConfig keeps. */
  lemma ExpHoursAnyInt64(environ: Environment, n: int)
    requires Numeric.MinInt64 <= n <= Numeric.MaxInt64
    ensures ConfigFrom(environ["JWT_EXP_HOURS" := Numeric.FormatInt(n)]).jwtExpHrs == n
  {
    Numeric.AtoiFormatInt(n);
  }

  /** A value Atoi refuses, the empty one included, falls back to 24. */
  lemma ExpHoursFallback(environ: Environment)
    requires "JWT_EXP_HOURS" in environ && Numeric.Atoi(environ["JWT_EXP_HOURS"]).None?
    ensures ConfigFrom(environ).jwtExpHrs == 24
  {
  }

  /** An unset JWT_EXP_HOURS gives its fallback "24", which reads as 24. */
  lemma ExpHoursUnset(environ: Environment)
    requires "JWT_EXP_HOURS" !in environ
    ensures ConfigFrom(environ).jwtExpHrs == 24
  {
  }

  /** The package state config.go writes: the global AppConfig. */
  class Process {
    var appConfig: Config

    /** AppConfig starts as the zero Config and stays so until LoadConfig runs. */
    constructor ()
      ensures appConfig == Config("", "", "", "", "", "", "", "", 0)
    {
      appConfig := Config("", "", "", "", "", "", "", "", 0);
    }

    /** LoadConfig: builds the configuration, publishes it as AppConfig and returns it. */
    method LoadConfig(environ: Environment) returns (cfg: Config)
      modifies this
      ensures cfg == ConfigFrom(environ)
      ensures appConfig == cfg
    {
      cfg := Config(
        port := GetEnv(environ, "PORT", "8080"),
        env := GetEnv(environ, "ENV", "development"),
        dbHost := GetEnv(environ, "DB_HOST", "localhost"),
        dbPort := GetEnv(environ, "DB_PORT", "5432"),
        dbUser := GetEnv(environ, "DB_USER", "postgres"),
        dbPass := GetEnv(environ, "DB_PASS", ""),
        dbName := GetEnv(environ, "DB_NAME", "GoProject2"),
        jwtSecret := GetEnv(environ, "JWT_SECRET", "change-this"),
        jwtExpHrs := 0);
      var v := GetEnv(environ, "JWT_EXP_HOURS", "24");
      if v != "" {
        var parsed := Numeric.Atoi(v);
        if parsed.Some? {
          cfg := cfg.(jwtExpHrs := parsed.value);
        } else {
          cfg := cfg.(jwtExpHrs := 24);
        }
      } else {
        cfg := cfg.(jwtExpHrs := 24);
      }
      appConfig := cfg;
    }
  }
}
