/** Configuration of the classification service (utils/config.py): the settings
    read from the environment, the database URL built from them, the production
    switch and the validation routine that reports secrets missing in production. */
module AppConfig {
  import opened Wrappers
  import opened Text

  /** The settings the URL builder and the validation read. Each is read once from
      the environment (with the defaults of `DefaultSettings`) when the class is
      loaded. */
  datatype Settings = Settings(
    environment: string,
    dbType: string,
    dbHost: string,
    dbPort: int,
    dbName: string,
    dbUser: string,
    dbPassword: string,
    openaiApiKey: Option<string>,
    jwtSecretKey: string)

  const DefaultJwtSecret := "dev-secret-key-change-in-production"

  /** The values used when the environment does not set a variable. */
  const DefaultSettings := Settings("development", "postgresql", "localhost", 5432, "classifications_db",
                                    "postgres", "", None, DefaultJwtSecret)

  /** Hosts under `/cloudsql/` are Unix sockets of a Cloud SQL instance. */
  predicate IsSocketHost(host: string)
  {
    StartsWith(host, "/cloudsql/")
  }

  /** The URL scheme of a supported database type. */
  function Scheme(dbType: string): (r: Option<string>)
    ensures r.Some? <==> dbType == "postgresql" || dbType == "mysql"
  {
    if dbType == "postgresql" then Some("postgresql")
    else if dbType == "mysql" then Some("mysql+pymysql")
    else None
  }

  /** The query key that names a socket host for a supported database type. */
  function SocketKey(dbType: string): string
  {
    if dbType == "postgresql" then "host" else "unix_socket"
  }

  /** `Config.get_database_url`: `scheme://user:password@` followed by
      `/name?key=host` for a Cloud SQL socket, or by `host:port/name` otherwise.
      An unsupported database type raises `ValueError`. */
  function DatabaseUrl(s: Settings): (r: Result<string, string>)
    ensures r.Err? <==> Scheme(s.dbType).None?
    ensures r.Err? ==> r.error == "Unsupported database type: " + s.dbType
    ensures r.Ok? ==> StartsWith(r.value, Scheme(s.dbType).value + "://" + s.dbUser + ":" + s.dbPassword + "@")
    ensures r.Ok? && IsSocketHost(s.dbHost) ==>
              EndsWith(r.value, "@/" + s.dbName + "?" + SocketKey(s.dbType) + "=" + s.dbHost)
    ensures r.Ok? && !IsSocketHost(s.dbHost) ==>
              EndsWith(r.value, "@" + s.dbHost + ":" + IntToDecimal(s.dbPort) + "/" + s.dbName)
    // The prefix and the suffix share the `@` and nothing else lies between them.
    ensures r.Ok? && IsSocketHost(s.dbHost) ==>
              |r.value| == |Scheme(s.dbType).value + "://" + s.dbUser + ":" + s.dbPassword + "@"|
                           + |"@/" + s.dbName + "?" + SocketKey(s.dbType) + "=" + s.dbHost| - 1
    ensures r.Ok? && !IsSocketHost(s.dbHost) ==>
              |r.value| == |Scheme(s.dbType).value + "://" + s.dbUser + ":" + s.dbPassword + "@"|
                           + |"@" + s.dbHost + ":" + IntToDecimal(s.dbPort) + "/" + s.dbName| - 1
  {
    match Scheme(s.dbType)
    case None => Err("Unsupported database type: " + s.dbType)
    case Some(scheme) =>
      var head := scheme + "://" + s.dbUser + ":" + s.dbPassword;
      var tail :=
        if IsSocketHost(s.dbHost) then "@/" + s.dbName + "?" + SocketKey(s.dbType) + "=" + s.dbHost
        else "@" + s.dbHost + ":" + IntToDecimal(s.dbPort) + "/" + s.dbName;
      assert (head + tail)[..|head + "@"|] == head + "@";
      assert (head + tail)[|head + tail| - |tail|..] == tail;
      Ok(head + tail)
  }

  /** A socket URL does not depend on the configured port. */
  lemma SocketUrlIgnoresPort(s: Settings, port: int)
    requires IsSocketHost(s.dbHost)
    ensures DatabaseUrl(s.(dbPort := port)) == DatabaseUrl(s)
  {
  }

  /** `Config.is_production`: the environment name is "production" in any letter case. */
  predicate IsProduction(s: Settings)
  {
    Lower(s.environment) == "production"
  }

  /** Two environment names that agree up to letter case agree on being production. */
  lemma ProductionIgnoresCase(s: Settings, environment: string)
    requires Lower(environment) == Lower(s.environment)
    ensures IsProduction(s.(environment := environment)) == IsProduction(s)
  {
  }

  /** Production is recognised character by character, without regard to case. */
  lemma ProductionSpelling(s: Settings)
    ensures IsProduction(s) <==>
              |s.environment| == 10 && forall i :: 0 <= i < 10 ==> LowerChar(s.environment[i]) == "production"[i]
  {
    if |s.environment| == 10 && forall i :: 0 <= i < 10 ==> LowerChar(s.environment[i]) == "production"[i] {
      assert Lower(s.environment) == "production";
    }
  }

  const ApiKeyMessage := "OPENAI_API_KEY is required in production"
  const PasswordMessage := "DB_PASSWORD is required in production"
  const JwtMessage := "JWT_SECRET_KEY must be changed in production"

  /** `not OPENAI_API_KEY`: the key is unset or empty. */
  predicate MissingApiKey(s: Settings)
  {
    s.openaiApiKey.None? || s.openaiApiKey.value == ""
  }

  /** The problems `validate` reports, in the order it checks them: none outside
      production, and in production one message per missing or default secret. */
  function Problems(s: Settings): (ps: seq<string>)
    ensures !IsProduction(s) ==> ps == []
    ensures ApiKeyMessage in ps <==> IsProduction(s) && MissingApiKey(s)
    ensures PasswordMessage in ps <==> IsProduction(s) && s.dbPassword == ""
    ensures JwtMessage in ps <==> IsProduction(s) && s.jwtSecretKey == DefaultJwtSecret
    ensures ps == [] <==> !IsProduction(s) || (!MissingApiKey(s) && s.dbPassword != "" && s.jwtSecretKey != DefaultJwtSecret)
  {
    if !IsProduction(s) then []
    else
      (if MissingApiKey(s) then [ApiKeyMessage] else [])
      + (if s.dbPassword == "" then [PasswordMessage] else [])
      + (if s.jwtSecretKey == DefaultJwtSecret then [JwtMessage] else [])
  }

  /** `Config.validate`: collects the problems and raises `ValueError` naming all of
      them when there is at least one. */
  method Validate(s: Settings) returns (r: Outcome<string>)
    ensures r.Fail? <==> Problems(s) != []
    ensures r.Fail? ==> r.error == "Configuration errors: " + Join(", ", Problems(s))
    ensures !IsProduction(s) ==> r == Pass
    ensures r.Fail? <==> IsProduction(s) && (MissingApiKey(s) || s.dbPassword == "" || s.jwtSecretKey == DefaultJwtSecret)
    ensures forall m :: m in Problems(s) ==> r.Fail? && Contains(r.error, m)
  {
    var errors: seq<string> := [];
    if IsProduction(s) {
      if MissingApiKey(s) {
        errors := errors + [ApiKeyMessage];
      }
      if s.dbPassword == "" {
        errors := errors + [PasswordMessage];
      }
      if s.jwtSecretKey == DefaultJwtSecret {
        errors := errors + [JwtMessage];
      }
    }
    assert errors == Problems(s);
    if errors == [] {
      return Pass;
    }
    var joined := Join(", ", errors);
    r := Fail("Configuration errors: " + joined);
    forall m | m in errors ensures Contains(r.error, m) {
      var k :| 0 <= k < |errors| && errors[k] == m;
      JoinContainsParts(", ", errors, k);
      ContainsInConcat("Configuration errors: ", joined, m);
    }
  }

  /** With every secret missing, production reports all three problems, in the order checked. */
  lemma AllProblems(s: Settings)
    requires IsProduction(s) && MissingApiKey(s) && s.dbPassword == "" && s.jwtSecretKey == DefaultJwtSecret
    ensures Problems(s) == [ApiKeyMessage, PasswordMessage, JwtMessage]
  {
  }

  /** Out of the box, the settings pass validation: the default environment is
      development. */
  lemma DefaultsPass()
    ensures Problems(DefaultSettings) == []
  {
    ProductionSpelling(DefaultSettings);
  }

  /** The default settings switched to production fail on all three secrets. */
  lemma DefaultsFailInProduction()
    ensures Problems(DefaultSettings.(environment := "production")) == [ApiKeyMessage, PasswordMessage, JwtMessage]
  {
    var prod := DefaultSettings.(environment := "production");
    ProductionSpelling(prod);
    AllProblems(prod);
  }
}
