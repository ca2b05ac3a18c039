/** Application settings (app/config.py): the declared defaults and the validator that
    resolves DATABASE_URL from its raw value and the already-validated ENV field. */
module Config {
  import opened Wrappers

  const DefaultEnv := "development"
  const DefaultLogLevel := "INFO"
  const DefaultDatabaseUrl := ""
  const DefaultFraudModelPath := "app/models/artifacts/fraud_model.pkl"
  const DefaultAnomalyModelPath := "app/models/artifacts/anomaly_model.pkl"

  /** The local database used when no URL is configured outside production. */
  const SqliteUrl := "sqlite:///./app/db/risk.db"

  datatype Settings = Settings(
    env: string,
    logLevel: string,
    databaseUrl: string,
    fraudModelPath: string,
    anomalyModelPath: string)

  datatype ConfigError = ValueError(field: string)

  /** The ENV value the validator sees: info.data is None or lacks ENV -> "development". */
  function EnvOf(validated: Option<map<string, string>>): (env: string)
    ensures validated.Some? && "ENV" in validated.value ==> env == validated.value["ENV"]
    ensures (validated.None? || "ENV" !in validated.value) ==> env == DefaultEnv
  {
    match validated
    case None => DefaultEnv
    case Some(data) => if "ENV" in data then data["ENV"] else DefaultEnv
  }

  /** Settings.resolve_database_url: a blank URL is an error in production and the SQLite
      fallback elsewhere; any other value passes through unchanged. */
  function ResolveDatabaseUrl(v: string, validated: Option<map<string, string>>): (r: Result<string, ConfigError>)
    ensures r.Failure? <==> v == "" && EnvOf(validated) == "production"
    ensures r.Success? ==> r.value != ""
    ensures v != "" ==> r == Success(v)
    ensures r.Success? && r.value != v ==> v == "" && r.value == SqliteUrl
  {
    if v == "" then
      if EnvOf(validated) == "production" then Failure(ValueError("DATABASE_URL"))
      else Success(SqliteUrl)
    else Success(v)
  }

  /** Resolving an already resolved URL changes nothing, whatever the environment. */
  lemma ResolveIdempotent(v: string, validated: Option<map<string, string>>, again: Option<map<string, string>>)
    requires ResolveDatabaseUrl(v, validated).Success?
    ensures ResolveDatabaseUrl(ResolveDatabaseUrl(v, validated).value, again) == ResolveDatabaseUrl(v, validated)
  {
  }

  /** Building Settings from the values supplied by the environment (None: not supplied,
      the declared default applies). The DATABASE_URL validator also runs on the default,
      with the validated ENV and LOG_LEVEL as its info.data. */
  function MakeSettings(
    env: Option<string>, logLevel: Option<string>, databaseUrl: Option<string>,
    fraudModelPath: Option<string>, anomalyModelPath: Option<string>): (r: Result<Settings, ConfigError>)
    ensures r.Success? ==> r.value.env == (if env.Some? then env.value else DefaultEnv)
    ensures r.Success? ==> r.value.databaseUrl != ""
    ensures r.Failure? <==>
      (databaseUrl.None? || databaseUrl.value == "") && env.Some? && env.value == "production"
  {
    var e := if env.Some? then env.value else DefaultEnv;
    var l := if logLevel.Some? then logLevel.value else DefaultLogLevel;
    var raw := if databaseUrl.Some? then databaseUrl.value else DefaultDatabaseUrl;
    var data := map["ENV" := e, "LOG_LEVEL" := l];
    match ResolveDatabaseUrl(raw, Some(data))
    case Failure(err) => Failure(err)
    case Success(url) =>
      Success(Settings(e, l, url,
        if fraudModelPath.Some? then fraudModelPath.value else DefaultFraudModelPath,
        if anomalyModelPath.Some? then anomalyModelPath.value else DefaultAnomalyModelPath))
  }

  /** With nothing supplied, the settings are the declared defaults and the SQLite URL. */
  lemma DefaultSettings()
    ensures MakeSettings(None, None, None, None, None) ==
      Success(Settings("development", "INFO", "sqlite:///./app/db/risk.db",
        "app/models/artifacts/fraud_model.pkl", "app/models/artifacts/anomaly_model.pkl"))
  {
    assert EnvOf(Some(map["ENV" := DefaultEnv, "LOG_LEVEL" := DefaultLogLevel])) == DefaultEnv;
  }
}
